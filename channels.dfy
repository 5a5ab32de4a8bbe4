/**
 * The conversation id shared by two users: both user ids, sorted with
 * JavaScript's default string order, joined with "-"
 * (`[a, b].sort().join("-")` in HomePage.jsx and ChatPage.jsx).
 */
module Channels {
  import opened Text

  const Separator: char := '-'

  /** `[a, b].sort().join("-")`: the smaller id, the separator, the larger id. */
  function ChannelId(a: string, b: string): (id: string)
    ensures (id == a + [Separator] + b && LexLe(a, b)) || (id == b + [Separator] + a && LexLe(b, a))
    ensures |id| == |a| + |b| + 1
  {
    if LexLe(a, b) then a + [Separator] + b
    else
      LexTotal(a, b);
      b + [Separator] + a
  }

  /** Both parties derive the same id, whoever opens the conversation. */
  lemma ChannelIdSymmetric(a: string, b: string)
    ensures ChannelId(a, b) == ChannelId(b, a)
  {
    if LexLe(a, b) && LexLe(b, a) {
      LexAntisymmetric(a, b);
    }
  }

  /** A user id that cannot be confused with the separator. */
  predicate DashFree(s: string)
  {
    Separator !in s
  }

  /** A string made of two dash-free parts around one separator splits back into those parts. */
  lemma {:induction false} SplitUnique(a: string, b: string, c: string, d: string)
    requires DashFree(a) && DashFree(b) && DashFree(c) && DashFree(d)
    requires a + [Separator] + b == c + [Separator] + d
    ensures a == c && b == d
  {
    var s := a + [Separator] + b;
    assert s == c + [Separator] + d;
    assert forall i :: 0 <= i < |a| ==> s[i] == a[i] != Separator;
    assert forall i :: 0 <= i < |c| ==> s[i] == c[i] != Separator;
    assert s[|a|] == Separator && s[|c|] == Separator;
    assert a == s[..|a|] == c;
    assert b == s[|a| + 1..] == d;
  }

  /**
   * With dash-free ids, a conversation id names one pair: for a fixed user,
   * different peers get different ids.
   */
  lemma ChannelIdInjective(self: string, p: string, q: string)
    requires DashFree(self) && DashFree(p) && DashFree(q)
    requires ChannelId(self, p) == ChannelId(self, q)
    ensures p == q
  {
    var idp, idq := ChannelId(self, p), ChannelId(self, q);
    if idp == self + [Separator] + p {
      if idq == self + [Separator] + q {
        SplitUnique(self, p, self, q);
      } else {
        SplitUnique(self, p, q, self);
      }
    } else {
      if idq == self + [Separator] + q {
        SplitUnique(p, self, self, q);
      } else {
        SplitUnique(p, self, q, self);
      }
    }
  }

  /**
   * Ids are not checked for the separator, so with a dash inside an id two
   * different pairs share one conversation id.
   */
  lemma DashedIdsCollide()
    ensures ChannelId("a-b", "c") == ChannelId("a", "b-c") == "a-b-c"
  {
  }

  /** The ids of two users "u1" and "u2", in either order. */
  lemma ChannelIdExample()
    ensures ChannelId("u1", "u2") == ChannelId("u2", "u1") == "u1-u2"
  {
  }
}
