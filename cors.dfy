/**
 * The cross-origin policy of the backend (server.js): the list of allowed
 * origins and the decision the `origin` callback reports for a request.
 * The deployment's `FRONTEND_URL` setting is a parameter.
 */
module Cors {
  import opened Wrappers
  import opened Text

  const ProductionOrigin: string := "https://streamify-video-calls-j2ci.vercel.app"
  const LocalOrigin: string := "http://localhost:5173"
  const PreviewProject: string := "streamify-video-calls"
  const PreviewDomain: string := ".vercel.app"

  /** `.filter(Boolean)` on a list of possibly-missing strings: keep the truthy ones, in order. */
  function KeepTruthy(xs: seq<Option<string>>): (r: seq<string>)
    ensures forall s :: s in r <==> Some(s) in xs && s != ""
    ensures |r| <= |xs|
  {
    if xs == [] then []
    else
      var rest := KeepTruthy(xs[1..]);
      assert forall s :: Some(s) in xs <==> Some(s) == xs[0] || Some(s) in xs[1..];
      if Truthy(xs[0]) then [xs[0].value] + rest else rest
  }

  /**
   * The filter keeps order: filtering a concatenation concatenates the
   * filtered parts, and one element stays exactly when it is truthy. The
   * result for any list is therefore its truthy strings in list order.
   */
  lemma {:induction false} KeepTruthyKeepsOrder(xs: seq<Option<string>>, ys: seq<Option<string>>)
    ensures KeepTruthy(xs + ys) == KeepTruthy(xs) + KeepTruthy(ys)
    ensures |xs| == 1 ==> KeepTruthy(xs) == if Truthy(xs[0]) then [xs[0].value] else []
  {
    if xs == [] {
      assert xs + ys == ys;
    } else {
      assert (xs + ys)[1..] == xs[1..] + ys;
      KeepTruthyKeepsOrder(xs[1..], ys);
    }
    if |xs| == 1 {
      assert xs[1..] == [];
    }
  }

  /** `allowedOrigins`: the two fixed origins, then `FRONTEND_URL` when it is set and non-empty. */
  function AllowedOrigins(frontendUrl: Option<string>): (r: seq<string>)
    ensures r == [ProductionOrigin, LocalOrigin] + (if Truthy(frontendUrl) then [frontendUrl.value] else [])
  {
    var xs := [Some(ProductionOrigin), Some(LocalOrigin), frontendUrl];
    assert xs[1..] == [Some(LocalOrigin), frontendUrl] && xs[1..][1..] == [frontendUrl] && [frontendUrl][1..] == [];
    assert KeepTruthy([frontendUrl]) == (if Truthy(frontendUrl) then [frontendUrl.value] else []);
    assert |LocalOrigin| > 0 && |ProductionOrigin| > 0;
    assert KeepTruthy(xs[1..]) == [LocalOrigin] + KeepTruthy([frontendUrl]);
    assert KeepTruthy(xs) == [ProductionOrigin] + KeepTruthy(xs[1..]);
    KeepTruthy(xs)
  }

  /** What the `origin` callback is called with: `(null, true)` or `(new Error(message))`. */
  datatype Reply = Allow | Reject(message: string)

  /** The preview-deployment rule: both names occur somewhere in the origin string. */
  predicate LooksLikePreview(origin: string)
  {
    Contains(origin, PreviewProject) && Contains(origin, PreviewDomain)
  }

  /**
   * The callback's decision, made once per request: allow a request without
   * an origin, an origin on the list, or one that passes the preview rule;
   * reject every other origin with "Not allowed by CORS".
   */
  function Decide(allowed: seq<string>, origin: Option<string>): (reply: Reply)
    ensures reply == Allow <==>
      !Truthy(origin) || origin.value in allowed ||
      ((exists i :: OccursAt(origin.value, PreviewProject, i)) && (exists j :: OccursAt(origin.value, PreviewDomain, j)))
    ensures reply != Allow ==> reply == Reject("Not allowed by CORS")
  {
    if !Truthy(origin) then Allow
    else if origin.value in allowed || LooksLikePreview(origin.value) then Allow
    else Reject("Not allowed by CORS")
  }

  /** Every configured origin, including a set `FRONTEND_URL`, is allowed. */
  lemma ConfiguredOriginsAllowed(frontendUrl: Option<string>)
    ensures Decide(AllowedOrigins(frontendUrl), Some(ProductionOrigin)) == Allow
    ensures Decide(AllowedOrigins(frontendUrl), Some(LocalOrigin)) == Allow
    ensures Truthy(frontendUrl) ==> Decide(AllowedOrigins(frontendUrl), frontendUrl) == Allow
  {
  }

  /** An empty `FRONTEND_URL` is dropped, so it does not make the empty origin special. */
  lemma EmptyFrontendUrlDropped()
    ensures AllowedOrigins(Some("")) == AllowedOrigins(None) == [ProductionOrigin, LocalOrigin]
  {
  }

  /**
   * The preview rule looks for substrings, not a host suffix: an origin that
   * merely contains the two names, whatever surrounds them (for instance
   * "https://streamify-video-calls.vercel.app.example.com", a host under
   * another domain), is allowed.
   */
  lemma PreviewRuleIsSubstringMatch(allowed: seq<string>, before: string, after: string)
    ensures Decide(allowed, Some(before + PreviewProject + PreviewDomain + after)) == Allow
  {
    var o := before + PreviewProject + PreviewDomain + after;
    assert o[|before|..|before| + |PreviewProject|] == PreviewProject;
    assert OccursAt(o, PreviewProject, |before|);
    assert o[|before| + |PreviewProject|..|before| + |PreviewProject| + |PreviewDomain|] == PreviewDomain;
    assert OccursAt(o, PreviewDomain, |before| + |PreviewProject|);
  }

  /**
   * A listed origin is matched exactly: an origin with no dot in it (such as
   * "http://localhost:5174", another port on localhost) that is not on the
   * list is rejected.
   */
  lemma DotlessUnlistedRejected(allowed: seq<string>, o: string)
    requires o != "" && o !in allowed && '.' !in o
    ensures Decide(allowed, Some(o)) == Reject("Not allowed by CORS")
  {
    forall i
      ensures !OccursAt(o, PreviewDomain, i)
    {
      if 0 <= i && i + |PreviewDomain| <= |o| {
        assert o[i..i + |PreviewDomain|][0] == o[i] != '.';
      }
    }
    assert !Contains(o, PreviewDomain);
  }
}
