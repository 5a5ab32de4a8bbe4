/**
 * The per-friend unread-message ledger of HomePage.jsx: a map from a
 * friend's user id to the number of unread messages, seeded once from the
 * counts the chat service reports for each friend's conversation and then
 * updated by the service's "message.new" and "message.read" events. The
 * chat service itself is abstract: the counts it reports are the `fetch`
 * parameter, its events a sequence of `ChatEvent` values.
 */
module HomePage {
  import opened Wrappers
  import opened Channels
  import NewLearnersPage

  type Ledger = map<string, nat>

  /** What watching one friend's channel gave: its state's unread count, or an error. */
  datatype ChannelFetch = Watched(unreadCount: Option<nat>) | FetchFailed

  /** An event the ledger listens to; `eventChannelId` is the event's `channel_id` field. */
  datatype ChatEvent =
    | MessageNew(senderId: string)
    | MessageRead(readerId: string, eventChannelId: string)

  /** `prev[id] || 0`: an id with no entry reads as 0 (as does an entry of 0). */
  function Count(ledger: Ledger, id: string): nat
  {
    if id in ledger then ledger[id] else 0
  }

  /** `state.unreadCount || 0` after a successful watch; 0 in the `catch` branch. */
  function SeedValue(f: ChannelFetch): nat
  {
    match f
    case Watched(n) => n.GetOr(0)
    case FetchFailed => 0
  }

  /**
   * Reference definition of `updateUnreadCounts`: friends are visited in
   * order and each one's entry is (over)written with its seed value.
   */
  function Seeded(self: string, friends: seq<string>, fetch: string -> ChannelFetch): Ledger
    decreases |friends|
  {
    if friends == [] then map[]
    else
      var last := friends[|friends| - 1];
      Seeded(self, friends[..|friends| - 1], fetch)[last := SeedValue(fetch(ChannelId(self, last)))]
  }

  /**
   * After initialisation the ledger's keys are exactly the friends' ids, and
   * each friend's count is what the service reported for the conversation
   * with that friend, or 0 when it reported nothing or failed.
   */
  lemma {:induction false} SeededShape(self: string, friends: seq<string>, fetch: string -> ChannelFetch)
    ensures Seeded(self, friends, fetch).Keys == set f | f in friends
    ensures forall f :: f in friends ==> Seeded(self, friends, fetch)[f] == SeedValue(fetch(ChannelId(self, f)))
    decreases |friends|
  {
    if friends != [] {
      var init := friends[..|friends| - 1];
      SeededShape(self, init, fetch);
      assert friends == init + [friends[|friends| - 1]];
    }
  }

  /**
   * A failed fetch zeroes only the friend it concerns: with a second service
   * answer that fails for `broken`'s conversation and agrees elsewhere,
   * `broken` reads 0 and every friend with another conversation keeps the
   * count the first answer gave.
   */
  lemma FailureIsIsolated(self: string, friends: seq<string>, fetch: string -> ChannelFetch,
                          failing: string -> ChannelFetch, broken: string)
    requires broken in friends
    requires failing(ChannelId(self, broken)) == FetchFailed
    requires forall cid :: cid != ChannelId(self, broken) ==> failing(cid) == fetch(cid)
    ensures Seeded(self, friends, failing).Keys == Seeded(self, friends, fetch).Keys
    ensures Count(Seeded(self, friends, failing), broken) == 0
    ensures forall g :: g in friends && ChannelId(self, g) != ChannelId(self, broken) ==>
              Count(Seeded(self, friends, failing), g) == Count(Seeded(self, friends, fetch), g)
  {
    SeededShape(self, friends, fetch);
    SeededShape(self, friends, failing);
  }

  /** With dash-free ids, a failed fetch leaves every other friend's count as it was. */
  lemma FailureSparesOtherFriends(self: string, friends: seq<string>, fetch: string -> ChannelFetch,
                                  failing: string -> ChannelFetch, broken: string, other: string)
    requires broken in friends && other in friends && other != broken
    requires DashFree(self) && DashFree(broken) && DashFree(other)
    requires failing(ChannelId(self, broken)) == FetchFailed
    requires forall cid :: cid != ChannelId(self, broken) ==> failing(cid) == fetch(cid)
    ensures Count(Seeded(self, friends, failing), other) == Count(Seeded(self, friends, fetch), other)
  {
    if ChannelId(self, other) == ChannelId(self, broken) {
      ChannelIdInjective(self, other, broken);
    }
    FailureIsIsolated(self, friends, fetch, failing, broken);
  }

  /**
   * `updateUnreadCounts`: fill a fresh counts object friend by friend, then
   * hand it over whole (the single `setUnreadCounts(counts)`).
   */
  method UpdateUnreadCounts(self: string, friends: seq<string>, fetch: string -> ChannelFetch)
    returns (counts: Ledger)
    ensures counts == Seeded(self, friends, fetch)
  {
    counts := map[];
    var i := 0;
    while i < |friends|
      invariant 0 <= i <= |friends|
      invariant counts == Seeded(self, friends[..i], fetch)
    {
      var friend := friends[i];
      var channelId := ChannelId(self, friend);
      var count := SeedValue(fetch(channelId));
      assert friends[..i + 1][..i] == friends[..i];
      counts := counts[friend := count];
      i := i + 1;
    }
    assert friends[..|friends|] == friends;
  }

  /** The `channel_id` a read event carries for the conversation with `friend`. */
  function ReadChannelId(self: string, friend: string): string
  {
    "messaging:" + ChannelId(self, friend)
  }

  /** "message.new": a message from anyone but self adds exactly one to the sender's entry. */
  function OnMessageNew(ledger: Ledger, self: string, senderId: string): (r: Ledger)
    ensures senderId == self ==> r == ledger
    ensures senderId != self ==> senderId in r && r[senderId] == Count(ledger, senderId) + 1
    ensures senderId != self ==> r.Keys == ledger.Keys + {senderId}
    ensures forall k :: k in ledger && k != senderId ==> r[k] == ledger[k]
  {
    if senderId != self then ledger[senderId := Count(ledger, senderId) + 1] else ledger
  }

  /** The friends whose conversation a read event with this `channel_id` is about. */
  function ReadTargets(self: string, friends: seq<string>, eventChannelId: string): set<string>
  {
    set f | f in friends && ReadChannelId(self, f) == eventChannelId
  }

  /** `friends.forEach(...)`: zero the entry of each friend whose conversation matches. */
  function ResetMatching(ledger: Ledger, self: string, friends: seq<string>, eventChannelId: string): (r: Ledger)
    ensures r.Keys == ledger.Keys + ReadTargets(self, friends, eventChannelId)
    ensures forall k :: k in r ==> r[k] == if k in ReadTargets(self, friends, eventChannelId) then 0 else ledger[k]
    decreases |friends|
  {
    if friends == [] then ledger
    else
      var friend := friends[0];
      var next := if ReadChannelId(self, friend) == eventChannelId then ledger[friend := 0] else ledger;
      assert ReadTargets(self, friends, eventChannelId) ==
        ReadTargets(self, friends[1..], eventChannelId) + (if ReadChannelId(self, friend) == eventChannelId then {friend} else {});
      ResetMatching(next, self, friends[1..], eventChannelId)
  }

  /**
   * "message.read": a read by self zeroes exactly the friends whose
   * conversation the event names and nothing else; a read by anyone else
   * changes nothing.
   */
  function OnMessageRead(ledger: Ledger, self: string, friends: seq<string>, readerId: string, eventChannelId: string)
    : (r: Ledger)
    ensures readerId != self ==> r == ledger
    ensures readerId == self ==> r.Keys == ledger.Keys + ReadTargets(self, friends, eventChannelId)
    ensures readerId == self ==> forall f :: f in ReadTargets(self, friends, eventChannelId) ==> r[f] == 0
    ensures forall k :: k in ledger && k !in ReadTargets(self, friends, eventChannelId) ==> r[k] == ledger[k]
  {
    if readerId == self then ResetMatching(ledger, self, friends, eventChannelId) else ledger
  }

  /** One event applied to the ledger. */
  function Apply(ledger: Ledger, self: string, friends: seq<string>, e: ChatEvent): Ledger
  {
    match e
    case MessageNew(sender) => OnMessageNew(ledger, self, sender)
    case MessageRead(reader, cid) => OnMessageRead(ledger, self, friends, reader, cid)
  }

  /** Events applied in arrival order. */
  function ApplyAll(ledger: Ledger, self: string, friends: seq<string>, events: seq<ChatEvent>): Ledger
    decreases |events|
  {
    if events == [] then ledger else ApplyAll(Apply(ledger, self, friends, events[0]), self, friends, events[1..])
  }

  /**
   * Receiving `n` new messages from a peer other than self raises that
   * peer's count by exactly `n` and leaves every other entry as it was.
   */
  lemma {:induction false} NewMessagesAddUp(ledger: Ledger, self: string, friends: seq<string>, peer: string, n: nat)
    requires peer != self
    ensures var r := ApplyAll(ledger, self, friends, seq(n, _ => MessageNew(peer)));
      Count(r, peer) == Count(ledger, peer) + n &&
      r.Keys == (if n == 0 then ledger.Keys else ledger.Keys + {peer}) &&
      forall k :: k in ledger && k != peer ==> r[k] == ledger[k]
    decreases n
  {
    var events := seq(n, _ => MessageNew(peer));
    if n > 0 {
      var next := Apply(ledger, self, friends, MessageNew(peer));
      assert events[1..] == seq(n - 1, _ => MessageNew(peer));
      NewMessagesAddUp(next, self, friends, peer, n - 1);
    }
  }

  /** Messages sent by self never change the ledger, however many arrive. */
  lemma {:induction false} OwnMessagesIgnored(ledger: Ledger, self: string, friends: seq<string>, n: nat)
    ensures ApplyAll(ledger, self, friends, seq(n, _ => MessageNew(self))) == ledger
    decreases n
  {
    if n > 0 {
      assert seq(n, _ => MessageNew(self))[1..] == seq(n - 1, _ => MessageNew(self));
      OwnMessagesIgnored(ledger, self, friends, n - 1);
    }
  }

  /** Self reading a friend's conversation zeroes that friend, whatever the count was. */
  lemma ReadClearsThatFriend(ledger: Ledger, self: string, friends: seq<string>, friend: string)
    requires friend in friends
    ensures Count(OnMessageRead(ledger, self, friends, self, ReadChannelId(self, friend)), friend) == 0
  {
  }

  /** With dash-free ids, self reading one friend's conversation leaves another friend's count alone. */
  lemma ReadSparesOtherFriends(ledger: Ledger, self: string, friends: seq<string>, friend: string, other: string)
    requires other != friend
    requires DashFree(self) && DashFree(friend) && DashFree(other)
    ensures Count(OnMessageRead(ledger, self, friends, self, ReadChannelId(self, friend)), other) == Count(ledger, other)
  {
    var cid := ReadChannelId(self, friend);
    if other in ReadTargets(self, friends, cid) {
      assert ChannelId(self, other) == ("messaging:" + ChannelId(self, other))[10..];
      ChannelIdInjective(self, other, friend);
    }
  }

  /**
   * The whole tracking session: nothing is tracked (the ledger stays the
   * empty initial object) without a token, a signed-in user, any friend or a
   * connection; otherwise the seeded ledger is updated by the events that
   * arrive after it.
   */
  function Session(token: Option<string>, authUserId: Option<string>, friends: seq<string>,
                   connected: bool, fetch: string -> ChannelFetch, events: seq<ChatEvent>): (r: Ledger)
    ensures !Truthy(token) || authUserId.None? || |friends| == 0 || !connected ==> r == map[]
    ensures Truthy(token) && authUserId.Some? && connected && events == [] ==> r.Keys == set f | f in friends
  {
    if !Truthy(token) || authUserId.None? || |friends| == 0 || !connected then map[]
    else
      SeededShape(authUserId.value, friends, fetch);
      ApplyAll(Seeded(authUserId.value, friends, fetch), authUserId.value, friends, events)
  }

  /**
   * What a friend card is given (`unreadCounts[friend._id] || 0`): 0 whenever
   * tracking is off, and the service's count right after initialisation.
   */
  lemma DisplayedCounts(token: Option<string>, authUserId: Option<string>, friends: seq<string>,
                        connected: bool, fetch: string -> ChannelFetch, friend: string)
    requires friend in friends
    ensures !Truthy(token) || authUserId.None? || !connected ==> Count(Session(token, authUserId, friends, connected, fetch, []), friend) == 0
    ensures Truthy(token) && authUserId.Some? && connected ==>
      Count(Session(token, authUserId, friends, connected, fetch, []), friend) == SeedValue(fetch(ChannelId(authUserId.value, friend)))
  {
    if Truthy(token) && authUserId.Some? && connected {
      SeededShape(authUserId.value, friends, fetch);
    }
  }

  /**
   * The walk-through: "u1" with friend "u2" and 3 unread messages; a new
   * message from "u2" makes it 4; "u1" reading the conversation makes it 0.
   */
  lemma Walkthrough()
    ensures var fetch := (cid: string) => if cid == "u1-u2" then Watched(Some(3)) else FetchFailed;
      var start := Session(Some("token"), Some("u1"), ["u2"], true, fetch, []);
      var afterNew := Session(Some("token"), Some("u1"), ["u2"], true, fetch, [MessageNew("u2")]);
      var afterRead := Session(Some("token"), Some("u1"), ["u2"], true, fetch, [MessageNew("u2"), MessageRead("u1", "messaging:u1-u2")]);
      start == map["u2" := 3] && afterNew == map["u2" := 4] && afterRead == map["u2" := 0]
  {
  }

  /**
   * The outgoing-request effect as HomePage.jsx writes it (no `= []`
   * default): it agrees with NewLearnersPage.jsx's version in every case.
   */
  function HomeOutgoingIds(prev: set<string>, data: Option<seq<NewLearnersPage.FriendRequest>>): (r: set<string>)
    ensures r == NewLearnersPage.NextOutgoingIds(prev, NewLearnersPage.RequestsOrEmpty(data))
    ensures data.None? ==> r == prev
  {
    if data.Some? && |data.value| > 0 then NewLearnersPage.RecipientIds(data.value) else prev
  }
}
