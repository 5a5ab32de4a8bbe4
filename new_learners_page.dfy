/**
 * The outgoing friend-request bookkeeping of NewLearnersPage.jsx: the set of
 * users the current user has already asked, rebuilt whenever the list of
 * outgoing requests arrives, and the per-user "Request Sent" button rule.
 */
module NewLearnersPage {
  import opened Wrappers

  /** One pending outgoing friend request; only the recipient's id is used. */
  datatype FriendRequest = FriendRequest(recipientId: string)

  /** `const { data: outgoingFriendReqs = [] }`: no data reads as no requests. */
  function RequestsOrEmpty(data: Option<seq<FriendRequest>>): seq<FriendRequest>
  {
    data.GetOr([])
  }

  /** The ids of the users some request in `reqs` is addressed to. */
  function RecipientIds(reqs: seq<FriendRequest>): set<string>
  {
    set i | 0 <= i < |reqs| :: reqs[i].recipientId
  }

  /**
   * The id set after the effect runs: the recipients when the list is
   * non-empty, otherwise the previous set, untouched.
   */
  function NextOutgoingIds(prev: set<string>, reqs: seq<FriendRequest>): set<string>
  {
    if |reqs| > 0 then RecipientIds(reqs) else prev
  }

  /**
   * The effect itself: collect the recipient ids one request at a time, and
   * replace the state only when there was at least one request.
   */
  method RefreshOutgoingIds(prev: set<string>, reqs: seq<FriendRequest>) returns (next: set<string>)
    ensures next == NextOutgoingIds(prev, reqs)
  {
    var outgoingIds: set<string> := {};
    var i := 0;
    while i < |reqs|
      invariant 0 <= i <= |reqs|
      invariant outgoingIds == RecipientIds(reqs[..i])
    {
      assert RecipientIds(reqs[..i + 1]) == RecipientIds(reqs[..i]) + {reqs[i].recipientId} by {
        assert forall j :: 0 <= j < i ==> reqs[..i + 1][j] == reqs[..i][j];
      }
      outgoingIds := outgoingIds + {reqs[i].recipientId};
      i := i + 1;
    }
    assert reqs[..|reqs|] == reqs;
    next := prev;
    if |reqs| > 0 {
      next := outgoingIds;
    }
  }

  /** A user is marked as already asked exactly when some request is addressed to them. */
  lemma OutgoingIdsAreRecipients(prev: set<string>, reqs: seq<FriendRequest>, userId: string)
    requires |reqs| > 0
    ensures userId in NextOutgoingIds(prev, reqs) <==> exists i :: 0 <= i < |reqs| && reqs[i].recipientId == userId
  {
  }

  /** An empty list, or no data at all, keeps the previous set. */
  lemma EmptyListKeepsIds(prev: set<string>, data: Option<seq<FriendRequest>>)
    requires data.None? || data == Some([])
    ensures NextOutgoingIds(prev, RequestsOrEmpty(data)) == prev
  {
  }

  datatype Label = RequestSent | SendFriendRequest

  /** What the button for one recommended user shows and whether it can be pressed. */
  datatype RequestButton = RequestButton(caption: Label, disabled: bool)

  /**
   * `hasRequestBeenSent = outgoingRequestsIds.has(user._id)` and
   * `disabled = hasRequestBeenSent || isPending`.
   */
  function Button(outgoingIds: set<string>, userId: string, isPending: bool): (b: RequestButton)
    ensures b.caption == RequestSent <==> userId in outgoingIds
    ensures b.disabled <==> b.caption == RequestSent || isPending
    ensures !b.disabled ==> b.caption == SendFriendRequest
  {
    var sent := userId in outgoingIds;
    RequestButton(if sent then RequestSent else SendFriendRequest, sent || isPending)
  }
}
