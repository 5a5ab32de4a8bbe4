/**
 * CustomChannelHeader.jsx: in a one-to-one channel, the header shows the
 * other member (the first member whose user id differs from the signed-in
 * user's) with a title and a member count.
 */
module ChannelHeader {
  import opened Wrappers

  datatype User = User(id: Option<string>, name: Option<string>, image: Option<string>)

  /** A channel member; its `user` may be missing. */
  datatype Member = Member(user: Option<User>)

  /** `member.user?.id`. */
  function MemberUserId(m: Member): Option<string>
  {
    if m.user.Some? then m.user.value.id else None
  }

  /**
   * `members.find(member => member.user?.id !== clientUserId)`: the first
   * member, in member order, whose user id differs from the client's.
   */
  function FindOther(members: seq<Member>, clientUserId: Option<string>): (r: Option<Member>)
    ensures r.None? <==> forall i :: 0 <= i < |members| ==> MemberUserId(members[i]) == clientUserId
    ensures r.Some? ==> exists i :: (0 <= i < |members| && members[i] == r.value &&
      MemberUserId(members[i]) != clientUserId &&
      forall j :: 0 <= j < i ==> MemberUserId(members[j]) == clientUserId)
  {
    if members == [] then None
    else if MemberUserId(members[0]) != clientUserId then Some(members[0])
    else
      var r := FindOther(members[1..], clientUserId);
      if r.Some? then
        var i :| 0 <= i < |members[1..]| && members[1..][i] == r.value &&
          MemberUserId(members[1..][i]) != clientUserId &&
          forall j :: 0 <= j < i ==> MemberUserId(members[1..][j]) == clientUserId;
        assert members[i + 1] == r.value;
        r
      else
        r
  }

  /** What the header shows next to the back button. */
  datatype HeaderView =
    | BackOnly
    | PeerHeader(image: Option<string>, alt: Option<string>, title: string, memberCount: int)

  /**
   * The header for a channel: `members` is `channel.state.members` (absent
   * reads as none), `memberCount` is `channel.data?.member_count`.
   */
  function Header(members: Option<seq<Member>>, clientUserId: Option<string>, memberCount: Option<int>): (h: HeaderView)
    ensures var other := FindOther(members.GetOr([]), clientUserId);
      h.PeerHeader? <==> other.Some? && other.value.user.Some?
    ensures h.PeerHeader? ==> h.title != "" && h.memberCount != 0
    ensures h.PeerHeader? ==> var u := FindOther(members.GetOr([]), clientUserId).value.user.value;
      h.image == u.image && h.alt == u.name &&
      h.title == (if Truthy(u.name) then u.name.value else "User")
    ensures h.PeerHeader? ==> h.memberCount == if memberCount.Some? && memberCount.value != 0 then memberCount.value else 2
  {
    var otherMember := FindOther(members.GetOr([]), clientUserId);
    var otherUser := if otherMember.Some? then otherMember.value.user else None;
    match otherUser
    case None => BackOnly
    case Some(u) =>
      var title := if Truthy(u.name) then u.name.value else "User";
      var count := if memberCount.Some? && memberCount.value != 0 then memberCount.value else 2;
      PeerHeader(u.image, u.name, title, count)
  }

  /**
   * In a channel of the signed-in user and one other user, listed in either
   * order, the header shows the other user.
   */
  lemma TwoPartyChannelShowsPeer(me: User, peer: User, meFirst: bool, memberCount: Option<int>)
    requires peer.id != me.id
    ensures var members := if meFirst then [Member(Some(me)), Member(Some(peer))] else [Member(Some(peer)), Member(Some(me))];
      var h := Header(Some(members), me.id, memberCount);
      h.PeerHeader? && h.image == peer.image && h.alt == peer.name
  {
    var members := if meFirst then [Member(Some(me)), Member(Some(peer))] else [Member(Some(peer)), Member(Some(me))];
    if meFirst {
      assert MemberUserId(members[0]) == me.id;
      assert members[1..] == [Member(Some(peer))];
      assert FindOther(members[1..], me.id) == Some(Member(Some(peer)));
      assert FindOther(members, me.id) == Some(Member(Some(peer)));
    }
  }

  /** A channel whose only members are the signed-in user shows no peer. */
  lemma AloneShowsNoPeer(me: User, copies: nat, memberCount: Option<int>)
    ensures Header(Some(seq(copies, _ => Member(Some(me)))), me.id, memberCount) == BackOnly
  {
  }
}
