/**
 * MessageStatus.jsx: the tick shown next to one's own message. Timestamps
 * are integers (milliseconds); the read map is the list of
 * `[userId, readState]` entries that `Object.entries` yields.
 */
module MessageStatus {
  import opened Wrappers

  datatype Message = Message(authorId: string, createdAt: int, status: string)

  /** A user's read state; `lastRead` is absent when the field is missing or empty. */
  datatype ReadState = ReadState(lastRead: Option<int>)

  type ReadEntry = (string, ReadState)

  datatype Indicator = Read | Delivered | Sent

  /** The `some` callback: a user other than the author has read up to the message or later. */
  predicate ReadByOther(e: ReadEntry, m: Message)
  {
    e.0 != m.authorId && e.1.lastRead.Some? && e.1.lastRead.value >= m.createdAt
  }

  /** `Object.entries(readBy).some(...)`, scanning the entries in order. */
  function AnyOtherRead(entries: seq<ReadEntry>, m: Message): (r: bool)
    ensures r <==> exists i :: 0 <= i < |entries| && ReadByOther(entries[i], m)
  {
    if entries == [] then false
    else ReadByOther(entries[0], m) || AnyOtherRead(entries[1..], m)
  }

  /**
   * The indicator for a message, or none when it is not the viewer's own.
   * `readBy` is `channel?.state?.read`, absent when the channel has none.
   */
  function Status(isMyMessage: bool, m: Message, readBy: Option<seq<ReadEntry>>): (r: Option<Indicator>)
    ensures r.None? <==> !isMyMessage
    ensures var entries := readBy.GetOr([]);
      r == Some(Read) <==> (isMyMessage && exists i :: (0 <= i < |entries| && entries[i].0 != m.authorId &&
        entries[i].1.lastRead.Some? && entries[i].1.lastRead.value >= m.createdAt))
    ensures r == Some(Delivered) <==> isMyMessage && r != Some(Read) && m.status == "received"
    ensures r == Some(Sent) <==> isMyMessage && r != Some(Read) && m.status != "received"
  {
    if !isMyMessage then None
    else
      var isRead := AnyOtherRead(readBy.GetOr([]), m);
      var isDelivered := m.status == "received";
      Some(if isRead then Read else if isDelivered then Delivered else Sent)
  }

  /** The author's own read entry, wherever it sits, never changes the indicator. */
  lemma OwnEntryNeverCounts(isMyMessage: bool, m: Message, entries: seq<ReadEntry>, k: nat, own: ReadState)
    requires k <= |entries|
    ensures Status(isMyMessage, m, Some(entries[..k] + [(m.authorId, own)] + entries[k..])) == Status(isMyMessage, m, Some(entries))
  {
    var withOwn := entries[..k] + [(m.authorId, own)] + entries[k..];
    if AnyOtherRead(withOwn, m) {
      var i :| 0 <= i < |withOwn| && ReadByOther(withOwn[i], m);
      assert i != k;
      if i < k {
        assert withOwn[i] == entries[i];
      } else {
        assert withOwn[i] == entries[i - 1];
      }
    }
    if AnyOtherRead(entries, m) {
      var i :| 0 <= i < |entries| && ReadByOther(entries[i], m);
      if i < k {
        assert withOwn[i] == entries[i];
      } else {
        assert withOwn[i + 1] == entries[i];
      }
    }
  }

  /** Without a read map nobody has read the message: it shows delivered or sent. */
  lemma NoReadMapIsUnread(m: Message)
    ensures Status(true, m, None) == if m.status == "received" then Some(Delivered) else Some(Sent)
  {
  }

  /** Another user whose last read equals the message's creation time has read it. */
  lemma ReadAtCreationCounts(m: Message, entries: seq<ReadEntry>, reader: string)
    requires reader != m.authorId
    ensures Status(true, m, Some(entries + [(reader, ReadState(Some(m.createdAt)))])) == Some(Read)
  {
    var all := entries + [(reader, ReadState(Some(m.createdAt)))];
    assert ReadByOther(all[|entries|], m);
  }

  /** Once read, a message stays read when more read entries arrive. */
  lemma ReadIsStable(m: Message, entries: seq<ReadEntry>, more: seq<ReadEntry>)
    requires Status(true, m, Some(entries)) == Some(Read)
    ensures Status(true, m, Some(entries + more)) == Some(Read)
  {
    var i :| 0 <= i < |entries| && ReadByOther(entries[i], m);
    assert (entries + more)[i] == entries[i];
  }
}
