/** `MessageDAO.get_many_rows` (db/dao/message_dao.py): the keyword filters,
    an optional list of origins, and ascending creation time. */
module MessageDao {
  import opened Wrappers
  import opened Sorting
  import opened Records
  import opened BaseDao

  /** The origin restriction: a missing or empty list restricts nothing
      (the source tests the list's truth value). */
  function OriginIn(messageBy: Option<seq<string>>): Message -> bool
  {
    (m: Message) => messageBy.None? || messageBy.value == [] || m.messageBy in messageBy.value
  }

  function Both(filter: Message -> bool, origin: Message -> bool): Message -> bool
  {
    (m: Message) => filter(m) && origin(m)
  }

  /** The messages that match the filters and, when a non-empty list of
      origins is given, whose origin is in it, by ascending creation time. */
  function GetManyRows(rows: seq<Message>, filter: Message -> bool, messageBy: Option<seq<string>>)
    : (r: seq<Message>)
    ensures forall i :: 0 <= i < |r| ==> filter(r[i])
    ensures messageBy.Some? && messageBy.value != [] ==>
      forall i :: 0 <= i < |r| ==> r[i].messageBy in messageBy.value
    ensures SortedBy(r, MessageTime)
    ensures forall m :: m in rows && filter(m) && OriginIn(messageBy)(m) ==> m in r
    ensures forall m :: m in r ==> m in rows
    ensures |r| <= |rows|
    // a permutation of the matching rows: none is repeated or invented
    ensures multiset(r) == multiset(Filter(rows, Both(filter, OriginIn(messageBy))))
  {
    var p := Both(filter, OriginIn(messageBy));
    var r := SelectOrdered(rows, p, MessageTime);
    assert forall i :: 0 <= i < |r| ==> p(r[i]);
    forall m | m in rows && p(m)
      ensures m in r
    {
      SelectComplete(rows, p, MessageTime, m);
    }
    forall m | m in r
      ensures m in rows
    {
      FilterCount(rows, p, m);
      assert m in multiset(r);
    }
    assert |r| == |multiset(Filter(rows, p))|;
    r
  }

  /** Without an origin list, or with an empty one, the read is the base
      read of `BaseDAO.get_many_rows`. */
  lemma {:induction false} NoOriginRestriction(rows: seq<Message>, filter: Message -> bool, messageBy: Option<seq<string>>)
    requires messageBy.None? || messageBy.value == []
    ensures GetManyRows(rows, filter, messageBy) == SelectOrdered(rows, filter, MessageTime)
  {
    FilterAgree(rows, Both(filter, OriginIn(messageBy)), filter);
  }
}
