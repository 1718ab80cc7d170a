/** The order in which queued UIDs are requested: first in, first out. */
module QueueOrder {
  import opened Bytes
  import opened Codec
  import opened Collections
  import opened Session
  import opened SessionInvariants

  /** The UIDs of the journal entries with one fate, in order of acceptance. */
  function UidsOf(journal: seq<Entry>, fate: Fate): seq<Uid> {
    if journal == [] then []
    else (if journal[0].fate == fate then [journal[0].uid] else []) + UidsOf(journal[1..], fate)
  }

  /** The UIDs of the attributes requests among the writes, in the order in which they were sent. */
  function RequestedUids(writes: seq<seq<byte>>): seq<Uid> {
    if writes == [] then []
    else
      var last := writes[|writes| - 1];
      RequestedUids(writes[..|writes| - 1])
      + if IsAttributesRequest(last) && |last| >= 5 then [U32FromLe(last[1], last[2], last[3], last[4])] else []
  }

  /** Whatever was requested had been accepted before everything that still waits. */
  predicate InOrder(journal: seq<Entry>) {
    forall i, j :: 0 <= i < j < |journal| && journal[i].fate.Waiting? ==> !journal[j].fate.Requested?
  }

  /** The queue is what waits, the requests sent are what was requested, and nothing overtakes. */
  predicate Fifo(journal: seq<Entry>, writes: seq<seq<byte>>, order: seq<Uid>) {
    UidsOf(journal, Waiting) == order && UidsOf(journal, Requested) == RequestedUids(writes) && InOrder(journal)
  }

  lemma {:induction false} UidsOfPush(journal: seq<Entry>, e: Entry, fate: Fate)
    ensures UidsOf(journal + [e], fate) == UidsOf(journal, fate) + if e.fate == fate then [e.uid] else []
  {
    if journal == [] {
      assert journal + [e] == [e];
    } else {
      assert (journal + [e])[1..] == journal[1..] + [e];
      UidsOfPush(journal[1..], e, fate);
    }
  }

  lemma RequestedPush(writes: seq<seq<byte>>, request: seq<byte>)
    ensures !IsAttributesRequest(request) ==> RequestedUids(writes + [request]) == RequestedUids(writes)
  {
    assert (writes + [request])[..|writes|] == writes;
  }

  lemma RequestedPushUid(writes: seq<seq<byte>>, uid: Uid)
    ensures RequestedUids(writes + [NotificationAttributesRequest(uid)]) == RequestedUids(writes) + [uid]
  {
    var request := NotificationAttributesRequest(uid);
    assert (writes + [request])[..|writes|] == writes;
    assert request[1..5] == U32ToLe(uid);
  }

  /** Marking changes fates only, from waiting to another. */
  lemma {:induction false} MarkAt(journal: seq<Entry>, uid: Uid, fate: Fate)
    ensures var marked := Mark(journal, uid, fate);
            && |marked| == |journal|
            && forall i :: 0 <= i < |journal| ==>
                 marked[i] == if journal[i] == Entry(uid, Waiting) then Entry(uid, fate) else journal[i]
  {
    if journal != [] {
      MarkAt(journal[1..], uid, fate);
    }
  }

  lemma {:induction false} WithdrawUids(journal: seq<Entry>, uid: Uid)
    ensures var marked := Mark(journal, uid, Withdrawn);
            && UidsOf(marked, Waiting) == Without(UidsOf(journal, Waiting), uid)
            && UidsOf(marked, Requested) == UidsOf(journal, Requested)
  {
    if journal != [] {
      WithdrawUids(journal[1..], uid);
      var marked := Mark(journal, uid, Withdrawn);
      assert marked[1..] == Mark(journal[1..], uid, Withdrawn);
      var tail := UidsOf(journal[1..], Waiting);
      assert ([journal[0].uid] + tail)[1..] == tail && [] + tail == tail;
      assert [] + UidsOf(marked[1..], Waiting) == UidsOf(marked[1..], Waiting);
    }
  }

  lemma WithdrawKeepsFifo(journal: seq<Entry>, writes: seq<seq<byte>>, order: seq<Uid>, uid: Uid)
    requires Fifo(journal, writes, order)
    ensures Fifo(Mark(journal, uid, Withdrawn), writes, Without(order, uid))
  {
    WithdrawUids(journal, uid);
    MarkAt(journal, uid, Withdrawn);
    hide Mark, UidsOf, Without, RequestedUids;
  }

  lemma EnqueueKeepsFifo(journal: seq<Entry>, writes: seq<seq<byte>>, order: seq<Uid>, uid: Uid)
    requires Fifo(journal, writes, order)
    ensures Fifo(journal + [Entry(uid, Waiting)], writes, order + [uid])
  {
    UidsOfPush(journal, Entry(uid, Waiting), Waiting);
    UidsOfPush(journal, Entry(uid, Waiting), Requested);
    hide UidsOf, RequestedUids;
  }

  lemma {:induction false} NoneOf(journal: seq<Entry>, fate: Fate)
    requires forall i :: 0 <= i < |journal| ==> journal[i].fate != fate
    ensures UidsOf(journal, fate) == []
  {
    if journal != [] {
      NoneOf(journal[1..], fate);
    }
  }

  lemma {:induction false} MarkAbsent(journal: seq<Entry>, uid: Uid, fate: Fate)
    requires uid !in UidsOf(journal, Waiting)
    ensures Mark(journal, uid, fate) == journal
  {
    if journal != [] {
      MarkAbsent(journal[1..], uid, fate);
    }
  }

  /** The entry taken is the first that waits, so it becomes the last that was requested. */
  lemma {:induction false} TakeUids(journal: seq<Entry>, uid: Uid, rest: seq<Uid>)
    requires InOrder(journal) && UidsOf(journal, Waiting) == [uid] + rest && uid !in rest
    ensures var marked := Mark(journal, uid, Requested);
            UidsOf(marked, Waiting) == rest && UidsOf(marked, Requested) == UidsOf(journal, Requested) + [uid]
            && InOrder(marked)
  {
    var later := journal[1..];
    var marked := Mark(journal, uid, Requested);
    assert marked[1..] == Mark(later, uid, Requested);
    if journal[0].fate.Waiting? {
      assert ([journal[0].uid] + UidsOf(later, Waiting))[1..] == ([uid] + rest)[1..];
      assert UidsOf(later, Waiting) == rest;
      MarkAbsent(later, uid, Requested);
      NoneOf(later, Requested);
    } else {
      assert InOrder(later);
      TakeUids(later, uid, rest);
    }
  }

  lemma TakeKeepsFifo(journal: seq<Entry>, writes: seq<seq<byte>>, order: seq<Uid>)
    requires Fifo(journal, writes, order) && order != [] && Distinct(order)
    ensures Fifo(Mark(journal, order[0], Requested), writes + [NotificationAttributesRequest(order[0])], order[1..])
  {
    hide UidsOf, RequestedUids, Mark, InOrder, NotificationAttributesRequest;
    assert order == [order[0]] + order[1..];
    assert order[0] !in order[1..];
    TakeUids(journal, order[0], order[1..]);
    RequestedPushUid(writes, order[0]);
  }

  lemma {:induction false} DiscardUids(journal: seq<Entry>)
    ensures var d := DiscardAll(journal);
            && |d| == |journal| && UidsOf(d, Waiting) == [] && UidsOf(d, Requested) == UidsOf(journal, Requested)
            && forall i :: 0 <= i < |d| ==> !d[i].fate.Waiting?
  {
    if journal != [] {
      DiscardUids(journal[1..]);
    }
  }

  lemma EndKeepsFifo(journal: seq<Entry>, writes: seq<seq<byte>>, order: seq<Uid>)
    requires Fifo(journal, writes, order)
    ensures Fifo(DiscardAll(journal), writes, [])
  {
    DiscardUids(journal);
    hide UidsOf, RequestedUids, DiscardAll;
  }
}
