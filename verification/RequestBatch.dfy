/** The request queue used by one thread at a time, the getter that packs as many records
    as fit into one buffer, and the sample client that walks the buffer. */
module RequestBatch {

  /** sizeof(REQUEST_HEADER) on x64. */
  const HEADER_SIZE: nat := 96

  /** A request record: its size in bytes is fixed by its contents, `more` is
      REQUEST_FLAG_NEXT_AVAILABLE. */
  datatype Record = Record(id: nat, paged: bool, size: nat, more: bool)

  /** Refused: the remove lock is not granted any more. */
  datatype Status = Success | Disconnected | Refused | NoMoreEntries | BufferTooSmall

  datatype Option<T> = None | Some(value: T)

  /** The order in which the two lists are emptied: the nonpaged head goes first only if
      its ID is smaller. */
  function Merge(paged: seq<Record>, nonpaged: seq<Record>): seq<Record>
    decreases |paged| + |nonpaged|
  {
    if nonpaged != [] && (paged == [] || nonpaged[0].id < paged[0].id) then
      [nonpaged[0]] + Merge(paged, nonpaged[1..])
    else if paged != [] then [paged[0]] + Merge(paged[1..], nonpaged)
    else []
  }

  predicate ListOk(q: seq<Record>, paged: bool) {
    forall i :: 0 <= i < |q| ==> q[i].paged == paged && HEADER_SIZE <= q[i].size && !q[i].more
  }

  /** The merge loses and duplicates nothing. */
  lemma {:induction false} MergeKeepsRecords(paged: seq<Record>, nonpaged: seq<Record>)
    ensures multiset(Merge(paged, nonpaged)) == multiset(paged) + multiset(nonpaged)
    decreases |paged| + |nonpaged|
  {
    if nonpaged != [] && (paged == [] || nonpaged[0].id < paged[0].id) {
      MergeKeepsRecords(paged, nonpaged[1..]);
      assert nonpaged == [nonpaged[0]] + nonpaged[1..];
    } else if paged != [] {
      MergeKeepsRecords(paged[1..], nonpaged);
      assert paged == [paged[0]] + paged[1..];
    }
  }

  /** The IDs of a list grow. */
  ghost predicate Rising(q: seq<Record>) { forall i, j :: 0 <= i < j < |q| ==> q[i].id < q[j].id }

  ghost predicate Apart(paged: seq<Record>, nonpaged: seq<Record>) {
    forall x, y :: x in paged && y in nonpaged ==> x.id != y.id
  }

  function OfPool(q: seq<Record>, paged: bool): seq<Record> {
    if q == [] then [] else (if q[0].paged == paged then [q[0]] else []) + OfPool(q[1..], paged)
  }

  /** The records of each list keep their order. */
  lemma {:induction false} MergeKeepsOrder(paged: seq<Record>, nonpaged: seq<Record>)
    requires ListOk(paged, true) && ListOk(nonpaged, false)
    ensures OfPool(Merge(paged, nonpaged), true) == paged && OfPool(Merge(paged, nonpaged), false) == nonpaged
    decreases |paged| + |nonpaged|
  {
    if nonpaged != [] && (paged == [] || nonpaged[0].id < paged[0].id) {
      MergeKeepsOrder(paged, nonpaged[1..]);
    } else if paged != [] {
      MergeKeepsOrder(paged[1..], nonpaged);
    }
  }

  /** Who is in the merge is in one of the lists. */
  lemma MergeIsBoth(paged: seq<Record>, nonpaged: seq<Record>, r: Record)
    requires r in Merge(paged, nonpaged)
    ensures r in paged || r in nonpaged
  {
    MergeKeepsRecords(paged, nonpaged);
    assert r in multiset(Merge(paged, nonpaged));
  }

  lemma HeadIsFirst(q: seq<Record>, r: Record)
    requires Rising(q) && r in q
    ensures q[0].id <= r.id && (r in q[1..] ==> q[0].id < r.id) && Rising(q[1..])
  {
    var i :| 0 <= i < |q| && q[i] == r;
    if r in q[1..] {
      var j :| 0 <= j < |q[1..]| && q[1..][j] == r;
      assert q[j + 1] == r;
    }
  }

  /** Behind the head of the merge there are only larger IDs. */
  lemma MergeHeadIsFirst(paged: seq<Record>, nonpaged: seq<Record>, r: Record)
    requires Rising(paged) && Rising(nonpaged) && Merge(paged, nonpaged) != []
    requires Apart(paged, nonpaged)
    requires r in Merge(paged, nonpaged)[1..]
    ensures Merge(paged, nonpaged)[0].id < r.id
  {
    if nonpaged != [] && (paged == [] || nonpaged[0].id < paged[0].id) {
      assert Merge(paged, nonpaged)[1..] == Merge(paged, nonpaged[1..]);
      MergeIsBoth(paged, nonpaged[1..], r);
      if r in paged { HeadIsFirst(paged, r); } else { HeadIsFirst(nonpaged, r); }
    } else {
      assert Merge(paged, nonpaged)[1..] == Merge(paged[1..], nonpaged);
      MergeIsBoth(paged[1..], nonpaged, r);
      if r in paged[1..] { HeadIsFirst(paged, r); } else { HeadIsFirst(nonpaged, r); }
    }
  }

  /** Lists with growing IDs, none of which is on both, are emptied in the order of the IDs. */
  lemma {:induction false} MergeIsRising(paged: seq<Record>, nonpaged: seq<Record>)
    requires Rising(paged) && Rising(nonpaged)
    requires Apart(paged, nonpaged)
    ensures Rising(Merge(paged, nonpaged))
    decreases |paged| + |nonpaged|
  {
    var all := Merge(paged, nonpaged);
    if all != [] {
      if nonpaged != [] && (paged == [] || nonpaged[0].id < paged[0].id) {
        assert all[1..] == Merge(paged, nonpaged[1..]);
        MergeIsRising(paged, nonpaged[1..]);
      } else {
        assert all[1..] == Merge(paged[1..], nonpaged);
        MergeIsRising(paged[1..], nonpaged);
      }
      hide Merge;
      forall j | 0 < j < |all| ensures all[0].id < all[j].id {
        assert all[j] == all[1..][j - 1];
        MergeHeadIsFirst(paged, nonpaged, all[j]);
      }
      RisingHead(all);
    }
  }

  lemma RisingHead(q: seq<Record>)
    requires q != [] && Rising(q[1..]) && forall j :: 0 < j < |q| ==> q[0].id < q[j].id
    ensures Rising(q)
  {
    forall i, j | 0 <= i < j < |q| ensures q[i].id < q[j].id {
      if i > 0 { assert q[1..][i - 1].id < q[1..][j - 1].id; }
    }
  }

  class RequestQueue {
    var paged: seq<Record>
    var nonpaged: seq<Record>
    var pagedLength: int
    var nonpagedLength: int
    var length: int
    var connected: bool
    var removed: bool

    /** What a get says before it looks at the lists. */
    function Gate(): Status
      reads this
    {
      if !connected then Disconnected else if removed then Refused else Success
    }

    predicate Valid()
      reads this
    {
      && ListOk(paged, true) && ListOk(nonpaged, false)
      && pagedLength == |paged| && nonpagedLength == |nonpaged| && length == |paged| + |nonpaged|
    }

    function Waiting(): seq<Record>
      reads this
    {
      Merge(paged, nonpaged)
    }

    constructor ()
      ensures Valid() && Waiting() == [] && !connected && !removed
    {
      paged, nonpaged := [], [];
      pagedLength, nonpagedLength, length := 0, 0, 0;
      connected, removed := false, false;
    }

    /** RequestQueueDisconnect, up to where it waits for the lock, or to its end. */
    method Disconnect(drained: bool)
      modifies this`connected, this`removed
      ensures removed && connected == (old(connected) && !drained)
    {
      removed := true;
      connected := connected && !drained;
    }

    /** _RequestInsert. */
    method Insert(r: Record, head: bool)
      requires Valid() && HEADER_SIZE <= r.size && !r.more
      modifies this
      ensures Valid() && connected == old(connected) && removed == old(removed)
      ensures r.paged ==> paged == (if head then [r] + old(paged) else old(paged) + [r]) && nonpaged == old(nonpaged)
      ensures !r.paged ==>
        nonpaged == (if head then [r] + old(nonpaged) else old(nonpaged) + [r]) && paged == old(paged)
    {
      if r.paged {
        paged := if head then [r] + paged else paged + [r];
        pagedLength := pagedLength + 1;
      } else {
        nonpaged := if head then [r] + nonpaged else nonpaged + [r];
        nonpagedLength := nonpagedLength + 1;
      }
      length := length + 1;
    }

    /** _RequestRemove. */
    method Remove() returns (r: Option<Record>, next: bool)
      requires Valid()
      modifies this
      ensures Valid() && connected == old(connected) && removed == old(removed)
      ensures old(Waiting()) == [] ==> r.None? && !next && paged == old(paged) && nonpaged == old(nonpaged)
      ensures old(Waiting()) != [] ==>
        r == Some(old(Waiting())[0]) && Waiting() == old(Waiting())[1..] && (next <==> Waiting() != [])
      ensures r.Some? ==> HEADER_SIZE <= r.value.size && !r.value.more
      ensures r.None? <==> old(paged) == [] && old(nonpaged) == []
      ensures r.Some? && old(paged) != [] ==> r.value.id <= old(paged)[0].id
      ensures r.Some? && old(nonpaged) != [] ==> r.value.id <= old(nonpaged)[0].id
      ensures r.Some? ==> (r.value.paged <==> old(paged) != [] && (old(nonpaged) == [] || old(paged)[0].id <= old(nonpaged)[0].id))
      ensures r.Some? && r.value.paged ==> old(paged) == [r.value] + paged && nonpaged == old(nonpaged)
      ensures r.Some? && !r.value.paged ==> old(nonpaged) == [r.value] + nonpaged && paged == old(paged)
    {
      r, next := None, false;
      var pagedRequest: Option<Record> := None;
      if paged != [] {
        pagedRequest := Some(paged[0]);
      }
      if nonpaged != [] {
        if pagedRequest.None? || nonpaged[0].id < pagedRequest.value.id {
          r := Some(nonpaged[0]);
          nonpaged := nonpaged[1..];
          nonpagedLength := nonpagedLength - 1;
        }
      }
      if r.None? && pagedRequest.Some? {
        r := pagedRequest;
        paged := paged[1..];
        pagedLength := pagedLength - 1;
      }
      if r.Some? {
        length := length - 1;
        next := paged != [] || nonpaged != [];
      }
    }

    /** RequestQueueGet: `length` is None where the code leaves *Length alone. */
    method Get(capacity: nat) returns (status: Status, r: Option<Record>, size: Option<nat>)
      requires Valid()
      modifies this
      ensures Valid() && connected == old(connected) && removed == old(removed)
      ensures Gate() != Success ==> status == Gate() && r.None? && size.None? && Waiting() == old(Waiting())
      ensures (!connected ==> status == Disconnected) && (connected && removed ==> status == Refused)
      ensures Gate() == Success && old(Waiting()) == [] ==>
        status == NoMoreEntries && r.None? && size == Some(0) && paged == old(paged) && nonpaged == old(nonpaged)
      ensures Gate() == Success && old(Waiting()) != [] && old(Waiting())[0].size > capacity ==>
        && status == BufferTooSmall && r.None? && size == Some(old(Waiting())[0].size)
        && paged == old(paged) && nonpaged == old(nonpaged)
      ensures Gate() == Success && old(Waiting()) != [] && old(Waiting())[0].size <= capacity ==>
        && status == Success && size == Some(old(Waiting())[0].size) && Waiting() == old(Waiting())[1..]
        && r == Some(old(Waiting())[0].(more := Waiting() != []))
    {
      r, size := None, None;
      if !connected {
        return Disconnected, None, None;
      }
      if removed {
        return Refused, None, None;
      }
      var h, next := Remove();
      var requestSize := 0;
      if h.Some? {
        requestSize := h.value.size;
        if requestSize <= capacity {
          r := Some(h.value.(more := next));
          status := Success;
        } else {
          Insert(h.value, true);
          status := BufferTooSmall;
        }
      } else {
        status := NoMoreEntries;
      }
      size := Some(requestSize);
    }

    /** RequestQueueClear: every record is freed once, the nonpaged ones first. */
    method Clear() returns (freed: seq<Record>)
      requires Valid()
      modifies this
      ensures Valid() && connected == old(connected) && removed == old(removed) && Waiting() == []
      ensures freed == old(nonpaged) + old(paged)
    {
      var detached := nonpaged;
      nonpaged, freed := [], [];
      for i := 0 to |detached|
        invariant nonpagedLength == |detached| - i && length == |paged| + |detached| - i
        invariant paged == old(paged) && nonpaged == [] && pagedLength == |paged|
        invariant connected == old(connected) && removed == old(removed)
        invariant freed == old(nonpaged)[..i] && detached == old(nonpaged)
      {
        freed := freed + [detached[i]];
        nonpagedLength := nonpagedLength - 1;
        length := length - 1;
      }
      detached := paged;
      paged := [];
      for i := 0 to |detached|
        invariant pagedLength == |detached| - i && length == |detached| - i
        invariant paged == [] && nonpaged == [] && nonpagedLength == 0
        invariant connected == old(connected) && removed == old(removed)
        invariant freed == old(nonpaged) + old(paged)[..i] && detached == old(paged)
      {
        freed := freed + [detached[i]];
        pagedLength := pagedLength - 1;
        length := length - 1;
      }
    }
  }

  // ----- the longest prefix that fits

  function Total(q: seq<Record>): nat { if q == [] then 0 else q[0].size + Total(q[1..]) }

  /** How many records from the front fit into the capacity. */
  function FitCount(q: seq<Record>, capacity: nat): nat {
    if q == [] || q[0].size > capacity then 0 else 1 + FitCount(q[1..], capacity - q[0].size)
  }

  /** FitCount picks the longest prefix whose total size fits. */
  lemma {:induction false} LongestPrefixFits(q: seq<Record>, capacity: nat, k: nat)
    requires k <= |q|
    ensures FitCount(q, capacity) <= |q|
    ensures Total(q[..k]) <= capacity <==> k <= FitCount(q, capacity)
  {
    if q != [] {
      if k > 0 { assert q[..k] == [q[0]] + q[1..][..k - 1]; }
      if q[0].size <= capacity {
        LongestPrefixFits(q[1..], capacity - q[0].size, if k > 0 then k - 1 else 0);
      }
    }
  }

  /** The records one call returns: flagged if anything was still queued behind them. */
  function Batch(q: seq<Record>, k: nat): seq<Record>
    requires k <= |q|
  {
    seq(k, i requires 0 <= i < k => q[i].(more := i + 1 < |q|))
  }

  lemma BatchRecords(q: seq<Record>, k: nat, i: nat)
    requires i < k <= |q|
    ensures var r := Batch(q, k)[i];
      r.id == q[i].id && r.paged == q[i].paged && r.size == q[i].size && (r.more <==> i < |q| - 1)
  {}

  // ----- the buffer

  /** One byte of the caller's buffer.  The first byte of a record stands for its header;
      `linked` says that Entry.Flink is not NULL. */
  datatype Cell = Other(value: int) | Header(r: Record, linked: bool) | Body

  function Image(r: Record, linked: bool): (cells: seq<Cell>)
    ensures |cells| == if r.size == 0 then 1 else r.size
  {
    [Header(r, linked)] + seq(if r.size == 0 then 0 else r.size - 1, _ => Body)
  }

  /** Records one behind the other, each linked, the last one as given. */
  function Layout(batch: seq<Record>, lastLinked: bool): seq<Cell> {
    if batch == [] then []
    else Image(batch[0], |batch| > 1 || lastLinked) + Layout(batch[1..], lastLinked)
  }

  predicate Sized(q: seq<Record>) { forall i :: 0 <= i < |q| ==> HEADER_SIZE <= q[i].size }

  lemma {:induction false} LayoutSize(batch: seq<Record>, lastLinked: bool)
    requires Sized(batch)
    ensures |Layout(batch, lastLinked)| == Total(batch)
  {
    if batch != [] { LayoutSize(batch[1..], lastLinked); }
  }

  /** A linked layout grows by the next record at its end. */
  lemma {:induction false} LayoutAppend(batch: seq<Record>, r: Record, lastLinked: bool)
    ensures Layout(batch + [r], lastLinked) == Layout(batch, true) + Image(r, lastLinked)
  {
    if batch == [] {
      assert batch + [r] == [r];
      assert [r][1..] == [];
    } else {
      LayoutAppend(batch[1..], r, lastLinked);
      assert (batch + [r])[1..] == batch[1..] + [r];
    }
  }

  lemma {:induction false} TotalAppend(q: seq<Record>, r: Record)
    ensures Total(q + [r]) == Total(q) + r.size
  {
    if q == [] {
      assert q + [r] == [r];
    } else {
      TotalAppend(q[1..], r);
      assert (q + [r])[1..] == q[1..] + [r];
    }
  }

  /** memcpy of a record, then the write to Entry.Flink. */
  method CopyRecord(buffer: array<Cell>, at: nat, r: Record)
    requires HEADER_SIZE <= r.size && at + r.size <= buffer.Length
    modifies buffer
    ensures buffer[..] == old(buffer[..at]) + Image(r, true) + old(buffer[at + r.size..])
  {
    buffer[at] := Header(r, false);
    for i := 1 to r.size
      invariant forall j :: 0 <= j < buffer.Length ==>
        buffer[j] == if j == at then Header(r, false) else if at < j < at + i then Body else old(buffer[j])
    {
      buffer[at + i] := Body;
    }
    buffer[at] := Header(r, true);
  }

  lemma {:induction false} FitStep(q: seq<Record>, capacity: nat, k: nat)
    requires k <= |q| && Total(q[..k]) <= capacity
    ensures FitCount(q, capacity) == k + FitCount(q[k..], capacity - Total(q[..k]))
  {
    if k == 0 {
      assert q[0..] == q;
    } else {
      assert q[..k] == [q[0]] + q[1..][..k - 1];
      FitStep(q[1..], capacity - q[0].size, k - 1);
      assert q[1..][k - 1..] == q[k..];
    }
  }

  /** Where the next record does not fit, no more fit. */
  lemma FitEnds(q: seq<Record>, capacity: nat, k: nat)
    requires k <= |q| && Total(q[..k]) <= capacity
    ensures FitCount(q, capacity) >= k
    ensures k == |q| || q[k].size > capacity - Total(q[..k]) ==> FitCount(q, capacity) == k
  {
    FitStep(q, capacity, k);
  }

  lemma BatchStep(q: seq<Record>, k: nat)
    requires k < |q|
    ensures Batch(q, k + 1) == Batch(q, k) + [q[k].(more := k + 1 < |q|)]
  {}

  lemma {:induction false} MergeIsSized(paged: seq<Record>, nonpaged: seq<Record>)
    requires ListOk(paged, true) && ListOk(nonpaged, false)
    ensures Sized(Merge(paged, nonpaged))
    decreases |paged| + |nonpaged|
  {
    if nonpaged != [] && (paged == [] || nonpaged[0].id < paged[0].id) {
      MergeIsSized(paged, nonpaged[1..]);
    } else if paged != [] {
      MergeIsSized(paged[1..], nonpaged);
    }
  }

  lemma WaitingIsSized(q: RequestQueue)
    requires q.Valid()
    ensures Sized(q.Waiting())
  {
    MergeIsSized(q.paged, q.nonpaged);
  }

  lemma {:induction false} BatchSize(all: seq<Record>, k: nat)
    requires k <= |all| && Sized(all)
    ensures Sized(Batch(all, k)) && Total(Batch(all, k)) == Total(all[..k])
  {
    if k > 0 {
      BatchSize(all, k - 1);
      BatchStep(all, k - 1);
      TotalAppend(Batch(all, k - 1), all[k - 1].(more := k < |all|));
      assert all[..k] == all[..k - 1] + [all[k - 1]];
      TotalAppend(all[..k - 1], all[k - 1]);
    }
  }

  /** The first k records stand in the buffer, all linked; behind them the buffer is as it was. */
  ghost predicate Packed(all: seq<Record>, k: nat, was: seq<Cell>, now: seq<Cell>) {
    k <= |all| && Total(all[..k]) <= |was| && now == Layout(Batch(all, k), true) + was[Total(all[..k])..]
  }

  /** Writing the next record right behind the packed ones packs one more. */
  lemma OneMoreRecord(all: seq<Record>, k: nat, was: seq<Cell>, now: seq<Cell>)
    requires k < |all| && Sized(all) && Packed(all, k, was, now)
    requires Total(all[..k]) + all[k].size <= |was|
    ensures var at, end := Total(all[..k]), Total(all[..k]) + all[k].size;
      && Total(all[..k + 1]) == end && |now| == |was|
      && Packed(all, k + 1, was, now[..at] + Image(all[k].(more := k + 1 < |all|), true) + now[end..])
  {
    BatchStep(all, k);
    BatchSize(all, k);
    LayoutSize(Batch(all, k), true);
    LayoutAppend(Batch(all, k), all[k].(more := k + 1 < |all|), true);
    assert all[..k + 1] == all[..k] + [all[k]];
    TotalAppend(all[..k], all[k]);
    assert now[Total(all[..k]) + all[k].size..] == was[Total(all[..k]) + all[k].size..];
    assert now[..Total(all[..k])] == Layout(Batch(all, k), true);
  }

  /** Resetting the link of the last packed record gives the final layout. */
  lemma LastRecord(all: seq<Record>, k: nat, was: seq<Cell>, now: seq<Cell>)
    requires 0 < k && Sized(all) && Packed(all, k, was, now)
    ensures var at := Total(all[..k - 1]);
      && at < |now| && now[at].Header?
      && now[at := now[at].(linked := false)] == Layout(Batch(all, k), false) + was[Total(all[..k])..]
  {
    var r := all[k - 1].(more := k < |all|);
    BatchStep(all, k - 1);
    BatchSize(all, k - 1);
    LayoutSize(Batch(all, k - 1), true);
    LayoutAppend(Batch(all, k - 1), r, true);
    LayoutAppend(Batch(all, k - 1), r, false);
    Unlink(Layout(Batch(all, k - 1), true), r, was[Total(all[..k])..]);
  }

  lemma Unlink(front: seq<Cell>, r: Record, rest: seq<Cell>)
    ensures (front + Image(r, true) + rest)[|front|] == Header(r, true)
    ensures (front + Image(r, true) + rest)[|front| := Header(r, false)] == front + Image(r, false) + rest
  {}

  /** One round of the getter: take the head record if it fits, and copy it. */
  method TakeNext(q: RequestQueue, buffer: array<Cell>, at: nat, left: nat,
                  ghost all: seq<Record>, ghost k: nat, ghost was: seq<Cell>)
    returns (status: Status, size: nat)
    requires q.Valid() && Sized(all) && k <= |all| && q.Waiting() == all[k..]
    requires at == Total(all[..k]) && at + left <= buffer.Length && |was| == buffer.Length
    requires Packed(all, k, was, buffer[..])
    modifies q, buffer
    ensures q.Valid() && q.connected == old(q.connected) && q.removed == old(q.removed)
    ensures status == if q.Gate() != Success then q.Gate() else if k == |all| then NoMoreEntries
                      else if all[k].size > left then BufferTooSmall else Success
    ensures status != Success ==> q.Waiting() == all[k..] && buffer[..] == old(buffer[..])
    ensures status == Success ==>
      && size == all[k].size && at + size == Total(all[..k + 1])
      && q.Waiting() == all[k + 1..] && Packed(all, k + 1, was, buffer[..])
  {
    var request, length;
    size := 0;
    status, request, length := q.Get(left);
    if status == Success {
      size := length.value;
      OneMoreRecord(all, k, was, buffer[..]);
      assert all[k..][1..] == all[k + 1..];
      CopyRecord(buffer, at, request.value);
    }
  }

  /** When the session ends during a call: before the get of that number, counted from 0.  If
      it is not drained yet, the queue still looks connected and the lock refuses. */
  datatype Ending = Never | Before(get: nat, drained: bool)

  /** The session has ended before the get. */
  predicate Over(ending: Ending, get: nat) { ending.Before? && ending.get <= get }

  /** How many gets succeed, of a queue whose first get says `gate` and of which `fit` records fit. */
  function Taken(gate: Status, ending: Ending, fit: nat): nat {
    if gate != Success || Over(ending, 0) then 0 else if Over(ending, fit) then ending.get else fit
  }

  /** What stops the get of that number before it looks at the lists. */
  function GateAt(connected: bool, removed: bool, ending: Ending, get: nat): Status {
    if !connected || (Over(ending, get) && ending.drained) then Disconnected
    else if removed || Over(ending, get) then Refused else Success
  }

  /** The outcome of UMGetRequestRecord for a buffer that can hold a header. */
  function Outcome(connected: bool, removed: bool, ending: Ending, all: seq<Record>, k: nat): Status {
    var gate := GateAt(connected, removed, ending, k);
    if gate != Success then gate else if k > 0 then Success else if all == [] then NoMoreEntries else BufferTooSmall
  }

  /** What a connected client is told when k records have been removed: the session has ended
      before the next one was asked for, or k is how many fit. */
  ghost predicate Answered(all: seq<Record>, k: int, capacity: nat, ending: Ending, status: Status) {
    && 0 <= k <= |all|
    && (if ending.Before? && ending.get <= k then
          k == ending.get && Total(all[..k]) <= capacity && status == if ending.drained then Disconnected else Refused
        else
          && (forall j {:trigger all[..j]} :: 0 <= j <= |all| ==> (Total(all[..j]) <= capacity <==> j <= k))
          && status == if k > 0 then Success else if all == [] then NoMoreEntries else BufferTooSmall)
  }

  lemma AnswerIs(connected: bool, removed: bool, ending: Ending, all: seq<Record>, capacity: nat)
    requires connected && !removed
    ensures var k := Taken(Success, ending, FitCount(all, capacity));
      0 <= k <= |all| && Answered(all, k, capacity, ending, Outcome(connected, removed, ending, all, k))
  {
    forall j | 0 <= j <= |all| ensures Total(all[..j]) <= capacity <==> j <= FitCount(all, capacity) {
      LongestPrefixFits(all, capacity, j);
    }
    LongestPrefixFits(all, capacity, 0);
    hide FitCount, Total;
  }

  /** Records are taken off the queue by a call that fails exactly if the session ends after the
      first record was taken and before the call has found out that no more fit. */
  lemma LostExactly(connected: bool, removed: bool, ending: Ending, all: seq<Record>, fit: nat)
    ensures var gate := GateAt(connected, removed, Never, 0); var k := Taken(gate, ending, fit);
      k > 0 && Outcome(connected, removed, ending, all, k) != Success <==>
        gate == Success && ending.Before? && 0 < ending.get <= fit
  {
    if Over(ending, fit) { assert Over(ending, ending.get); }
  }

  lemma NothingPacked(all: seq<Record>, was: seq<Cell>, now: seq<Cell>)
    ensures Total(all[..0]) == 0 && Layout(Batch(all, 0), false) + was[0..] == was
    ensures Packed(all, 0, was, now) <==> now == was
  {}

  /** UMGetRequestRecord.  One call removes the longest prefix of the queue that fits, or as
      much of it as can be had before the session ends, lays it out in the buffer with every
      record but the last linked, and returns its total size; a call that gets nothing changes
      neither queue nor buffer.  If the session ends on the way, the status is an error,
      although records have been removed. */
  method GetRequestRecords(q: RequestQueue, buffer: array<Cell>, bufferLength: nat, ending: Ending)
    returns (status: Status, returnLength: Option<nat>)
    requires q.Valid() && bufferLength <= buffer.Length
    modifies q, buffer
    ensures q.Valid()
    ensures bufferLength < HEADER_SIZE ==>
      && status == BufferTooSmall && returnLength.None? && q.Waiting() == old(q.Waiting())
      && buffer[..] == old(buffer[..]) && q.connected == old(q.connected) && q.removed == old(q.removed)
    ensures HEADER_SIZE <= bufferLength ==>
      var all := old(q.Waiting());
      var k := Taken(old(q.Gate()), ending, FitCount(all, bufferLength));
      && k <= |all| && Total(all[..k]) <= bufferLength
      && q.Waiting() == all[k..]
      && buffer[..] == Layout(Batch(all, k), false) + old(buffer[..])[Total(all[..k])..]
      && returnLength == Some(Total(all[..k]))
      && status == Outcome(old(q.connected), old(q.removed), ending, all, k)
      && q.connected == (old(q.connected) && !(Over(ending, k) && ending.drained))
      && q.removed == (old(q.removed) || Over(ending, k))
    ensures HEADER_SIZE <= bufferLength && old(q.connected) && !old(q.removed) ==>
      Answered(old(q.Waiting()), |old(q.Waiting())| - |q.Waiting()|, bufferLength, ending, status)
    ensures HEADER_SIZE <= bufferLength && !(old(q.connected) && !old(q.removed)) ==>
      q.Waiting() == old(q.Waiting()) && status == if !q.connected then Disconnected else Refused
  {
    hide Merge, FitCount, Sized, Image, Answered, Layout, Batch, Packed, Total;
    ghost var all := q.Waiting();
    ghost var was := buffer[..];
    NothingPacked(all, was, was);
    assert all[..0] == [] && all[0..] == all;
    if bufferLength < HEADER_SIZE {
      return BufferTooSmall, None;
    }
    var at, requestSize, total: nat, aggregated := 0, 0, 0, 0;
    var left: nat := bufferLength;
    WaitingIsSized(q);
    while true
      invariant q.Valid() && q.connected == old(q.connected) && q.removed == old(q.removed)
      invariant aggregated <= |all| && total == Total(all[..aggregated]) && total + left == bufferLength
      invariant 0 <= at && at + requestSize == total
      invariant q.Waiting() == all[aggregated..]
      invariant aggregated > 0 ==> q.Gate() == Success && !Over(ending, aggregated - 1)
      invariant aggregated > 0 ==> at == Total(all[..aggregated - 1])
      invariant Packed(all, aggregated, was, buffer[..])
      decreases |all| - aggregated
    {
      if ending.Before? && ending.get == aggregated {
        q.Disconnect(ending.drained);
      }
      assert Over(ending, aggregated) <==> ending.Before? && ending.get == aggregated;
      assert q.Gate() == GateAt(old(q.connected), old(q.removed), ending, aggregated);
      var tmpRequestSize := requestSize;
      status, requestSize := TakeNext(q, buffer, at + tmpRequestSize, left, all, aggregated, was);
      if status == Success {
        at := at + tmpRequestSize;
        aggregated := aggregated + 1;
        left := left - requestSize;
        total := total + requestSize;
      } else {
        FitEnds(all, bufferLength, aggregated);
        assert aggregated == Taken(old(q.Gate()), ending, FitCount(all, bufferLength));
        NothingPacked(all, was, buffer[..]);
        if aggregated > 0 {
          if status == BufferTooSmall || status == NoMoreEntries {
            status := Success;
          }
          LastRecord(all, aggregated, was, buffer[..]);
          buffer[at] := buffer[at].(linked := false);
        }
        break;
      }
    }
    returnLength := Some(total);
    if old(q.Gate()) == Success { AnswerIs(true, false, ending, all, bufferLength); }
  }

  // ----- the sample client

  /** The loop of the sample client: handle a record, stop at a NULL link, else step over
      the record by its size.  On what GetRequestRecords wrote it sees the batch again. */
  method ReadBatch(buffer: array<Cell>, ghost batch: seq<Record>) returns (seen: seq<Record>)
    requires batch != [] && Sized(batch) && Total(batch) <= buffer.Length
    requires buffer[..Total(batch)] == Layout(batch, false)
    ensures seen == batch
  {
    seen := [];
    var at := 0;
    LayoutSize(batch, false);
    LayoutAt(batch, 0);
    while true
      invariant |seen| < |batch| && seen == batch[..|seen|] && at == Total(seen)
      invariant at + Total(batch[|seen|..]) == Total(batch)
      invariant at < Total(batch) && buffer[at] == Header(batch[|seen|], |seen| + 1 < |batch|)
      decreases |batch| - |seen|
    {
      var request := buffer[at];
      ghost var k := |seen|;
      seen := seen + [request.r];
      if !request.linked {
        break;
      }
      at := at + request.r.size;
      TotalAppend(batch[..k], batch[k]);
      assert batch[..k + 1] == batch[..k] + [batch[k]];
      assert batch[k..][1..] == batch[k + 1..];
      LayoutAt(batch, k + 1);
    }
  }

  /** Where the header of the k-th record lies. */
  lemma {:induction false} LayoutAt(batch: seq<Record>, k: nat)
    requires k < |batch| && Sized(batch)
    ensures Total(batch[..k]) + Total(batch[k..]) == Total(batch) && Total(batch[..k]) < Total(batch)
    ensures Total(batch[..k]) < |Layout(batch, false)|
    ensures Layout(batch, false)[Total(batch[..k])] == Header(batch[k], k + 1 < |batch|)
  {
    LayoutSize(batch, false);
    if k == 0 {
      assert batch[0..] == batch;
    } else {
      LayoutAt(batch[1..], k - 1);
      assert batch[..k] == [batch[0]] + batch[1..][..k - 1];
      assert batch[1..][k - 1..] == batch[k..];
      LayoutSize(batch[1..], false);
    }
  }

  /** One call of the getter followed by the client's loop: the client handles exactly the
      longest prefix of the queue that fits, in order.  If the session ends on the way, it
      handles nothing, and what was taken off the queue is lost. */
  method FetchAndHandle(q: RequestQueue, buffer: array<Cell>, ending: Ending) returns (status: Status, seen: seq<Record>)
    requires q.Valid() && HEADER_SIZE <= buffer.Length
    modifies q, buffer
    ensures q.Valid()
    ensures var all := old(q.Waiting()); var k := Taken(old(q.Gate()), ending, FitCount(all, buffer.Length));
      && k <= |all| && q.Waiting() == all[k..]
      && status == Outcome(old(q.connected), old(q.removed), ending, all, k)
      && seen == if status == Success then Batch(all, k) else []
    ensures old(Rising(q.paged) && Rising(q.nonpaged) && Apart(q.paged, q.nonpaged)) ==> Rising(seen)
  {
    if Rising(q.paged) && Rising(q.nonpaged) && Apart(q.paged, q.nonpaged) { MergeIsRising(q.paged, q.nonpaged); }
    ghost var all := q.Waiting();
    ghost var k := Taken(q.Gate(), ending, FitCount(all, buffer.Length));
    WaitingIsSized(q);
    var length;
    status, length := GetRequestRecords(q, buffer, buffer.Length, ending);
    seen := [];
    if status == Success {
      BatchSize(all, k);
      LayoutSize(Batch(all, k), false);
      seen := ReadBatch(buffer, Batch(all, k));
    }
  }
}
