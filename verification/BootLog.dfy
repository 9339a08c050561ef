/** The boot log: circular doubly linked lists of requests, spliced into each other. */
module BootLog {
  import opened Basics

  class Node {
    var flink: Node?
    var blink: Node?
    const request: nat

    constructor (request: nat)
      ensures this.request == request && flink == null && blink == null
    {
      this.request, flink, blink := request, null, null;
    }
  }

  /** The i-th entry, and the head after the last. */
  function NodeAt(head: Node, xs: seq<Node>, i: nat): Node { if i < |xs| then xs[i] else head }

  /** The entry before the i-th, and the head before the first. */
  function Before(head: Node, xs: seq<Node>, i: nat): Node
    requires i <= |xs|
  {
    if i == 0 then head else xs[i - 1]
  }

  /** The head and the entries are linked in a ring, both ways. */
  ghost predicate Ring(head: Node, xs: seq<Node>)
    reads head, xs
  {
    && head !in xs && Distinct(xs)
    && head.flink == NodeAt(head, xs, 0) && head.blink == Before(head, xs, |xs|)
    && (forall i {:trigger xs[i]} :: 0 <= i < |xs| ==>
          xs[i].flink == NodeAt(head, xs, i + 1) && xs[i].blink == Before(head, xs, i))
  }

  lemma HeadApart(head: Node, xs: seq<Node>)
    requires Ring(head, xs)
    ensures head !in xs
  {}

  method InitializeListHead(head: Node)
    modifies head
    ensures Ring(head, [])
  {
    head.flink := head;
    head.blink := head;
  }

  /** _ListHeadMove: the new head takes all entries over. */
  method ListHeadMove(original: Node, head: Node, ghost xs: seq<Node>)
    requires Ring(original, xs) && head != original && head !in xs
    modifies original, head, xs
    ensures Ring(head, xs) && Ring(original, [])
  {
    InitializeListHead(head);
    if original.flink != original {
      head.flink := original.flink;
      head.blink := original.blink;
      head.flink.blink := head;
      head.blink.flink := head;
      InitializeListHead(original);
    }
  }

  /** What links two lists into one. */
  lemma Joined(head: Node, xs: seq<Node>, ys: seq<Node>)
    requires ys != [] && head !in xs && head !in ys && Distinct(xs) && Distinct(ys) && forall x :: x in xs ==> x !in ys
    requires head.flink == NodeAt(ys[0], xs, 0) && head.blink == ys[|ys| - 1]
    requires forall i {:trigger xs[i]} :: 0 <= i < |xs| ==>
      xs[i].flink == NodeAt(ys[0], xs, i + 1) && xs[i].blink == Before(head, xs, i)
    requires ys[0].blink == Before(head, xs, |xs|)
    requires forall i {:trigger ys[i]} :: 0 <= i < |ys| ==>
      ys[i].flink == NodeAt(head, ys, i + 1) && (i > 0 ==> ys[i].blink == ys[i - 1])
    ensures Ring(head, xs + ys)
  {
    hide Distinct;
    var zs := xs + ys;
    DistinctJoined(xs, ys);
    assert zs[|zs| - 1] == ys[|ys| - 1] && zs[0] == NodeAt(ys[0], xs, 0);
    forall i | 0 <= i < |zs| ensures zs[i].flink == NodeAt(head, zs, i + 1) && zs[i].blink == Before(head, zs, i) {
      if i < |xs| {
        assert zs[i] == xs[i] && (i > 0 ==> zs[i - 1] == xs[i - 1]);
        assert (i + 1 < |xs| ==> zs[i + 1] == xs[i + 1]) && (i + 1 == |xs| ==> zs[i + 1] == ys[0]);
      } else {
        var j := i - |xs|;
        assert zs[i] == ys[j] && (j > 0 ==> zs[i - 1] == ys[j - 1]) && (j + 1 < |ys| ==> zs[i + 1] == ys[j + 1]);
      }
    }
  }

  lemma DistinctJoined(xs: seq<Node>, ys: seq<Node>)
    requires Distinct(xs) && Distinct(ys) && forall x :: x in xs ==> x !in ys
    ensures Distinct(xs + ys)
  {
    var zs := xs + ys;
    forall i, j | 0 <= i < j < |zs| ensures zs[i] != zs[j] {
      if i < |xs| <= j { assert zs[i] in xs && zs[j] == ys[j - |xs|] && zs[j] in ys; }
    }
  }

  lemma EndsApart(xs: seq<Node>, ys: seq<Node>)
    requires Distinct(xs) && Distinct(ys) && ys != [] && forall x :: x in xs ==> x !in ys
    ensures forall i {:trigger xs[i]} :: 0 <= i < |xs| ==> xs[i] !in ys && (i < |xs| - 1 ==> xs[i] != xs[|xs| - 1])
    ensures forall i {:trigger ys[i]} :: 0 <= i < |ys| ==>
      ys[i] !in xs && (i > 0 ==> ys[i] != ys[0]) && (i < |ys| - 1 ==> ys[i] != ys[|ys| - 1])
  {
    forall i | 0 <= i < |xs| ensures xs[i] !in ys { assert xs[i] in xs; }
    forall i | 0 <= i < |ys| ensures ys[i] !in xs { assert ys[i] in ys; }
  }

  method InsertTailList(head: Node, entry: Node, ghost xs: seq<Node>)
    requires Ring(head, xs) && entry != head && entry !in xs
    modifies head, xs, entry
    ensures Ring(head, xs + [entry])
  {
    EndsApart(xs, [entry]);
    var last := head.blink;
    entry.flink := head;
    entry.blink := last;
    last.flink := entry;
    head.blink := entry;
    Joined(head, xs, [entry]);
  }

  /** The four writes of _AddTailList. */
  method Relink(head: Node, list: Node, end: Node, first: Node, last: Node)
    requires head.blink == end && list.flink == first && list.blink == last
    requires head != list && first != head && last != head && end != list && first != list && last != list
    modifies head`blink, end`flink, first`blink, last`flink
    ensures first.blink == end && head.blink == last && end.flink == first
    ensures last != end ==> last.flink == head
  {
    list.flink.blink := head.blink;
    list.blink.flink := head;
    head.blink.flink := list.flink;
    head.blink := list.blink;
  }

  /** The part of _AddTailList for a list that is not empty; its head still points into it. */
  method Splice(head: Node, list: Node, ghost xs: seq<Node>, ghost ys: seq<Node>)
    requires Ring(head, xs) && Ring(list, ys) && head != list && head !in ys && list !in xs && ys != []
    requires forall x :: x in xs ==> x !in ys
    modifies head, xs, ys
    ensures Ring(head, xs + ys)
  {
    hide Ring, Distinct;
    DistinctRing(head, xs);
    DistinctRing(list, ys);
    EndsApart(xs, ys);
    Steps(head, xs);
    Steps(list, ys);
    Relink(head, list, head.blink, list.flink, list.blink);
    Joined(head, xs, ys);
  }

  lemma DistinctRing(head: Node, xs: seq<Node>)
    requires Ring(head, xs)
    ensures Distinct(xs) && head !in xs
  {}

  lemma Steps(head: Node, xs: seq<Node>)
    requires Ring(head, xs)
    ensures head.flink == NodeAt(head, xs, 0) && head.blink == Before(head, xs, |xs|)
    ensures forall i {:trigger xs[i]} :: 0 <= i < |xs| ==>
      xs[i] != head && xs[i].flink == NodeAt(head, xs, i + 1) && xs[i].blink == Before(head, xs, i)
  {}

  /** _AddTailList: all entries of the list go to the end of the other. */
  method AddTailList(head: Node, list: Node, ghost xs: seq<Node>, ghost ys: seq<Node>)
    requires Ring(head, xs) && Ring(list, ys) && head != list && head !in ys && list !in xs
    requires forall x :: x in xs ==> x !in ys
    modifies head, list, xs, ys
    ensures Ring(head, xs + ys) && Ring(list, [])
  {
    hide Ring, Distinct, NodeAt, Before;
    HeadApart(list, ys);
    EmptyRing(list, ys);
    if list.flink != list {
      Splice(head, list, xs, ys);
      InitializeListHead(list);
    } else {
      assert xs + ys == xs;
    }
  }

  lemma EmptyRing(head: Node, xs: seq<Node>)
    requires Ring(head, xs)
    ensures head.flink == head <==> xs == []
  {}

  /** _NPCacheFlush, and what it leaves alone. */
  method MoveCache(cacheHead: Node, cached: Node, ghost listHead: Node, ghost cache: seq<Node>, ghost list: seq<Node>)
    requires Ring(cacheHead, cache) && Ring(listHead, list) && listHead != cacheHead && listHead !in cache
    requires cacheHead !in list
    requires cached != cacheHead && cached !in cache && cached != listHead && cached !in list
    requires forall x :: x in list ==> x !in cache
    modifies cacheHead, cached, cache
    ensures Ring(cached, cache) && Ring(cacheHead, []) && Ring(listHead, list)
  {
    assert forall i {:trigger list[i]} :: 0 <= i < |list| ==>
      list[i] in list && list[i] !in cache && list[i] != cacheHead && list[i] != cached;
    hide Ring;
    InitializeListHead(cached);
    ListHeadMove(cacheHead, cached, cache);
  }

  /** _NPCacheFlush and _AddTailList: the cache goes to the end of the list.  The head that
      carried it is empty afterwards. */
  method DrainCache(listHead: Node, cacheHead: Node, ghost list: seq<Node>, ghost cache: seq<Node>)
    returns (cached: Node)
    requires Ring(listHead, list) && Ring(cacheHead, cache) && listHead != cacheHead && listHead !in cache
    requires cacheHead !in list
    requires forall x :: x in list ==> x !in cache
    modifies listHead, cacheHead, list, cache
    ensures Ring(listHead, list + cache) && Ring(cacheHead, []) && Ring(cached, []) && fresh(cached)
  {
    hide Ring;
    HeadApart(cacheHead, cache);
    cached := new Node(0);
    MoveCache(cacheHead, cached, listHead, cache, list);
    AddTailList(listHead, cached, list, cache);
  }

  /** The list part of _FlushBootRequests: everything is taken over by a local list. */
  method TakeAll(listHead: Node, cacheHead: Node, ghost list: seq<Node>, ghost cache: seq<Node>) returns (head: Node)
    requires Ring(listHead, list) && Ring(cacheHead, cache) && listHead != cacheHead && listHead !in cache
    requires cacheHead !in list
    requires forall x :: x in list ==> x !in cache
    modifies listHead, cacheHead, list, cache
    ensures Ring(head, list + cache) && Ring(listHead, []) && Ring(cacheHead, []) && fresh(head)
  {
    hide Ring;
    HeadApart(cacheHead, cache);
    HeadApart(listHead, list);
    head := DrainCache(listHead, cacheHead, list, cache);
    assert cacheHead !in list + cache && listHead !in list + cache;
    ListHeadMove(listHead, head, list + cache);
  }

  /** _NPCacheInsert, and what it leaves alone. */
  method LogHigh(cacheHead: Node, ghost listHead: Node, request: Node, ghost cache: seq<Node>, ghost list: seq<Node>)
    requires Ring(cacheHead, cache) && Ring(listHead, list) && listHead != cacheHead && listHead !in cache
    requires cacheHead !in list
    requires request != cacheHead && request !in cache && request != listHead && request !in list
    requires forall x :: x in list ==> x !in cache
    modifies cacheHead, cache, request
    ensures Ring(cacheHead, cache + [request]) && Ring(listHead, list)
  {
    assert forall i {:trigger list[i]} :: 0 <= i < |list| ==>
      list[i] in list && list[i] !in cache && list[i] != cacheHead && list[i] != request;
    hide Distinct;
    InsertTailList(cacheHead, request, cache);
  }

  /** The requests that can be written to the file, in order. */
  function Saved(xs: seq<Node>, writable: nat -> bool): seq<nat> {
    if xs == [] then [] else (if writable(xs[0].request) then [xs[0].request] else []) + Saved(xs[1..], writable)
  }

  lemma SavedSnoc(xs: seq<Node>, x: Node, writable: nat -> bool)
    ensures Saved(xs + [x], writable) == Saved(xs, writable) + (if writable(x.request) then [x.request] else [])
  {
    SavedSplit(xs, [x], writable);
    assert [x][1..] == [];
  }

  /** `list` and `cache` are the requests logged at passive and at high level, `flushed` those
      handed to the file, and `arrived` all of them. */
  class BootLog {
    const listHead: Node
    const cacheHead: Node
    const writable: nat -> bool
    var file: seq<nat>
    ghost var list: seq<Node>
    ghost var cache: seq<Node>
    ghost var flushed: seq<Node>
    ghost var arrived: seq<Node>

    /** Nothing is lost, duplicated or reordered. */
    ghost predicate Valid()
      reads this, listHead, cacheHead, list, cache
    {
      && Ring(listHead, list) && Ring(cacheHead, cache)
      && listHead != cacheHead && listHead !in arrived && cacheHead !in arrived
      && flushed + list + cache == arrived && Distinct(arrived)
      && file == Saved(flushed, writable)
    }

    ghost function Footprint(): set<object>
      reads this
    {
      {this, listHead, cacheHead} + (set x | x in list) + (set x | x in cache)
    }

    constructor (writable: nat -> bool)
      ensures Valid() && fresh(listHead) && fresh(cacheHead) && arrived == []
    {
      var l := new Node(0);
      var c := new Node(0);
      listHead, cacheHead, this.writable := l, c, writable;
      file, list, cache, flushed, arrived := [], [], [], [], [];
      new;
      InitializeListHead(l);
      InitializeListHead(c);
    }

    /** _BLOnRequest: below dispatch level the cached requests go first. */
    method OnRequest(request: Node, highLevel: bool)
      requires Valid() && request !in arrived && request != listHead && request != cacheHead
      modifies Footprint(), request
      ensures Valid() && arrived == old(arrived) + [request] && flushed == old(flushed) && file == old(file)
      ensures if highLevel then list == old(list) && cache == old(cache) + [request]
              else list == old(list) + old(cache) + [request] && cache == []
    {
      hide Ring, Saved, Distinct;
      Apart();
      MoreArrived(request);
      if highLevel {
        LogHigh(cacheHead, listHead, request, cache, list);
        cache := cache + [request];
      } else {
        var cached := DrainCache(listHead, cacheHead, list, cache);
        InsertTailList(listHead, request, list + cache);
        list, cache := list + cache + [request], [];
      }
      arrived := arrived + [request];
    }

    lemma MoreArrived(request: Node)
      requires Valid() && request !in arrived
      ensures Distinct(arrived + [request])
      ensures flushed + list + (cache + [request]) == arrived + [request]
      ensures flushed + (list + cache + [request]) + [] == arrived + [request]
      ensures request !in list && request !in cache && request !in list + cache
    {
      hide Ring, Saved;
      assert arrived == flushed + (list + cache);
      forall x | x in list + cache ensures x in arrived {}
    }

    /** Where an entry of a list is among all that arrived. */
    lemma Places()
      requires flushed + list + cache == arrived
      ensures forall i :: 0 <= i < |list| ==> arrived[|flushed| + i] == list[i]
      ensures forall i :: 0 <= i < |cache| ==> arrived[|flushed| + |list| + i] == cache[i]
    {}

    /** The lists have nothing in common. */
    lemma Apart()
      requires Valid()
      ensures forall x :: x in list ==> x !in cache && x in arrived
      ensures forall x :: x in cache ==> x !in list && x in arrived
      ensures listHead !in list && listHead !in cache && cacheHead !in list && cacheHead !in cache
      ensures listHead !in list + cache && cacheHead !in list + cache
    {
      hide Ring, Saved;
      Places();
      forall x | x in list ensures x !in cache && x in arrived {
        var i :| 0 <= i < |list| && list[i] == x;
        assert arrived[|flushed| + i] == x;
        forall j | 0 <= j < |cache| ensures cache[j] != x { assert arrived[|flushed| + |list| + j] == cache[j]; }
      }
      forall x | x in cache ensures x in arrived {
        var i :| 0 <= i < |cache| && cache[i] == x;
        assert arrived[|flushed| + |list| + i] == x;
      }
    }

    lemma RingSteps(head: Node, xs: seq<Node>)
      requires Ring(head, xs)
      ensures head.flink == NodeAt(head, xs, 0)
      ensures forall j {:trigger xs[j]} :: 0 <= j < |xs| ==> xs[j] != head && xs[j].flink == NodeAt(head, xs, j + 1)
      ensures head !in xs && forall i, j :: 0 <= i < j < |xs| ==> xs[i] != xs[j]
    {}

    /** One entry of the loop: it is unlinked, and written if possible. */
    method WriteEntry(entry: Node)
      modifies this`file, entry
      ensures file == old(file) + (if writable(entry.request) then [entry.request] else [])
    {
      entry.flink := null;
      entry.blink := null;
      if writable(entry.request) {
        file := file + [entry.request];
      }
    }

    /** The links of the entries from the i-th on. */
    ghost predicate LinkedFrom(head: Node, xs: seq<Node>, i: nat)
      reads xs
    {
      forall j {:trigger xs[j]} :: i <= j < |xs| ==> xs[j] != head && xs[j].flink == NodeAt(head, xs, j + 1)
    }

    /** One round of the loop: what is written, and the links behind. */
    method WriteNext(head: Node, ghost xs: seq<Node>, entry: Node, ghost i: nat) returns (next: Node?)
      requires i < |xs| && entry == xs[i] && LinkedFrom(head, xs, i)
      requires forall j, k :: 0 <= j < k < |xs| ==> xs[j] != xs[k]
      modifies this`file, entry
      ensures next == NodeAt(head, xs, i + 1) && LinkedFrom(head, xs, i + 1)
      ensures file == old(file) + (if writable(entry.request) then [entry.request] else [])
    {
      next := entry.flink;
      WriteEntry(entry);
    }

    /** The loop of _FlushBootRequests. */
    method WriteOut(head: Node, ghost xs: seq<Node>)
      requires Ring(head, xs)
      modifies this`file, xs
      ensures file == old(file) + Saved(xs, writable)
    {
      RingSteps(head, xs);
      hide Ring, Saved, Distinct, LinkedFrom;
      ghost var i := 0;
      var tmp := head.flink;
      SavedUpTo(xs, 0, writable);
      while tmp != head
        invariant i <= |xs| && tmp == NodeAt(head, xs, i) && LinkedFrom(head, xs, i)
        invariant file == old(file) + Saved(xs[..i], writable)
        decreases |xs| - i
      {
        ghost var r := xs[i].request;
        tmp := WriteNext(head, xs, tmp, i);
        SavedUpTo(xs, i, writable);
        Assoc(old(file), Saved(xs[..i], writable), if writable(r) then [r] else []);
        i := i + 1;
      }
      assert xs[..i] == xs;
    }

    /** _FlushBootRequests: afterwards every request that has arrived is flushed, in order. */
    method Flush()
      requires Valid()
      modifies Footprint()
      ensures Valid() && arrived == old(arrived) && flushed == arrived && list == [] && cache == []
      ensures file == Saved(arrived, writable)
    {
      hide Ring, Saved, Distinct;
      ghost var xs := list + cache;
      SavedSplit(flushed, xs, writable);
      assert flushed + xs == arrived;
      Apart();
      var head := TakeAll(listHead, cacheHead, list, cache);
      WriteOut(head, xs);
      flushed, list, cache := arrived, [], [];
      assert flushed + list + cache == arrived;
    }
  }

  lemma Assoc(a: seq<nat>, b: seq<nat>, c: seq<nat>)
    ensures a + b + c == a + (b + c)
  {}

  lemma SavedUpTo(xs: seq<Node>, i: nat, writable: nat -> bool)
    requires i <= |xs|
    ensures Saved(xs[..0], writable) == []
    ensures i < |xs| ==>
      Saved(xs[..i + 1], writable) == Saved(xs[..i], writable) + (if writable(xs[i].request) then [xs[i].request] else [])
  {
    if i < |xs| {
      SavedSnoc(xs[..i], xs[i], writable);
      assert xs[..i] + [xs[i]] == xs[..i + 1];
    }
  }

  lemma {:induction false} SavedSplit(a: seq<Node>, b: seq<Node>, writable: nat -> bool)
    ensures Saved(a + b, writable) == Saved(a, writable) + Saved(b, writable)
  {
    if a == [] {
      assert a + b == b && [] + Saved(b, writable) == Saved(b, writable);
    } else {
      assert (a + b)[1..] == a[1..] + b && (a + b)[0] == a[0];
      SavedSplit(a[1..], b, writable);
      Assoc(if writable(a[0].request) then [a[0].request] else [], Saved(a[1..], writable), Saved(b, writable));
    }
  }
}
