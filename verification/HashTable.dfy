/** The chained hash table whose links are inside the items. */
module HashTable {
  import opened Basics

  type Key = nat

  class Item {
    const key: Key
    var next: Item?

    constructor (key: Key)
      ensures this.key == key
    {
      this.key := key;
    }
  }

  function ItemAt(chain: seq<Item>, k: nat): Item? { if k < |chain| then chain[k] else null }

  /** The links run through the chain, from its head to null. */
  ghost predicate Linked(head: Item?, chain: seq<Item>)
    reads chain
  {
    && head == ItemAt(chain, 0) && Distinct(chain)
    && forall k {:trigger chain[k]} :: 0 <= k < |chain| ==> chain[k].next == ItemAt(chain, k + 1)
  }

  /** The comparison is an equivalence. */
  ghost predicate Equivalence(same: (Key, Key) -> bool) {
    && (forall a :: same(a, a)) && (forall a, b :: same(a, b) ==> same(b, a))
    && (forall a, b, c :: same(a, b) && same(b, c) ==> same(a, c))
  }

  /** Equal keys have equal hashes. */
  ghost predicate Agree(hash: Key -> nat, same: (Key, Key) -> bool) { forall a, b :: same(a, b) ==> hash(a) == hash(b) }

  /** The items under a key, newest first. */
  function Stack(chain: seq<Item>, key: Key, same: (Key, Key) -> bool): seq<Item> {
    if chain == [] then [] else (if same(chain[0].key, key) then [chain[0]] else []) + Stack(chain[1..], key, same)
  }

  function First(chain: seq<Item>, key: Key, same: (Key, Key) -> bool): (k: nat)
    ensures k <= |chain| && (forall i :: 0 <= i < k ==> !same(chain[i].key, key))
    ensures k < |chain| ==> same(chain[k].key, key)
  {
    if chain == [] || same(chain[0].key, key) then 0 else 1 + First(chain[1..], key, same)
  }

  function Without(chain: seq<Item>, k: nat): seq<Item>
    requires k < |chain|
  {
    chain[..k] + chain[k + 1..]
  }

  function Total(chains: seq<seq<Item>>): nat {
    if chains == [] then 0 else |chains[0]| + Total(chains[1..])
  }

  lemma {:induction false} TotalUpdate(chains: seq<seq<Item>>, i: nat, chain: seq<Item>)
    requires i < |chains|
    ensures Total(chains[i := chain]) == Total(chains) - |chains[i]| + |chain|
  {
    if i > 0 {
      assert chains[i := chain][1..] == chains[1..][i - 1 := chain];
      TotalUpdate(chains[1..], i - 1, chain);
    } else {
      assert chains[i := chain][1..] == chains[1..];
    }
  }

  lemma {:induction false} TotalIsLength(chains: seq<seq<Item>>)
    ensures |Concat(chains)| == Total(chains)
  {
    if chains != [] { TotalIsLength(chains[1..]); }
  }

  /** The newest item is on top. */
  lemma StackPushed(item: Item, chain: seq<Item>, key: Key, same: (Key, Key) -> bool)
    ensures Stack([item] + chain, key, same) == (if same(item.key, key) then [item] else []) + Stack(chain, key, same)
  {
    assert ([item] + chain)[1..] == chain;
  }

  /** The first match is the top of the stack. */
  lemma {:induction false} TopOfStack(chain: seq<Item>, key: Key, same: (Key, Key) -> bool)
    ensures var k := First(chain, key, same);
      Stack(chain, key, same) == if k < |chain| then [chain[k]] + Stack(chain[k + 1..], key, same) else []
  {
    if chain != [] {
      assert chain == [chain[0]] + chain[1..];
      StackPushed(chain[0], chain[1..], key, same);
    }
    hide Stack;
    if chain != [] && !same(chain[0].key, key) {
      TopOfStack(chain[1..], key, same);
      var k := First(chain[1..], key, same);
      if k < |chain[1..]| { assert chain[1..][k + 1..] == chain[k + 2..]; }
    }
  }

  /** Taking the first match for one key out exposes the next item under equal keys and
      leaves the stacks of other keys alone. */
  lemma {:induction false} StackPopped(chain: seq<Item>, key: Key, other: Key, same: (Key, Key) -> bool)
    requires Equivalence(same) && First(chain, key, same) < |chain|
    ensures var k := First(chain, key, same);
      Stack(chain, other, same) == (if same(key, other) then [chain[k]] else []) + Stack(Without(chain, k), other, same)
  {
    hide Stack, Equivalence;
    var k := First(chain, key, same);
    assert chain == [chain[0]] + chain[1..];
    StackPushed(chain[0], chain[1..], other, same);
    SameAsKey(chain[0].key, key, other, same);
    if k > 0 {
      StackPopped(chain[1..], key, other, same);
      assert Without(chain, k) == [chain[0]] + Without(chain[1..], k - 1);
      StackPushed(chain[0], Without(chain[1..], k - 1), other, same);
    } else {
      assert Without(chain, 0) == chain[1..];
    }
  }

  lemma SameAsKey(x: Key, key: Key, other: Key, same: (Key, Key) -> bool)
    requires Equivalence(same)
    ensures same(x, key) ==> same(x, other) == same(key, other)
    ensures same(key, other) && !same(x, key) ==> !same(x, other)
  {}

  /** The chains after an item was put at the front of its own. */
  function Pushed(chains: seq<seq<Item>>, index: nat, item: Item): seq<seq<Item>>
    requires index < |chains|
  {
    chains[index := [item] + chains[index]]
  }

  class Table {
    const buckets: array<Item?>
    const hash: Key -> nat
    const same: (Key, Key) -> bool
    var count: nat
    ghost var chains: seq<seq<Item>>
    ghost var items: set<Item>

    function Index(key: Key): (i: nat)
      requires buckets.Length > 0
      ensures i < buckets.Length
    {
      hash(key) % buckets.Length
    }

    ghost predicate Shaped()
      reads this
    {
      Equivalence(same) && Agree(hash, same) && |chains| == buckets.Length > 0
    }

    /** Every bucket's links run through its chain, which holds the items of that bucket. */
    ghost predicate Valid()
      reads this, buckets, items
    {
      && Shaped() && count == Total(chains)
      && (forall i, k {:trigger chains[i][k]} :: 0 <= i < |chains| && 0 <= k < |chains[i]| ==>
            chains[i][k] in items && Index(chains[i][k].key) == i && chains[i][k].next == ItemAt(chains[i], k + 1))
      && (forall i {:trigger chains[i]} :: 0 <= i < |chains| ==>
            buckets[i] == ItemAt(chains[i], 0) && Distinct(chains[i]))
    }

    /** The items under a key, newest first. */
    ghost function Under(key: Key): seq<Item>
      requires Shaped()
      reads this
    {
      Stack(chains[Index(key)], key, same)
    }

    constructor (size: nat, hash: Key -> nat, same: (Key, Key) -> bool)
      requires size > 0 && Equivalence(same) && Agree(hash, same)
      ensures Valid() && fresh(buckets) && items == {} && forall key :: Under(key) == []
    {
      var b := new Item?[size](_ => null);
      buckets, this.hash, this.same, count := b, hash, same, 0;
      chains, items := seq(size, _ => []), {};
      new;
      NoItems(chains);
    }

    method Link(index: nat, item: Item)
      requires Valid() && item !in items && index == Index(item.key)
      modifies this`count, this`chains, this`items, buckets, item`next
      ensures Valid() && items == old(items) + {item} && chains == Pushed(old(chains), index, item)
    {
      hide Total, Equivalence, Agree, Table.Index;
      ghost var was := chains;
      ghost var chain := [item] + chains[index];
      TotalUpdate(chains, index, chain);
      item.next := buckets[index];
      buckets[index] := item;
      count := count + 1;
      chains, items := chains[index := chain], items + {item};
      assert forall i :: 0 <= i < |chains| && i != index ==> chains[i] == was[i];
      forall i, j | 0 <= i < |chains| && 0 <= j < |chains[i]|
        ensures chains[i][j] in items && Index(chains[i][j].key) == i && chains[i][j].next == ItemAt(chains[i], j + 1)
      {
        assert i != index ==> chains[i][j] == was[i][j];
        assert i == index && j > 0 ==> chains[i][j] == was[index][j - 1];
      }
      PushedDistinct(was[index], item);
    }

    /** HashTableInsert: the item is the newest under its key. */
    method Insert(item: Item)
      requires Valid() && item !in items
      modifies this`count, this`chains, this`items, buckets, item`next
      ensures Valid() && items == old(items) + {item} && chains == Pushed(old(chains), Index(item.key), item)
      ensures var b := hash(item.key) % buckets.Length; chains == old(chains)[b := [item] + old(chains)[b]]
      ensures forall key :: Under(key) == (if same(item.key, key) then [item] else []) + old(Under(key))
    {
      assert Shaped() && Index(item.key) == hash(item.key) % buckets.Length;
      hide Table.Valid, Table.Index;
      Link(Index(item.key), item);
      forall key
        ensures Stack(chains[Index(key)], key, same)
             == (if same(item.key, key) then [item] else []) + Stack(old(chains)[Index(key)], key, same)
      {
        SameIndex(item.key, key);
        StackPushed(item, old(chains)[Index(item.key)], key, same);
      }
    }

    lemma SameIndex(a: Key, b: Key)
      requires Shaped()
      ensures same(a, b) ==> Index(a) == Index(b)
    {}

    /** HashTableGet: the newest item under the key. */
    method Get(key: Key) returns (r: Item?)
      requires Valid()
      ensures r == ItemAt(Under(key), 0)
    {
      hide Table.Index, Total, Equivalence, Agree, Stack;
      ghost var index := Index(key);
      ghost var chain := chains[index];
      ghost var k := 0;
      r := buckets[Index(key)];
      while r != null && !same(r.key, key)
        invariant k <= |chain| && r == ItemAt(chain, k) && forall i :: 0 <= i < k ==> !same(chain[i].key, key)
        decreases |chain| - k
      {
        assert chains[index][k].next == ItemAt(chain, k + 1);
        r := r.next;
        k := k + 1;
      }
      FirstIs(chain, key, same, k);
      TopOfStack(chain, key, same);
    }

    /** The loop of HashTableDelete. */
    method Find(key: Key) returns (prev: Item?, r: Item?, ghost k: nat)
      requires Valid()
      ensures k == First(chains[Index(key)], key, same) && r == ItemAt(chains[Index(key)], k)
      ensures if k == 0 then prev == null else prev == chains[Index(key)][k - 1]
    {
      hide Table.Index, Total, Equivalence, Agree;
      ghost var index := Index(key);
      ghost var chain := chains[index];
      prev, r, k := null, buckets[Index(key)], 0;
      while r != null && !same(r.key, key)
        invariant k <= |chain| && r == ItemAt(chain, k) && (if k == 0 then prev == null else prev == chain[k - 1])
        invariant forall i :: 0 <= i < k ==> !same(chain[i].key, key)
        decreases |chain| - k
      {
        assert chains[index][k].next == ItemAt(chain, k + 1);
        prev := r;
        r := r.next;
        k := k + 1;
      }
      FirstIs(chain, key, same, k);
    }

    /** Unlinking the k-th item of a chain. */
    method Unlink(index: nat, ghost k: nat, prev: Item?, item: Item)
      requires Valid() && index < buckets.Length && k < |chains[index]| && chains[index][k] == item
      requires if k == 0 then prev == null else prev == chains[index][k - 1]
      modifies this`count, this`chains, this`items, buckets, items`next
      ensures Valid() && items == old(items) - {item} && chains == old(chains)[index := Without(old(chains)[index], k)]
    {
      hide Total, Equivalence, Agree, Table.Index, Distinct;
      TotalUpdate(chains, index, []);
      Disjoint(index, k);
      PreviousIs(index, k, prev);
      label before:
      LinkPast(index, prev, item);
      forall i, j {:trigger chains[i][j]} | 0 <= i < |chains| && 0 <= j < |chains[i]|
        ensures chains[i][j].next == if i == index && j + 1 == k then ItemAt(chains[i], j + 2) else ItemAt(chains[i], j + 1)
      {
        if i == index && j + 1 == k {
          assert chains[i][j] == prev && old@before(item.next) == ItemAt(chains[i], j + 2);
        } else {
          assert chains[i][j] != prev && chains[i][j].next == old@before(chains[i][j].next);
        }
      }
      count := count - 1;
      Settle(index, k);
    }

    /** Link the item before, or the bucket, past the item. */
    method LinkPast(index: nat, prev: Item?, item: Item)
      requires index < buckets.Length
      modifies if prev == null then {buckets} else {}, if prev == null then {} else {prev}`next
      ensures prev == null ==> buckets[index] == item.next
      ensures prev == null ==> forall i :: 0 <= i < buckets.Length && i != index ==> buckets[i] == old(buckets[i])
      ensures prev != null ==> prev.next == old(item.next)
    {
      if prev != null {
        prev.next := item.next;
      } else {
        buckets[index] := item.next;
      }
    }

    lemma PreviousIs(index: nat, k: nat, prev: Item?)
      requires Valid() && index < buckets.Length && k < |chains[index]|
      requires (if k == 0 then prev == null else prev == chains[index][k - 1])
      ensures prev != null ==> k > 0 && prev in items && prev == chains[index][k - 1] && prev.next == chains[index][k]
      ensures forall i, j :: 0 <= i < |chains| && 0 <= j < |chains[i]| && (i != index || j != k - 1) ==>
        chains[i][j] != prev
    {
      if k > 0 { Disjoint(index, k - 1); }
    }

    /** With the links of one chain leaving out an item, the item has left the table. */
    ghost method Settle(index: nat, k: nat)
      requires Shaped() && index < |chains| && k < |chains[index]| && count + 1 == Total(chains)
      requires Distinct(chains[index])
      requires forall i, j {:trigger chains[i][j]} :: 0 <= i < |chains| && 0 <= j < |chains[i]| ==>
        && chains[i][j] in items && Index(chains[i][j].key) == i
        && (i != index || j != k ==> chains[i][j] != chains[index][k])
        && chains[i][j].next == if i == index && j + 1 == k then ItemAt(chains[i], j + 2) else ItemAt(chains[i], j + 1)
      requires forall i {:trigger chains[i]} :: 0 <= i < |chains| ==>
        buckets[i] == (if i == index && k == 0 then ItemAt(chains[i], 1) else ItemAt(chains[i], 0)) && Distinct(chains[i])
      modifies this`chains, this`items
      ensures Valid() && items == old(items) - {old(chains)[index][k]}
      ensures chains == old(chains)[index := Without(old(chains)[index], k)]
    {
      hide Total, Equivalence, Agree, Table.Index, Distinct;
      var was := chains;
      var now := Without(chains[index], k);
      WithoutAt(was[index], k);
      TotalUpdate(was, index, now);
      chains, items := was[index := now], items - {was[index][k]};
      assert forall i :: 0 <= i < |chains| && i != index ==> chains[i] == was[i];
      forall i, j | 0 <= i < |chains| && 0 <= j < |chains[i]|
        ensures chains[i][j] in items && Index(chains[i][j].key) == i && chains[i][j].next == ItemAt(chains[i], j + 1)
      {
        assert i != index ==> chains[i][j] == was[i][j];
        assert i == index ==> chains[i][j] == now[j] == was[index][if j < k then j else j + 1];
      }
    }

    /** The item is in no other place. */
    lemma Disjoint(index: nat, k: nat)
      requires Valid() && index < buckets.Length && k < |chains[index]|
      ensures forall i, j :: 0 <= i < |chains| && 0 <= j < |chains[i]| && (i != index || j != k) ==>
        chains[i][j] != chains[index][k]
    {
      hide Table.Index, Total;
      forall i, j | 0 <= i < |chains| && 0 <= j < |chains[i]| && (i != index || j != k) ensures chains[i][j] != chains[index][k] {
        assert Index(chains[i][j].key) == i && Index(chains[index][k].key) == index;
      }
    }

    /** HashTableDelete: the newest item under the key goes, and exposes the next. */
    method Delete(key: Key) returns (r: Item?)
      requires Valid()
      modifies this`count, this`chains, this`items, buckets, items`next
      ensures Valid() && r == ItemAt(old(Under(key)), 0)
      ensures items == if r == null then old(items) else old(items) - {r}
      ensures forall other :: old(Under(other)) == (if r != null && same(key, other) then [r] else []) + Under(other)
    {
      assert Shaped();
      hide Table.Valid, Table.Index, Stack, Equivalence, Agree, Without, First;
      var prev;
      ghost var k;
      prev, r, k := Find(key);
      ghost var was := chains;
      ghost var index := Index(key);
      TopOfStack(was[index], key, same);
      if r != null {
        Unlink(Index(key), k, prev, r);
        forall other ensures old(Under(other)) == (if same(key, other) then [r] else []) + Under(other) {
          StacksPopped(was, key, k, other);
        }
      }
    }

    /** The stack of `other` before and after the newest item under the key was taken out. */
    lemma StacksPopped(was: seq<seq<Item>>, key: Key, k: nat, other: Key)
      requires Shaped() && |was| == |chains| && k == First(was[Index(key)], key, same) && k < |was[Index(key)]|
      requires chains == was[Index(key) := Without(was[Index(key)], k)]
      ensures Stack(was[Index(other)], other, same)
           == (if same(key, other) then [was[Index(key)][k]] else []) + Stack(chains[Index(other)], other, same)
    {
      SameIndex(key, other);
      StackPopped(was[Index(key)], key, other, same);
      hide Table.Index, Without, First, Stack;
    }

    // ----- clearing

    /** One bucket of HashTableClear: the link is read before the item goes. */
    method FreeChain(index: nat) returns (freed: seq<Item>)
      requires index < buckets.Length == |chains| && buckets[index] == ItemAt(chains[index], 0)
      requires forall k {:trigger chains[index][k]} :: 0 <= k < |chains[index]| ==>
        chains[index][k].next == ItemAt(chains[index], k + 1)
      ensures freed == chains[index]
    {
      freed := [];
      var current := buckets[index];
      while current != null
        invariant |freed| <= |chains[index]| && current == ItemAt(chains[index], |freed|)
        invariant freed == chains[index][..|freed|]
        decreases |chains[index]| - |freed|
      {
        var gone := current;
        current := current.next;
        freed := freed + [gone];
      }
    }

    /** HashTableClear: every item is freed once, if that is asked for, and the table is empty. */
    method Clear(callFree: bool) returns (freed: seq<Item>)
      requires Valid()
      modifies this`count, this`chains, this`items, buckets
      ensures Valid() && count == 0 && items == {} && forall key :: Under(key) == []
      ensures freed == if callFree then Concat(old(chains)) else []
    {
      hide Total, Concat, Equivalence, Agree, Table.Index, Before;
      ghost var was := chains;
      NoneBefore(chains);
      freed := [];
      var i := 0;
      while i < buckets.Length
        invariant i <= buckets.Length && chains == was
        invariant forall j :: 0 <= j < i ==> buckets[j] == null
        invariant forall j :: i <= j < buckets.Length ==> buckets[j] == ItemAt(chains[j], 0)
        invariant freed == if callFree then Before(chains, i) else []
      {
        if callFree {
          var some := FreeChain(i);
          freed := freed + some;
          OneMoreChain(chains, i);
        }
        buckets[i] := null;
        i := i + 1;
      }
      AllBefore(chains);
      count := 0;
      chains, items := seq(buckets.Length, _ => []), {};
      NoItems(chains);
    }
  }

  lemma PushedDistinct(chain: seq<Item>, item: Item)
    requires Distinct(chain) && item !in chain
    ensures Distinct([item] + chain)
  {}

  lemma WithoutAt(chain: seq<Item>, k: nat)
    requires k < |chain|
    ensures var now := Without(chain, k);
      && |now| == |chain| - 1 && (forall j :: 0 <= j < |now| ==> now[j] == if j < k then chain[j] else chain[j + 1])
      && (Distinct(chain) ==> Distinct(now))
  {}

  lemma NoItems(chains: seq<seq<Item>>)
    requires forall i :: 0 <= i < |chains| ==> chains[i] == []
    ensures Total(chains) == 0
  {
    if chains != [] { NoItems(chains[1..]); }
  }

  lemma FirstIs(chain: seq<Item>, key: Key, same: (Key, Key) -> bool, k: nat)
    requires k <= |chain| && (forall i :: 0 <= i < k ==> !same(chain[i].key, key))
    requires (k < |chain| ==> same(chain[k].key, key))
    ensures First(chain, key, same) == k
  {
    var f := First(chain, key, same);
    assert f < |chain| ==> same(chain[f].key, key);
  }

  // ----- iteration

  /** HASH_TABLE_ITERATOR. */
  class Iterator {
    const table: Table
    var index: nat
    var item: Item?
    var atEnd: bool
    ghost var place: nat

    /** The iterator is at the place-th item of a chain. */
    ghost predicate On()
      reads this, table
    {
      index < |table.chains| && place < |table.chains[index]| && item == table.chains[index][place] && !atEnd
    }

    /** How many items come before the iterator's. */
    ghost function Position(): nat
      requires On()
      reads this, table
    {
      |Before(table.chains, index)| + place
    }

    constructor (table: Table)
      ensures this.table == table && atEnd
    {
      this.table, index, item, atEnd, place := table, 0, null, true, 0;
    }

    /** HashTableGetFirst. */
    method GetFirst() returns (found: bool)
      requires table.Valid()
      modifies this
      ensures found == (Concat(table.chains) != [])
      ensures found ==> On() && Position() == 0
    {
      hide Table.Index, Total, Concat;
      ghost var chains := table.chains;
      var i: nat := 0;
      found := false;
      assert chains[..0] == [];
      NoChains();
      while i < table.buckets.Length && !found
        invariant i <= table.buckets.Length && Before(chains, i) == []
        invariant found ==> On() && place == 0 && i == index && Concat(chains) != []
        decreases table.buckets.Length - i, !found
      {
        found := table.buckets[i] != null;
        if found {
          atEnd, index, item, place := false, i, table.buckets[i], 0;
          BeforeAtMost(chains, i);
        } else {
          OneMoreChain(chains, i);
          i := i + 1;
        }
      }
      if !found { AllBefore(chains); }
    }

    /** HashTableGetNext. */
    method GetNext() returns (found: bool)
      requires table.Valid() && On()
      modifies this
      ensures found == (old(Position()) + 1 < |Concat(table.chains)|)
      ensures found ==> On() && Position() == old(Position()) + 1
      ensures atEnd == !found
    {
      hide Table.Valid, Concat, Before;
      ghost var chains := table.chains;
      NextLinks();
      var i, start := index, index;
      ghost var at := Position() + 1;
      found := false;
      while i < table.buckets.Length && !found
        invariant start <= i <= table.buckets.Length
        invariant i == start && !found ==>
          index == start && On() && Position() + 1 == at && item.next == ItemAt(chains[index], place + 1)
        invariant i > start && !found ==> index < i && at == |Before(chains, i)|
        invariant found ==> On() && Position() == at < |Concat(chains)|
        decreases table.buckets.Length - i, !found
      {
        OneMoreChain(chains, i);
        BeforeAtMost(chains, i);
        if i != index {
          item := table.buckets[i];
          index, place := i, 0;
        } else {
          item := item.next;
          place := place + 1;
        }
        found := item != null;
        if found { atEnd := false; } else { i := i + 1; }
      }
      if !found { AllBefore(chains); }
      atEnd := !found;
    }

    lemma NextLinks()
      requires table.Valid() && On()
      ensures forall i {:trigger table.chains[i]} :: 0 <= i < |table.chains| ==>
        table.buckets[i] == ItemAt(table.chains[i], 0)
      ensures |table.chains| == table.buckets.Length && item != null
      ensures item.next == ItemAt(table.chains[index], place + 1)
    {}

    lemma Here()
      requires On()
      ensures Position() < |Concat(table.chains)| && Concat(table.chains)[Position()] == item
    {
      BeforeAtMost(table.chains, index);
    }
  }

  lemma NoChains()
    ensures Concat<Item>([]) == []
  {}

  /** The items of the first n chains. */
  function Before(chains: seq<seq<Item>>, n: nat): seq<Item>
    requires n <= |chains|
  {
    Concat(chains[..n])
  }

  lemma NoneBefore(chains: seq<seq<Item>>)
    ensures Before(chains, 0) == []
  {
    assert chains[..0] == [];
  }

  lemma {:induction false} ConcatSplit(a: seq<seq<Item>>, b: seq<seq<Item>>)
    ensures Concat(a + b) == Concat(a) + Concat(b)
  {
    if a == [] {
      assert a + b == b;
    } else {
      assert (a + b)[1..] == a[1..] + b;
      ConcatSplit(a[1..], b);
    }
  }

  lemma OneMoreChain(chains: seq<seq<Item>>, n: nat)
    requires n < |chains|
    ensures Before(chains, n + 1) == Before(chains, n) + chains[n]
  {
    assert chains[..n + 1] == chains[..n] + [chains[n]];
    ConcatSplit(chains[..n], [chains[n]]);
    var one := [chains[n]];
    assert one[1..] == [] && Concat(one) == chains[n] + [];
  }

  lemma AllBefore(chains: seq<seq<Item>>)
    ensures Before(chains, |chains|) == Concat(chains)
  {
    assert chains[..|chains|] == chains;
  }

  lemma BeforeAtMost(chains: seq<seq<Item>>, n: nat)
    requires n < |chains|
    ensures |Before(chains, n)| + |chains[n]| <= |Concat(chains)|
    ensures forall k :: 0 <= k < |chains[n]| ==> Concat(chains)[|Before(chains, n)| + k] == chains[n][k]
  {
    OneMoreChain(chains, n);
    assert chains == chains[..n + 1] + chains[n + 1..];
    ConcatSplit(chains[..n + 1], chains[n + 1..]);
  }

  /** Iterating visits every item exactly once, in the order of the chains. */
  method Traverse(table: Table) returns (visited: seq<Item>)
    requires table.Valid()
    ensures visited == Concat(table.chains) && |visited| == table.count
    ensures Distinct(visited)
  {
    hide Total, Concat, Before, Table.Valid, Distinct;
    AllDistinct(table);
    ghost var all := Concat(table.chains);
    var it := new Iterator(table);
    visited := [];
    var found := it.GetFirst();
    while found
      invariant it.table == table && fresh(it)
      invariant if found then it.On() && it.Position() == |visited| < |all| && visited == all[..|visited|] else visited == all
      decreases |all| - |visited|, found
    {
      it.Here();
      visited := visited + [it.item];
      found := it.GetNext();
    }
  }

  lemma AllDistinct(table: Table)
    requires table.Valid()
    ensures Distinct(Concat(table.chains)) && |Concat(table.chains)| == table.count
  {
    hide Table.Index, Total;
    TotalIsLength(table.chains);
    DistinctUpTo(table, |table.chains|);
    AllBefore(table.chains);
  }

  lemma {:induction false} DistinctUpTo(table: Table, n: nat)
    requires table.Valid() && n <= |table.chains|
    ensures Distinct(Before(table.chains, n)) && forall x :: x in Before(table.chains, n) ==> table.Index(x.key) < n
    decreases n
  {
    hide Table.Index, Total;
    if n > 0 {
      DistinctUpTo(table, n - 1);
      OneMoreChain(table.chains, n - 1);
      forall x | x in table.chains[n - 1] ensures table.Index(x.key) == n - 1 {
        var k :| 0 <= k < |table.chains[n - 1]| && table.chains[n - 1][k] == x;
      }
    } else {
      assert table.chains[..0] == [];
    }
  }
}
