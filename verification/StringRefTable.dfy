/** The table of named records, chained through the records, whose chain walk does not stop
    at a match. */
module StringRefTable {
  import opened Basics

  type Name = seq<nat>

  class Entry {
    const name: Name
    const hash: nat
    var next: Entry?

    constructor (name: Name, hash: nat)
      ensures this.name == name && this.hash == hash
    {
      this.name, this.hash := name, hash;
    }
  }

  function EntryAt(chain: seq<Entry>, k: nat): Entry? { if k < |chain| then chain[k] else null }

  ghost predicate DistinctHashes(chain: seq<Entry>) {
    forall i, j :: 0 <= i < j < |chain| ==> chain[i].hash != chain[j].hash
  }

  /** The links run through the chain. */
  ghost predicate Linked(head: Entry?, chain: seq<Entry>)
    reads chain
  {
    head == EntryAt(chain, 0) && forall k {:trigger chain[k]} :: 0 <= k < |chain| ==> chain[k].next == EntryAt(chain, k + 1)
  }

  /** _KeysEqual. */
  predicate KeysEqual(e: Entry, name: Name, hash: nat, same: (Name, Name) -> bool) {
    e.hash == hash || same(e.name, name)
  }

  /** Names that are the same have the same hash, so equal hashes alone decide. */
  ghost predicate HashDecides(hashOf: Name -> nat, same: (Name, Name) -> bool) {
    forall a, b :: same(a, b) ==> hashOf(a) == hashOf(b)
  }

  // ----- the chain walk

  /** What is left after a deleting walk: a match is unlinked unless the entry before it was. */
  function Skip(chain: seq<Entry>, hash: nat): seq<Entry> {
    if chain == [] then [] else if chain[0].hash == hash then Keep(chain[1..], hash) else [chain[0]] + Skip(chain[1..], hash)
  }

  function Keep(chain: seq<Entry>, hash: nat): seq<Entry> {
    if chain == [] then [] else [chain[0]] + Skip(chain[1..], hash)
  }

  /** Two neighbours in the chain both match. */
  predicate Neighbours(chain: seq<Entry>, hash: nat) {
    exists k :: 0 <= k < |chain| - 1 && chain[k].hash == hash == chain[k + 1].hash
  }

  function Others(chain: seq<Entry>, hash: nat): seq<Entry> {
    if chain == [] then [] else (if chain[0].hash == hash then [] else [chain[0]]) + Others(chain[1..], hash)
  }

  /** The walk unlinks all matches exactly if no two neighbours match. */
  lemma {:induction false} WalkUnlinksAll(chain: seq<Entry>, hash: nat)
    ensures Skip(chain, hash) == Others(chain, hash) <==> !Neighbours(chain, hash)
    ensures |Others(chain, hash)| <= |Skip(chain, hash)|
    decreases |chain|
  {
    if |chain| > 1 {
      var rest, more := chain[1..], chain[2..];
      assert rest[1..] == more;
      NeighboursHead(chain, hash);
      WalkUnlinksAll(rest, hash);
      if chain[0].hash == hash {
        WalkUnlinksAll(more, hash);
        assert Skip(chain, hash) == [chain[1]] + Skip(more, hash);
        if chain[1].hash == hash {
          assert Others(chain, hash) == Others(more, hash);
        } else {
          if |rest| > 1 { NeighboursHead(rest, hash); }
          assert Others(chain, hash) == [chain[1]] + Others(more, hash);
          SameTails(chain[1], Skip(more, hash), Others(more, hash));
        }
      } else {
        SameTails(chain[0], Skip(rest, hash), Others(rest, hash));
      }
    } else if |chain| == 1 {
      assert chain[1..] == [];
    }
  }

  lemma SameTails(e: Entry, a: seq<Entry>, b: seq<Entry>)
    ensures [e] + a == [e] + b <==> a == b
  {
    assert ([e] + a)[1..] == a && ([e] + b)[1..] == b;
  }

  lemma NeighboursHead(chain: seq<Entry>, hash: nat)
    requires |chain| > 1
    ensures Neighbours(chain, hash) <==> (chain[0].hash == hash == chain[1].hash) || Neighbours(chain[1..], hash)
  {
    if Neighbours(chain[1..], hash) {
      var k :| 0 <= k < |chain[1..]| - 1 && chain[1..][k].hash == hash == chain[1..][k + 1].hash;
      assert chain[k + 1].hash == hash == chain[k + 1 + 1].hash;
    }
    if Neighbours(chain, hash) {
      var k :| 0 <= k < |chain| - 1 && chain[k].hash == hash == chain[k + 1].hash;
      if k > 0 { assert chain[1..][k - 1].hash == hash == chain[1..][k - 1 + 1].hash; }
    }
  }

  /** The links a deleting walk leaves. */
  ghost predicate Walked(head: Entry?, chain: seq<Entry>, hash: nat)
    reads chain
  {
    && head == (if chain != [] && chain[0].hash == hash then EntryAt(chain, 1) else EntryAt(chain, 0))
    && (forall k {:trigger chain[k]} :: 0 <= k < |chain| ==>
          chain[k].next == if k + 1 < |chain| && chain[k + 1].hash == hash then EntryAt(chain, k + 2) else EntryAt(chain, k + 1))
  }

  /** The links after k entries of the walk. */
  ghost predicate SoFar(head: Entry?, chain: seq<Entry>, hash: nat, k: nat)
    requires k <= |chain|
    reads chain
  {
    && head == (if 0 < k && chain[0].hash == hash then EntryAt(chain, 1) else EntryAt(chain, 0))
    && (forall j {:trigger chain[j]} :: 0 <= j < |chain| ==>
          chain[j].next == if j + 1 < k && chain[j + 1].hash == hash then EntryAt(chain, j + 2) else EntryAt(chain, j + 1))
  }

  lemma WalkBegins(head: Entry?, chain: seq<Entry>, hash: nat)
    requires Linked(head, chain)
    ensures SoFar(head, chain, hash, 0) && head == EntryAt(chain, 0)
  {}

  lemma WalkEnds(head: Entry?, chain: seq<Entry>, hash: nat, k: nat)
    requires k == |chain| && SoFar(head, chain, hash, k)
    ensures Walked(head, chain, hash)
  {}

  lemma WalkGoesOn(head: Entry?, chain: seq<Entry>, hash: nat, k: nat)
    requires k < |chain| && SoFar(head, chain, hash, k)
    ensures chain[k].hash != hash ==> SoFar(head, chain, hash, k + 1)
    ensures chain[k].next == EntryAt(chain, k + 1)
  {}

  /** The last of the first k entries with the hash. */
  function Last(chain: seq<Entry>, hash: nat, k: nat): (e: Entry?)
    requires k <= |chain|
    ensures e == null <==> forall i :: 0 <= i < k ==> chain[i].hash != hash
    ensures e != null ==> e.hash == hash && exists j :: 0 <= j < k && chain[j] == e && forall i :: j < i < k ==> chain[i].hash != hash
  {
    if k == 0 then null else if chain[k - 1].hash == hash then chain[k - 1] else Last(chain, hash, k - 1)
  }

  lemma {:induction false} LastIsMatch(chain: seq<Entry>, hash: nat, k: nat, m: nat)
    requires k <= |chain| && forall i {:trigger chain[i]} :: 0 <= i < |chain| ==> (chain[i].hash == hash <==> i == m)
    ensures Last(chain, hash, k) == if m < k then chain[m] else null
  {
    if k > 0 { LastIsMatch(chain, hash, k - 1, m); }
  }

  lemma {:induction false} WalkedFrom(chain: seq<Entry>, hash: nat, k: nat)
    requires k <= |chain|
    requires forall j {:trigger chain[j]} :: 0 <= j < |chain| ==>
      chain[j].next == if j + 1 < |chain| && chain[j + 1].hash == hash then EntryAt(chain, j + 2) else EntryAt(chain, j + 1)
    ensures Linked(EntryAt(chain, k), Keep(chain[k..], hash))
    decreases |chain| - k
  {
    if k < |chain| {
      var rest := chain[k + 1..];
      assert chain[k..][0] == chain[k] && chain[k..][1..] == rest;
      if rest != [] && rest[0].hash == hash {
        WalkedFrom(chain, hash, k + 2);
        assert rest[1..] == chain[k + 2..];
        LinkedCons(chain[k], Keep(chain[k + 2..], hash));
      } else {
        WalkedFrom(chain, hash, k + 1);
        assert Skip(rest, hash) == Keep(rest, hash);
        LinkedCons(chain[k], Keep(rest, hash));
      }
    }
  }

  lemma LinkedCons(e: Entry, rest: seq<Entry>)
    requires Linked(e.next, rest)
    ensures Linked(e, [e] + rest)
  {
    assert forall k :: 0 < k < |[e] + rest| ==> ([e] + rest)[k] == rest[k - 1];
  }

  lemma WalkedIsLinked(head: Entry?, chain: seq<Entry>, hash: nat)
    requires Walked(head, chain, hash)
    ensures Linked(head, Skip(chain, hash))
  {
    if chain != [] && chain[0].hash == hash {
      WalkedFrom(chain, hash, 1);
    } else {
      WalkedFrom(chain, hash, 0);
      assert chain[0..] == chain;
    }
  }

  /** With pairwise distinct hashes there is at most one match, and the walk unlinks it. */
  lemma {:induction false} OneMatch(chain: seq<Entry>, hash: nat, k: nat)
    requires DistinctHashes(chain) && k < |chain| && chain[k].hash == hash
    ensures Skip(chain, hash) == chain[..k] + chain[k + 1..]
    decreases k
  {
    if k == 0 {
      NoMatch(chain[1..], hash);
      assert Skip(chain, hash) == Keep(chain[1..], hash) == chain[1..];
    } else {
      OneMatch(chain[1..], hash, k - 1);
      assert chain[..k] == [chain[0]] + chain[1..][..k - 1] && chain[1..][k..] == chain[k + 1..];
    }
  }

  lemma {:induction false} NoMatch(chain: seq<Entry>, hash: nat)
    requires forall k :: 0 <= k < |chain| ==> chain[k].hash != hash
    ensures Skip(chain, hash) == chain == Keep(chain, hash)
  {
    if chain != [] { NoMatch(chain[1..], hash); }
  }

  lemma Step(a: multiset<Entry>, more: multiset<Entry>, c: multiset<Entry>, rest: multiset<Entry>, d: multiset<Entry>)
    requires more + c == rest + d
    ensures (a + more) + c == (a + rest) + d
  {
    assert (a + more) + c == a + (more + c);
    assert (a + rest) + d == a + (rest + d);
  }

  lemma Swap(a: multiset<Entry>, b: multiset<Entry>, c: multiset<Entry>)
    ensures (a + b) + c == (c + b) + a
  {}

  lemma Cancel(a: multiset<Entry>, b: multiset<Entry>, c: multiset<Entry>)
    requires a + c == b + c
    ensures a == b
  {
    assert (a + c) - c == a && (b + c) - c == b;
  }

  lemma Pushed(now: multiset<Entry>, was: multiset<Entry>, c: multiset<Entry>, e: Entry)
    requires now + c == was + (multiset{e} + c)
    ensures now == was + multiset{e}
  {
    assert was + (multiset{e} + c) == (was + multiset{e}) + c;
    Cancel(now, was + multiset{e}, c);
  }

  lemma Popped(now: multiset<Entry>, was: multiset<Entry>, less: multiset<Entry>, e: Entry)
    requires now + (less + multiset{e}) == was + less
    ensures now == was - multiset{e}
  {
    assert now + (less + multiset{e}) == (now + multiset{e}) + less;
    Cancel(now + multiset{e}, was, less);
    assert (now + multiset{e}) - multiset{e} == now;
  }

  /** The entries of the table after one chain was replaced. */
  lemma {:induction false} ConcatUpdate(chains: seq<seq<Entry>>, i: nat, chain: seq<Entry>)
    requires i < |chains|
    ensures multiset(Concat<Entry>(chains[i := chain])) + multiset(chains[i]) == multiset(Concat<Entry>(chains)) + multiset(chain)
  {
    hide Concat;
    var now := chains[i := chain];
    ConcatHead(chains);
    ConcatHead(now);
    if i > 0 {
      assert now[1..] == chains[1..][i - 1 := chain] && now[0] == chains[0] && chains[1..][i - 1] == chains[i];
      ConcatUpdate(chains[1..], i - 1, chain);
      Step(multiset(chains[0]), multiset(Concat<Entry>(now[1..])), multiset(chains[i]),
           multiset(Concat<Entry>(chains[1..])), multiset(chain));
    } else {
      assert now[1..] == chains[1..];
      Swap(multiset(chain), multiset(Concat<Entry>(chains[1..])), multiset(chains[0]));
    }
  }

  lemma ConcatHead(chains: seq<seq<Entry>>)
    requires chains != []
    ensures multiset(Concat<Entry>(chains)) == multiset(chains[0]) + multiset(Concat<Entry>(chains[1..]))
  {}

  lemma PushedCount(chains: seq<seq<Entry>>, i: nat, e: Entry)
    requires i < |chains|
    ensures multiset(Concat<Entry>(chains[i := [e] + chains[i]])) == multiset(Concat<Entry>(chains)) + multiset{e}
  {
    hide Concat;
    ConcatUpdate(chains, i, [e] + chains[i]);
    assert multiset([e] + chains[i]) == multiset{e} + multiset(chains[i]);
    Pushed(multiset(Concat<Entry>(chains[i := [e] + chains[i]])), multiset(Concat<Entry>(chains)), multiset(chains[i]),
           e);
  }

  lemma RemovedCount(chains: seq<seq<Entry>>, i: nat, k: nat)
    requires i < |chains| && k < |chains[i]|
    ensures multiset(Concat<Entry>(Removed(chains, i, k))) == multiset(Concat<Entry>(chains)) - multiset{chains[i][k]}
  {
    hide Concat;
    var chain := chains[i];
    var less := chain[..k] + chain[k + 1..];
    ConcatUpdate(chains, i, less);
    OneLess(chain, k);
    Popped(multiset(Concat<Entry>(Removed(chains, i, k))), multiset(Concat<Entry>(chains)), multiset(less), chain[k]);
  }

  lemma OneLess(chain: seq<Entry>, k: nat)
    requires k < |chain|
    ensures multiset(chain) == multiset(chain[..k] + chain[k + 1..]) + multiset{chain[k]}
  {
    assert chain == chain[..k] + [chain[k]] + chain[k + 1..];
  }

  /** The chains without the k-th entry of one of them. */
  function Removed(chains: seq<seq<Entry>>, i: nat, k: nat): seq<seq<Entry>>
    requires i < |chains| && k < |chains[i]|
  {
    chains[i := chains[i][..k] + chains[i][k + 1..]]
  }

  class Table {
    const buckets: array<Entry?>
    const hashOf: Name -> nat
    const same: (Name, Name) -> bool
    ghost var chains: seq<seq<Entry>>
    ghost var items: set<Entry>

    function Index(hash: nat): (i: nat)
      requires buckets.Length > 0
      ensures i < buckets.Length
    {
      hash % buckets.Length
    }

    ghost predicate Shaped()
      reads this
    {
      HashDecides(hashOf, same) && |chains| == buckets.Length > 0
    }

    /** The links run through the chains, every entry is in the chain of its bucket, and no
        two entries of a chain have equal hashes. */
    ghost predicate Valid()
      reads this, buckets, items
    {
      && Shaped()
      && (forall i, k {:trigger chains[i][k]} :: 0 <= i < |chains| && 0 <= k < |chains[i]| ==>
            && chains[i][k] in items && Index(chains[i][k].hash) == i && chains[i][k].hash == hashOf(chains[i][k].name)
            && chains[i][k].next == EntryAt(chains[i], k + 1))
      && (forall i {:trigger chains[i]} :: 0 <= i < |chains| ==>
            buckets[i] == EntryAt(chains[i], 0) && DistinctHashes(chains[i]))
    }

    constructor (size: nat, hashOf: Name -> nat, same: (Name, Name) -> bool)
      requires size > 0 && HashDecides(hashOf, same)
      ensures Valid() && fresh(buckets) && items == {} && Concat<Entry>(chains) == [] && this.hashOf == hashOf
      ensures this.same == same
    {
      var b := new Entry?[size](_ => null);
      buckets, this.hashOf, this.same := b, hashOf, same;
      chains, items := seq(size, _ => []), {};
      new;
      NoEntries(chains);
    }

    /** The entry of a chain with a hash; the length of the chain if there is none. */
    ghost function Match(chain: seq<Entry>, hash: nat): (k: nat)
      ensures k <= |chain| && (forall i :: 0 <= i < k ==> chain[i].hash != hash)
      ensures (k < |chain| ==> chain[k].hash == hash)
    {
      if chain == [] || chain[0].hash == hash then 0 else 1 + Match(chain[1..], hash)
    }

    /** In a chain, comparing keys is comparing hashes, and there is at most one match. */
    lemma ChainFacts(name: Name, hash: nat)
      requires Valid() && hash == hashOf(name)
      ensures |chains| == buckets.Length
      ensures var chain := chains[Index(hash)];
        && Linked(buckets[Index(hash)], chain) && KeysAreHashes(chain, name, hash) && Distinct(chain)
        && (forall j {:trigger chain[j]} :: 0 <= j < |chain| ==>
              chain[j] in items && (chain[j].hash == hash <==> j == Match(chain, hash)))
        && Last(chain, hash, |chain|) == EntryAt(chain, Match(chain, hash))
    {
      hide Table.Index;
      var index := Index(hash);
      var chain := chains[index];
      assert DistinctHashes(chain);
      forall j {:trigger chain[j]} | 0 <= j < |chain|
        ensures chain[j] in items && chain[j].next == EntryAt(chain, j + 1)
        ensures KeysEqual(chain[j], name, hash, same) <==> chain[j].hash == hash
        ensures chain[j].hash == hash <==> j == Match(chain, hash)
      {
        assert chain[j] == chains[index][j];
        assert same(chain[j].name, name) ==> chain[j].hash == hash;
      }
      LastIsMatch(chain, hash, |chain|, Match(chain, hash));
    }

    ghost predicate KeysAreHashes(chain: seq<Entry>, name: Name, hash: nat) {
      forall j {:trigger chain[j]} :: 0 <= j < |chain| ==> (KeysEqual(chain[j], name, hash, same) <==> chain[j].hash == hash)
    }

    /** _ChainWalk without deleting. */
    method WalkFind(name: Name, hash: nat) returns (r: Entry?)
      requires Valid() && hash == hashOf(name)
      ensures r == EntryAt(chains[Index(hash)], Match(chains[Index(hash)], hash))
    {
      hide Table.Index, Table.Valid, Table.Match, KeysEqual;
      ChainFacts(name, hash);
      ghost var chain := chains[Index(hash)];
      ghost var k: nat := 0;
      var current := buckets[Index(hash)];
      r := null;
      while current != null
        invariant k <= |chain| && current == EntryAt(chain, k)
        invariant if Match(chain, hash) < k then r == chain[Match(chain, hash)] else r == null
        decreases |chain| - k
      {
        if KeysEqual(current, name, hash, same) {
          r := current;
        }
        current := current.next;
        k := k + 1;
      }
    }

    /** Link the entry before, or the bucket, past the current entry, which is a match. */
    method LinkPast(index: nat, prev: Entry?, current: Entry, ghost chain: seq<Entry>, ghost hash: nat, ghost k: nat)
      requires index < buckets.Length && k < |chain| && current == chain[k]
      requires prev == (if k == 0 then null else chain[k - 1])
      requires SoFar(buckets[index], chain, hash, k) && Distinct(chain) && current.hash == hash
      modifies buckets, chain`next
      ensures SoFar(buckets[index], chain, hash, k + 1) && current.next == EntryAt(chain, k + 1)
      ensures forall i :: 0 <= i < buckets.Length && i != index ==> buckets[i] == old(buckets[i])
    {
      if prev != null {
        prev.next := current.next;
      } else {
        buckets[index] := current.next;
      }
    }

    /** One entry of the deleting walk. */
    method WalkOne(name: Name, hash: nat, index: nat, prev: Entry?, current: Entry, ghost chain: seq<Entry>,
                   ghost k: nat)
      returns (found: bool)
      requires index < buckets.Length && k < |chain| && current == chain[k]
      requires prev == (if k == 0 then null else chain[k - 1])
      requires SoFar(buckets[index], chain, hash, k) && Distinct(chain)
      requires (KeysEqual(current, name, hash, same) <==> current.hash == hash)
      modifies buckets, chain`next
      ensures SoFar(buckets[index], chain, hash, k + 1) && current.next == EntryAt(chain, k + 1)
      ensures found == (current.hash == hash)
      ensures forall i :: 0 <= i < buckets.Length && i != index ==> buckets[i] == old(buckets[i])
    {
      hide SoFar, KeysEqual, Distinct;
      WalkGoesOn(buckets[index], chain, hash, k);
      found := KeysEqual(current, name, hash, same);
      if found {
        LinkPast(index, prev, current, chain, hash, k);
      }
    }

    /** _ChainWalk with deleting, on any chain: at every match the entry visited before, itself
        unlinked or not, is linked to the one after, and the walk goes on.  The last match is
        returned. */
    method WalkChain(index: nat, name: Name, hash: nat, ghost chain: seq<Entry>) returns (r: Entry?)
      requires index < buckets.Length && Linked(buckets[index], chain) && Distinct(chain)
      requires KeysAreHashes(chain, name, hash)
      modifies buckets, chain`next
      ensures Walked(buckets[index], chain, hash) && r == Last(chain, hash, |chain|)
      ensures forall i :: 0 <= i < buckets.Length && i != index ==> buckets[i] == old(buckets[i])
    {
      WalkBegins(buckets[index], chain, hash);
      hide SoFar, KeysEqual, Distinct, Walked, Linked;
      ghost var k: nat := 0;
      var prev: Entry? := null;
      var current := buckets[index];
      r := null;
      while current != null
        invariant k <= |chain| && current == EntryAt(chain, k) && prev == (if k == 0 then null else chain[k - 1])
        invariant r == Last(chain, hash, k)
        invariant SoFar(buckets[index], chain, hash, k)
        invariant forall i :: 0 <= i < buckets.Length && i != index ==> buckets[i] == old(buckets[i])
        decreases |chain| - k
      {
        var found := WalkOne(name, hash, index, prev, current, chain, k);
        if found { r := current; }
        prev := current;
        current := current.next;
        k := k + 1;
      }
      WalkEnds(buckets[index], chain, hash, k);
    }

    /** A deleting walk leaves the links of the chain skipping matches. */
    method WalkDelete(name: Name, hash: nat) returns (r: Entry?)
      requires Valid() && hash == hashOf(name)
      modifies buckets, chains[Index(hash)]`next
      ensures r == EntryAt(chains[Index(hash)], Match(chains[Index(hash)], hash))
      ensures Walked(buckets[Index(hash)], chains[Index(hash)], hash)
      ensures forall i :: 0 <= i < buckets.Length && i != Index(hash) ==> buckets[i] == old(buckets[i])
    {
      hide Table.Index, Table.Valid, Table.Match, KeysEqual, Walked, Distinct, Linked, Last;
      ChainFacts(name, hash);
      r := WalkChain(Index(hash), name, hash, chains[Index(hash)]);
    }

    /** StringRefTableInsert: refused exactly if an entry has an equal hash, which is then
        returned. */
    method Insert(entry: Entry) returns (r: Entry)
      requires Valid() && entry !in items && entry.hash == hashOf(entry.name)
      modifies this`chains, this`items, buckets, entry`next
      ensures Valid()
      ensures HashPresent(old(chains), entry.hash) ==>
        && r != entry && r.hash == entry.hash && r in Concat<Entry>(chains)
        && chains == old(chains) && items == old(items)
      ensures !HashPresent(old(chains), entry.hash) ==>
        && r == entry && items == old(items) + {entry}
        && multiset(Concat<Entry>(chains)) == multiset(old(Concat<Entry>(chains))) + multiset{entry}
      ensures var b := entry.hash % buckets.Length;
        !HashPresent(old(chains), entry.hash) ==> chains == old(chains)[b := [entry] + old(chains)[b]]
    {
      assert Shaped() && Index(entry.hash) == entry.hash % buckets.Length;
      hide Table.Valid, Table.Index, Table.Match, Concat;
      var found := WalkFind(entry.name, entry.hash);
      Presence(entry.name, entry.hash);
      ghost var index := Index(entry.hash);
      if found == null {
        PushedCount(chains, index, entry);
        Link(Index(entry.hash), entry);
        r := entry;
      } else {
        r := found;
      }
    }

    /** An entry with the hash is found in its bucket's chain or nowhere. */
    lemma Presence(name: Name, hash: nat)
      requires Valid()
      ensures |chains| == buckets.Length
      ensures var chain := chains[Index(hash)];
        && (HashPresent(chains, hash) <==> Match(chain, hash) < |chain|)
        && (Match(chain, hash) < |chain| ==>
              var e := chain[Match(chain, hash)]; e in items && e.hash == hash && e in Concat<Entry>(chains))
    {
      hide Table.Index;
      var index := Index(hash);
      var chain := chains[index];
      if HashPresent(chains, hash) {
        var i, k :| 0 <= i < |chains| && 0 <= k < |chains[i]| && chains[i][k].hash == hash;
        assert i == index;
      }
      if Match(chain, hash) < |chain| {
        var k := Match(chain, hash);
        assert chains[index][k].hash == hash;
        InConcat(chains, index, k);
      }
    }

    /** Every entry is an item, and no other entry has its hash. */
    lemma OnlyOne(entry: Entry)
      requires Valid() && entry in Concat<Entry>(chains)
      ensures entry in items && HashPresent(chains, entry.hash)
      ensures forall e :: e in Concat<Entry>(chains) && e.hash == entry.hash ==> e == entry
    {
      hide Table.Index, Concat;
      var i, k := WhereIs(chains, entry);
      assert DistinctHashes(chains[i]);
      forall e | e in Concat<Entry>(chains) && e.hash == entry.hash ensures e == entry {
        var j, l := WhereIs(chains, e);
        assert chains[j][l] == e && chains[i][k] == entry;
      }
    }

    lemma HashIsOfName(entry: Entry)
      requires Valid() && entry in Concat<Entry>(chains)
      ensures entry.hash == hashOf(entry.name)
    {
      hide Table.Index, Concat;
      var i, k := WhereIs(chains, entry);
      assert chains[i][k] == entry;
    }

    /** The entry with a hash. */
    lemma WithHash(hash: nat) returns (e: Entry)
      requires HashPresent(chains, hash)
      ensures e in Concat<Entry>(chains) && e.hash == hash
    {
      var i, k :| 0 <= i < |chains| && 0 <= k < |chains[i]| && chains[i][k].hash == hash;
      e := chains[i][k];
      InConcat(chains, i, k);
    }

    /** A list of the table's entries, each as often as it is there, has pairwise distinct
        hashes. */
    lemma DistinctEntries(all: seq<Entry>)
      requires Valid() && multiset(all) == multiset(Concat<Entry>(chains))
      ensures forall i, j :: 0 <= i < j < |all| ==> all[i].hash != all[j].hash
    {
      hide Table.Index, Concat;
      forall i, j | 0 <= i < j < |all| ensures all[i].hash != all[j].hash {
        assert all[i] in multiset(all) && all[j] in multiset(all);
        OnlyOne(all[i]);
        OnceEach(all[i]);
        AtMostOnce(all, i, j);
      }
    }

    lemma OnceEach(e: Entry)
      requires Valid()
      ensures multiset(Concat<Entry>(chains))[e] <= 1
    {
      hide Table.Index, Concat, DistinctHashes;
      UpTo(|chains|, e);
      assert chains[..|chains|] == chains;
    }

    lemma {:induction false} UpTo(n: nat, e: Entry)
      requires Valid() && n <= |chains|
      ensures multiset(Concat<Entry>(chains[..n]))[e] <= 1
      ensures e in Concat<Entry>(chains[..n]) ==> Index(e.hash) < n
      decreases n
    {
      hide Table.Index, Concat, DistinctHashes;
      if n > 0 {
        UpTo(n - 1, e);
        ConcatSnoc(chains[..n - 1], chains[n - 1]);
        assert chains[..n] == chains[..n - 1] + [chains[n - 1]];
        OnceInChain(chains[n - 1], e);
        assert e in chains[n - 1] ==> Index(e.hash) == n - 1;
      } else {
        NoConcat();
        assert chains[..0] == [];
      }
    }

    method Link(index: nat, entry: Entry)
      requires Valid() && entry !in items && entry.hash == hashOf(entry.name) && index == Index(entry.hash)
      requires !HashPresent(chains, entry.hash)
      modifies this`chains, this`items, buckets, entry`next
      ensures Valid() && items == old(items) + {entry} && chains == old(chains)[index := [entry] + old(chains)[index]]
    {
      StillDistinct(chains, index, entry);
      hide Table.Index, DistinctHashes, HashDecides, HashPresent;
      entry.next := buckets[index];
      buckets[index] := entry;
      SettleLinked(index, entry);
    }

    /** With an entry linked in front of a chain, it is in the table. */
    ghost method SettleLinked(index: nat, entry: Entry)
      requires Shaped() && index < |chains| && entry.hash == hashOf(entry.name) && index == Index(entry.hash)
      requires buckets[index] == entry && entry.next == EntryAt(chains[index], 0)
      requires DistinctHashes([entry] + chains[index])
      requires forall i, j {:trigger chains[i][j]} :: 0 <= i < |chains| && 0 <= j < |chains[i]| ==>
        && chains[i][j] in items && Index(chains[i][j].hash) == i && chains[i][j].hash == hashOf(chains[i][j].name)
        && chains[i][j].next == EntryAt(chains[i], j + 1)
      requires forall i {:trigger chains[i]} :: 0 <= i < |chains| && i != index ==>
        buckets[i] == EntryAt(chains[i], 0) && DistinctHashes(chains[i])
      modifies this`chains, this`items
      ensures Valid() && items == old(items) + {entry} && chains == old(chains)[index := [entry] + old(chains)[index]]
    {
      hide Table.Index, DistinctHashes, HashDecides;
      var was := chains;
      chains, items := chains[index := [entry] + chains[index]], items + {entry};
      assert forall i :: 0 <= i < |chains| && i != index ==> chains[i] == was[i];
      forall i, j | 0 <= i < |chains| && 0 <= j < |chains[i]|
        ensures chains[i][j] in items && Index(chains[i][j].hash) == i && chains[i][j].hash == hashOf(chains[i][j].name)
        ensures chains[i][j].next == EntryAt(chains[i], j + 1)
      {
        assert i != index ==> chains[i][j] == was[i][j];
        assert i == index && j > 0 ==> chains[i][j] == was[index][j - 1];
      }
    }

    /** StringRefTableDelete: exactly one entry leaves the table, the one with an equal hash. */
    method Delete(name: Name) returns (r: Entry?)
      requires Valid()
      modifies this`chains, this`items, buckets, items`next
      ensures Valid()
      ensures r == null <==> !HashPresent(old(chains), hashOf(name))
      ensures r == null ==> chains == old(chains) && items == old(items)
      ensures r != null ==> && r.hash == hashOf(name) && r in old(Concat<Entry>(chains)) && items == old(items) - {r}
                            && multiset(Concat<Entry>(chains)) == multiset(old(Concat<Entry>(chains))) - multiset{r}
    {
      var hash := hashOf(name);
      hide Table.Valid, Table.Index, Table.Match, Concat, Walked;
      Presence(name, hash);
      ghost var was := chains;
      ghost var index, k := Index(hash), Match(chains[Index(hash)], hash);
      r := Unlink(name, hash);
      if r != null { RemovedCount(was, index, k); }
    }

    method Unlink(name: Name, hash: nat) returns (r: Entry?)
      requires Valid() && hash == hashOf(name)
      modifies this`chains, this`items, buckets, items`next
      ensures Valid() && |old(chains)| == buckets.Length
      ensures var chain := old(chains)[Index(hash)]; var k := Match(chain, hash);
        && r == EntryAt(chain, k)
        && (if k < |chain| then chains == Removed(old(chains), Index(hash), k) && items == old(items) - {chain[k]}
            else chains == old(chains) && items == old(items))
    {
      hide Table.Index, DistinctHashes, HashDecides, Walked, Skip, Table.Match, Linked;
      ghost var index := Index(hash);
      ghost var chain := chains[index];
      ghost var k := Match(chain, hash);
      OtherChains(index);
      r := WalkDelete(name, hash);
      WalkedIsLinked(buckets[index], chain, hash);
      if k < |chain| {
        OneMatch(chain, hash, k);
        Settle(index, k);
      } else {
        NoMatch(chain, hash);
      }
    }

    /** With the links of one chain leaving out an entry, the entry has left the table. */
    ghost method Settle(index: nat, k: nat)
      requires Shaped() && index < |chains| && k < |chains[index]| && DistinctHashes(chains[index])
      requires Linked(buckets[index], chains[index][..k] + chains[index][k + 1..])
      requires forall i, j {:trigger chains[i][j]} :: 0 <= i < |chains| && 0 <= j < |chains[i]| ==>
        && chains[i][j] in items && Index(chains[i][j].hash) == i && chains[i][j].hash == hashOf(chains[i][j].name)
        && (i != index ==> chains[i][j].next == EntryAt(chains[i], j + 1) && chains[i][j] !in chains[index])
      requires forall i {:trigger chains[i]} :: 0 <= i < |chains| && i != index ==>
        buckets[i] == EntryAt(chains[i], 0) && DistinctHashes(chains[i])
      modifies this`chains, this`items
      ensures Valid() && chains == Removed(old(chains), index, k) && items == old(items) - {old(chains)[index][k]}
    {
      hide Table.Index, DistinctHashes, HashDecides;
      var was := chains;
      AfterUnlink(was, index, k);
      chains, items := Removed(was, index, k), items - {was[index][k]};
      var now := chains[index];
      assert forall i :: 0 <= i < |chains| && i != index ==> chains[i] == was[i];
      forall i, j | 0 <= i < |chains| && 0 <= j < |chains[i]|
        ensures chains[i][j] in items && Index(chains[i][j].hash) == i && chains[i][j].hash == hashOf(chains[i][j].name)
        ensures chains[i][j].next == EntryAt(chains[i], j + 1)
      {
        if i != index {
          assert chains[i][j] == was[i][j] && was[index][k] in was[index];
        } else {
          assert chains[i][j] == now[j] == was[index][if j < k then j else j + 1];
        }
      }
    }

    /** Chains have no entry in common. */
    lemma OtherChains(index: nat)
      requires Valid() && index < |chains|
      ensures forall i, j {:trigger chains[i][j]} :: 0 <= i < |chains| && 0 <= j < |chains[i]| && i != index ==>
        chains[i][j] !in chains[index]
    {
      hide Table.Index;
      forall i, j | 0 <= i < |chains| && 0 <= j < |chains[i]| && i != index ensures chains[i][j] !in chains[index] {
        forall k | 0 <= k < |chains[index]| ensures chains[index][k] != chains[i][j] {
          assert Index(chains[index][k].hash) == index;
        }
      }
    }
  }

  lemma StillDistinct(chains: seq<seq<Entry>>, index: nat, entry: Entry)
    requires index < |chains| && DistinctHashes(chains[index]) && !HashPresent(chains, entry.hash)
    ensures DistinctHashes([entry] + chains[index])
  {
    var chain := [entry] + chains[index];
    forall i, j | 0 <= i < j < |chain| ensures chain[i].hash != chain[j].hash {
      assert chain[j] == chains[index][j - 1] && (i > 0 ==> chain[i] == chains[index][i - 1]);
      assert chains[index][j - 1].hash != entry.hash;
    }
  }

  /** Some entry has the hash. */
  ghost predicate HashPresent(chains: seq<seq<Entry>>, hash: nat) {
    exists i, k :: 0 <= i < |chains| && 0 <= k < |chains[i]| && chains[i][k].hash == hash
  }

  lemma {:induction false} InConcat(chains: seq<seq<Entry>>, i: nat, k: nat)
    requires i < |chains| && k < |chains[i]|
    ensures chains[i][k] in Concat<Entry>(chains)
  {
    if i > 0 { InConcat(chains[1..], i - 1, k); }
  }

  lemma {:induction false} WhereIs(chains: seq<seq<Entry>>, e: Entry) returns (i: nat, k: nat)
    requires e in Concat<Entry>(chains)
    ensures i < |chains| && k < |chains[i]| && chains[i][k] == e
  {
    if e in chains[0] {
      i := 0;
      k :| k < |chains[0]| && chains[0][k] == e;
    } else {
      i, k := WhereIs(chains[1..], e);
      i := i + 1;
    }
  }

  lemma NoConcat()
    ensures Concat<Entry>([]) == []
  {}

  lemma AtMostOnce(all: seq<Entry>, i: nat, j: nat)
    requires i < j < |all| && multiset(all)[all[i]] <= 1
    ensures all[i] != all[j]
  {
    assert all == all[..i] + [all[i]] + all[i + 1..j] + [all[j]] + all[j + 1..];
  }

  lemma {:induction false} ConcatSnoc(chains: seq<seq<Entry>>, chain: seq<Entry>)
    ensures Concat<Entry>(chains + [chain]) == Concat<Entry>(chains) + chain
  {
    if chains == [] {
      assert chains + [chain] == [chain] && [chain][1..] == [];
    } else {
      assert (chains + [chain])[1..] == chains[1..] + [chain];
      ConcatSnoc(chains[1..], chain);
    }
  }

  lemma {:induction false} OnceInChain(chain: seq<Entry>, e: Entry)
    requires DistinctHashes(chain)
    ensures multiset(chain)[e] <= 1
  {
    if chain != [] {
      OnceInChain(chain[1..], e);
      assert chain == [chain[0]] + chain[1..];
      if chain[0] == e {
        forall k | 0 <= k < |chain[1..]| ensures chain[1..][k] != e { assert chain[k + 1].hash != chain[0].hash; }
      }
    }
  }

  lemma AfterUnlink(chains: seq<seq<Entry>>, index: nat, k: nat)
    requires index < |chains| && k < |chains[index]| && DistinctHashes(chains[index])
    ensures var now := chains[index][..k] + chains[index][k + 1..];
      && DistinctHashes(now) && chains[index][k] !in now
      && (forall j :: 0 <= j < |now| ==> now[j] == chains[index][if j < k then j else j + 1])
  {}

  lemma NoEntries(chains: seq<seq<Entry>>)
    requires forall i :: 0 <= i < |chains| ==> chains[i] == []
    ensures Concat<Entry>(chains) == []
  {
    if chains != [] { NoEntries(chains[1..]); }
  }
}