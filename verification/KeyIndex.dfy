/** A registry key's values: an array for enumeration beside the table for lookup. */
module KeyIndex {
  import opened Basics
  import opened StringRefTable

  datatype Status = Success | NameExists | NoMemory | NoMoreEntries

  /** The enumeration array without its i-th record. */
  function Without(records: seq<Entry>, i: nat): seq<Entry>
    requires i < |records|
  {
    records[..i] + records[i + 1..]
  }

  lemma OneDropped(was: seq<Entry>, i: nat)
    requires i < |was|
    ensures multiset(Without(was, i)) == multiset(was) - multiset{was[i]} && |Without(was, i)| == |was| - 1
    ensures forall k :: 0 <= k < |was| - 1 ==> Without(was, i)[k] == if k < i then was[k] else was[k + 1]
  {
    assert was == was[..i] + [was[i]] + was[i + 1..];
    assert multiset(was) == multiset(Without(was, i)) + multiset{was[i]};
  }

  // ----- the listing and what each call does to it

  /** The names of the listed records in order, and how many the array has room for. */
  datatype Listing = Listing(names: seq<Name>, room: nat)

  datatype Call = AddValue(name: Name, memory: bool) | DeleteValue(name: Name)

  /** The first name with the hash; the number of names if there is none. */
  function Place(names: seq<Name>, hash: nat, hashOf: Name -> nat): (k: nat)
    ensures k <= |names| && (k < |names| ==> hashOf(names[k]) == hash)
    ensures forall i :: 0 <= i < k ==> hashOf(names[i]) != hash
  {
    if names == [] || hashOf(names[0]) == hash then 0 else 1 + Place(names[1..], hash, hashOf)
  }

  predicate Known(names: seq<Name>, hash: nat, hashOf: Name -> nat) { Place(names, hash, hashOf) < |names| }

  /** The listing after a call. */
  function After(s: Listing, call: Call, hashOf: Name -> nat): Listing {
    match call
    case AddValue(name, memory) =>
      if Known(s.names, hashOf(name), hashOf) then s
      else if |s.names| < s.room then Listing(s.names + [name], s.room)
      else if memory then Listing(s.names + [name], |s.names| * 2 + 1)
      else s
    case DeleteValue(name) =>
      var k := Place(s.names, hashOf(name), hashOf);
      if k == |s.names| then s
      else if |s.names| == 1 then Listing([], 0)
      else Listing(s.names[..k] + s.names[k + 1..], s.room)
  }

  function AfterAll(s: Listing, calls: seq<Call>, hashOf: Name -> nat): Listing
    decreases |calls|
  {
    if calls == [] then s else AfterAll(After(s, calls[0], hashOf), calls[1..], hashOf)
  }

  lemma {:induction false} OneMoreCall(s: Listing, calls: seq<Call>, call: Call, hashOf: Name -> nat)
    ensures AfterAll(s, calls + [call], hashOf) == After(AfterAll(s, calls, hashOf), call, hashOf)
    decreases |calls|
  {
    if calls == [] {
      assert [call][1..] == [];
    } else {
      assert (calls + [call])[1..] == calls[1..] + [call];
      OneMoreCall(After(s, calls[0], hashOf), calls[1..], call, hashOf);
    }
  }

  /** No two names have equal hashes, and all names have room. */
  ghost predicate Orderly(s: Listing, hashOf: Name -> nat) {
    && |s.names| <= s.room
    && forall i, j :: 0 <= i < j < |s.names| ==> hashOf(s.names[i]) != hashOf(s.names[j])
  }

  /** Every listing of every run is orderly. */
  lemma {:induction false} RunsAreOrderly(s: Listing, calls: seq<Call>, hashOf: Name -> nat)
    requires Orderly(s, hashOf)
    ensures Orderly(AfterAll(s, calls, hashOf), hashOf)
    decreases |calls|
  {
    if calls != [] {
      assert Orderly(After(s, calls[0], hashOf), hashOf);
      RunsAreOrderly(After(s, calls[0], hashOf), calls[1..], hashOf);
    }
  }

  /** Deleting a name just added takes back exactly what adding did to the names. */
  lemma DeleteUndoesAdd(s: Listing, name: Name, hashOf: Name -> nat)
    requires !Known(s.names, hashOf(name), hashOf) && |s.names| <= s.room
    ensures var t := After(After(s, AddValue(name, true), hashOf), DeleteValue(name), hashOf); t.names == s.names
  {
    var added := s.names + [name];
    assert forall i :: 0 <= i < |s.names| ==> added[i] == s.names[i] && hashOf(added[i]) != hashOf(name);
    assert hashOf(added[|s.names|]) == hashOf(name);
    assert Place(added, hashOf(name), hashOf) == |s.names|;
    hide Place;
    assert added[..|s.names|] + added[|s.names| + 1..] == s.names;
  }

  function NamesOf(records: seq<Entry>): (names: seq<Name>)
    ensures |names| == |records| && forall i :: 0 <= i < |records| ==> names[i] == records[i].name
  {
    seq(|records|, i requires 0 <= i < |records| => records[i].name)
  }

  lemma NamesGrow(records: seq<Entry>, record: Entry)
    ensures NamesOf(records + [record]) == NamesOf(records) + [record.name]
  {}

  lemma NamesShrink(records: seq<Entry>, i: nat)
    requires i < |records|
    ensures NamesOf(Without(records, i)) == NamesOf(records)[..i] + NamesOf(records)[i + 1..]
  {}

  class KeyRecord {
    const table: Table
    var valueRecords: array?<Entry?>
    var valueCount: nat
    var allocCount: nat
    ghost var records: seq<Entry>

    /** The records listed by the array are those in the table, each once, and the array has
        room for them. */
    ghost predicate Valid()
      reads this, valueRecords, table, table.buckets, table.items
    {
      && table.Valid() && valueRecords != table.buckets
      && |records| == valueCount <= allocCount
      && (if valueRecords == null then allocCount == 0 else valueRecords.Length == allocCount > 0)
      && (forall i :: 0 <= i < valueCount ==> valueRecords[i] == records[i])
      && multiset(records) == multiset(Concat<Entry>(table.chains))
    }

    ghost function Shown(): Listing
      reads this
    {
      Listing(NamesOf(records), allocCount)
    }

    /** Who is in the table is listed, and the names tell the hashes. */
    lemma TableIsListed(hash: nat)
      requires Valid()
      ensures HashPresent(table.chains, hash) <==> Known(Shown().names, hash, table.hashOf)
      ensures forall i :: 0 <= i < |records| ==> records[i].hash == table.hashOf(records[i].name)
      ensures forall i :: 0 <= i < |records| && records[i].hash == hash ==>
        Place(Shown().names, hash, table.hashOf) == i
      ensures Orderly(Shown(), table.hashOf)
    {
      hide Table.Valid, Concat, HashPresent;
      table.DistinctEntries(records);
      forall i | 0 <= i < |records| ensures records[i].hash == table.hashOf(records[i].name) && HashPresent(table.chains, records[i].hash) {
        assert records[i] in multiset(records) && records[i] in multiset(Concat<Entry>(table.chains));
        table.OnlyOne(records[i]);
        table.HashIsOfName(records[i]);
      }
      if HashPresent(table.chains, hash) {
        var e := table.WithHash(hash);
        assert e in multiset(Concat<Entry>(table.chains)) && e in multiset(records);
        var i :| 0 <= i < |records| && records[i] == e;
        assert Shown().names[i] == e.name;
      }
    }

    constructor (size: nat, hashOf: Name -> nat, same: (Name, Name) -> bool)
      requires size > 0 && HashDecides(hashOf, same)
      ensures Valid() && Shown() == Listing([], 0) && records == [] && fresh(table) && fresh(table.buckets)
      ensures table.hashOf == hashOf
    {
      table := new Table(size, hashOf, same);
      valueRecords, valueCount, allocCount, records := null, 0, 0, [];
    }

    /** A larger array with the record at its end. */
    method Grow(record: Entry) returns (tmp: array<Entry?>)
      requires valueRecords == null || valueCount <= valueRecords.Length
      requires valueRecords == null ==> valueCount == 0
      ensures fresh(tmp) && tmp.Length == valueCount * 2 + 1 && tmp[valueCount] == record
      ensures forall i :: 0 <= i < valueCount ==> tmp[i] == valueRecords[i]
    {
      tmp := new Entry?[valueCount * 2 + 1](_ => null);
      var i := 0;
      while i < valueCount
        invariant i <= valueCount && forall k :: 0 <= k < i ==> tmp[k] == valueRecords[k]
      {
        tmp[i] := valueRecords[i];
        i := i + 1;
      }
      tmp[valueCount] := record;
    }

    /** The array part of KeyRecordValueAdd; `memory` is whether a larger array can be had. */
    method Append(record: Entry, memory: bool) returns (ok: bool)
      requires |records| == valueCount <= allocCount
      requires forall i :: 0 <= i < valueCount ==>
        valueRecords != null && i < valueRecords.Length && valueRecords[i] == records[i]
      requires if valueRecords == null then allocCount == 0 else valueRecords.Length == allocCount > 0
      modifies this`valueRecords, this`valueCount, this`allocCount, this`records, valueRecords
      ensures ok == (old(valueCount) < old(allocCount) || memory)
      ensures records == if ok then old(records) + [record] else old(records)
      ensures |records| == valueCount <= allocCount && (valueRecords == old(valueRecords) || fresh(valueRecords))
      ensures allocCount == if ok && old(valueCount) == old(allocCount) then old(valueCount) * 2 + 1 else old(allocCount)
      ensures if valueRecords == null then allocCount == 0 else valueRecords.Length == allocCount > 0
      ensures forall i :: 0 <= i < valueCount ==> valueRecords[i] == records[i]
    {
      ok := true;
      if allocCount == valueCount {
        if memory {
          var tmp := Grow(record);
          valueRecords, allocCount := tmp, tmp.Length;
        } else {
          ok := false;
        }
      } else {
        valueRecords[valueCount] := record;
      }
      if ok {
        valueCount, records := valueCount + 1, records + [record];
      }
    }

    /** The table after a new entry was put in, and the array before it follows. */
    lemma NewInTable(entry: Entry)
      requires table.Valid() && multiset(Concat<Entry>(table.chains)) == multiset(records) + multiset{entry}
      ensures multiset(Concat<Entry>(table.chains)) == multiset(records + [entry])
      ensures entry in Concat<Entry>(table.chains)
    {
      assert entry in multiset(Concat<Entry>(table.chains));
    }

    /** The part of KeyRecordValueAdd for a new table entry. */
    method Finish(name: Name, entry: Entry, memory: bool) returns (ok: bool)
      requires table.Valid() && valueRecords != table.buckets && entry.hash == table.hashOf(name)
      requires |records| == valueCount <= allocCount
      requires (if valueRecords == null then allocCount == 0 else valueRecords.Length == allocCount > 0)
      requires forall i :: 0 <= i < valueCount ==> valueRecords[i] == records[i]
      requires multiset(Concat<Entry>(table.chains)) == multiset(records) + multiset{entry}
      modifies this, valueRecords, table`chains, table`items, table.buckets, table.items`next
      ensures Valid() && ok == (old(valueCount) < old(allocCount) || memory)
      ensures records == if ok then old(records) + [entry] else old(records)
      ensures (valueRecords == old(valueRecords) || fresh(valueRecords)) && table.items <= old(table.items)
      ensures allocCount == if ok && old(valueCount) == old(allocCount) then old(valueCount) * 2 + 1 else old(allocCount)
    {
      hide Table.Valid, Concat, HashPresent;
      NewInTable(entry);
      ok := Append(entry, memory);
      if !ok { TakeBack(name, entry); }
    }

    /** What KeyRecordValueAdd does to the table and the array. */
    method AddRecord(name: Name, memory: bool) returns (status: Status, record: Entry?)
      requires Valid()
      modifies this, valueRecords, table`chains, table`items, table.buckets, table.items`next
      ensures Valid()
      ensures status == if HashPresent(old(table.chains), table.hashOf(name)) then NameExists
                        else if old(valueCount) == old(allocCount) && !memory then NoMemory else Success
      ensures status == Success ==>
        record != null && fresh(record) && record.name == name && records == old(records) + [record]
      ensures status == NameExists ==> record != null && record in records && record.hash == table.hashOf(name)
      ensures status != Success ==> records == old(records)
      ensures allocCount == if status == Success && old(valueCount) == old(allocCount) then old(valueCount) * 2 + 1 else old(allocCount)
      ensures valueRecords == old(valueRecords) || fresh(valueRecords)
      ensures fresh(table.items - old(table.items))
    {
      hide Table.Valid, Concat, HashPresent, HashDecides;
      var tmpRecord := new Entry(name, table.hashOf(name));
      var inserted := table.Insert(tmpRecord);
      record := inserted;
      if inserted == tmpRecord {
        var ok := Finish(name, tmpRecord, memory);
        if ok { status := Success; } else { status, record := NoMemory, null; }
      } else {
        assert record in multiset(records);
        status := NameExists;
      }
    }

    /** KeyRecordValueAdd: refused exactly if a record has an equal hash; if memory runs out
        the table entry is taken back. */
    method Add(name: Name, memory: bool) returns (status: Status, record: Entry?)
      requires Valid()
      modifies this, valueRecords, table`chains, table`items, table.buckets, table.items`next
      ensures Valid()
      ensures status == if Known(old(Shown()).names, table.hashOf(name), table.hashOf) then NameExists
                        else if old(valueCount) == old(allocCount) && !memory then NoMemory else Success
      ensures Shown() == After(old(Shown()), AddValue(name, memory), table.hashOf)
      ensures status == NameExists <==> exists i :: 0 <= i < |old(records)| && old(records)[i].hash == table.hashOf(name)
      ensures allocCount == if status == Success && old(valueCount) == old(allocCount) then old(valueCount) * 2 + 1 else old(allocCount)
      ensures status == Success ==>
        record != null && fresh(record) && record.name == name && records == old(records) + [record]
      ensures status == NameExists ==> record != null && record in records && record.hash == table.hashOf(name)
      ensures status != Success ==> records == old(records)
      ensures valueRecords == old(valueRecords) || fresh(valueRecords)
      ensures fresh(table.items - old(table.items))
    {
      TableIsListed(table.hashOf(name));
      assert |records| == valueCount <= allocCount;
      hide Valid, HashPresent, Known;
      ghost var was := records;
      status, record := AddRecord(name, memory);
      if status == Success { NamesGrow(was, record); }
    }

    /** Deleting the entry just inserted. */
    method TakeBack(name: Name, entry: Entry)
      requires table.Valid() && multiset(Concat<Entry>(table.chains)) == multiset(records) + multiset{entry}
      requires entry in Concat<Entry>(table.chains) && entry.hash == table.hashOf(name)
      modifies table`chains, table`items, table.buckets, table.items`next
      ensures table.Valid() && multiset(Concat<Entry>(table.chains)) == multiset(records)
      ensures table.items <= old(table.items)
    {
      hide Table.Valid, Concat, HashPresent;
      table.OnlyOne(entry);
      var deleted := table.Delete(name);
      assert multiset(records) + multiset{entry} - multiset{entry} == multiset(records);
    }

    method Find(record: Entry) returns (i: nat)
      requires |records| == valueCount && record in records
      requires forall k :: 0 <= k < valueCount ==>
        valueRecords != null && k < valueRecords.Length && valueRecords[k] == records[k]
      ensures i < valueCount && records[i] == record
    {
      i := 0;
      while valueRecords[i] != record
        invariant i < valueCount && record in records[i..]
        decreases valueCount - i
      {
        i := i + 1;
      }
    }

    /** The array part of KeyRecordValueDelete: the records behind are moved down, and an
        empty array is freed. */
    method Drop(record: Entry) returns (i: nat)
      requires |records| == valueCount <= allocCount && record in records
      requires if valueRecords == null then allocCount == 0 else valueRecords.Length == allocCount > 0
      requires forall i :: 0 <= i < valueCount ==> valueRecords[i] == records[i]
      modifies this`valueRecords, this`valueCount, this`allocCount, this`records, valueRecords
      ensures i < |old(records)| && old(records)[i] == record && records == Without(old(records), i)
      ensures multiset(records) == multiset(old(records)) - multiset{record}
      ensures |records| == valueCount <= allocCount && (valueRecords == old(valueRecords) || valueRecords == null)
      ensures if valueRecords == null then allocCount == 0 else valueRecords.Length == allocCount > 0
      ensures allocCount == if valueCount == 0 then 0 else old(allocCount)
      ensures forall i :: 0 <= i < valueCount ==> valueRecords[i] == records[i]
    {
      i := Find(record);
      OneDropped(records, i);
      hide Without;
      MoveDown(i);
      records := Without(records, i);
      valueCount := valueCount - 1;
      FreeIfEmpty();
    }

    method FreeIfEmpty()
      modifies this`valueRecords, this`allocCount
      ensures if valueCount == 0 then valueRecords == null && allocCount == 0
              else valueRecords == old(valueRecords) && allocCount == old(allocCount)
    {
      if valueCount == 0 {
        valueRecords, allocCount := null, 0;
      }
    }

    /** memmove of the records behind the i-th. */
    method MoveDown(i: nat)
      requires i < valueCount && valueRecords != null && valueCount <= valueRecords.Length
      modifies valueRecords
      ensures forall k :: 0 <= k < valueRecords.Length ==>
        valueRecords[k] == if i <= k < valueCount - 1 then old(valueRecords[k + 1]) else old(valueRecords[k])
    {
      var k := i;
      while k < valueCount - 1
        invariant i <= k <= valueCount - 1
        invariant forall j :: 0 <= j < valueRecords.Length ==>
          valueRecords[j] == if i <= j < k then old(valueRecords[j + 1]) else old(valueRecords[j])
      {
        valueRecords[k] := valueRecords[k + 1];
        k := k + 1;
      }
    }

    /** What KeyRecordValueDelete does to the table and the array. */
    method DeleteRecord(name: Name) returns (deleted: Entry?, ghost i: nat)
      requires Valid()
      modifies this, valueRecords, table`chains, table`items, table.buckets, table.items`next
      ensures Valid()
      ensures deleted == null <==> !HashPresent(old(table.chains), table.hashOf(name))
      ensures deleted == null ==> records == old(records) && allocCount == old(allocCount)
      ensures deleted != null ==> deleted.hash == table.hashOf(name) && i < |old(records)| && old(records)[i] == deleted
      ensures deleted != null ==>
        records == Without(old(records), i) && allocCount == if |records| == 0 then 0 else old(allocCount)
      ensures valueRecords == old(valueRecords) || valueRecords == null
      ensures table.items <= old(table.items)
    {
      hide Table.Valid, Concat, HashPresent, Without;
      i := 0;
      ghost var before := multiset(Concat<Entry>(table.chains));
      deleted := table.Delete(name);
      ghost var after := multiset(Concat<Entry>(table.chains));
      if deleted != null {
        assert deleted in multiset(records) && after == before - multiset{deleted};
        i := Drop(deleted);
        assert multiset(records) == after;
      }
    }

    /** KeyRecordValueDelete: table and array lose the record with an equal hash. */
    method Delete(name: Name) returns (deleted: Entry?)
      requires Valid()
      modifies this, valueRecords, table`chains, table`items, table.buckets, table.items`next
      ensures Valid()
      ensures deleted != null <==> Known(old(Shown()).names, table.hashOf(name), table.hashOf)
      ensures Shown() == After(old(Shown()), DeleteValue(name), table.hashOf)
      ensures deleted != null <==> exists i :: 0 <= i < |old(records)| && old(records)[i].hash == table.hashOf(name)
      ensures allocCount == if deleted != null && |records| == 0 then 0 else old(allocCount)
      ensures deleted == null ==> records == old(records)
      ensures deleted != null ==> deleted.hash == table.hashOf(name) && deleted in old(records)
                                  && exists i ::
                                     && 0 <= i < |old(records)| && old(records)[i] == deleted
                                     && records == Without(old(records), i)
      ensures valueRecords == old(valueRecords) || valueRecords == null
      ensures table.items <= old(table.items)
    {
      TableIsListed(table.hashOf(name));
      hide Valid, HashPresent, Place, Without;
      ghost var was := records;
      ghost var i;
      deleted, i := DeleteRecord(name);
      if deleted != null {
        NamesShrink(was, i);
        OneDropped(was, i);
      }
    }

    /** KeyRecordOnEnumValue. */
    method EnumValue(index: nat) returns (status: Status, record: Entry?)
      requires Valid()
      ensures if index < |records| then status == Success && record == records[index] else status == NoMoreEntries
    {
      if index < valueCount {
        status, record := Success, valueRecords[index];
      } else {
        status, record := NoMoreEntries, null;
      }
    }

    /** Enumerating 0, 1, 2, ... until there are no more entries yields every record of the
        table exactly once. */
    method EnumerateAll() returns (all: seq<Entry>)
      requires Valid()
      ensures multiset(all) == multiset(Concat<Entry>(table.chains)) && |all| == valueCount
      ensures forall i, j :: 0 <= i < j < |all| ==> all[i].hash != all[j].hash
    {
      hide Table.Valid, Concat;
      all := [];
      var status, record := EnumValue(0);
      while status == Success
        invariant |all| <= |records| && all == records[..|all|]
        invariant if status == Success then |all| < |records| && record == records[|all|] else |all| == |records|
        invariant status == Success || status == NoMoreEntries
        decreases |records| - |all|, status == Success
      {
        all := all + [record];
        status, record := EnumValue(|all|);
      }
      assert all == records;
      table.DistinctEntries(all);
    }

    /** Any run of additions and deletions keeps array and table in agreement, and lists what
        the calls say, one after the other. */
    method Run(calls: seq<Call>)
      requires Valid()
      modifies this, valueRecords, table, table.buckets, table.items
      ensures Valid() && Shown() == AfterAll(old(Shown()), calls, table.hashOf)
    {
      hide Valid, After;
      var i := 0;
      assert calls[..0] == [];
      while i < |calls|
        invariant i <= |calls| && Valid()
        invariant Shown() == AfterAll(old(Shown()), calls[..i], table.hashOf)
        invariant valueRecords == old(valueRecords) || valueRecords == null || fresh(valueRecords)
        invariant fresh(table.items - old(table.items))
      {
        OneMoreCall(old(Shown()), calls[..i], calls[i], table.hashOf);
        assert calls[..i + 1] == calls[..i] + [calls[i]];
        match calls[i] {
          case AddValue(name, memory) => var status, record := Add(name, memory);
          case DeleteValue(name) => var deleted := Delete(name);
        }
        i := i + 1;
      }
      assert calls[..i] == calls;
    }
  }
}
