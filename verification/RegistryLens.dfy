/** A registry value that readers see with the driver's filter name in it, while the value
    stored is without. */
module RegistryLens {
  import opened MultiString

  const REG_MULTI_SZ: nat := 7

  /** The list that a value's data stands for, terminated or not. */
  function ListOf(data: Text): seq<Text> { Entries(data + Zeros(2), 0) }

  /** Nothing follows the end of the list. */
  predicate Tidy(data: Text) { End(data + Zeros(2), 0) + 1 >= |data| }

  lemma {:induction false} LengthPadded(d: Text, n: nat, at: nat)
    requires n >= 1 && at <= |d|
    ensures Length(d + Zeros(n), at) == Length(d, at)
    decreases |d| - at
  {
    var b := d + Zeros(n);
    if at < |d| {
      assert b[at] == d[at];
      if d[at] != 0 { LengthPadded(d, n, at + 1); }
    } else {
      assert b[at] == 0;
    }
  }

  /** How much padding there is does not matter. */
  lemma {:induction false} PaddingIsNothing(d: Text, m: nat, n: nat, at: nat)
    requires m >= 2 && n >= 2 && at <= |d| + 1
    ensures Entries(d + Zeros(m), at) == Entries(d + Zeros(n), at) && End(d + Zeros(m), at) == End(d + Zeros(n), at)
    decreases |d| + 1 - at
  {
    hide Length, Zeros;
    PaddedString(d, m, at);
    PaddedString(d, n, at);
    if at < |d| && d[at] != 0 {
      PaddingIsNothing(d, m, n, at + Length(d, at) + 1);
    }
  }

  lemma PaddedString(d: Text, n: nat, at: nat)
    requires n >= 2 && at <= |d| + 1
    ensures var b := d + Zeros(n);
      && at < |b| && b[at] == (if at < |d| then d[at] else 0)
      && (at < |d| ==>
            && Length(b, at) == Length(d, at) && at + Length(d, at) <= |d|
            && b[at..at + Length(d, at)] == d[at..at + Length(d, at)])
  {
    hide Length;
    if at < |d| { LengthPadded(d, n, at); }
  }

  /** A buffer cut behind its list stands for that list. */
  lemma CutBehindList(b: Text)
    requires |b| > 0 && End(b, 0) < |b|
    ensures ListOf(b[..End(b, 0) + 1]) == Entries(b, 0) && Tidy(b[..End(b, 0) + 1])
  {
    hide End, Entries, Flatten;
    BufferIsWholeList(b);
    assert b[..End(b, 0) + 1] == b[..End(b, 0)] + [0];
    WholeListIsBuffer(b[..End(b, 0) + 1] + Zeros(2), Entries(b, 0), Zeros(2));
  }

  // ----- the callbacks

  /** A zeroed buffer with the data at its front. */
  method Buffer(data: Text, more: nat) returns (tmp: array<wchar>)
    ensures fresh(tmp) && tmp[..] == data + Zeros(more)
  {
    tmp := new wchar[|data| + more](i requires 0 <= i < |data| + more => if i < |data| then data[i] else 0);
    forall i | 0 <= i < tmp.Length ensures tmp[i] == (data + Zeros(more))[i] {}
  }

  /** What a reader sees: the name once, at the configured end. */
  function Shown(list: seq<Text>, name: Text, beginning: bool, up: wchar -> wchar): seq<Text> {
    if Has(list, name, up) then list else if beginning then [name] + list else list + [name]
  }

  /** The character there; zeroed memory behind the data. */
  function Char(data: Text, i: nat): wchar { if i < |data| then data[i] else 0 }

  /** Where the name ends if it is put at the end of the list. */
  function NameEnd(data: Text, name: Text): nat { End(data + Zeros(2), 0) + |name| }

  /** Two NULs follow the place of the name. */
  predicate Room(data: Text, name: Text) { Char(data, NameEnd(data, name)) == 0 == Char(data, NameEnd(data, name) + 1) }

  /** The name at the end of a list, read together with the two characters behind it. */
  function Spelled(name: Text, x: wchar, y: wchar): seq<Text> {
    if x != 0 then [name + [x] + if y != 0 then [y] else []] else if y != 0 then [name, [y]] else [name]
  }

  /** What a reader really sees. */
  function Seen(data: Text, name: Text, beginning: bool, up: wchar -> wchar): seq<Text> {
    if Has(ListOf(data), name, up) then ListOf(data)
    else if beginning then [name] + ListOf(data)
    else ListOf(data) + Spelled(name, Char(data, NameEnd(data, name)), Char(data, NameEnd(data, name) + 1))
  }

  /** What a reader sees is what it should see exactly if the name is there already or goes
      to the front, or two NULs follow its place. */
  lemma SeenAsShown(data: Text, name: Text, beginning: bool, up: wchar -> wchar)
    ensures Seen(data, name, beginning, up) == Shown(ListOf(data), name, beginning, up) <==>
      Has(ListOf(data), name, up) || beginning || Room(data, name)
  {
    hide Has, ListOf, NameEnd;
    var x, y := Char(data, NameEnd(data, name)), Char(data, NameEnd(data, name) + 1);
    if x != 0 { assert |Spelled(name, x, y)[0]| > |name|; }
    assert ListOf(data) + Spelled(name, x, y) == ListOf(data) + [name] ==> Spelled(name, x, y) == [name] by {
      assert (ListOf(data) + Spelled(name, x, y))[|ListOf(data)|..] == Spelled(name, x, y);
      assert (ListOf(data) + [name])[|ListOf(data)|..] == [name];
    }
  }

  lemma TidyHasRoom(data: Text, name: Text)
    requires Tidy(data) && name != []
    ensures Room(data, name)
  {}

  lemma FlattenWith(list: seq<Text>, name: Text, x: wchar, y: wchar)
    ensures Flatten(list + Spelled(name, x, y)) ==
      Flatten(list) + (if x != 0 then name + [x] + (if y != 0 then [y] else []) + [0]
                       else if y != 0 then name + [0] + [y] + [0] else name + [0])
  {
    FlattenSplit(list, Spelled(name, x, y));
    if x == 0 && y != 0 {
      FlattenSplit([name], [[y]]);
      assert Spelled(name, x, y) == [name] + [[y]];
      FlattenOne([y]);
    } else {
      FlattenOne(Spelled(name, x, y)[0]);
    }
    FlattenOne(name);
  }

  /** The buffer after the name was put at the end and everything behind it was cut off. */
  lemma AppendedReads(b: Text, name: Text)
    requires GoodName(name) && End(b, 0) + |name| + 2 <= |b|
    ensures var e := End(b, 0) + |name|; var c := Appended(b, name);
      |c| == |b| && ListOf(c[..e + 2]) == Entries(b, 0) + Spelled(name, b[e], b[e + 1]) && Tidy(c[..e + 2])
  {
    hide End, Entries, Flatten, Appended, Zeros;
    var list, e := Entries(b, 0), End(b, 0) + |name|;
    var x, y := b[e], b[e + 1];
    BufferIsWholeList(b);
    AppendedLooksRight(b, name);
    FlattenWith(list, name, x, y);
    var c := Appended(b, name)[..e + 2];
    assert c == Flatten(list) + name + [x, y] by { assert c[..e] == Appended(b, name)[..e]; }
    TwoZeros();
    var rest := if x == 0 == y then [0, 0] else if x != 0 && y == 0 then [0] else [];
    assert c + Zeros(2) == Flatten(list + Spelled(name, x, y)) + [0] + rest;
    WholeListIsBuffer(c + Zeros(2), list + Spelled(name, x, y), rest);
  }

  lemma TwoZeros()
    ensures Zeros(2) == [0, 0]
  {}

  /** _QueryCallback. */
  method QueryCallback(data: Text, regType: nat, name: Text, beginning: bool, up: wchar -> wchar)
    returns (r: Text, t: nat)
    requires GoodName(name)
    ensures ListOf(r) == Seen(data, name, beginning, up)
    ensures if Has(ListOf(data), name, up) then r == data && t == regType else t == REG_MULTI_SZ && Tidy(r)
  {
    hide End, Entries, Flatten, Has, Prepended, Appended;
    ghost var b := data + Zeros(3 + |name|);
    PaddingIsNothing(data, 2, 3 + |name|, 0);
    RoomToInsert(data, name);
    var tmp := Buffer(data, 3 + |name|);
    var inserted, newSize := Insert(tmp, name, beginning, up);
    r, t := data, regType;
    if inserted {
      r, t := tmp[..newSize / WCHAR_SIZE], REG_MULTI_SZ;
      assert r == tmp[..][..newSize / WCHAR_SIZE];
      if beginning {
        PrependedList(b, name);
        CutBehindList(tmp[..]);
      } else {
        AppendedReads(b, name);
        assert forall i :: 0 <= i < |b| ==> b[i] == Char(data, i);
      }
    }
  }

  /** _SetCallback. */
  method SetCallback(data: Text, regType: nat, name: Text, up: wchar -> wchar) returns (r: Text, t: nat)
    ensures ListOf(r) == Without(ListOf(data), name, up)
    ensures if Has(ListOf(data), name, up) then t == REG_MULTI_SZ && Tidy(r) else r == data && t == regType
  {
    hide End, Entries, Flatten, Has, Without;
    RoomToRemove(data);
    var tmp := Buffer(data, 2);
    var removed, newSize := Remove(tmp, name, up);
    r, t := data, regType;
    if removed {
      CutBehindList(tmp[..]);
      r, t := tmp[..newSize / WCHAR_SIZE], REG_MULTI_SZ;
      assert r == tmp[..][..newSize / WCHAR_SIZE];
    }
  }

  /** What is seen through further callbacks of a list that one of them has made. */
  function SeenThrough(list: seq<Text>, name: Text, filters: seq<bool>, up: wchar -> wchar): seq<Text>
    decreases |filters|
  {
    if filters == [] then list else SeenThrough(Shown(list, name, filters[0], up), name, filters[1..], up)
  }

  lemma {:induction false} ThroughOneMore(list: seq<Text>, name: Text, filters: seq<bool>, f: bool, up: wchar -> wchar)
    ensures SeenThrough(list, name, filters + [f], up) == Shown(SeenThrough(list, name, filters, up), name, f, up)
    decreases |filters|
  {
    hide Shown;
    if filters == [] {
      assert [f][1..] == [];
    } else {
      assert (filters + [f])[1..] == filters[1..] + [f];
      ThroughOneMore(Shown(list, name, filters[0], up), name, filters[1..], f, up);
    }
  }

  /** Once the name is there the other callbacks change nothing. */
  lemma {:induction false} NothingMoreSeen(list: seq<Text>, name: Text, filters: seq<bool>, up: wchar -> wchar)
    requires Has(list, name, up)
    ensures SeenThrough(list, name, filters, up) == list
    decreases |filters|
  {
    if filters != [] { NothingMoreSeen(list, name, filters[1..], up); }
  }

  // ----- lists without the name

  /** The entries that are not the name. */
  function Others(list: seq<Text>, name: Text, up: wchar -> wchar): seq<Text> {
    if list == [] then [] else (if Same(list[0], name, up) then [] else [list[0]]) + Others(list[1..], name, up)
  }

  function Count(list: seq<Text>, name: Text, up: wchar -> wchar): nat {
    if list == [] then 0 else (if Same(list[0], name, up) then 1 else 0) + Count(list[1..], name, up)
  }

  /** The first n entries that are the name taken out, one after the other. */
  function WithoutFirst(list: seq<Text>, name: Text, up: wchar -> wchar, n: nat): seq<Text>
    decreases n
  {
    if n == 0 then list else WithoutFirst(Without(list, name, up), name, up, n - 1)
  }

  lemma {:induction false} OneFewer(list: seq<Text>, name: Text, up: wchar -> wchar)
    ensures Others(Without(list, name, up), name, up) == Others(list, name, up)
    ensures Count(Without(list, name, up), name, up) == if Count(list, name, up) > 0 then Count(list, name, up) - 1 else 0
    ensures Has(list, name, up) <==> Count(list, name, up) > 0
    ensures !Has(list, name, up) ==> Others(list, name, up) == list
  {
    if list != [] {
      OneFewer(list[1..], name, up);
      if Same(list[0], name, up) {
        assert Without(list, name, up) == list[1..];
      } else {
        WithoutTail(list, name, up);
        assert ([list[0]] + Without(list[1..], name, up))[1..] == Without(list[1..], name, up);
      }
    }
  }

  lemma ShiftedCut(list: seq<Text>, k: nat)
    requires k + 1 < |list|
    ensures list[..k + 1] + list[k + 2..] == [list[0]] + (list[1..][..k] + list[1..][k + 1..])
  {
    assert list[..k + 1] == [list[0]] + list[1..][..k];
  }

  lemma WithoutTail(list: seq<Text>, name: Text, up: wchar -> wchar)
    requires list != [] && !Same(list[0], name, up)
    ensures Without(list, name, up) == [list[0]] + Without(list[1..], name, up)
    ensures Has(list, name, up) == Has(list[1..], name, up)
  {
    hide Same;
    var k := FirstMatch(list[1..], name, up);
    assert FirstMatch(list, name, up) == k + 1;
    hide FirstMatch;
    if k < |list[1..]| { ShiftedCut(list, k); }
  }

  /** Taking out n names leaves one exactly if there were more than n. */
  lemma {:induction false} ManyFewer(list: seq<Text>, name: Text, up: wchar -> wchar, n: nat)
    ensures Has(WithoutFirst(list, name, up, n), name, up) <==> Count(list, name, up) > n
    ensures Count(list, name, up) <= n ==> WithoutFirst(list, name, up, n) == Others(list, name, up)
    decreases n
  {
    hide Others, Count, Has, Without, FirstMatch, Same;
    OneFewer(list, name, up);
    if n > 0 { ManyFewer(Without(list, name, up), name, up, n - 1); }
  }

  // ----- the value record

  /** `filters` are the registered callbacks, each with its configured end. */
  class ValueRecord {
    var data: Text
    var regType: nat
    const name: Text
    const filters: seq<bool>
    const up: wchar -> wchar

    constructor (data: Text, regType: nat, name: Text, filters: seq<bool>, up: wchar -> wchar)
      ensures this.data == data && this.regType == regType && this.name == name && this.filters == filters
      ensures this.up == up
    {
      this.data, this.regType, this.name, this.filters, this.up := data, regType, name, filters, up;
    }

    ghost predicate Clean()
      reads this
    {
      !Has(ListOf(data), name, up)
    }

    /** What the value holds is shown with the name, if one filter is there to show it. */
    ghost predicate Shows()
      reads this
    {
      filters != [] && (Has(ListOf(data), name, up) || filters[0] || Room(data, name))
    }

    /** What a reader sees through all callbacks. */
    ghost function View(): seq<Text>
      reads this
    {
      if filters == [] then ListOf(data) else SeenThrough(Seen(data, name, filters[0], up), name, filters[1..], up)
    }

    /** ValueRecordCallbackQueryInvoke. */
    method Query() returns (r: Text, t: nat)
      requires GoodName(name)
      ensures ListOf(r) == View()
      ensures Shows() ==> ListOf(r) == Shown(ListOf(data), name, filters[0], up)
      ensures t == if filters == [] || Has(ListOf(data), name, up) then regType else REG_MULTI_SZ
    {
      hide ListOf, Tidy, Has, MultiString.End, Room, Seen, Shown, SeenThrough;
      r, t := data, regType;
      if filters == [] { return; }
      SeenAsShown(data, name, filters[0], up);
      SeenUnchanged(data, name, filters[0], up);
      r, t := QueryCallback(data, regType, name, filters[0], up);
      var i := 1;
      assert filters[1..1] == [];
      NoMoreFilters(Seen(data, name, filters[0], up), name, up);
      while i < |filters|
        invariant 1 <= i <= |filters| && (Has(ListOf(r), name, up) || Tidy(r))
        invariant ListOf(r) == SeenThrough(Seen(data, name, filters[0], up), name, filters[1..i], up)
        invariant Has(ListOf(data), name, up) ==> r == data && t == regType
        invariant !Has(ListOf(data), name, up) ==> t == REG_MULTI_SZ
      {
        ThroughOneMore(Seen(data, name, filters[0], up), name, filters[1..i], filters[i], up);
        assert filters[1..i + 1] == filters[1..i] + [filters[i]];
        if Tidy(r) { TidyHasRoom(r, name); }
        SeenAsShown(r, name, filters[i], up);
        ghost var was := r;
        r, t := QueryCallback(r, t, name, filters[i], up);
        i := i + 1;
      }
      assert filters[1..i] == filters[1..];
      if Shows() {
        ShownIsThere(ListOf(data), name, filters[0], up);
        NothingMoreSeen(Seen(data, name, filters[0], up), name, filters[1..], up);
      }
    }

    /** _ValueRecordCallbackSetInvoke. */
    method InvokeSet(d: Text, t: nat) returns (r: Text, rt: nat)
      ensures ListOf(r) == WithoutFirst(ListOf(d), name, up, |filters|)
      ensures if filters != [] && Has(ListOf(d), name, up) then Tidy(r) && rt == REG_MULTI_SZ else r == d && rt == t
    {
      hide ListOf, Tidy, Has, Without;
      r, rt := d, t;
      var i := 0;
      while i < |filters|
        invariant i <= |filters|
        invariant WithoutFirst(ListOf(r), name, up, |filters| - i) == WithoutFirst(ListOf(d), name, up, |filters|)
        invariant if i > 0 && Has(ListOf(d), name, up) then Tidy(r) && rt == REG_MULTI_SZ else r == d && rt == t
      {
        r, rt := SetCallback(r, rt, name, up);
        i := i + 1;
      }
    }

    /** ValueRecordOnSetValue; `stored` is whether writing the key's value succeeds. */
    method SetValue(d: Text, t: nat, stored: bool) returns (emulated: bool)
      modifies this`data, this`regType
      ensures emulated == stored
      ensures stored ==> ListOf(data) == WithoutFirst(ListOf(d), name, up, |filters|)
      ensures stored ==> if filters != [] && Has(ListOf(d), name, up) then Tidy(data) && regType == REG_MULTI_SZ
                         else data == d && regType == t
      ensures stored ==> (Clean() <==> Count(ListOf(d), name, up) <= |filters|)
      ensures stored && Clean() ==> ListOf(data) == Others(ListOf(d), name, up)
      ensures !stored ==> data == old(data) && regType == old(regType)
    {
      var r, rt := InvokeSet(d, t);
      ManyFewer(ListOf(d), name, up, |filters|);
      emulated := stored;
      if stored {
        data, regType := r, rt;
      }
    }

    /** Writing back what was read restores the stored list exactly if the name goes to the
        front, or two NULs follow its place, or what it runs into is taken out again. */
    method WriteBack()
      requires GoodName(name) && filters != [] && Clean()
      modifies this`data, this`regType
      ensures ListOf(data) == WithoutFirst(old(View()), name, up, |filters|)
      ensures ListOf(data) == old(ListOf(data)) <==>
        old(filters[0] || Room(data, name) || TakenTwice(data, name, |filters|, up))
    {
      hide ListOf, Tidy, Has, WithoutFirst, Room, Seen, SeenThrough, TakenTwice;
      var r, t := Query();
      WrittenBack(data, name, filters, up);
      var emulated := SetValue(r, t, true);
    }

    /** A read after a write shows the written other entries in order, with the name once at
        the configured end, exactly if that is the front, or the name was written, or two NULs
        follow its place. */
    method ReadAfterWrite(d: Text, t: nat) returns (r: Text)
      requires GoodName(name) && filters != [] && Count(ListOf(d), name, up) <= |filters|
      modifies this`data, this`regType
      ensures Clean()
      ensures var others := Others(ListOf(d), name, up);
        var right := if filters[0] then [name] + others else others + [name];
        && (ListOf(r) == right <==> filters[0] || Has(ListOf(d), name, up) || Room(d, name))
        && Count(right, name, up) == 1
    {
      hide ListOf, Tidy, Has, Without, Others, Count, Room, Seen, SeenThrough;
      var emulated := SetValue(d, t, true);
      if Tidy(data) { TidyHasRoom(data, name); }
      var rt;
      r, rt := Query();
      ShownUndone(ListOf(data), name, filters[0], up);
      if !Shows() { SpelledStays(data, name, filters[1..], up); }
    }

    /** Any run of writes, successful or not.  The stored list is what the last successful
        write leaves; and if every list written has the name at most once per filter, the
        stored list never has it. */
    method Writes(ds: seq<Text>, stored: seq<bool>)
      requires |stored| == |ds|
      modifies this`data, this`regType
      ensures ListOf(data) == LastStored(old(ListOf(data)), ds, stored, name, up, |filters|)
      ensures old(Clean()) && (forall d :: d in ds ==> Count(ListOf(d), name, up) <= |filters|) ==> Clean()
    {
      hide ListOf, Tidy, Has, Without, Others, Count;
      var i := 0;
      while i < |ds|
        invariant i <= |ds| && ListOf(data) == LastStored(old(ListOf(data)), ds[..i], stored[..i], name, up, |filters|)
      {
        assert ds[..i + 1][..i] == ds[..i] && stored[..i + 1][..i] == stored[..i];
        var emulated := SetValue(ds[i], REG_MULTI_SZ, stored[i]);
        i := i + 1;
      }
      assert ds[..i] == ds && stored[..i] == stored;
      if forall d :: d in ds ==> Count(ListOf(d), name, up) <= |filters| {
        if !Has(old(ListOf(data)), name, up) { NeverStored(old(ListOf(data)), ds, stored, name, up, |filters|); }
      }
    }
  }

  /** What the last successful write leaves. */
  function LastStored(list: seq<Text>, ds: seq<Text>, stored: seq<bool>, name: Text, up: wchar -> wchar, n: nat): seq<Text>
    requires |stored| == |ds|
    decreases |ds|
  {
    if ds == [] then list
    else if stored[|ds| - 1] then WithoutFirst(ListOf(ds[|ds| - 1]), name, up, n)
    else LastStored(list, ds[..|ds| - 1], stored[..|ds| - 1], name, up, n)
  }

  lemma {:induction false} NeverStored(list: seq<Text>, ds: seq<Text>, stored: seq<bool>, name: Text,
                                       up: wchar -> wchar, n: nat)
    requires |stored| == |ds| && !Has(list, name, up) && forall d :: d in ds ==> Count(ListOf(d), name, up) <= n
    ensures !Has(LastStored(list, ds, stored, name, up, n), name, up)
    decreases |ds|
  {
    hide Has, Count, WithoutFirst, ListOf;
    if ds != [] {
      if stored[|ds| - 1] {
        assert ds[|ds| - 1] in ds;
        ManyFewer(ListOf(ds[|ds| - 1]), name, up, n);
      } else {
        NeverStored(list, ds[..|ds| - 1], stored[..|ds| - 1], name, up, n);
      }
    }
  }

  lemma NoMoreFilters(list: seq<Text>, name: Text, up: wchar -> wchar)
    ensures SeenThrough(list, name, [], up) == list
  {}

  lemma NameIsItself(name: Text, up: wchar -> wchar)
    ensures Same(name, name, up)
  {}

  lemma {:induction false} CountSplit(a: seq<Text>, b: seq<Text>, name: Text, up: wchar -> wchar)
    ensures Count(a + b, name, up) == Count(a, name, up) + Count(b, name, up)
    ensures Others(a + b, name, up) == Others(a, name, up) + Others(b, name, up)
  {
    if a == [] {
      assert a + b == b;
    } else {
      assert (a + b)[1..] == a[1..] + b;
      CountSplit(a[1..], b, name, up);
    }
  }

  lemma JustTheName(name: Text, up: wchar -> wchar)
    ensures Count([name], name, up) == 1 && Others([name], name, up) == []
  {
    NameIsItself(name, up);
    assert [name][1..] == [];
  }

  /** Once shown, the name is there. */
  lemma ShownIsThere(list: seq<Text>, name: Text, beginning: bool, up: wchar -> wchar)
    ensures Has(Shown(list, name, beginning, up), name, up)
  {
    var s := Shown(list, name, beginning, up);
    JustTheName(name, up);
    CountSplit([name], list, name, up);
    CountSplit(list, [name], name, up);
    OneFewer(s, name, up);
    hide Count, Has, Others;
  }

  /** The name shown is the only one, and the others are the stored list. */
  lemma ShownUndone(list: seq<Text>, name: Text, beginning: bool, up: wchar -> wchar)
    requires !Has(list, name, up)
    ensures var s := Shown(list, name, beginning, up); Count(s, name, up) == 1 && Others(s, name, up) == list
  {
    JustTheName(name, up);
    CountSplit([name], list, name, up);
    CountSplit(list, [name], name, up);
    OneFewer(list, name, up);
    hide Count, Has, Others;
  }

  lemma SeenUnchanged(data: Text, name: Text, beginning: bool, up: wchar -> wchar)
    ensures Has(ListOf(data), name, up) ==> Seen(data, name, beginning, up) == ListOf(data)
  {}

  lemma {:induction false} MoreSeen(list: seq<Text>, name: Text, filters: seq<bool>, up: wchar -> wchar)
    ensures |SeenThrough(list, name, filters, up)| >= |list|
    ensures filters != [] && !Has(list, name, up) ==> |SeenThrough(list, name, filters, up)| > |list|
    ensures Others(SeenThrough(list, name, filters, up), name, up) == Others(list, name, up)
    decreases |filters|
  {
    hide Has;
    if filters != [] {
      MoreSeen(Shown(list, name, filters[0], up), name, filters[1..], up);
      OthersOfShown(list, name, filters[0], up);
    }
    hide Others;
  }

  lemma OthersOfShown(list: seq<Text>, name: Text, beginning: bool, up: wchar -> wchar)
    ensures Others(Shown(list, name, beginning, up), name, up) == Others(list, name, up)
  {
    if !Has(list, name, up) {
      ShownUndone(list, name, beginning, up);
      OneFewer(list, name, up);
    }
    hide Others, Has;
  }

  /** A name that runs into what follows is never seen right. */
  lemma SpelledStays(data: Text, name: Text, filters: seq<bool>, up: wchar -> wchar)
    requires !Has(ListOf(data), name, up) && !Room(data, name)
    ensures SeenThrough(Seen(data, name, false, up), name, filters, up) != ListOf(data) + [name]
  {
    var seen := Seen(data, name, false, up);
    assert |seen| > |ListOf(data)|;
    hide Has, ListOf, Room, Seen;
    SeenAsShown(data, name, false, up);
    MoreSeen(seen, name, filters, up);
    if Has(seen, name, up) { NothingMoreSeen(seen, name, filters, up); }
    if filters == [] { NoMoreFilters(seen, name, up); }
  }

  /** The name stands apart, but is followed by a single character that is the name again, and
      there are callbacks enough to take both out. */
  predicate TakenTwice(data: Text, name: Text, n: nat, up: wchar -> wchar) {
    Char(data, NameEnd(data, name)) == 0 && n >= 2 && Same([Char(data, NameEnd(data, name) + 1)], name, up)
  }

  lemma OneEntry(e: Text, name: Text, up: wchar -> wchar)
    ensures Count([e], name, up) == if Same(e, name, up) then 1 else 0
    ensures Others([e], name, up) == if Same(e, name, up) then [] else [e]
  {
    assert [e][1..] == [];
  }

  /** The entries that are not the name, of the name as it is read at the end. */
  lemma SpelledOthers(name: Text, x: wchar, y: wchar, up: wchar -> wchar)
    ensures var z := Spelled(name, x, y);
      && (Others(z, name, up) == [] <==> x == 0 && (y == 0 || Same([y], name, up)))
      && (x == 0 ==> Count(z, name, up) == if y != 0 && Same([y], name, up) then 2 else 1)
  {
    var z := Spelled(name, x, y);
    NameIsItself(name, up);
    if x != 0 { assert !Same(z[0], name, up); }
    if x == 0 && y != 0 {
      assert z == [name] + [[y]];
      CountSplit([name], [[y]], name, up);
      OneEntry([y], name, up);
      JustTheName(name, up);
    }
  }

  /** Taking out n names gives back a list without it exactly if there were at most n, and the
      rest is that list. */
  lemma GivesBack(seen: seq<Text>, list: seq<Text>, name: Text, n: nat, up: wchar -> wchar)
    requires !Has(list, name, up)
    ensures WithoutFirst(seen, name, up, n) == list <==> Count(seen, name, up) <= n && Others(seen, name, up) == list
  {
    ManyFewer(seen, name, up, n);
    hide Has, Count, Others, WithoutFirst;
  }

  lemma SeenCounts(data: Text, name: Text, beginning: bool, up: wchar -> wchar)
    requires !Has(ListOf(data), name, up)
    ensures var seen := Seen(data, name, beginning, up);
      var x, y := Char(data, NameEnd(data, name)), Char(data, NameEnd(data, name) + 1);
      && (Others(seen, name, up) == ListOf(data) <==> beginning || (x == 0 && (y == 0 || Same([y], name, up))))
      && (beginning || x == 0 ==>
            Count(seen, name, up) == if !beginning && y != 0 && Same([y], name, up) then 2 else 1)
  {
    hide Has, ListOf, Same, NameEnd, Char, Others, Count;
    var list := ListOf(data);
    var x, y := Char(data, NameEnd(data, name)), Char(data, NameEnd(data, name) + 1);
    OneFewer(list, name, up);
    JustTheName(name, up);
    CountSplit([name], list, name, up);
    SpelledOthers(name, x, y, up);
    CountSplit(list, Spelled(name, x, y), name, up);
    hide Spelled;
    assert list + Others(Spelled(name, x, y), name, up) == list <==> Others(Spelled(name, x, y), name, up) == [];
  }

  lemma WrittenBack(data: Text, name: Text, filters: seq<bool>, up: wchar -> wchar)
    requires name != [] && filters != [] && !Has(ListOf(data), name, up)
    ensures var view := SeenThrough(Seen(data, name, filters[0], up), name, filters[1..], up);
      WithoutFirst(view, name, up, |filters|) == ListOf(data) <==>
        filters[0] || Room(data, name) || TakenTwice(data, name, |filters|, up)
  {
    hide Has, ListOf, NameEnd, Char, Others, Count, Seen, SeenThrough, WithoutFirst;
    var seen := Seen(data, name, filters[0], up);
    var view := SeenThrough(seen, name, filters[1..], up);
    SeenCounts(data, name, filters[0], up);
    MoreSeen(seen, name, filters[1..], up);
    GivesBack(view, ListOf(data), name, |filters|, up);
    OneFewer(seen, name, up);
    if Count(seen, name, up) > 0 { NothingMoreSeen(seen, name, filters[1..], up); }
  }
}
