/** Lists of NUL-terminated strings, closed by an empty string, in a buffer of 16-bit
    characters that is edited in place. */
module MultiString {
  type wchar = x: int | 0 <= x < 0x1_0000

  type Text = seq<wchar>

  const WCHAR_SIZE: nat := 2

  // ----- the list a buffer holds

  /** wcslen: the characters before the next NUL. */
  function Length(b: Text, at: nat): (n: nat)
    ensures at <= |b| ==> at + n <= |b|
    decreases |b| - at
  {
    if at >= |b| || b[at] == 0 then 0 else 1 + Length(b, at + 1)
  }

  /** The strings from here on. */
  function Entries(b: Text, at: nat): seq<Text>
    decreases |b| - at
  {
    if at >= |b| || b[at] == 0 then [] else [b[at..at + Length(b, at)]] + Entries(b, at + Length(b, at) + 1)
  }

  /** The place of the NUL that closes the list. */
  function End(b: Text, at: nat): (e: nat)
    ensures e >= at
    decreases |b| - at
  {
    if at >= |b| || b[at] == 0 then at else End(b, at + Length(b, at) + 1)
  }

  function Flatten(list: seq<Text>): Text {
    if list == [] then [] else list[0] + [0] + Flatten(list[1..])
  }

  predicate GoodName(name: Text) { name != [] && 0 !in name }

  predicate Good(list: seq<Text>) { forall e :: e in list ==> GoodName(e) }

  /** The last two characters are NUL: no walk leaves the buffer. */
  predicate Padded(b: Text) { |b| >= 2 && b[|b| - 1] == 0 && b[|b| - 2] == 0 }

  lemma {:induction false} LengthIsUpToNul(b: Text, at: nat)
    requires at <= |b|
    ensures var n := Length(b, at);
      && (forall i :: at <= i < at + n ==> b[i] != 0) && (at + n < |b| ==> b[at + n] == 0)
    decreases |b| - at
  {
    if at < |b| && b[at] != 0 { LengthIsUpToNul(b, at + 1); }
  }

  lemma {:induction false} LengthOfString(b: Text, at: nat, n: nat)
    requires at + n < |b| && b[at + n] == 0 && forall i :: at <= i < at + n ==> b[i] != 0
    ensures Length(b, at) == n
    decreases n
  {
    if n > 0 { LengthOfString(b, at + 1, n - 1); }
  }

  /** The first entry and the rest. */
  lemma FirstEntry(b: Text, at: nat)
    requires at < |b| && b[at] != 0 && End(b, at) < |b|
    ensures var n := Length(b, at);
      && n > 0 && at + n + 1 < |b| && b[at + n] == 0 && GoodName(b[at..at + n])
      && End(b, at) == End(b, at + n + 1) && Entries(b, at) == [b[at..at + n]] + Entries(b, at + n + 1)
  {
    LengthIsUpToNul(b, at);
  }

  /** What lies between here and the end is the list, flattened. */
  lemma {:induction false} BufferIsList(b: Text, at: nat)
    requires at < |b| && End(b, at) < |b|
    ensures Good(Entries(b, at)) && b[at..End(b, at)] == Flatten(Entries(b, at)) && b[End(b, at)] == 0
    decreases |b| - at
  {
    if b[at] != 0 {
      FirstEntry(b, at);
      var next := at + Length(b, at) + 1;
      BufferIsList(b, next);
      assert b[at..End(b, at)] == b[at..next] + b[next..End(b, at)];
      assert b[at..next] == b[at..next - 1] + [0];
    }
  }

  /** A flattened list, closed by a NUL, is read back. */
  lemma {:induction false} ListIsBuffer(b: Text, at: nat, list: seq<Text>)
    requires Good(list) && at + |Flatten(list)| < |b|
    requires b[at..at + |Flatten(list)|] == Flatten(list) && b[at + |Flatten(list)|] == 0
    ensures Entries(b, at) == list && End(b, at) == at + |Flatten(list)|
    decreases |list|
  {
    if list != [] {
      var n := |list[0]|;
      var rest := Flatten(list[1..]);
      assert GoodName(list[0]);
      FrontOfBuffer(b, at, list[0], rest);
      LengthOfString(b, at, n);
      ListIsBuffer(b, at + n + 1, list[1..]);
      hide Flatten, Length;
    }
  }

  lemma FrontOfBuffer(b: Text, at: nat, e: Text, rest: Text)
    requires at + |e| + 1 + |rest| <= |b| && b[at..at + |e| + 1 + |rest|] == e + [0] + rest
    ensures b[at..at + |e|] == e && b[at + |e|] == 0 && b[at + |e| + 1..at + |e| + 1 + |rest|] == rest
    ensures forall i :: at <= i < at + |e| ==> b[i] == e[i - at]
  {
    var f := e + [0] + rest;
    var g := b[at..at + |f|];
    assert g[..|e|] == b[at..at + |e|] && g[|e| + 1..] == b[at + |e| + 1..at + |f|];
    assert f[..|e|] == e && f[|e| + 1..] == rest && g[|e|] == b[at + |e|];
    forall i | at <= i < at + |e| ensures b[i] == e[i - at] { assert b[i] == b[at..at + |e|][i - at]; }
  }

  lemma {:induction false} PaddedEnds(b: Text, at: nat)
    requires Padded(b) && at < |b|
    ensures End(b, at) < |b|
    decreases |b| - at
  {
    if b[at] != 0 {
      LengthIsUpToNul(b, at);
      PaddedEnds(b, at + Length(b, at) + 1);
    }
  }

  lemma {:induction false} FlattenSplit(a: seq<Text>, b: seq<Text>)
    ensures Flatten(a + b) == Flatten(a) + Flatten(b)
  {
    if a == [] {
      assert a + b == b;
    } else {
      assert (a + b)[1..] == a[1..] + b;
      FlattenSplit(a[1..], b);
    }
  }

  lemma FlattenOne(e: Text)
    ensures Flatten([e]) == e + [0]
  {
    assert [e][1..] == [];
  }

  // ----- reading

  /** _MultiStringSize, in bytes. */
  method Size(data: array<wchar>) returns (size: nat)
    requires Padded(data[..])
    ensures size == (End(data[..], 0) + 1) * WCHAR_SIZE && End(data[..], 0) < data.Length
  {
    ghost var b := data[..];
    size := WCHAR_SIZE;
    var at := 0;
    PaddedEnds(b, 0);
    while data[at] != 0
      invariant at < data.Length && size == (at + 1) * WCHAR_SIZE && End(b, at) == End(b, 0)
      decreases data.Length - at
    {
      FirstEntry(b, at);
      var len := StringLength(data, at);
      size := size + (len + 1) * WCHAR_SIZE;
      at := at + len + 1;
    }
  }

  /** wcslen; every character it looks at is in the buffer. */
  method StringLength(data: array<wchar>, at: nat) returns (len: nat)
    requires at < data.Length && at + Length(data[..], at) < data.Length
    ensures len == Length(data[..], at)
  {
    ghost var b := data[..];
    len := 0;
    while data[at + len] != 0
      invariant len <= Length(b, at) && Length(b, at + len) == Length(b, at) - len
      decreases Length(b, at) - len
    {
      len := len + 1;
    }
  }

  /** RtlEqualUnicodeString, ignoring case. */
  predicate Same(a: Text, b: Text, up: wchar -> wchar) {
    |a| == |b| && forall i :: 0 <= i < |a| ==> up(a[i]) == up(b[i])
  }

  /** The first entry that is the name; all entries if none is. */
  function FirstMatch(list: seq<Text>, name: Text, up: wchar -> wchar): (k: nat)
    ensures k <= |list|
    ensures forall i :: 0 <= i < k ==> !Same(list[i], name, up)
    ensures k < |list| ==> Same(list[k], name, up)
  {
    if list == [] then 0 else if Same(list[0], name, up) then 0 else 1 + FirstMatch(list[1..], name, up)
  }

  predicate Has(list: seq<Text>, name: Text, up: wchar -> wchar) { FirstMatch(list, name, up) < |list| }

  lemma NextEntry(b: Text, at: nat, list: seq<Text>, k: nat)
    requires at < |b| && b[at] != 0 && End(b, at) < |b| && k <= |list| && Entries(b, at) == list[k..]
    ensures var next := at + Length(b, at) + 1;
      && next < |b| && End(b, next) == End(b, at) && k < |list| && list[k] == b[at..next - 1]
      && Entries(b, next) == list[k + 1..]
      && |Flatten(list[..k + 1])| == |Flatten(list[..k])| + Length(b, at) + 1
  {
    FirstEntry(b, at);
    assert list[k..][0] == list[k] && list[k..][1..] == list[k + 1..] && list[..k + 1] == list[..k] + [list[k]];
    FlattenSplit(list[..k], [list[k]]);
    FlattenOne(list[k]);
  }

  /** _MultiStringExists. */
  method Exists(data: array<wchar>, name: Text, up: wchar -> wchar) returns (found: bool, position: nat)
    requires Padded(data[..])
    ensures End(data[..], 0) < data.Length && found == Has(Entries(data[..], 0), name, up)
    ensures found ==> position == |Flatten(Entries(data[..], 0)[..FirstMatch(Entries(data[..], 0), name, up)])|
    ensures found <==> exists e :: e in Entries(data[..], 0) && |e| == |name| && forall i :: 0 <= i < |e| ==> up(e[i]) == up(name[i])
  {
    hide End, Entries, Flatten, Length, Same;
    ghost var b := data[..];
    ghost var list := Entries(b, 0);
    ghost var k := 0;
    var at: nat := 0;
    found, position := false, 0;
    PaddedEnds(b, 0);
    assert list[0..] == list && list[..0] == [];
    NothingFlat();
    while !found && data[at] != 0
      invariant at < data.Length && End(b, at) == End(b, 0) && k <= |list|
      invariant found ==> k < |list| && Same(list[k], name, up) && position == |Flatten(list[..k])|
      invariant !found ==> Entries(b, at) == list[k..] && at == |Flatten(list[..k])|
      invariant forall i :: 0 <= i < k ==> !Same(list[i], name, up)
      decreases !found, data.Length - at
    {
      NextEntry(b, at, list, k);
      var len := StringLength(data, at);
      var entry := data[at..at + len];
      assert entry == b[at..at + len];
      found := Same(entry, name, up);
      if found {
        position := at;
      } else {
        k := k + 1;
      }
      at := at + len + 1;
    }
    if !found { NothingMore(b, at); }
    MatchIsUnique(list, name, up, k);
    HasIs(list, name, up);
  }

  /** The list has the name exactly if an entry is as long and equal but for the case. */
  lemma HasIs(list: seq<Text>, name: Text, up: wchar -> wchar)
    ensures Has(list, name, up) <==> exists e :: e in list && |e| == |name| && forall i :: 0 <= i < |e| ==> up(e[i]) == up(name[i])
  {
    if exists e :: e in list && |e| == |name| && forall i :: 0 <= i < |e| ==> up(e[i]) == up(name[i]) {
      var e :| e in list && |e| == |name| && forall i :: 0 <= i < |e| ==> up(e[i]) == up(name[i]);
      var k :| 0 <= k < |list| && list[k] == e;
      assert Same(list[k], name, up);
    }
    if Has(list, name, up) { assert list[FirstMatch(list, name, up)] in list; }
  }

  lemma NothingFlat()
    ensures Flatten([]) == []
  {}

  lemma NothingMore(b: Text, at: nat)
    requires at < |b| && b[at] == 0
    ensures Entries(b, at) == []
  {}

  lemma MatchIsUnique(list: seq<Text>, name: Text, up: wchar -> wchar, k: nat)
    requires k <= |list| && (forall i :: 0 <= i < k ==> !Same(list[i], name, up))
    requires (k < |list| ==> Same(list[k], name, up))
    ensures FirstMatch(list, name, up) == k
  {
    var f := FirstMatch(list, name, up);
    assert f < |list| ==> Same(list[f], name, up);
  }

  // ----- editing

  /** What memmove leaves. */
  function Moved(b: Text, dest: nat, src: nat, count: nat): Text
    requires dest + count <= |b| && src + count <= |b|
  {
    b[..dest] + b[src..src + count] + b[dest + count..]
  }

  lemma IsMoved(was: Text, now: Text, dest: nat, src: nat, count: nat)
    requires |now| == |was| && dest + count <= |was| && src + count <= |was|
    requires forall k :: dest <= k < dest + count ==> now[k] == was[src + (k - dest)]
    requires forall k :: 0 <= k < |was| && !(dest <= k < dest + count) ==> now[k] == was[k]
    ensures now == Moved(was, dest, src, count)
  {}

  method MoveDown(data: array<wchar>, dest: nat, src: nat, count: nat)
    requires dest <= src && src + count <= data.Length
    modifies data
    ensures data[..] == Moved(old(data[..]), dest, src, count)
  {
    ghost var was := data[..];
    var i: nat := 0;
    while i < count
      invariant i <= count
      invariant forall k :: dest <= k < dest + i ==> data[k] == was[src - dest + k]
      invariant forall k :: 0 <= k < data.Length && !(dest <= k < dest + i) ==> data[k] == was[k]
    {
      data[dest + i] := data[src + i];
      i := i + 1;
    }
    IsMoved(was, data[..], dest, src, count);
  }

  method MoveUp(data: array<wchar>, dest: nat, src: nat, count: nat)
    requires src <= dest && dest + count <= data.Length
    modifies data
    ensures data[..] == Moved(old(data[..]), dest, src, count)
  {
    ghost var was := data[..];
    var i: nat := count;
    while i > 0
      invariant i <= count
      invariant forall k :: dest + i <= k < dest + count ==> data[k] == was[k - (dest - src)]
      invariant forall k :: 0 <= k < data.Length && !(dest + i <= k < dest + count) ==> data[k] == was[k]
    {
      i := i - 1;
      data[dest + i] := data[src + i];
    }
    IsMoved(was, data[..], dest, src, count);
  }

  /** memmove: the stretches may overlap. */
  method MemMove(data: array<wchar>, dest: nat, src: nat, count: nat)
    requires dest + count <= data.Length && src + count <= data.Length
    modifies data
    ensures data[..] == Moved(old(data[..]), dest, src, count)
  {
    if dest <= src { MoveDown(data, dest, src, count); } else { MoveUp(data, dest, src, count); }
  }

  /** What memcpy leaves. */
  function Copied(b: Text, at: nat, text: Text): Text
    requires at + |text| <= |b|
  {
    b[..at] + text + b[at + |text|..]
  }

  method MemCopy(data: array<wchar>, at: nat, text: Text)
    requires at + |text| <= data.Length
    modifies data
    ensures data[..] == Copied(old(data[..]), at, text)
  {
    ghost var was := data[..];
    var i: nat := 0;
    while i < |text|
      invariant i <= |text|
      invariant forall k :: at <= k < at + i ==> data[k] == text[k - at]
      invariant forall k :: 0 <= k < data.Length && !(at <= k < at + i) ==> data[k] == was[k]
    {
      data[at + i] := text[i];
      i := i + 1;
    }
    forall k | 0 <= k < data.Length ensures data[k] == Copied(was, at, text)[k] {}
  }

  /** The name before everything else. */
  function Prepended(b: Text, name: Text): Text
    requires End(b, 0) + |name| + 2 <= |b|
  {
    name + [0] + b[..End(b, 0) + 1] + b[End(b, 0) + |name| + 2..]
  }

  /** The name over the closing NUL and what follows it. */
  function Appended(b: Text, name: Text): Text
    requires End(b, 0) + |name| + 2 <= |b|
  {
    b[..End(b, 0)] + name + b[End(b, 0) + |name|..]
  }

  lemma BufferIsWholeList(b: Text)
    requires |b| > 0 && End(b, 0) < |b|
    ensures b[..End(b, 0)] == Flatten(Entries(b, 0)) && b[End(b, 0)] == 0 && Good(Entries(b, 0))
  {
    BufferIsList(b, 0);
    assert b[0..End(b, 0)] == b[..End(b, 0)];
  }

  lemma WholeListIsBuffer(b: Text, list: seq<Text>, rest: Text)
    requires Good(list) && b == Flatten(list) + [0] + rest
    ensures Entries(b, 0) == list && End(b, 0) == |Flatten(list)|
  {
    var n := |Flatten(list)|;
    assert b[0..0 + n] == Flatten(list) && b[n] == 0;
    ListIsBuffer(b, 0, list);
  }

  lemma PrependedList(b: Text, name: Text)
    requires GoodName(name) && End(b, 0) + |name| + 2 <= |b|
    ensures Entries(Prepended(b, name), 0) == [name] + Entries(b, 0)
    ensures End(Prepended(b, name), 0) == End(b, 0) + |name| + 1
  {
    hide End, Entries, Flatten;
    var list := Entries(b, 0);
    BufferIsWholeList(b);
    FlattenSplit([name], list);
    FlattenOne(name);
    assert b[..End(b, 0) + 1] == b[..End(b, 0)] + [0];
    var rest := b[End(b, 0) + |name| + 2..];
    assert Prepended(b, name) == Flatten([name] + list) + [0] + rest;
    WholeListIsBuffer(Prepended(b, name), [name] + list, rest);
  }

  lemma AppendedLooksRight(b: Text, name: Text)
    requires End(b, 0) + |name| + 2 <= |b|
    ensures var c := Appended(b, name); var e := End(b, 0) + |name|;
      c[e] == b[e] && c[e + 1] == b[e + 1] && c[..e] == b[..End(b, 0)] + name && |c| == |b|
  {
    hide End;
  }

  lemma AppendWorks(b: Text, name: Text)
    requires GoodName(name) && End(b, 0) + |name| + 2 <= |b|
    requires b[End(b, 0) + |name|] == 0 == b[End(b, 0) + |name| + 1]
    ensures Entries(Appended(b, name), 0) == Entries(b, 0) + [name]
    ensures End(Appended(b, name), 0) == End(b, 0) + |name| + 1
  {
    hide End, Entries, Flatten, Appended;
    var list, c, e := Entries(b, 0), Appended(b, name), End(b, 0) + |name|;
    BufferIsWholeList(b);
    FlattenSplit(list, [name]);
    FlattenOne(name);
    AppendedLooksRight(b, name);
    FlatAppended(Flatten(list), name, c, e);
    WholeListIsBuffer(c, list + [name], c[e + 2..]);
  }

  lemma AppendOnlyThen(b: Text, name: Text)
    requires GoodName(name) && End(b, 0) + |name| + 2 <= |b|
    requires Entries(Appended(b, name), 0) == Entries(b, 0) + [name]
    requires End(Appended(b, name), 0) == End(b, 0) + |name| + 1
    ensures b[End(b, 0) + |name|] == 0 == b[End(b, 0) + |name| + 1]
  {
    hide End, Entries, Flatten, Appended;
    var list, c, e := Entries(b, 0), Appended(b, name), End(b, 0) + |name|;
    BufferIsWholeList(b);
    FlattenSplit(list, [name]);
    FlattenOne(name);
    AppendedLooksRight(b, name);
    FlatAppended(Flatten(list), name, c, e);
    BufferIsWholeList(c);
    assert c[e] == c[..e + 1][e];
  }

  /** Appending works exactly if two NULs follow the place of the name. */
  lemma AppendedList(b: Text, name: Text)
    requires GoodName(name) && End(b, 0) + |name| + 2 <= |b|
    ensures b[End(b, 0) + |name|] == 0 == b[End(b, 0) + |name| + 1] <==>
      && Entries(Appended(b, name), 0) == Entries(b, 0) + [name]
      && End(Appended(b, name), 0) == End(b, 0) + |name| + 1
  {
    hide End, Entries, Appended;
    if b[End(b, 0) + |name|] == 0 == b[End(b, 0) + |name| + 1] {
      AppendWorks(b, name);
    } else if Entries(Appended(b, name), 0) == Entries(b, 0) + [name] && End(Appended(b, name), 0) == End(b, 0) + |name| + 1 {
      AppendOnlyThen(b, name);
    }
  }

  lemma FlatAppended(flat: Text, name: Text, c: Text, e: nat)
    requires e + 2 <= |c| && c[..e] == flat + name
    ensures |flat + (name + [0])| == e + 1 && (flat + (name + [0]))[e] == 0
    ensures c[e] == 0 == c[e + 1] ==> c == flat + (name + [0]) + [0] + c[e + 2..]
  {
    if c[e] == 0 == c[e + 1] {
      assert c == c[..e] + [c[e]] + [c[e + 1]] + c[e + 2..];
    }
  }

  /** The room a name needs at the front is made by moving the list up. */
  method PutFirst(data: array<wchar>, name: Text, dataSize: nat)
    requires End(data[..], 0) + |name| + 2 <= data.Length && dataSize == (End(data[..], 0) + 1) * WCHAR_SIZE
    modifies data
    ensures data[..] == Prepended(old(data[..]), name)
  {
    hide End, Moved, Copied;
    ghost var b := data[..];
    MemMove(data, |name| + 1, 0, dataSize / WCHAR_SIZE);
    ghost var moved := data[..];
    MemCopy(data, 0, name);
    ghost var copied := data[..];
    data[|name|] := 0;
    assert data[..] == copied[|name| := 0];
    FirstInPlace(b, moved, name, End(b, 0) + 1);
  }

  method PutLast(data: array<wchar>, name: Text, dataSize: nat)
    requires End(data[..], 0) + |name| + 2 <= data.Length && dataSize == (End(data[..], 0) + 1) * WCHAR_SIZE
    modifies data
    ensures data[..] == Appended(old(data[..]), name)
  {
    hide End;
    MemCopy(data, dataSize / WCHAR_SIZE - 1, name);
  }

  lemma FirstInPlace(b: Text, moved: Text, name: Text, n: nat)
    requires n + |name| + 1 <= |b| && moved == Moved(b, |name| + 1, 0, n)
    ensures |moved| == |b| == |Copied(moved, 0, name)|
    ensures Copied(moved, 0, name)[|name| := 0] == name + [0] + b[..n] + b[n + |name| + 1..]
  {
    assert moved[|name| + 1..] == b[..n] + b[n + |name| + 1..];
    assert Copied(moved, 0, name)[|name| := 0] == name + [0] + moved[|name| + 1..];
  }

  /** _MultiStringInsert.  The new length is in bytes. */
  method Insert(data: array<wchar>, name: Text, beginning: bool, up: wchar -> wchar)
    returns (inserted: bool, newLength: nat)
    requires Padded(data[..]) && End(data[..], 0) + |name| + 2 <= data.Length
    modifies data
    ensures inserted == !Has(Entries(old(data[..]), 0), name, up)
    ensures inserted ==> newLength == (End(old(data[..]), 0) + |name| + 2) * WCHAR_SIZE
    ensures data[..] == if !inserted then old(data[..])
                        else if beginning then Prepended(old(data[..]), name) else Appended(old(data[..]), name)
  {
    hide End, Entries, Has, Prepended, Appended, Flatten;
    newLength := 0;
    var found, position := Exists(data, name, up);
    inserted := !found;
    if inserted {
      var dataSize := Size(data);
      if beginning {
        PutFirst(data, name, dataSize);
      } else {
        PutLast(data, name, dataSize);
      }
      newLength := dataSize + (|name| * WCHAR_SIZE + WCHAR_SIZE);
    }
  }

  /** The list without the first entry that is the name. */
  function Without(list: seq<Text>, name: Text, up: wchar -> wchar): seq<Text> {
    var k := FirstMatch(list, name, up);
    if k < |list| then list[..k] + list[k + 1..] else list
  }

  /** The characters from `at` on, moved down by `gap` up to the closing NUL at e. */
  function Closed(b: Text, e: nat, at: nat, gap: nat): Text
    requires at + gap <= e < |b|
  {
    b[..at] + b[at + gap..e + 1] + b[e + 1 - gap..]
  }

  lemma ClosedText(b: Text, e: nat, x: Text, name: Text, y: Text)
    requires e < |b| && b[e] == 0 && b[..e] == x + name + y
    ensures |x| + |name| <= e && Closed(b, e, |x|, |name|) == x + y + [0] + b[e + 1 - |name|..]
  {
    CutAt(b, e, x, name, y);
    AssocText(x, y, [0]);
  }

  lemma AssocText(x: Text, y: Text, z: Text)
    ensures x + (y + z) == x + y + z
  {}

  lemma CutAt(b: Text, e: nat, x: Text, name: Text, y: Text)
    requires e < |b| && b[e] == 0 && b[..e] == x + name + y
    ensures |x| + |name| <= e && b[..|x|] == x && b[|x| + |name|..e + 1] == y + [0]
  {
    assert b[..|x|] == b[..e][..|x|] == x;
    assert b[|x| + |name|..e] == b[..e][|x| + |name|..] == y;
    assert b[|x| + |name|..e + 1] == b[|x| + |name|..e] + [b[e]];
  }

  lemma ClosedList(b: Text, name: Text, up: wchar -> wchar)
    requires |b| > 0 && End(b, 0) < |b| && Has(Entries(b, 0), name, up)
    ensures var list := Entries(b, 0);
      var at := |Flatten(list[..FirstMatch(list, name, up)])|;
      && at + |name| + 1 <= End(b, 0)
      && Entries(Closed(b, End(b, 0), at, |name| + 1), 0) == Without(list, name, up)
      && End(Closed(b, End(b, 0), at, |name| + 1), 0) == End(b, 0) - |name| - 1
  {
    hide End, Entries, Flatten, Closed;
    var list := Entries(b, 0);
    var k := FirstMatch(list, name, up);
    var (x, y) := (list[..k], list[k + 1..]);
    BufferIsWholeList(b);
    assert list == x + [list[k]] + y && |list[k]| == |name|;
    FlattenSplit(x + [list[k]], y);
    FlattenSplit(x, [list[k]]);
    FlattenOne(list[k]);
    FlattenSplit(x, y);
    ClosedText(b, End(b, 0), Flatten(x), list[k] + [0], Flatten(y));
    var c := Closed(b, End(b, 0), |Flatten(x)|, |name| + 1);
    WholeListIsBuffer(c, x + y, b[End(b, 0) - |name|..]);
  }

  lemma GapClosed(b: Text, e: nat, position: nat, gap: nat)
    requires position + gap <= e < |b| && gap > 0 && b[e] == 0
    ensures Moved(b, position, position + gap, e + 1 - gap - position) == Closed(b, e, position, gap)
    ensures |Closed(b, e, position, gap)| == |b| && Closed(b, e, position, gap)[e - gap] == 0
  {
    assert b[position + gap..e + 1][e - gap - position] == b[e];
  }

  /** The characters behind the entry are moved down over it. */
  method CloseGap(data: array<wchar>, position: nat, gap: nat, dataSize: nat)
    requires position + gap <= End(data[..], 0) < data.Length && gap > 0 && data[End(data[..], 0)] == 0
    requires dataSize == (End(data[..], 0) + 1) * WCHAR_SIZE - gap * WCHAR_SIZE
    modifies data
    ensures data[..] == Closed(old(data[..]), End(old(data[..]), 0), position, gap)
  {
    hide End, Moved, Closed;
    ghost var closed := Closed(data[..], End(data[..], 0), position, gap);
    GapClosed(data[..], End(data[..], 0), position, gap);
    MemMove(data, position, position + gap, (dataSize - position * WCHAR_SIZE) / WCHAR_SIZE);
    data[dataSize / WCHAR_SIZE - 1] := 0;
    assert data[..] == closed;
  }

  /** _MultiStringRemove. */
  method Remove(data: array<wchar>, name: Text, up: wchar -> wchar) returns (removed: bool, newSize: nat)
    requires Padded(data[..])
    modifies data
    ensures removed == Has(Entries(old(data[..]), 0), name, up)
    ensures Entries(data[..], 0) == Without(Entries(old(data[..]), 0), name, up)
    ensures removed ==>
      newSize == (End(data[..], 0) + 1) * WCHAR_SIZE && End(data[..], 0) == End(old(data[..]), 0) - |name| - 1
    ensures !removed ==> data[..] == old(data[..])
  {
    hide End, Entries, Flatten, Without, Same, Closed, FirstMatch;
    ghost var b := data[..];
    newSize := 0;
    var position;
    removed, position := Exists(data, name, up);
    if removed {
      ClosedList(b, name, up);
      ClosingNul(b);
      var dataSize := Size(data);
      var len := |name| * WCHAR_SIZE + WCHAR_SIZE;
      dataSize := dataSize - len;
      CloseGap(data, position, len / WCHAR_SIZE, dataSize);
      newSize := dataSize;
    } else {
      WithoutNothing(Entries(b, 0), name, up);
    }
  }

  lemma ClosingNul(b: Text)
    requires |b| > 0 && End(b, 0) < |b|
    ensures b[End(b, 0)] == 0
  {
    BufferIsList(b, 0);
  }

  lemma WithoutNothing(list: seq<Text>, name: Text, up: wchar -> wchar)
    requires !Has(list, name, up)
    ensures Without(list, name, up) == list
  {}

  // ----- what the edits mean to each other, and to their callers

  lemma FirstInFront(list: seq<Text>, name: Text, up: wchar -> wchar)
    ensures Without([name] + list, name, up) == list
  {
    assert ([name] + list)[1..] == list;
    MatchIsUnique([name] + list, name, up, 0);
  }

  lemma FirstAtEnd(list: seq<Text>, name: Text, up: wchar -> wchar)
    requires !Has(list, name, up)
    ensures Without(list + [name], name, up) == list
  {
    assert forall i :: 0 <= i < |list| ==> (list + [name])[i] == list[i];
    MatchIsUnique(list + [name], name, up, |list|);
  }

  function Zeros(n: nat): (z: Text)
    ensures |z| == n
  {
    seq(n, _ => 0)
  }

  lemma {:induction false} EndOfPadded(d: Text, n: nat, at: nat)
    requires n >= 2 && at <= |d| + 1
    ensures End(d + Zeros(n), at) <= |d| + 1
    decreases |d| + n - at
  {
    var b := d + Zeros(n);
    if b[at] != 0 {
      LengthIsUpToNul(b, at);
      assert b[|d|] == 0;
      EndOfPadded(d, n, at + Length(b, at) + 1);
    }
  }

  /** Any data at all, padded by three characters and the name, has room for the name. */
  lemma RoomToInsert(d: Text, name: Text)
    ensures var b := d + Zeros(3 + |name|); Padded(b) && End(b, 0) + |name| + 2 <= |b|
  {
    EndOfPadded(d, 3 + |name|, 0);
  }

  /** Any data at all, padded by two characters, can be searched and shortened. */
  lemma RoomToRemove(d: Text)
    ensures Padded(d + Zeros(2)) && End(d + Zeros(2), 0) < |d| + 2
  {
    EndOfPadded(d, 2, 0);
  }

  /** With nothing but padding behind the list, appending works. */
  lemma AppendsToTheEnd(d: Text, name: Text)
    requires GoodName(name) && End(d + Zeros(3 + |name|), 0) + 1 >= |d|
    ensures var b := d + Zeros(3 + |name|);
      && End(b, 0) + |name| + 2 <= |b| && Entries(Appended(b, name), 0) == Entries(b, 0) + [name]
      && End(Appended(b, name), 0) == End(b, 0) + |name| + 1
  {
    RoomToInsert(d, name);
    AppendedList(d + Zeros(3 + |name|), name);
  }
}
