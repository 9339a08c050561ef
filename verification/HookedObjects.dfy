/** The list of hooked drivers and devices: structures of varying size, one after the other
    in a buffer. */
module HookedObjects {
  import opened Wire
  import Snapshot

  type Name = Snapshot.Name
  type FastIoSettings = b: seq<byte> | |b| == 27 witness seq(27, _ => 0)
  type IrpSettings = b: seq<byte> | |b| == 28 witness seq(28, _ => 0)
  type MonitorSettings = b: seq<byte> | |b| == 64 witness seq(64, _ => 0)

  /** A device hook record; only those the user asked for are listed. */
  datatype Device = Device(id: Pointer, address: Pointer, fastIo: FastIoSettings, irp: IrpSettings, enabled: byte, name: Name,
                           userRequest: bool)

  /** A driver hook record with its device table in iteration order. */
  datatype Driver = Driver(id: Pointer, address: Pointer, enabled: byte, extensionHooks: byte, settings: MonitorSettings, name: Name,
                           devices: seq<Device>)

  const HEADER_SIZE: nat := 8
  const DRIVER_INFO_SIZE: nat := 104
  const DEVICE_INFO_SIZE: nat := 88
  const DEVICE_COUNT_OFFSET: nat := 92

  function Terminated(name: Name): seq<byte> { name + [0, 0] }

  function DeviceSize(d: Device): nat { DEVICE_INFO_SIZE + |d.name| + WCHAR_SIZE }

  function DriverSize(x: Driver): nat { DRIVER_INFO_SIZE + |x.name| + WCHAR_SIZE }

  function Users(ds: seq<Device>): seq<Device> {
    if ds == [] then [] else (if ds[0].userRequest then [ds[0]] else []) + Users(ds[1..])
  }

  function DevicesSize(ds: seq<Device>): nat {
    if ds == [] then 0 else DeviceSize(ds[0]) + DevicesSize(ds[1..])
  }

  /** A driver with its listed devices. */
  function Span(x: Driver): nat { DriverSize(x) + DevicesSize(Users(x.devices)) }

  function Spans(xs: seq<Driver>): nat {
    if xs == [] then 0 else Span(xs[0]) + Spans(xs[1..])
  }

  // ----- structures in the buffer

  /** The fields of a structure: offset and content, in the order of their offsets. */
  type Fields = seq<(nat, seq<byte>)>

  ghost predicate Ordered(fields: Fields, size: nat) {
    && (forall i, j :: 0 <= i < j < |fields| ==> fields[i].0 + |fields[i].1| <= fields[j].0)
    && (forall i :: 0 <= i < |fields| ==> fields[i].0 + |fields[i].1| <= size)
  }

  ghost predicate AllHold(b: seq<byte>, at: nat, fields: Fields) {
    forall i {:trigger fields[i]} :: 0 <= i < |fields| ==> Holds(b, at + fields[i].0, fields[i].1)
  }

  function DeviceFields(d: Device): Fields {
    [(0, UlongBytes(DeviceSize(d))), (8, PointerBytes(d.id)), (16, PointerBytes(d.address)), (24, d.fastIo), (51, d.irp),
     (79, [d.enabled]), (80, UlongBytes(|d.name| + WCHAR_SIZE)), (84, Terminated(d.name))]
  }

  /** Everything but the number of devices. */
  function DriverFields(x: Driver): Fields {
    [(0, UlongBytes(DriverSize(x))), (8, PointerBytes(x.id)), (16, PointerBytes(x.address)), (24, [x.enabled, x.extensionHooks]),
     (26, x.settings), (96, UlongBytes(|x.name| + WCHAR_SIZE)), (100, Terminated(x.name))]
  }

  ghost predicate DeviceEntry(b: seq<byte>, at: nat, d: Device) {
    AllHold(b, at, DeviceFields(d)) && at + DeviceSize(d) <= |b|
  }

  ghost predicate DriverEntry(b: seq<byte>, at: nat, x: Driver, count: Ulong) {
    && AllHold(b, at, DriverFields(x)) && Holds(b, at + DEVICE_COUNT_OFFSET, UlongBytes(count))
    && at + DriverSize(x) <= |b|
  }

  ghost predicate DeviceEntries(b: seq<byte>, at: nat, ds: seq<Device>)
    decreases |ds|
  {
    |ds| > 0 ==> DeviceEntry(b, at, ds[0]) && DeviceEntries(b, at + DeviceSize(ds[0]), ds[1..])
  }

  /** The driver's structure with those of its listed devices behind it. */
  ghost predicate DriverBlock(b: seq<byte>, at: nat, x: Driver) {
    && |Users(x.devices)| < ULONG_LIMIT
    && DriverEntry(b, at, x, |Users(x.devices)|) && DeviceEntries(b, at + DriverSize(x), Users(x.devices))
  }

  ghost predicate DriverBlocks(b: seq<byte>, at: nat, xs: seq<Driver>)
    decreases |xs|
  {
    |xs| > 0 ==> DriverBlock(b, at, xs[0]) && DriverBlocks(b, at + Span(xs[0]), xs[1..])
  }

  // ----- writing elsewhere changes nothing

  lemma AllHoldStill(a: seq<byte>, b: seq<byte>, from: nat, to: nat, at: nat, fields: Fields, size: nat)
    requires SameOutside(a, b, from, to) && AllHold(a, at, fields) && Ordered(fields, size)
    requires (at + size <= from || to <= at)
    ensures AllHold(b, at, fields)
  {
    forall i | 0 <= i < |fields| ensures Holds(b, at + fields[i].0, fields[i].1) {
      HoldsStill(a, b, from, to, at + fields[i].0, fields[i].1);
    }
  }

  ghost predicate Consecutive(fields: Fields, size: nat) {
    && (forall i {:trigger fields[i]} :: 0 <= i < |fields| - 1 ==> fields[i].0 + |fields[i].1| <= fields[i + 1].0)
    && (fields != [] ==> fields[|fields| - 1].0 + |fields[|fields| - 1].1| <= size)
  }

  lemma {:induction false} ConsecutiveReach(fields: Fields, size: nat, i: nat, j: nat)
    requires Consecutive(fields, size) && i < j < |fields|
    ensures fields[i].0 + |fields[i].1| <= fields[j].0
    decreases j - i
  {
    if i + 1 < j { ConsecutiveReach(fields, size, i + 1, j); }
  }

  lemma ConsecutiveIsOrdered(fields: Fields, size: nat)
    requires Consecutive(fields, size)
    ensures Ordered(fields, size)
  {
    forall i, j | 0 <= i < j < |fields| ensures fields[i].0 + |fields[i].1| <= fields[j].0 {
      ConsecutiveReach(fields, size, i, j);
    }
  }

  lemma DeviceFieldsOrdered(d: Device)
    ensures Ordered(DeviceFields(d), DeviceSize(d))
  {
    ConsecutiveIsOrdered(DeviceFields(d), DeviceSize(d));
    hide Ordered;
  }

  lemma DriverFieldsOrdered(x: Driver)
    ensures Ordered(DriverFields(x), DriverSize(x))
  {
    ConsecutiveIsOrdered(DriverFields(x), DriverSize(x));
    hide Ordered;
  }

  lemma SameLength(a: seq<byte>, b: seq<byte>, from: nat, to: nat)
    requires SameOutside(a, b, from, to)
    ensures |a| == |b|
  {}

  lemma DeviceEntryStill(a: seq<byte>, b: seq<byte>, from: nat, to: nat, at: nat, d: Device)
    requires SameOutside(a, b, from, to) && DeviceEntry(a, at, d) && (at + DeviceSize(d) <= from || to <= at)
    ensures DeviceEntry(b, at, d)
  {
    hide AllHold, Ordered, SameOutside, DeviceFields, DeviceSize;
    SameLength(a, b, from, to);
    DeviceFieldsOrdered(d);
    AllHoldStill(a, b, from, to, at, DeviceFields(d), DeviceSize(d));
  }

  lemma {:induction false} DeviceEntriesStill(a: seq<byte>, b: seq<byte>, from: nat, to: nat, at: nat, ds: seq<Device>)
    requires SameOutside(a, b, from, to) && DeviceEntries(a, at, ds) && (at + DevicesSize(ds) <= from || to <= at)
    ensures DeviceEntries(b, at, ds)
    decreases |ds|
  {
    hide DeviceEntry, DeviceSize, SameOutside;
    if |ds| > 0 {
      DeviceEntryStill(a, b, from, to, at, ds[0]);
      DeviceEntriesStill(a, b, from, to, at + DeviceSize(ds[0]), ds[1..]);
    }
  }

  lemma DriverEntryStill(a: seq<byte>, b: seq<byte>, from: nat, to: nat, at: nat, x: Driver, count: Ulong)
    requires SameOutside(a, b, from, to) && DriverEntry(a, at, x, count) && (at + DriverSize(x) <= from || to <= at)
    ensures DriverEntry(b, at, x, count)
  {
    hide AllHold, Ordered, SameOutside, DriverFields, Holds, UlongBytes;
    SameLength(a, b, from, to);
    HoldsStill(a, b, from, to, at + DEVICE_COUNT_OFFSET, UlongBytes(count));
    DriverFieldsOrdered(x);
    AllHoldStill(a, b, from, to, at, DriverFields(x), DriverSize(x));
  }

  lemma DriverBlockStill(a: seq<byte>, b: seq<byte>, from: nat, to: nat, at: nat, x: Driver)
    requires SameOutside(a, b, from, to) && DriverBlock(a, at, x) && (at + Span(x) <= from || to <= at)
    ensures DriverBlock(b, at, x)
  {
    hide DriverEntry, DriverSize, SameOutside, DeviceEntries;
    DriverEntryStill(a, b, from, to, at, x, |Users(x.devices)|);
    DeviceEntriesStill(a, b, from, to, at + DriverSize(x), Users(x.devices));
  }

  lemma {:induction false} DriverBlocksStill(a: seq<byte>, b: seq<byte>, from: nat, to: nat, at: nat, xs: seq<Driver>)
    requires SameOutside(a, b, from, to) && DriverBlocks(a, at, xs) && (at + Spans(xs) <= from || to <= at)
    ensures DriverBlocks(b, at, xs)
    decreases |xs|
  {
    hide DriverBlock, Span, SameOutside;
    if |xs| > 0 {
      DriverBlockStill(a, b, from, to, at, xs[0]);
      DriverBlocksStill(a, b, from, to, at + Span(xs[0]), xs[1..]);
    }
  }

  // ----- lists grown at the end

  lemma {:induction false} DeviceEntriesSnoc(b: seq<byte>, at: nat, ds: seq<Device>, d: Device)
    requires DeviceEntries(b, at, ds) && DeviceEntry(b, at + DevicesSize(ds), d)
    ensures DeviceEntries(b, at, ds + [d]) && DevicesSize(ds + [d]) == DevicesSize(ds) + DeviceSize(d)
    decreases |ds|
  {
    hide DeviceEntry, DeviceSize;
    if |ds| == 0 {
      assert ds + [d] == [d] && [d][1..] == [];
    } else {
      assert (ds + [d])[1..] == ds[1..] + [d];
      DeviceEntriesSnoc(b, at + DeviceSize(ds[0]), ds[1..], d);
    }
  }

  lemma {:induction false} DriverBlocksSnoc(b: seq<byte>, at: nat, xs: seq<Driver>, x: Driver)
    requires DriverBlocks(b, at, xs) && DriverBlock(b, at + Spans(xs), x)
    ensures DriverBlocks(b, at, xs + [x])
    decreases |xs|
  {
    hide DriverBlock, Span;
    if |xs| == 0 {
      assert xs + [x] == [x] && [x][1..] == [];
    } else {
      assert (xs + [x])[1..] == xs[1..] + [x];
      DriverBlocksSnoc(b, at + Span(xs[0]), xs[1..], x);
    }
  }

  lemma {:induction false} UsersSnoc(ds: seq<Device>, d: Device)
    ensures Users(ds + [d]) == Users(ds) + (if d.userRequest then [d] else [])
  {
    if ds == [] {
      assert ds + [d] == [d] && [d][1..] == [];
    } else {
      assert (ds + [d])[1..] == ds[1..] + [d];
      UsersSnoc(ds[1..], d);
    }
  }

  lemma {:induction false} SpansSplit(a: seq<Driver>, b: seq<Driver>)
    ensures Spans(a + b) == Spans(a) + Spans(b)
  {
    hide Span;
    if a == [] {
      assert a + b == b;
    } else {
      assert (a + b)[1..] == a[1..] + b;
      SpansSplit(a[1..], b);
    }
  }

  /** The drivers whose structures are not overwritten by the next one: those with a device
      record, and the last. */
  function Kept(xs: seq<Driver>): (k: seq<Driver>)
    ensures |k| <= |xs|
  {
    if xs == [] then [] else (if xs[0].devices != [] then [xs[0]] else []) + Kept(xs[1..])
  }

  function Survivors(xs: seq<Driver>): seq<Driver> {
    Kept(xs) + (if xs != [] && xs[|xs| - 1].devices == [] then [xs[|xs| - 1]] else [])
  }

  /** All drivers but possibly the last have a device record. */
  predicate Separated(xs: seq<Driver>) { forall i :: 0 <= i < |xs| - 1 ==> xs[i].devices != [] }

  lemma {:induction false} KeptSnoc(xs: seq<Driver>, x: Driver)
    ensures Kept(xs + [x]) == Kept(xs) + (if x.devices != [] then [x] else [])
    ensures Spans(Kept(xs)) <= Spans(xs)
  {
    hide Span;
    if xs == [] {
      assert xs + [x] == [x] && [x][1..] == [];
    } else {
      assert (xs + [x])[1..] == xs[1..] + [x];
      KeptSnoc(xs[1..], x);
      SpansSplit(if xs[0].devices != [] then [xs[0]] else [], Kept(xs[1..]));
      assert Spans([xs[0]]) == Span(xs[0]) + Spans([][..]);
    }
  }

  // ----- measuring and writing

  lemma {:induction false} DevicesSizeSnoc(ds: seq<Device>, d: Device)
    ensures DevicesSize(ds + [d]) == DevicesSize(ds) + DeviceSize(d)
  {
    hide DeviceSize;
    if ds == [] {
      assert ds + [d] == [d] && [d][1..] == [];
    } else {
      assert (ds + [d])[1..] == ds[1..] + [d];
      DevicesSizeSnoc(ds[1..], d);
    }
  }

  /** The measuring pass of HookObjectsEnumerate. */
  method Measure(xs: seq<Driver>) returns (length: nat)
    ensures length == HEADER_SIZE + Spans(xs)
  {
    length := HEADER_SIZE;
    var i := 0;
    assert xs[..0] == [];
    while i < |xs|
      invariant i <= |xs| && length == HEADER_SIZE + Spans(xs[..i])
    {
      assert xs[..i + 1] == xs[..i] + [xs[i]];
      SpansSplit(xs[..i], [xs[i]]);
      length := MeasureDriver(xs[i], length);
      i := i + 1;
    }
    assert xs[..i] == xs;
  }

  method MeasureDriver(x: Driver, before: nat) returns (length: nat)
    ensures length == before + Span(x)
  {
    hide Users, DevicesSize;
    length := before + DRIVER_INFO_SIZE + |x.name| + WCHAR_SIZE;
    var j := 0;
    NoDevices(x.devices);
    while j < |x.devices|
      invariant j <= |x.devices| && length == before + DriverSize(x) + DevicesSize(Users(x.devices[..j]))
    {
      assert x.devices[..j + 1] == x.devices[..j] + [x.devices[j]];
      UsersSnoc(x.devices[..j], x.devices[j]);
      if x.devices[j].userRequest {
        DevicesSizeSnoc(Users(x.devices[..j]), x.devices[j]);
        length := length + DEVICE_INFO_SIZE + |x.devices[j].name| + WCHAR_SIZE;
      } else {
        assert Users(x.devices[..j]) + [] == Users(x.devices[..j]);
      }
      j := j + 1;
    }
    assert x.devices[..j] == x.devices;
  }

  lemma NoDevices(ds: seq<Device>)
    ensures Users(ds[..0]) == [] && DevicesSize([]) == 0
  {}

  lemma OutsideBoth(a: seq<byte>, b: seq<byte>, c: seq<byte>, from: nat, to: nat, from1: nat, to1: nat)
    requires SameOutside(a, b, from, to) && SameOutside(b, c, from1, to1) && from <= from1 && to1 <= to
    ensures SameOutside(a, c, from, to)
  {}

  /** Assigning the fields of a structure in the buffer. */
  method PutFields(buffer: array<byte>, at: nat, fields: Fields, ghost size: nat)
    requires Ordered(fields, size) && at + size <= buffer.Length
    modifies buffer
    ensures AllHold(buffer[..], at, fields) && SameOutside(old(buffer[..]), buffer[..], at, at + size)
  {
    var i := 0;
    while i < |fields|
      invariant i <= |fields| && SameOutside(old(buffer[..]), buffer[..], at, at + size)
      invariant forall k {:trigger fields[k]} :: 0 <= k < i ==> Holds(buffer[..], at + fields[k].0, fields[k].1)
    {
      ghost var before := buffer[..];
      var (offset, bytes) := fields[i];
      Put(buffer, at + offset, bytes);
      OutsideBoth(old(buffer[..]), before, buffer[..], at, at + size, at + offset, at + offset + |bytes|);
      forall k | 0 <= k < i ensures Holds(buffer[..], at + fields[k].0, fields[k].1) {
        HoldsStill(before, buffer[..], at + offset, at + offset + |bytes|, at + fields[k].0, fields[k].1);
      }
      i := i + 1;
    }
  }

  /** The header counts, and the structures finished so far. */
  ghost predicate Progress(b: seq<byte>, drivers: Ulong, devices: Ulong, kept: seq<Driver>) {
    && Holds(b, 0, UlongBytes(drivers)) && Holds(b, ULONG_SIZE, UlongBytes(devices))
    && DriverBlocks(b, HEADER_SIZE, kept)
  }

  lemma ProgressStill(a: seq<byte>, b: seq<byte>, from: nat, to: nat, drivers: Ulong, devices: Ulong, kept: seq<Driver>)
    requires SameOutside(a, b, from, to) && Progress(a, drivers, devices, kept) && HEADER_SIZE + Spans(kept) <= from
    ensures Progress(b, drivers, devices, kept)
  {
    hide SameOutside, Holds, DriverBlocks, UlongBytes;
    HoldsStill(a, b, from, to, 0, UlongBytes(drivers));
    HoldsStill(a, b, from, to, ULONG_SIZE, UlongBytes(devices));
    DriverBlocksStill(a, b, from, to, HEADER_SIZE, kept);
  }

  /** The structures of a driver in the buffer, as far as its first devices. */
  ghost predicate Partly(b: seq<byte>, at: nat, x: Driver, ds: seq<Device>) {
    |Users(ds)| < ULONG_LIMIT && DriverEntry(b, at, x, |Users(ds)|) && DeviceEntries(b, at + DriverSize(x), Users(ds))
  }

  method SetDeviceTotal(buffer: array<byte>, ghost drivers: Ulong, ghost devices: Ulong, count: Ulong,
                        ghost kept: seq<Driver>,
                        ghost at: nat, ghost x: Driver, ghost ds: seq<Device>)
    requires Progress(buffer[..], drivers, devices, kept) && Partly(buffer[..], at, x, ds) && at >= HEADER_SIZE
    modifies buffer
    ensures Progress(buffer[..], drivers, count, kept) && Partly(buffer[..], at, x, ds)
  {
    hide Holds, UlongBytes, DriverBlocks, DriverEntry, DeviceEntries, SameOutside, Users, Spans, Span, DriverSize;
    ghost var before := buffer[..];
    EnoughRoom(before, ULONG_SIZE, UlongBytes(devices));
    Put(buffer, ULONG_SIZE, UlongBytes(count));
    HoldsStill(before, buffer[..], ULONG_SIZE, HEADER_SIZE, 0, UlongBytes(drivers));
    DriverBlocksStill(before, buffer[..], ULONG_SIZE, HEADER_SIZE, HEADER_SIZE, kept);
    DriverEntryStill(before, buffer[..], ULONG_SIZE, HEADER_SIZE, at, x, |Users(ds)|);
    DeviceEntriesStill(before, buffer[..], ULONG_SIZE, HEADER_SIZE, at + DriverSize(x), Users(ds));
  }

  lemma EnoughRoom(b: seq<byte>, at: nat, bytes: seq<byte>)
    requires Holds(b, at, bytes)
    ensures at + |bytes| <= |b|
  {}

  lemma CountApart(x: Driver)
    ensures forall i {:trigger DriverFields(x)[i]} :: 0 <= i < |DriverFields(x)| ==>
      DriverFields(x)[i].0 + |DriverFields(x)[i].1| <= DEVICE_COUNT_OFFSET || DriverFields(x)[i].0 >= DEVICE_COUNT_OFFSET + ULONG_SIZE
  {}

  /** NumberOfHookedDevices of a driver's structure. */
  method SetDeviceCount(buffer: array<byte>, at: nat, ghost x: Driver, ghost before: Ulong, count: Ulong)
    requires DriverEntry(buffer[..], at, x, before)
    modifies buffer
    ensures DriverEntry(buffer[..], at, x, count)
    ensures SameOutside(old(buffer[..]), buffer[..], at + DEVICE_COUNT_OFFSET, at + DEVICE_COUNT_OFFSET + ULONG_SIZE)
  {
    hide Holds, UlongBytes, SameOutside, DriverFields;
    ghost var b := buffer[..];
    EnoughRoom(b, at + DEVICE_COUNT_OFFSET, UlongBytes(before));
    Put(buffer, at + DEVICE_COUNT_OFFSET, UlongBytes(count));
    CountApart(x);
    forall i | 0 <= i < |DriverFields(x)| ensures Holds(buffer[..], at + DriverFields(x)[i].0, DriverFields(x)[i].1) {
      HoldsStill(b, buffer[..], at + DEVICE_COUNT_OFFSET, at + DEVICE_COUNT_OFFSET + ULONG_SIZE,
                 at + DriverFields(x)[i].0, DriverFields(x)[i].1);
    }
  }

  lemma {:induction false} UsersOfPart(ds: seq<Device>, j: nat)
    requires j <= |ds|
    ensures |Users(ds[..j])| <= |Users(ds)| && DevicesSize(Users(ds[..j])) <= DevicesSize(Users(ds))
    ensures j < |ds| && ds[j].userRequest ==>
      |Users(ds[..j])| < |Users(ds)| && DevicesSize(Users(ds[..j])) + DeviceSize(ds[j]) <= DevicesSize(Users(ds))
    decreases |ds|
  {
    hide DeviceSize;
    if j > 0 {
      UsersOfPart(ds[1..], j - 1);
      assert ds[..j][1..] == ds[1..][..j - 1] && ds[..j][0] == ds[0];
      assert j < |ds| ==> ds[1..][j - 1] == ds[j];
      UsersHead(ds);
      UsersHead(ds[..j]);
    } else {
      assert ds[..0] == [];
      if |ds| > 0 { UsersHead(ds); }
    }
  }

  lemma UsersHead(ds: seq<Device>)
    requires |ds| > 0
    ensures |Users(ds)| == |Users(ds[1..])| + (if ds[0].userRequest then 1 else 0)
    ensures DevicesSize(Users(ds)) == DevicesSize(Users(ds[1..])) + (if ds[0].userRequest then DeviceSize(ds[0]) else 0)
  {
    hide DeviceSize;
    if ds[0].userRequest {
      assert Users(ds)[1..] == Users(ds[1..]);
    } else {
      assert Users(ds) == Users(ds[1..]);
    }
  }

  /** One more device in the writing pass: both counts, then its structure at the cursor. */
  method WriteDevice(buffer: array<byte>, at: nat, cursor: nat, count: Ulong, total: Ulong, d: Device,
                     ghost x: Driver, ghost ds: seq<Device>, ghost drivers: Ulong, ghost kept: seq<Driver>)
    requires Progress(buffer[..], drivers, total, kept) && Partly(buffer[..], at, x, ds)
    requires HEADER_SIZE + Spans(kept) <= at
    requires d.userRequest && count == |Users(ds)| && count + 1 < ULONG_LIMIT && total + 1 < ULONG_LIMIT
    requires cursor == at + DriverSize(x) + DevicesSize(Users(ds)) && cursor + DeviceSize(d) <= buffer.Length
    modifies buffer
    ensures Progress(buffer[..], drivers, total + 1, kept) && Partly(buffer[..], at, x, ds + [d])
  {
    hide Holds, UlongBytes, DriverBlocks, DriverEntry, DeviceEntries, SameOutside, Users, Spans, Span, AllHold,
         Progress, DeviceFields;
    SetDeviceTotal(buffer, drivers, total, total + 1, kept, at, x, ds);
    ghost var b0 := buffer[..];
    SetDeviceCount(buffer, at, x, count, count + 1);
    ghost var b1 := buffer[..];
    ProgressStill(b0, b1, at + DEVICE_COUNT_OFFSET, at + DEVICE_COUNT_OFFSET + ULONG_SIZE, drivers, total + 1, kept);
    DeviceEntriesStill(b0, b1, at + DEVICE_COUNT_OFFSET, at + DEVICE_COUNT_OFFSET + ULONG_SIZE, at + DriverSize(x),
                       Users(ds));
    DeviceFieldsOrdered(d);
    PutFields(buffer, cursor, DeviceFields(d), DeviceSize(d));
    ProgressStill(b1, buffer[..], cursor, cursor + DeviceSize(d), drivers, total + 1, kept);
    DriverEntryStill(b1, buffer[..], cursor, cursor + DeviceSize(d), at, x, count + 1);
    DeviceEntriesStill(b1, buffer[..], cursor, cursor + DeviceSize(d), at + DriverSize(x), Users(ds));
    DeviceEntriesSnoc(buffer[..], at + DriverSize(x), Users(ds), d);
    UsersSnoc(ds, d);
  }

  /** One driver in the writing pass.  The cursor moves on only if there is a device record. */
  method WriteDriver(buffer: array<byte>, at: nat, x: Driver, total: Ulong, ghost drivers: Ulong,
                     ghost kept: seq<Driver>)
    returns (cursor: nat, newTotal: Ulong)
    requires Progress(buffer[..], drivers, total, kept) && HEADER_SIZE + Spans(kept) <= at
    requires at + Span(x) <= buffer.Length
    requires total + |Users(x.devices)| < ULONG_LIMIT
    modifies buffer
    ensures newTotal == total + |Users(x.devices)| && Progress(buffer[..], drivers, newTotal, kept)
    ensures DriverBlock(buffer[..], at, x) && cursor == if x.devices != [] then at + Span(x) else at
  {
    hide Holds, UlongBytes, DriverBlocks, DeviceEntries, SameOutside, Spans, AllHold, Progress, DriverFields, Users,
         DevicesSize;
    ghost var b0 := buffer[..];
    DriverFieldsOrdered(x);
    PutFields(buffer, at, DriverFields(x), DriverSize(x));
    ghost var b1 := buffer[..];
    ProgressStill(b0, b1, at, at + DriverSize(x), drivers, total, kept);
    FirstDeviceCount(buffer, at, x);
    ProgressStill(b1, buffer[..], at + DEVICE_COUNT_OFFSET, at + DEVICE_COUNT_OFFSET + ULONG_SIZE, drivers, total,
                  kept);
    cursor, newTotal := at, total;
    NoDevices(x.devices);
    NoEntries(buffer[..], at + DriverSize(x));
    if x.devices != [] {
      cursor := at + DriverSize(x);
      var count: Ulong := 0;
      var j := 0;
      while j < |x.devices|
        invariant j <= |x.devices| && count == |Users(x.devices[..j])| && newTotal == total + count < ULONG_LIMIT
        invariant cursor == at + DriverSize(x) + DevicesSize(Users(x.devices[..j]))
        invariant Progress(buffer[..], drivers, newTotal, kept) && Partly(buffer[..], at, x, x.devices[..j])
      {
        assert x.devices[..j + 1] == x.devices[..j] + [x.devices[j]];
        UsersOfPart(x.devices, j);
        UsersSnoc(x.devices[..j], x.devices[j]);
        if x.devices[j].userRequest {
          WriteDevice(buffer, at, cursor, count, newTotal, x.devices[j], x, x.devices[..j], drivers, kept);
          DevicesSizeSnoc(Users(x.devices[..j]), x.devices[j]);
          count, newTotal := count + 1, newTotal + 1;
          cursor := cursor + DeviceSize(x.devices[j]);
        } else {
          assert Users(x.devices[..j]) + [] == Users(x.devices[..j]);
        }
        j := j + 1;
      }
      assert x.devices[..j] == x.devices;
    }
  }

  lemma NoEntries(b: seq<byte>, at: nat)
    ensures DeviceEntries(b, at, [])
  {}

  /** NumberOfHookedDevices starts at 0. */
  method FirstDeviceCount(buffer: array<byte>, at: nat, ghost x: Driver)
    requires AllHold(buffer[..], at, DriverFields(x)) && at + DriverSize(x) <= buffer.Length
    modifies buffer
    ensures DriverEntry(buffer[..], at, x, 0)
    ensures SameOutside(old(buffer[..]), buffer[..], at + DEVICE_COUNT_OFFSET, at + DEVICE_COUNT_OFFSET + ULONG_SIZE)
  {
    hide Holds, UlongBytes, SameOutside, DriverFields;
    ghost var b := buffer[..];
    Put(buffer, at + DEVICE_COUNT_OFFSET, UlongBytes(0));
    CountApart(x);
    forall i | 0 <= i < |DriverFields(x)| ensures Holds(buffer[..], at + DriverFields(x)[i].0, DriverFields(x)[i].1) {
      HoldsStill(b, buffer[..], at + DEVICE_COUNT_OFFSET, at + DEVICE_COUNT_OFFSET + ULONG_SIZE,
                 at + DriverFields(x)[i].0, DriverFields(x)[i].1);
    }
  }

  /** The listed devices of all drivers. */
  function Listed(xs: seq<Driver>): nat {
    if xs == [] then 0 else |Users(xs[0].devices)| + Listed(xs[1..])
  }

  lemma {:induction false} ListedSnoc(xs: seq<Driver>, x: Driver)
    ensures Listed(xs + [x]) == Listed(xs) + |Users(x.devices)|
  {
    hide Users;
    if xs == [] {
      assert xs + [x] == [x] && [x][1..] == [];
    } else {
      assert (xs + [x])[1..] == xs[1..] + [x];
      ListedSnoc(xs[1..], x);
    }
  }

  lemma {:induction false} DevicesTakeRoom(ds: seq<Device>)
    ensures |ds| <= DevicesSize(ds)
  {
    if ds != [] { DevicesTakeRoom(ds[1..]); }
  }

  lemma {:induction false} DriversTakeRoom(xs: seq<Driver>)
    ensures |xs| + Listed(xs) <= Spans(xs)
  {
    if xs != [] {
      DriversTakeRoom(xs[1..]);
      DevicesTakeRoom(Users(xs[0].devices));
      hide Users;
    }
  }

  /** The drivers before the i-th, and it. */
  lemma DriversUpTo(xs: seq<Driver>, i: nat)
    requires i < |xs|
    ensures xs[..i + 1] == xs[..i] + [xs[i]]
    ensures Kept(xs[..i + 1]) == if xs[i].devices != [] then Kept(xs[..i]) + [xs[i]] else Kept(xs[..i])
    ensures Spans(Kept(xs[..i])) + Span(xs[i]) <= Spans(xs)
    ensures Listed(xs[..i + 1]) == Listed(xs[..i]) + |Users(xs[i].devices)|
    ensures Listed(xs[..i + 1]) <= Spans(xs)
    ensures xs[i].devices != [] ==> Spans(Kept(xs[..i + 1])) == Spans(Kept(xs[..i])) + Span(xs[i])
  {
    hide Span, Users, Kept, Listed;
    assert xs[..i + 1] == xs[..i] + [xs[i]] && xs == xs[..i + 1] + xs[i + 1..];
    KeptSnoc(xs[..i], xs[i]);
    assert Kept(xs[..i]) + [] == Kept(xs[..i]);
    ListedSnoc(xs[..i], xs[i]);
    SpansSplit(xs[..i], [xs[i]]);
    SpansSplit(xs[..i + 1], xs[i + 1..]);
    SpansSplit(Kept(xs[..i]), [xs[i]]);
    DriversTakeRoom(xs[..i + 1]);
    assert [xs[i]][1..] == [];
  }

  /** A header count, and what was written before. */
  method SetDriverTotal(buffer: array<byte>, ghost drivers: Ulong, count: Ulong, ghost devices: Ulong,
                        ghost kept: seq<Driver>)
    requires Progress(buffer[..], drivers, devices, kept)
    modifies buffer
    ensures Progress(buffer[..], count, devices, kept)
  {
    hide Holds, UlongBytes, DriverBlocks, SameOutside, Spans;
    ghost var b := buffer[..];
    EnoughRoom(b, 0, UlongBytes(drivers));
    Put(buffer, 0, UlongBytes(count));
    HoldsStill(b, buffer[..], 0, ULONG_SIZE, ULONG_SIZE, UlongBytes(devices));
    DriverBlocksStill(b, buffer[..], 0, ULONG_SIZE, HEADER_SIZE, kept);
  }

  method PutHeader(buffer: array<byte>)
    requires HEADER_SIZE <= buffer.Length
    modifies buffer
    ensures Progress(buffer[..], 0, 0, [])
  {
    hide Holds, UlongBytes;
    Put(buffer, ULONG_SIZE, UlongBytes(0));
    ghost var b := buffer[..];
    Put(buffer, 0, UlongBytes(0));
    HoldsStill(b, buffer[..], 0, ULONG_SIZE, ULONG_SIZE, UlongBytes(0));
  }

  /** What HookObjectsEnumerate writes: the counts of all drivers and devices, but only the
      structures of the survivors. */
  ghost predicate Written(b: seq<byte>, xs: seq<Driver>) {
    |xs| < ULONG_LIMIT && Listed(xs) < ULONG_LIMIT && Progress(b, |xs|, Listed(xs), Survivors(xs))
  }

  lemma AllWritten(b: seq<byte>, xs: seq<Driver>, total: Ulong)
    requires |xs| < ULONG_LIMIT && total == Listed(xs) && Progress(b, |xs|, total, Kept(xs))
    requires xs != [] && xs[|xs| - 1].devices == [] ==> DriverBlock(b, HEADER_SIZE + Spans(Kept(xs)), xs[|xs| - 1])
    ensures Written(b, xs)
  {
    hide DriverBlocks, DriverBlock, Holds, Kept, Listed, Spans, UlongBytes;
    if xs != [] && xs[|xs| - 1].devices == [] {
      DriverBlocksSnoc(b, HEADER_SIZE, Kept(xs), xs[|xs| - 1]);
    } else {
      assert Survivors(xs) == Kept(xs);
    }
  }

  /** HookObjectsEnumerate. */
  method Enumerate(xs: seq<Driver>, buffer: array<byte>) returns (ok: bool, returnLength: nat)
    requires HEADER_SIZE + Spans(xs) < ULONG_LIMIT
    modifies buffer
    ensures returnLength == HEADER_SIZE + Spans(xs) && ok == (returnLength <= buffer.Length)
    ensures ok ==> Written(buffer[..], xs)
    ensures !ok ==> buffer[..] == old(buffer[..])
  {
    hide Progress, DriverBlock, Spans, Span, Kept, Listed, Written, Users;
    returnLength := Measure(xs);
    ok := returnLength <= buffer.Length;
    if ok {
      PutHeader(buffer);
      NoDrivers();
      DriversTakeRoom(xs);
      var cursor, i := HEADER_SIZE, 0;
      var total: Ulong := 0;
      assert xs[..0] == [];
      while i < |xs|
        invariant i <= |xs| && total == Listed(xs[..i]) && Progress(buffer[..], i, total, Kept(xs[..i]))
        invariant cursor == HEADER_SIZE + Spans(Kept(xs[..i]))
        invariant i > 0 && xs[i - 1].devices == [] ==> DriverBlock(buffer[..], cursor, xs[i - 1])
      {
        DriversUpTo(xs, i);
        SetDriverTotal(buffer, i, i + 1, total, Kept(xs[..i]));
        ghost var at := cursor;
        cursor, total := WriteDriver(buffer, cursor, xs[i], total, i + 1, Kept(xs[..i]));
        if xs[i].devices != [] { MoveOn(buffer[..], i + 1, total, Kept(xs[..i]), xs[i]); }
        i := i + 1;
      }
      assert xs[..i] == xs;
      AllWritten(buffer[..], xs, total);
    }
  }

  lemma NoDrivers()
    ensures Kept([]) == [] && Spans([]) == 0 && Listed([]) == 0
  {}

  lemma MoveOn(b: seq<byte>, drivers: Ulong, devices: Ulong, kept: seq<Driver>, x: Driver)
    requires Progress(b, drivers, devices, kept) && DriverBlock(b, HEADER_SIZE + Spans(kept), x)
    ensures Progress(b, drivers, devices, kept + [x])
  {
    DriverBlocksSnoc(b, HEADER_SIZE, kept, x);
    hide DriverBlocks, DriverBlock, Holds;
  }

  // ----- when the survivors are all the drivers

  /** A driver's structure survives exactly if the driver has a device record or is the last;
      the survivors stay in order. */
  lemma {:induction false} SurvivorsHead(xs: seq<Driver>)
    ensures Survivors(xs) ==
      if |xs| <= 1 then xs else (if xs[0].devices != [] then [xs[0]] else []) + Survivors(xs[1..])
  {
    if |xs| == 1 {
      assert xs[1..] == [];
    } else if |xs| > 1 {
      assert xs[1..][|xs| - 2] == xs[|xs| - 1];
    }
  }

  lemma {:induction false} SurvivorsAreDrivers(xs: seq<Driver>)
    requires xs != []
    ensures Survivors(xs) != [] && (forall y :: y in Survivors(xs) ==> y in xs)
  {
    if |xs| > 1 {
      SurvivorsHead(xs);
      SurvivorsAreDrivers(xs[1..]);
      assert forall y :: y in xs[1..] ==> y in xs;
      hide Survivors;
    } else {
      assert xs[1..] == [];
    }
  }

  ghost predicate DistinctIds(xs: seq<Driver>) { forall i, j :: 0 <= i < j < |xs| ==> xs[i].id != xs[j].id }

  /** Every driver's structure survives exactly if all drivers but possibly the last have a
      device record.  Otherwise some structure the parser reads is another driver's. */
  lemma {:induction false} WhoSurvives(xs: seq<Driver>)
    requires DistinctIds(xs)
    ensures Separated(xs) ==> Survivors(xs) == xs
    ensures !Separated(xs) ==> exists i :: 0 <= i < |Survivors(xs)| && i < |xs| && Survivors(xs)[i].id != xs[i].id
  {
    if |xs| > 1 {
      SurvivorsHead(xs);
      SurvivorsAreDrivers(xs[1..]);
      WhoSurvives(xs[1..]);
      assert Separated(xs) ==> Separated(xs[1..]) by {
        if Separated(xs) { forall i | 0 <= i < |xs[1..]| - 1 ensures xs[1..][i].devices != [] { assert xs[1..][i] == xs[i + 1]; } }
      }
      if xs[0].devices == [] {
        var y := Survivors(xs)[0];
        assert y in Survivors(xs[1..]) && y in xs[1..] && y.id != xs[0].id;
      } else if !Separated(xs) {
        StillNotSeparated(xs);
        var i :| 0 <= i < |Survivors(xs[1..])| && i < |xs[1..]| && Survivors(xs[1..])[i].id != xs[1..][i].id;
        assert Survivors(xs)[i + 1].id != xs[i + 1].id;
      }
      hide Survivors;
    } else if |xs| == 1 {
      assert xs[1..] == [];
    }
  }

  lemma StillNotSeparated(xs: seq<Driver>)
    requires |xs| > 1 && xs[0].devices != [] && !Separated(xs)
    ensures !Separated(xs[1..])
  {
    var k :| 0 <= k < |xs| - 1 && xs[k].devices == [];
    assert xs[1..][k - 1] == xs[k];
  }

  // ----- parsing

  /** What the library shows of a device and of a driver. */
  datatype DeviceInfo = DeviceInfo(id: Pointer, address: Pointer, fastIo: seq<byte>, irp: seq<byte>, enabled: byte, name: seq<byte>)

  datatype DriverInfo = DriverInfo(id: Pointer, address: Pointer, enabled: byte, extensionHooks: byte, settings: seq<byte>,
                                   name: seq<byte>, devices: seq<DeviceInfo>)

  function ShowDevice(d: Device): DeviceInfo { DeviceInfo(d.id, d.address, d.fastIo, d.irp, d.enabled, d.name) }

  function ShowDevices(ds: seq<Device>): (r: seq<DeviceInfo>)
    ensures |r| == |ds| && forall i :: 0 <= i < |ds| ==> r[i] == ShowDevice(ds[i])
  {
    if ds == [] then [] else [ShowDevice(ds[0])] + ShowDevices(ds[1..])
  }

  /** A driver with the devices the user asked for, in iteration order. */
  function Show(x: Driver): DriverInfo {
    DriverInfo(x.id, x.address, x.enabled, x.extensionHooks, x.settings, x.name, ShowDevices(Users(x.devices)))
  }

  /** How many of the records the user asked for. */
  ghost function Wanted(ds: seq<Device>): nat { |set k | 0 <= k < |ds| && ds[k].userRequest| }

  lemma WantedSnoc(ds: seq<Device>, d: Device)
    ensures Wanted(ds + [d]) == Wanted(ds) + (if d.userRequest then 1 else 0)
  {
    var all := ds + [d];
    var before := set k | 0 <= k < |ds| && ds[k].userRequest;
    assert forall k :: 0 <= k < |ds| ==> all[k] == ds[k];
    assert (set k | 0 <= k < |all| && all[k].userRequest) == before + if d.userRequest then {|ds|} else {};
  }

  /** The listed devices are those the user asked for, in the order of their records. */
  lemma {:induction false} UsersAre(ds: seq<Device>)
    ensures |Users(ds)| == Wanted(ds)
    ensures forall k :: 0 <= k < |ds| && ds[k].userRequest ==>
      Wanted(ds[..k]) < |Users(ds)| && Users(ds)[Wanted(ds[..k])] == ds[k]
    decreases |ds|
  {
    if |ds| > 0 {
      var n := |ds| - 1;
      UsersAre(ds[..n]);
      WantedSnoc(ds[..n], ds[n]);
      UsersSnoc(ds[..n], ds[n]);
      assert ds[..n] + [ds[n]] == ds;
      forall k | 0 <= k < |ds| && ds[k].userRequest
        ensures Wanted(ds[..k]) < |Users(ds)| && Users(ds)[Wanted(ds[..k])] == ds[k]
      {
        if k < n { assert ds[..n][..k] == ds[..k] && ds[..n][k] == ds[k]; }
      }
    }
    hide Users, Wanted;
  }

  /** The counts in the header: all drivers, and all devices the user asked for. */
  lemma {:induction false} HeaderReads(b: seq<byte>, xs: seq<Driver>)
    ensures Written(b, xs) ==> 8 <= |b| && Value(b[0..4]) == |xs| && Value(b[4..8]) == Listed(xs)
    ensures Listed(xs) == if xs == [] then 0 else Wanted(xs[0].devices) + Listed(xs[1..])
  {
    if xs != [] { UsersAre(xs[0].devices); }
    hide Users, Wanted, UlongBytes, Value, DriverBlocks;
  }

  /** What is shown of a driver, field by field, with each device the user asked for at the
      place its record has among those. */
  lemma ShowIs(x: Driver)
    ensures var r := Show(x);
      && r.id == x.id && r.address == x.address && r.enabled == x.enabled && r.extensionHooks == x.extensionHooks
      && r.settings == x.settings && r.name == x.name && |r.devices| == Wanted(x.devices)
      && forall k :: 0 <= k < |x.devices| && x.devices[k].userRequest ==>
          && Wanted(x.devices[..k]) < |r.devices|
          && var e, d := r.devices[Wanted(x.devices[..k])], x.devices[k];
            && e.id == d.id && e.address == d.address && e.fastIo == d.fastIo && e.irp == d.irp && e.enabled == d.enabled
            && e.name == d.name
  {
    UsersAre(x.devices);
    hide Users, Wanted;
  }

  lemma AllShown(rs: seq<DriverInfo>, xs: seq<Driver>)
    requires |xs| <= |rs| && forall i :: 0 <= i < |xs| ==> rs[i] == Show(xs[i])
    ensures forall i :: 0 <= i < |xs| ==>
      var r, x := rs[i], xs[i];
      && r.id == x.id && r.address == x.address && r.enabled == x.enabled && r.extensionHooks == x.extensionHooks
      && r.settings == x.settings && r.name == x.name && |r.devices| == Wanted(x.devices)
    ensures forall i, k :: 0 <= i < |xs| && 0 <= k < |xs[i].devices| && xs[i].devices[k].userRequest ==>
      && Wanted(xs[i].devices[..k]) < |rs[i].devices|
      && var e, d := rs[i].devices[Wanted(xs[i].devices[..k])], xs[i].devices[k];
        && e.id == d.id && e.address == d.address && e.fastIo == d.fastIo && e.irp == d.irp
        && e.enabled == d.enabled && e.name == d.name
  {
    hide Show, Wanted;
    forall i | 0 <= i < |xs| { ShowIs(xs[i]); }
  }

  lemma DeviceParts(b: seq<byte>, at: nat, d: Device)
    requires DeviceEntry(b, at, d)
    ensures Holds(b, at, UlongBytes(DeviceSize(d))) && Holds(b, at + 8, PointerBytes(d.id))
    ensures Holds(b, at + 16, PointerBytes(d.address))
    ensures Holds(b, at + 24, d.fastIo) && Holds(b, at + 51, d.irp) && Holds(b, at + 79, [d.enabled])
    ensures Holds(b, at + 80, UlongBytes(|d.name| + WCHAR_SIZE)) && Holds(b, at + 84, Terminated(d.name))
  {
    hide Holds, UlongBytes, PointerBytes, Terminated;
    var f := DeviceFields(d);
    assert f[0].0 == 0 && f[1].0 == 8 && f[2].0 == 16 && f[3].0 == 24 && f[4].0 == 51 && f[5].0 == 79 && f[6].0 == 80 && f[7].0 == 84;
  }

  lemma DriverParts(b: seq<byte>, at: nat, x: Driver, count: Ulong)
    requires DriverEntry(b, at, x, count)
    ensures Holds(b, at, UlongBytes(DriverSize(x))) && Holds(b, at + 8, PointerBytes(x.id))
    ensures Holds(b, at + 16, PointerBytes(x.address))
    ensures Holds(b, at + 24, [x.enabled, x.extensionHooks]) && Holds(b, at + 26, x.settings)
    ensures Holds(b, at + 92, UlongBytes(count)) && Holds(b, at + 96, UlongBytes(|x.name| + WCHAR_SIZE))
    ensures Holds(b, at + 100, Terminated(x.name))
  {
    hide Holds, UlongBytes, PointerBytes, Terminated;
    var f := DriverFields(x);
    assert f[0].0 == 0 && f[1].0 == 8 && f[2].0 == 16 && f[3].0 == 24 && f[4].0 == 26 && f[5].0 == 96 && f[6].0 == 100;
  }

  /** Names are copied with their terminator; the length shown is without it. */
  function ShownName(copy: seq<byte>): seq<byte> {
    if |copy| < WCHAR_SIZE then [] else copy[..|copy| - WCHAR_SIZE]
  }

  lemma StretchIs(buffer: array<byte>, at: nat, size: nat, bytes: seq<byte>)
    requires Holds(buffer[..], at, bytes) && |bytes| == size
    ensures at + size <= buffer.Length && buffer[at..at + size] == bytes
  {
    assert buffer[at..at + size] == buffer[..][at..at + size];
  }

  lemma DeviceReads(buffer: array<byte>, at: nat, d: Device)
    requires DeviceEntry(buffer[..], at, d)
    ensures var length := |d.name| + WCHAR_SIZE;
      && at + 84 + length <= buffer.Length && Value(buffer[at..at + 4]) == 90 + |d.name|
      && Value(buffer[at + 8..at + 16]) == d.id && Value(buffer[at + 16..at + 24]) == d.address
      && buffer[at + 24..at + 51] == d.fastIo && buffer[at + 51..at + 79] == d.irp && buffer[at + 79] == d.enabled
      && Value(buffer[at + 80..at + 84]) == length && ShownName(buffer[at + 84..at + 84 + length]) == d.name
  {
    hide Holds, UlongBytes, PointerBytes, DeviceEntry, Value;
    DeviceParts(buffer[..], at, d);
    StretchIs(buffer, at, 4, UlongBytes(DeviceSize(d)));
    StretchIs(buffer, at + 8, 8, PointerBytes(d.id));
    StretchIs(buffer, at + 16, 8, PointerBytes(d.address));
    StretchIs(buffer, at + 24, 27, d.fastIo);
    StretchIs(buffer, at + 51, 28, d.irp);
    StretchIs(buffer, at + 79, 1, [d.enabled]);
    assert buffer[at + 79] == buffer[at + 79..at + 80][0];
    StretchIs(buffer, at + 80, 4, UlongBytes(|d.name| + WCHAR_SIZE));
    StretchIs(buffer, at + 84, |d.name| + WCHAR_SIZE, Terminated(d.name));
  }

  /** One device structure.  `ok` is whether all that is read lies in the buffer. */
  method ParseDevice(buffer: array<byte>, at: nat, ghost d: Device) returns (ok: bool, r: DeviceInfo, next: nat)
    ensures DeviceEntry(buffer[..], at, d) ==> ok && r == ShowDevice(d) && next == at + DeviceSize(d)
  {
    hide Value, DeviceEntry;
    if DeviceEntry(buffer[..], at, d) { DeviceReads(buffer, at, d); }
    ok, r, next := false, DeviceInfo(0, 0, [], [], 0, []), at;
    if at + 84 <= buffer.Length {
      var length := UlongOf(buffer[at + 80..at + 84]);
      if at + 84 + length <= buffer.Length {
        var name := ShownName(buffer[at + 84..at + 84 + length]);
        r := DeviceInfo(PointerOf(buffer[at + 8..at + 16]), PointerOf(buffer[at + 16..at + 24]), buffer[at + 24..at + 51],
                        buffer[at + 51..at + 79], buffer[at + 79], name);
        ok, next := true, at + UlongOf(buffer[at..at + 4]);
      }
    }
  }

  lemma DevicesFrom(b: seq<byte>, at: nat, ds: seq<Device>, j: nat)
    requires j < |ds| && DeviceEntries(b, at, ds[j..])
    ensures DeviceEntry(b, at, ds[j]) && DeviceEntries(b, at + DeviceSize(ds[j]), ds[j + 1..])
    ensures DevicesSize(ds[j..]) == DeviceSize(ds[j]) + DevicesSize(ds[j + 1..])
  {
    hide DeviceEntry, DeviceSize;
    assert ds[j..][1..] == ds[j + 1..];
  }

  method ParseDevices(buffer: array<byte>, at: nat, count: nat, ghost ds: seq<Device>)
    returns (ok: bool, rs: seq<DeviceInfo>, next: nat)
    ensures count == |ds| && DeviceEntries(buffer[..], at, ds) ==>
      ok && rs == ShowDevices(ds) && next == at + DevicesSize(ds)
  {
    hide DeviceEntries, DevicesSize, DeviceEntry, DeviceSize;
    ghost var whole := count == |ds| && DeviceEntries(buffer[..], at, ds);
    ok, rs, next := true, [], at;
    var j := 0;
    assert ds[0..] == ds;
    while ok && j < count
      invariant j <= count && (whole ==> ok && |rs| == j && forall k :: 0 <= k < j ==> rs[k] == ShowDevice(ds[k]))
      invariant whole ==>
        DeviceEntries(buffer[..], next, ds[j..]) && next + DevicesSize(ds[j..]) == at + DevicesSize(ds)
      decreases count - j, ok
    {
      if whole { DevicesFrom(buffer[..], next, ds, j); }
      var d;
      ok, d, next := ParseDevice(buffer, next, if whole then ds[j] else NO_DEVICE);
      rs, j := rs + [d], j + 1;
    }
    if whole {
      assert ds[j..] == [];
      NoEntriesSize();
    }
  }

  const NO_DEVICE: Device := Device(0, 0, seq(27, _ => 0), seq(28, _ => 0), 0, [], false)

  lemma NoEntriesSize()
    ensures DevicesSize([]) == 0
  {}

  lemma DriverReads(buffer: array<byte>, at: nat, x: Driver)
    requires DriverBlock(buffer[..], at, x)
    ensures var length := |x.name| + WCHAR_SIZE;
      && at + 100 + length <= buffer.Length && Value(buffer[at..at + 4]) == 106 + |x.name|
      && Value(buffer[at + 8..at + 16]) == x.id && Value(buffer[at + 16..at + 24]) == x.address
      && buffer[at + 24] == x.enabled && buffer[at + 25] == x.extensionHooks && buffer[at + 26..at + 90] == x.settings
      && Value(buffer[at + 92..at + 96]) == Wanted(x.devices) && Value(buffer[at + 96..at + 100]) == length
      && ShownName(buffer[at + 100..at + 100 + length]) == x.name
  {
    hide Holds, UlongBytes, PointerBytes, DriverEntry, DeviceEntries, Users, DevicesSize, Value;
    var count := |Users(x.devices)|;
    UsersAre(x.devices);
    DriverParts(buffer[..], at, x, count);
    StretchIs(buffer, at, 4, UlongBytes(DriverSize(x)));
    StretchIs(buffer, at + 8, 8, PointerBytes(x.id));
    StretchIs(buffer, at + 16, 8, PointerBytes(x.address));
    StretchIs(buffer, at + 24, 2, [x.enabled, x.extensionHooks]);
    assert buffer[at + 24] == buffer[at + 24..at + 26][0] && buffer[at + 25] == buffer[at + 24..at + 26][1];
    StretchIs(buffer, at + 26, 64, x.settings);
    StretchIs(buffer, at + 92, 4, UlongBytes(count));
    StretchIs(buffer, at + 96, 4, UlongBytes(|x.name| + WCHAR_SIZE));
    StretchIs(buffer, at + 100, |x.name| + WCHAR_SIZE, Terminated(x.name));
  }

  /** One driver structure and the device structures behind it. */
  method ParseDriver(buffer: array<byte>, at: nat, ghost x: Driver) returns (ok: bool, r: DriverInfo, next: nat)
    ensures DriverBlock(buffer[..], at, x) ==> ok && r == Show(x) && next == at + Span(x)
  {
    UsersAre(x.devices);
    hide Value, Users, Wanted, ShowDevices, DevicesSize, DeviceEntries, DriverEntry;
    if DriverBlock(buffer[..], at, x) { DriverReads(buffer, at, x); }
    ok, r, next := false, DriverInfo(0, 0, 0, 0, [], [], []), at;
    if at + 100 <= buffer.Length {
      var length := UlongOf(buffer[at + 96..at + 100]);
      if at + 100 + length <= buffer.Length {
        var name := ShownName(buffer[at + 100..at + 100 + length]);
        var devices;
        ok, devices, next := ParseDevices(buffer, at + UlongOf(buffer[at..at + 4]), UlongOf(buffer[at + 92..at + 96]), Users(x.devices));
        r := DriverInfo(PointerOf(buffer[at + 8..at + 16]), PointerOf(buffer[at + 16..at + 24]), buffer[at + 24], buffer[at + 25],
                        buffer[at + 26..at + 90], name, devices);
      }
    }
  }

  lemma DriversFrom(b: seq<byte>, at: nat, xs: seq<Driver>, i: nat)
    requires i < |xs| && DriverBlocks(b, at, xs[i..])
    ensures DriverBlock(b, at, xs[i]) && DriverBlocks(b, at + Span(xs[i]), xs[i + 1..])
  {
    hide DriverBlock, Span;
    assert xs[i..][1..] == xs[i + 1..];
  }

  /** The parser of DriverComHookedObjectsEnumerate, on any buffer.  It returns one entry for
      each driver the header counts, unless it would have to read behind the buffer; the
      entries of whole structures at the front are those drivers'. */
  method Parse(buffer: array<byte>, ghost drivers: Ulong, ghost devices: Ulong, ghost xs: seq<Driver>)
    returns (rs: seq<DriverInfo>)
    ensures Progress(buffer[..], drivers, devices, xs) && |xs| <= drivers ==>
      |xs| <= |rs| <= drivers && forall i :: 0 <= i < |xs| ==> rs[i] == Show(xs[i])
    ensures Progress(buffer[..], drivers, devices, xs) && |xs| <= drivers ==>
      forall i :: 0 <= i < |xs| ==>
        var r, x := rs[i], xs[i];
        && r.id == x.id && r.address == x.address && r.enabled == x.enabled && r.extensionHooks == x.extensionHooks
        && r.settings == x.settings && r.name == x.name && |r.devices| == Wanted(x.devices)
    ensures Progress(buffer[..], drivers, devices, xs) && |xs| <= drivers ==>
      forall i, k :: 0 <= i < |xs| && 0 <= k < |xs[i].devices| && xs[i].devices[k].userRequest ==>
        && Wanted(xs[i].devices[..k]) < |rs[i].devices|
        && var e, d := rs[i].devices[Wanted(xs[i].devices[..k])], xs[i].devices[k];
          && e.id == d.id && e.address == d.address && e.fastIo == d.fastIo && e.irp == d.irp
          && e.enabled == d.enabled && e.name == d.name
  {
    hide UlongBytes, DriverBlocks, DriverBlock, Span, Show, Value, Wanted;
    ghost var good := Progress(buffer[..], drivers, devices, xs) && |xs| <= drivers;
    rs := [];
    if buffer.Length < HEADER_SIZE { return; }
    if good { StretchIs(buffer, 0, 4, UlongBytes(drivers)); }
    var count := UlongOf(buffer[0..4]);
    var next, i, ok := HEADER_SIZE, 0, true;
    assert xs[0..] == xs;
    while ok && i < count
      invariant i <= count && |rs| <= i && (ok ==> |rs| == i) && (good && i <= |xs| ==> ok)
      invariant good && i <= |xs| ==> DriverBlocks(buffer[..], next, xs[i..])
      invariant good ==> count == drivers && (i >= |xs| ==> |xs| <= |rs|)
      invariant good ==> forall k :: 0 <= k < |xs| && k < i ==> k < |rs| && rs[k] == Show(xs[k])
      decreases count - i, ok
    {
      if good && i < |xs| { DriversFrom(buffer[..], next, xs, i); }
      var x;
      ok, x, next := ParseDriver(buffer, next, if good && i < |xs| then xs[i] else NO_DRIVER);
      if ok { rs := rs + [x]; }
      i := i + 1;
    }
    if good { AllShown(rs, xs); }
  }

  const NO_DRIVER: Driver := Driver(0, 0, 0, 0, seq(64, _ => 0), [], [])

  /** DriverComHookedObjectsEnumerate with its doubling buffer.  What comes back starts with
      the survivors.  So everything comes back if all drivers but possibly the last have a
      device record; and if not, some driver's entry is another driver's. */
  method Retrieve(xs: seq<Driver>) returns (rs: seq<DriverInfo>)
    requires HEADER_SIZE + Spans(xs) <= 0x8000_0000 && DistinctIds(xs)
    ensures |Survivors(xs)| <= |rs| <= |xs|
    ensures forall i :: 0 <= i < |Survivors(xs)| ==>
      var r, x := rs[i], Survivors(xs)[i];
      && r.id == x.id && r.address == x.address && r.enabled == x.enabled && r.extensionHooks == x.extensionHooks
      && r.settings == x.settings && r.name == x.name && |r.devices| == Wanted(x.devices)
    ensures var ys := Survivors(xs);
      forall i, k :: 0 <= i < |ys| && 0 <= k < |ys[i].devices| && ys[i].devices[k].userRequest ==>
        && Wanted(ys[i].devices[..k]) < |rs[i].devices|
        && var e, d := rs[i].devices[Wanted(ys[i].devices[..k])], ys[i].devices[k];
          && e.id == d.id && e.address == d.address && e.fastIo == d.fastIo && e.irp == d.irp
          && e.enabled == d.enabled && e.name == d.name
    ensures Separated(xs) ==> Survivors(xs) == xs && |rs| == |xs|
    ensures !Separated(xs) ==> exists i :: 0 <= i < |rs| && rs[i].id != xs[i].id
  {
    hide Spans, Progress, Survivors, Listed, Separated, Wanted, Show;
    WhoSurvives(xs);
    ghost var k := 0;
    var size := 512;
    var buffer := new byte[size](_ => 0);
    var ok, length := Enumerate(xs, buffer);
    while !ok
      invariant k <= 22 && size == Snapshot.SizeAfter(512, k)
      invariant if ok then Written(buffer[..], xs) else size < HEADER_SIZE + Spans(xs)
      decreases 22 - k, !ok
    {
      Snapshot.SizesFrom512(k);
      Snapshot.SizesFrom512(k + 1);
      size := size * 2 % ULONG_LIMIT;
      k := k + 1;
      buffer := new byte[size](_ => 0);
      ok, length := Enumerate(xs, buffer);
    }
    FewSurvive(xs);
    rs := Parse(buffer, |xs|, Listed(xs), Survivors(xs));
    if !Separated(xs) {
      ghost var i :| 0 <= i < |Survivors(xs)| && i < |xs| && Survivors(xs)[i].id != xs[i].id;
      assert rs[i].id == Survivors(xs)[i].id;
    }
  }

  lemma {:induction false} FewSurvive(xs: seq<Driver>)
    ensures |Survivors(xs)| <= |xs|
  {
    if |xs| > 1 {
      SurvivorsHead(xs);
      FewSurvive(xs[1..]);
      hide Survivors;
    } else if |xs| == 1 {
      assert xs[1..] == [];
    }
  }

  /** Two drivers, the first without a device record: only the second survives, at the place
      of the first. */
  lemma FirstOfTwoIsLost(x: Driver, y: Driver)
    requires x.devices == [] && x.id != y.id
    ensures Survivors([x, y]) == [y] && DistinctIds([x, y]) && !Separated([x, y])
  {
    assert [x, y][1..] == [y] && [y][1..] == [];
    assert Kept([y]) == if y.devices != [] then [y] else [];
    assert Kept([x, y]) == Kept([y]) && [x, y][0].devices == [];
  }
}
