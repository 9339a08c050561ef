/** The snapshot of drivers and devices: measured and written by the driver, parsed by the
    library, with a buffer doubled until it is large enough. */
module Snapshot {
  import opened Wire

  /** Names are counted in bytes; their lengths fit the 16-bit length of a kernel string. */
  type Name = n: seq<byte> | |n| < 0x1_0000

  datatype Device = Device(address: Pointer, attached: Pointer, name: Name)

  type Devices = ds: seq<Device> | |ds| < 0x1_0000_0000

  datatype Driver = Driver(address: Pointer, name: Name, devices: Devices)

  type Drivers = xs: seq<Driver> | |xs| < 0x1_0000_0000

  function EncodeDevice(d: Device): (b: seq<byte>)
    ensures |b| == 2 * ADDRESS_SIZE + ULONG_SIZE + |d.name|
  {
    PointerBytes(d.address) + PointerBytes(d.attached) + UlongBytes(|d.name|) + d.name
  }

  function EncodeDevices(ds: seq<Device>): seq<byte> {
    if ds == [] then [] else EncodeDevice(ds[0]) + EncodeDevices(ds[1..])
  }

  function EncodeHead(x: Driver): (b: seq<byte>)
    ensures |b| == ADDRESS_SIZE + 2 * ULONG_SIZE + |x.name|
  {
    PointerBytes(x.address) + UlongBytes(|x.devices|) + UlongBytes(|x.name|) + x.name
  }

  function EncodeDriver(x: Driver): seq<byte> { EncodeHead(x) + EncodeDevices(x.devices) }

  function EncodeDrivers(xs: seq<Driver>): seq<byte> {
    if xs == [] then [] else EncodeDriver(xs[0]) + EncodeDrivers(xs[1..])
  }

  /** The snapshot as bytes. */
  function Encode(xs: Drivers): seq<byte> { UlongBytes(|xs|) + EncodeDrivers(xs) }

  lemma Assoc(a: seq<byte>, b: seq<byte>, c: seq<byte>)
    ensures a + b + c == a + (b + c)
  {}

  lemma {:induction false} EncodeDevicesSplit(a: seq<Device>, b: seq<Device>)
    ensures EncodeDevices(a + b) == EncodeDevices(a) + EncodeDevices(b)
  {
    if a == [] {
      assert a + b == b;
    } else {
      assert (a + b)[1..] == a[1..] + b;
      EncodeDevicesSplit(a[1..], b);
      Assoc(EncodeDevice(a[0]), EncodeDevices(a[1..]), EncodeDevices(b));
    }
  }

  lemma {:induction false} EncodeDriversSplit(a: seq<Driver>, b: seq<Driver>)
    ensures EncodeDrivers(a + b) == EncodeDrivers(a) + EncodeDrivers(b)
  {
    if a == [] {
      assert a + b == b;
    } else {
      assert (a + b)[1..] == a[1..] + b;
      EncodeDriversSplit(a[1..], b);
      Assoc(EncodeDriver(a[0]), EncodeDrivers(a[1..]), EncodeDrivers(b));
    }
  }

  lemma OneDevice(x: Device)
    ensures EncodeDevices([x]) == EncodeDevice(x)
  {
    hide EncodeDevice;
    assert [x][1..] == [];
  }

  lemma DevicesFrom(ds: seq<Device>, j: nat)
    requires j < |ds|
    ensures EncodeDevices(ds[j..]) == EncodeDevice(ds[j]) + EncodeDevices(ds[j + 1..])
  {
    hide EncodeDevice;
    assert ds[j..][1..] == ds[j + 1..];
  }

  lemma DevicesUpTo(ds: seq<Device>, j: nat)
    requires j < |ds|
    ensures EncodeDevices(ds[..j + 1]) == EncodeDevices(ds[..j]) + EncodeDevice(ds[j])
    ensures |EncodeDevices(ds[..j + 1])| <= |EncodeDevices(ds)|
  {
    hide EncodeDevices, EncodeDevice;
    assert ds[..j + 1] == ds[..j] + [ds[j]] && ds == ds[..j + 1] + ds[j + 1..];
    EncodeDevicesSplit(ds[..j], [ds[j]]);
    EncodeDevicesSplit(ds[..j + 1], ds[j + 1..]);
    OneDevice(ds[j]);
  }

  lemma OneDriver(x: Driver)
    ensures EncodeDrivers([x]) == EncodeDriver(x)
  {
    hide EncodeDriver;
    assert [x][1..] == [];
  }

  lemma DriversFrom(xs: seq<Driver>, i: nat)
    requires i < |xs|
    ensures EncodeDrivers(xs[i..]) == EncodeDriver(xs[i]) + EncodeDrivers(xs[i + 1..])
  {
    hide EncodeDriver;
    assert xs[i..][1..] == xs[i + 1..];
  }

  lemma DriversUpTo(xs: seq<Driver>, i: nat)
    requires i < |xs|
    ensures EncodeDrivers(xs[..i + 1]) == EncodeDrivers(xs[..i]) + EncodeDriver(xs[i])
    ensures |EncodeDrivers(xs[..i + 1])| <= |EncodeDrivers(xs)|
  {
    hide EncodeDrivers, EncodeDriver;
    assert xs[..i + 1] == xs[..i] + [xs[i]] && xs == xs[..i + 1] + xs[i + 1..];
    EncodeDriversSplit(xs[..i], [xs[i]]);
    EncodeDriversSplit(xs[..i + 1], xs[i + 1..]);
    OneDriver(xs[i]);
  }

  /** What a driver adds to the required length in the measuring pass. */
  method MeasureDriver(x: Driver, before: nat) returns (length: nat)
    ensures length == before + |EncodeDriver(x)|
  {
    hide EncodeDevice, EncodeHead;
    length := before + ADDRESS_SIZE + ULONG_SIZE + |x.name| + ULONG_SIZE;
    var k := 0;
    assert x.devices[..0] == [];
    while k < |x.devices|
      invariant k <= |x.devices| && length == before + |EncodeHead(x)| + |EncodeDevices(x.devices[..k])|
    {
      DevicesUpTo(x.devices, k);
      length := length + ADDRESS_SIZE + ADDRESS_SIZE + ULONG_SIZE + |x.devices[k].name|;
      k := k + 1;
    }
    assert x.devices[..k] == x.devices;
  }

  /** The measuring pass. */
  method Measure(xs: Drivers) returns (length: nat)
    ensures length == |Encode(xs)|
  {
    hide EncodeDriver;
    length := ULONG_SIZE;
    var i := 0;
    assert xs[..0] == [];
    while i < |xs|
      invariant i <= |xs| && length == ULONG_SIZE + |EncodeDrivers(xs[..i])|
    {
      DriversUpTo(xs, i);
      length := MeasureDriver(xs[i], length);
      i := i + 1;
    }
    assert xs[..i] == xs;
  }

  /** The buffer starts with these bytes and is otherwise as it was. */
  ghost predicate Wrote(was: seq<byte>, now: seq<byte>, bytes: seq<byte>) {
    |bytes| <= |was| && now == bytes + was[|bytes|..]
  }

  lemma WroteMore(was: seq<byte>, now: seq<byte>, after: seq<byte>, so: seq<byte>, bytes: seq<byte>)
    requires Wrote(was, now, so) && |so| + |bytes| <= |now|
    requires after == now[..|so|] + bytes + now[|so| + |bytes|..]
    ensures Wrote(was, after, so + bytes)
  {
    assert now[..|so|] == so;
    assert now[|so| + |bytes|..] == was[|so| + |bytes|..];
  }

  lemma NothingWritten(was: seq<byte>)
    ensures Wrote(was, was, [])
  {}

  /** memcpy at the cursor, which then moves on. */
  method Append(buffer: array<byte>, at: nat, bytes: seq<byte>, ghost was: seq<byte>, ghost so: seq<byte>)
    returns (next: nat)
    requires |so| == at && at + |bytes| <= buffer.Length && Wrote(was, buffer[..], so)
    modifies buffer
    ensures next == at + |bytes| && Wrote(was, buffer[..], so + bytes)
  {
    hide Wrote;
    Put(buffer, at, bytes);
    next := at + |bytes|;
    assert old(buffer[..at]) == old(buffer[..])[..at] && old(buffer[next..]) == old(buffer[..])[next..];
    WroteMore(was, old(buffer[..]), buffer[..], so, bytes);
  }

  /** One device in the writing pass. */
  method WriteDevice(d: Device, buffer: array<byte>, at: nat, ghost was: seq<byte>, ghost so: seq<byte>)
    returns (next: nat)
    requires |so| == at && at + |EncodeDevice(d)| <= buffer.Length && Wrote(was, buffer[..], so)
    modifies buffer
    ensures next == at + |EncodeDevice(d)| && Wrote(was, buffer[..], so + EncodeDevice(d))
  {
    hide Wrote, PointerBytes, UlongBytes;
    ghost var a, b, c := PointerBytes(d.address), PointerBytes(d.attached), UlongBytes(|d.name|);
    next := Append(buffer, at, PointerBytes(d.address), was, so);
    next := Append(buffer, next, PointerBytes(d.attached), was, so + a);
    next := Append(buffer, next, UlongBytes(|d.name|), was, so + a + b);
    next := Append(buffer, next, d.name, was, so + a + b + c);
    Assoc(so, a, b); Assoc(so, a + b, c); Assoc(so, a + b + c, d.name);
  }

  method WriteDevices(ds: seq<Device>, buffer: array<byte>, at: nat, ghost was: seq<byte>, ghost so: seq<byte>)
    returns (next: nat)
    requires |so| == at && at + |EncodeDevices(ds)| <= buffer.Length && Wrote(was, buffer[..], so)
    modifies buffer
    ensures next == at + |EncodeDevices(ds)| && Wrote(was, buffer[..], so + EncodeDevices(ds))
  {
    hide Wrote, EncodeDevice;
    next := at;
    var j := 0;
    assert ds[..0] == [] && so + EncodeDevices([]) == so;
    while j < |ds|
      invariant j <= |ds| && next == at + |EncodeDevices(ds[..j])|
      invariant Wrote(was, buffer[..], so + EncodeDevices(ds[..j]))
    {
      DevicesUpTo(ds, j);
      next := WriteDevice(ds[j], buffer, next, was, so + EncodeDevices(ds[..j]));
      Assoc(so, EncodeDevices(ds[..j]), EncodeDevice(ds[j]));
      j := j + 1;
    }
    assert ds[..j] == ds;
  }

  /** One driver in the writing pass. */
  method WriteDriver(x: Driver, buffer: array<byte>, at: nat, ghost was: seq<byte>, ghost so: seq<byte>)
    returns (next: nat)
    requires |so| == at && at + |EncodeDriver(x)| <= buffer.Length && Wrote(was, buffer[..], so)
    modifies buffer
    ensures next == at + |EncodeDriver(x)| && Wrote(was, buffer[..], so + EncodeDriver(x))
  {
    hide Wrote, PointerBytes, UlongBytes, EncodeDevices;
    ghost var a, b, c := PointerBytes(x.address), UlongBytes(|x.devices|), UlongBytes(|x.name|);
    next := Append(buffer, at, PointerBytes(x.address), was, so);
    next := Append(buffer, next, UlongBytes(|x.devices|), was, so + a);
    next := Append(buffer, next, UlongBytes(|x.name|), was, so + a + b);
    next := Append(buffer, next, x.name, was, so + a + b + c);
    Assoc(so, a, b); Assoc(so, a + b, c); Assoc(so, a + b + c, x.name);
    next := WriteDevices(x.devices, buffer, next, was, so + EncodeHead(x));
    Assoc(so, EncodeHead(x), EncodeDevices(x.devices));
  }

  /** The writing pass. */
  method WriteAll(xs: Drivers, buffer: array<byte>)
    requires |Encode(xs)| <= buffer.Length
    modifies buffer
    ensures Wrote(old(buffer[..]), buffer[..], Encode(xs))
  {
    hide Wrote, EncodeDriver, UlongBytes;
    ghost var was := buffer[..];
    ghost var head := UlongBytes(|xs|);
    NothingWritten(was);
    var at := Append(buffer, 0, UlongBytes(|xs|), was, []);
    var i := 0;
    assert xs[..0] == [] && [] + head == head + EncodeDrivers([]);
    while i < |xs|
      invariant i <= |xs| && at == |head + EncodeDrivers(xs[..i])|
      invariant Wrote(was, buffer[..], head + EncodeDrivers(xs[..i]))
    {
      DriversUpTo(xs, i);
      at := WriteDriver(xs[i], buffer, at, was, head + EncodeDrivers(xs[..i]));
      Assoc(head, EncodeDrivers(xs[..i]), EncodeDriver(xs[i]));
      i := i + 1;
    }
    assert xs[..i] == xs;
  }

  /** UMEnumDriversDevices.  Nothing is written unless everything fits. */
  method EnumDriversDevices(xs: Drivers, buffer: array<byte>) returns (ok: bool, returnLength: nat)
    modifies buffer
    ensures ok == (buffer.Length >= |Encode(xs)|)
    ensures ok ==> returnLength == |Encode(xs)| && Wrote(old(buffer[..]), buffer[..], Encode(xs))
    ensures !ok ==> returnLength == 0 && buffer[..] == old(buffer[..])
  {
    hide Wrote, Encode;
    returnLength := 0;
    var required := Measure(xs);
    ok := buffer.Length >= required;
    if ok {
      WriteAll(xs, buffer);
      returnLength := required;
    }
  }

  // ----- parsing

  lemma FourParts(buffer: seq<byte>, at: nat, a: seq<byte>, b: seq<byte>, c: seq<byte>, d: seq<byte>)
    requires Holds(buffer, at, a + b + c + d)
    ensures Holds(buffer, at, a) && Holds(buffer, at + |a|, b) && Holds(buffer, at + |a| + |b|, c)
    ensures Holds(buffer, at + |a| + |b| + |c|, d)
  {
    HoldsBoth(buffer, at, a + b + c, d);
    HoldsBoth(buffer, at, a + b, c);
    HoldsBoth(buffer, at, a, b);
  }

  /** Read a little-endian number. */
  method Read(buffer: array<byte>, at: nat, size: nat, ghost bytes: seq<byte>) returns (v: nat)
    requires Holds(buffer[..], at, bytes) && |bytes| == size
    ensures v == Value(bytes)
  {
    assert buffer[at..at + size] == buffer[..][at..at + size];
    v := Value(buffer[at..at + size]);
  }

  method Copy(buffer: array<byte>, at: nat, size: nat, ghost bytes: seq<byte>) returns (b: seq<byte>)
    requires Holds(buffer[..], at, bytes) && |bytes| == size
    ensures b == bytes
  {
    b := buffer[at..at + size];
    assert b == buffer[..][at..at + size];
  }

  method ParseDevice(buffer: array<byte>, at: nat, ghost d: Device) returns (r: Device, next: nat)
    requires Holds(buffer[..], at, EncodeDevice(d))
    ensures r == d && next == at + |EncodeDevice(d)|
  {
    DeviceParts(buffer[..], at, d);
    hide PointerBytes, UlongBytes, Holds, Value;
    next := at;
    var deviceObject := Read(buffer, next, ADDRESS_SIZE, PointerBytes(d.address));
    next := next + ADDRESS_SIZE;
    var attached := Read(buffer, next, ADDRESS_SIZE, PointerBytes(d.attached));
    next := next + ADDRESS_SIZE;
    var nameLen := Read(buffer, next, ULONG_SIZE, UlongBytes(|d.name|));
    next := next + ULONG_SIZE;
    var name := Copy(buffer, next, nameLen, d.name);
    r := Device(deviceObject, attached, name);
    next := next + nameLen;
  }

  method ParseDevices(buffer: array<byte>, at: nat, count: nat, ghost ds: seq<Device>)
    returns (rs: seq<Device>, next: nat)
    requires count == |ds| && Holds(buffer[..], at, EncodeDevices(ds))
    ensures rs == ds && next == at + |EncodeDevices(ds)|
  {
    hide EncodeDevice;
    rs, next := [], at;
    var j := 0;
    assert ds[0..] == ds;
    while j < count
      invariant j <= count && rs == ds[..j] && Holds(buffer[..], next, EncodeDevices(ds[j..]))
      invariant next + |EncodeDevices(ds[j..])| == at + |EncodeDevices(ds)|
    {
      DevicesFrom(ds, j);
      HoldsBoth(buffer[..], next, EncodeDevice(ds[j]), EncodeDevices(ds[j + 1..]));
      var d;
      d, next := ParseDevice(buffer, next, ds[j]);
      rs, j := rs + [d], j + 1;
    }
    assert ds[j..] == [];
  }

  lemma DriverParts(buffer: seq<byte>, at: nat, x: Driver)
    requires Holds(buffer, at, EncodeDriver(x))
    ensures Holds(buffer, at, PointerBytes(x.address)) && Holds(buffer, at + 8, UlongBytes(|x.devices|))
    ensures Holds(buffer, at + 12, UlongBytes(|x.name|)) && Holds(buffer, at + 16, x.name)
    ensures Holds(buffer, at + 16 + |x.name|, EncodeDevices(x.devices))
    ensures |EncodeDriver(x)| == 16 + |x.name| + |EncodeDevices(x.devices)|
  {
    hide PointerBytes, UlongBytes, EncodeDevices, Holds, Value;
    HoldsBoth(buffer, at, EncodeHead(x), EncodeDevices(x.devices));
    FourParts(buffer, at, PointerBytes(x.address), UlongBytes(|x.devices|), UlongBytes(|x.name|), x.name);
  }

  lemma DeviceParts(buffer: seq<byte>, at: nat, d: Device)
    requires Holds(buffer, at, EncodeDevice(d))
    ensures Holds(buffer, at, PointerBytes(d.address)) && Holds(buffer, at + 8, PointerBytes(d.attached))
    ensures Holds(buffer, at + 16, UlongBytes(|d.name|)) && Holds(buffer, at + 20, d.name)
    ensures |EncodeDevice(d)| == 20 + |d.name|
  {
    hide Holds, PointerBytes, UlongBytes;
    FourParts(buffer, at, PointerBytes(d.address), PointerBytes(d.attached), UlongBytes(|d.name|), d.name);
  }

  /** Where everything is: the number of drivers, then the drivers one after the other. */
  lemma {:induction false} LayoutIs(xs: Drivers)
    ensures |Encode(xs)| >= 4 && Value(Encode(xs)[..4]) == |xs| && Encode(xs)[4..] == EncodeDrivers(xs)
    ensures forall i :: 0 <= i < |xs| ==>
      && |EncodeDrivers(xs[..i])| + |EncodeDriver(xs[i])| <= |EncodeDrivers(xs)|
      && Holds(EncodeDrivers(xs), |EncodeDrivers(xs[..i])|, EncodeDriver(xs[i]))
  {
    hide UlongBytes, EncodeDrivers, EncodeDriver;
    assert Encode(xs)[..4] == UlongBytes(|xs|);
    forall i | 0 <= i < |xs|
      ensures |EncodeDrivers(xs[..i])| + |EncodeDriver(xs[i])| <= |EncodeDrivers(xs)|
      ensures Holds(EncodeDrivers(xs), |EncodeDrivers(xs[..i])|, EncodeDriver(xs[i]))
    {
      DriversUpTo(xs, i);
      assert xs == xs[..i + 1] + xs[i + 1..];
      EncodeDriversSplit(xs[..i + 1], xs[i + 1..]);
    }
  }

  method ParseDriver(buffer: array<byte>, at: nat, ghost x: Driver) returns (r: Driver, next: nat)
    requires Holds(buffer[..], at, EncodeDriver(x))
    ensures r == x && next == at + |EncodeDriver(x)|
  {
    hide PointerBytes, UlongBytes, EncodeHead, EncodeDevices, EncodeDriver, Holds, Value;
    DriverParts(buffer[..], at, x);
    next := at;
    var driverObject := Read(buffer, next, ADDRESS_SIZE, PointerBytes(x.address));
    next := next + ADDRESS_SIZE;
    var deviceCount := Read(buffer, next, ULONG_SIZE, UlongBytes(|x.devices|));
    next := next + ULONG_SIZE;
    var nameLen := Read(buffer, next, ULONG_SIZE, UlongBytes(|x.name|));
    next := next + ULONG_SIZE;
    var name := Copy(buffer, next, nameLen, x.name);
    next := next + nameLen;
    var devices;
    devices, next := ParseDevices(buffer, next, deviceCount, x.devices);
    r := Driver(driverObject, name, devices);
  }

  /** The parser of DriverComSnapshotRetrieve: what was encoded comes back. */
  method Parse(buffer: array<byte>, ghost xs: Drivers) returns (rs: seq<Driver>)
    requires Holds(buffer[..], 0, Encode(xs))
    ensures rs == xs
  {
    hide EncodeDriver;
    HoldsBoth(buffer[..], 0, UlongBytes(|xs|), EncodeDrivers(xs));
    var count := Read(buffer, 0, ULONG_SIZE, UlongBytes(|xs|));
    var next := ULONG_SIZE;
    rs := [];
    var i := 0;
    assert xs[0..] == xs;
    while i < count
      invariant i <= count == |xs| && rs == xs[..i] && Holds(buffer[..], next, EncodeDrivers(xs[i..]))
    {
      DriversFrom(xs, i);
      HoldsBoth(buffer[..], next, EncodeDriver(xs[i]), EncodeDrivers(xs[i + 1..]));
      var x;
      x, next := ParseDriver(buffer, next, xs[i]);
      rs, i := rs + [x], i + 1;
    }
  }

  // ----- the doubling buffer

  /** The size of the k-th buffer: a 32-bit number doubled k times. */
  function SizeAfter(initial: Ulong, k: nat): Ulong {
    if k == 0 then initial else SizeAfter(initial, k - 1) * 2 % ULONG_LIMIT
  }

  function Power(k: nat): (p: nat)
    ensures p >= 1
  {
    if k == 0 then 1 else 2 * Power(k - 1)
  }

  lemma Halves(size: nat, p: nat)
    requires size * (2 * p) == 0x8000_0000 && p >= 1
    ensures (size * 2) * p == 0x8000_0000 && size * 2 <= 0x8000_0000
  {
    assert (size * 2) * p == size * (2 * p);
  }

  /** 512 doubled 22 times is 2 GB, and doubled once more it is gone. */
  lemma {:induction false} SizesFrom512(k: nat)
    ensures k <= 22 ==> SizeAfter(512, k) * Power(22 - k) == 0x8000_0000 && SizeAfter(512, k) <= 0x8000_0000
    ensures k == 22 ==> SizeAfter(512, k) == 0x8000_0000
    ensures 0 < k <= 22 ==> SizeAfter(512, k) == 2 * SizeAfter(512, k - 1)
    ensures k > 22 ==> SizeAfter(512, k) == 0
  {
    if k == 0 {
      PowerOf22();
    } else {
      SizesFrom512(k - 1);
      NextSize(512, k);
      if k <= 22 {
        Doubled(22 - k);
        Halves(SizeAfter(512, k - 1), Power(22 - k));
      }
    }
    hide SizeAfter;
  }

  lemma Doubled(k: nat)
    ensures Power(k + 1) == 2 * Power(k) && Power(0) == 1
  {}

  lemma PowerOf22()
    ensures 512 * Power(22) == 0x8000_0000 && SizeAfter(512, 0) == 512
  {
    Doubled(0); Doubled(1);
    FiveTimes(2); FiveTimes(7); FiveTimes(12); FiveTimes(17);
  }

  lemma FiveTimes(k: nat)
    ensures Power(k + 5) == 32 * Power(k)
  {
    Doubled(k); Doubled(k + 1); Doubled(k + 2); Doubled(k + 3); Doubled(k + 4);
  }

  lemma NextSize(initial: Ulong, k: nat)
    requires k > 0
    ensures var half := SizeAfter(initial, k - 1);
      SizeAfter(initial, k) == if half < 0x8000_0000 then 2 * half else 2 * half - ULONG_LIMIT
  {
    var half: int := SizeAfter(initial, k - 1);
    assert SizeAfter(initial, k) == half * 2 % 0x1_0000_0000;
    assert half * 2 % 0x1_0000_0000 == if half < 0x8000_0000 then 2 * half else 2 * half - 0x1_0000_0000;
  }

  /** Doubling from 512 bytes reaches the required length exactly if that is at most 2 GB:
      the next doubling gives 0, and then every buffer is empty. */
  lemma DoublingReaches(required: Ulong)
    ensures (exists k :: SizeAfter(512, k) >= required) <==> required <= 0x8000_0000
  {
    SizesFrom512(22);
    if exists k :: SizeAfter(512, k) >= required {
      var k :| SizeAfter(512, k) >= required;
      SizesFrom512(k);
    }
  }

  /** DriverComSnapshotRetrieve with _SynchronousVariableOutputIOCTL: the driver list comes
      back, in a buffer that is the initial one or less than twice what is needed. */
  method Retrieve(xs: Drivers) returns (rs: seq<Driver>, size: nat)
    requires |Encode(xs)| <= 0x8000_0000
    ensures rs == xs && |Encode(xs)| <= size && (size == 512 || size < 2 * |Encode(xs)|)
  {
    hide Encode;
    ghost var k := 0;
    size := 512;
    var buffer := new byte[size](_ => 0);
    var ok, length := EnumDriversDevices(xs, buffer);
    while !ok
      invariant k <= 22 && size == SizeAfter(512, k) && (size == 512 || size < 2 * |Encode(xs)|)
      invariant if ok then Holds(buffer[..], 0, Encode(xs)) else size < |Encode(xs)|
      invariant ok ==> |Encode(xs)| <= size
      decreases 22 - k, !ok
    {
      SizesFrom512(k);
      SizesFrom512(k + 1);
      size := size * 2 % ULONG_LIMIT;
      k := k + 1;
      buffer := new byte[size](_ => 0);
      ok, length := EnumDriversDevices(xs, buffer);
    }
    rs := Parse(buffer, xs);
  }
}
