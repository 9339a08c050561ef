/** Driver and device hook records: reference counting over the cycle driver record ->
    device table -> device record -> driver record, with the handle tables and the table
    that validates device object IDs.

    The maps `drivers` and `devices` hold the allocated records by address; freeing a
    record takes it out of its map.  `driverBorrows` and `deviceBorrows` are the references
    owned by callers and by routines in progress. */
module HookRecords {
  import opened Basics

  type Address = nat

  datatype CreateReason = UserRequest | DriverHooked

  /** `devices` is SelectedDevices, from device object to device record. */
  datatype DriverRecord = DriverRecord(refCount: int, driverObject: Address, extensionHook: bool,
                                       devices: map<Address, Address>)

  datatype DeviceRecord = DeviceRecord(refCount: int, driver: Address, deviceObject: Address, reason: CreateReason)

  datatype State = State(
    drivers: map<Address, DriverRecord>, devices: map<Address, DeviceRecord>,
    driverTable: map<Address, Address>,
    validDrivers: multiset<Address>, validDevices: multiset<Address>,
    driverHandles: map<Address, Address>, deviceHandles: map<Address, Address>,
    driverBorrows: multiset<Address>, deviceBorrows: multiset<Address>)

  function Holders(m: map<Address, Address>, p: Address): set<Address> { set k | k in m && m[k] == p }

  /** How many keys of the map hold p. */
  function Refs(m: map<Address, Address>, p: Address): nat { |Holders(m, p)| }

  /** From device record to the driver record it references. */
  function Owners(devices: map<Address, DeviceRecord>): map<Address, Address> {
    map d | d in devices :: devices[d].driver
  }

  /** The device record is in the table of its driver record. */
  predicate Tabled(drivers: map<Address, DriverRecord>, devices: map<Address, DeviceRecord>, d: Address) {
    && d in devices && devices[d].driver in drivers
    && devices[d].deviceObject in drivers[devices[d].driver].devices
    && drivers[devices[d].driver].devices[devices[d].deviceObject] == d
  }

  function DriverCount(s: State, p: Address): int { if p in s.drivers then s.drivers[p].refCount else 0 }

  function DeviceCount(s: State, d: Address): int { if d in s.devices then s.devices[d].refCount else 0 }

  /** The driver table, the live device records that point at it, the handles, the borrowers. */
  function DriverDue(s: State, p: Address): int {
    Refs(s.driverTable, p) + Refs(Owners(s.devices), p) + Refs(s.driverHandles, p) + s.driverBorrows[p]
  }

  /** Its device table, the handles, the borrowers. */
  function DeviceDue(s: State, d: Address): int {
    One(Tabled(s.drivers, s.devices, d)) + Refs(s.deviceHandles, d) + s.deviceBorrows[d]
  }

  ghost predicate DriversCounted(s: State) {
    && (forall p {:trigger DriverCount(s, p)} :: DriverCount(s, p) == DriverDue(s, p))
    && (forall p {:trigger p in s.drivers} :: p in s.drivers ==> s.drivers[p].refCount > 0)
  }

  ghost predicate DevicesCounted(s: State) {
    && (forall d {:trigger DeviceCount(s, d)} :: DeviceCount(s, d) == DeviceDue(s, d))
    && (forall d {:trigger d in s.devices} :: d in s.devices ==> s.devices[d].refCount > 0)
  }

  /** The tables hold live records under the right keys. */
  ghost predicate TablesOk(s: State) {
    && (forall o :: o in s.driverTable ==>
          s.driverTable[o] in s.drivers && s.drivers[s.driverTable[o]].driverObject == o)
    && (forall p, o :: p in s.drivers && o in s.drivers[p].devices ==>
          var d := s.drivers[p].devices[o]; d in s.devices && s.devices[d].driver == p && s.devices[d].deviceObject == o)
  }

  ghost predicate Conserved(s: State) { DriversCounted(s) && DevicesCounted(s) && TablesOk(s) }

  lemma RefsAdded(m: map<Address, Address>, k: Address, p: Address, q: Address)
    requires k !in m
    ensures Refs(m[k := p], q) == Refs(m, q) + One(q == p)
  {
    assert Holders(m[k := p], q) == if q == p then Holders(m, q) + {k} else Holders(m, q);
  }

  lemma RefsRemoved(m: map<Address, Address>, k: Address, q: Address)
    requires k in m
    ensures Refs(m - {k}, q) == Refs(m, q) - One(q == m[k])
  {
    assert Holders(m - {k}, q) == Holders(m, q) - {k};
  }

  lemma RefsPositive(m: map<Address, Address>, k: Address)
    requires k in m
    ensures Refs(m, m[k]) > 0
  {
    assert k in Holders(m, m[k]);
  }

  lemma PlusMinus(m: multiset<Address>, x: Address)
    ensures m + multiset{x} - multiset{x} == m
  {}

  /** Whoever is referenced is allocated, in particular the driver of every device record. */
  lemma ReferencedIsLive(s: State, p: Address)
    requires Conserved(s)
    ensures DriverDue(s, p) > 0 ==> p in s.drivers
    ensures DeviceDue(s, p) > 0 ==> p in s.devices
    ensures p in s.devices ==> s.devices[p].driver in s.drivers
  {
    assert DriverCount(s, p) == DriverDue(s, p) && DeviceCount(s, p) == DeviceDue(s, p);
    if p in s.devices {
      var q := s.devices[p].driver;
      assert Owners(s.devices)[p] == q;
      RefsPositive(Owners(s.devices), p);
      assert DriverCount(s, q) == DriverDue(s, q);
    }
  }

  // ----- taking and giving back references

  function CountDriver(s: State, p: Address, delta: int): State
    requires p in s.drivers
  {
    s.(drivers := s.drivers[p := s.drivers[p].(refCount := s.drivers[p].refCount + delta)])
  }

  function CountDevice(s: State, d: Address, delta: int): State
    requires d in s.devices
  {
    s.(devices := s.devices[d := s.devices[d].(refCount := s.devices[d].refCount + delta)])
  }

  /** DriverHookRecordReference; the new reference is borrowed. */
  function RefDriver(s: State, p: Address): State
    requires p in s.drivers
  {
    CountDriver(s, p, 1).(driverBorrows := s.driverBorrows + multiset{p})
  }

  function RefDevice(s: State, d: Address): State
    requires d in s.devices
  {
    CountDevice(s, d, 1).(deviceBorrows := s.deviceBorrows + multiset{d})
  }

  /** DriverHookRecordDereference of a borrowed reference; at zero the record is freed. */
  function UnrefDriver(s: State, p: Address): State
    requires p in s.drivers
  {
    var t := s.(driverBorrows := s.driverBorrows - multiset{p});
    if s.drivers[p].refCount == 1 then t.(drivers := s.drivers - {p}) else CountDriver(t, p, -1)
  }

  /** Freeing a device record: it leaves the validation table, and its reference to the
      driver record becomes the caller's. */
  function FreeDevice(s: State, d: Address): State
    requires d in s.devices
  {
    s.(devices := s.devices - {d}, validDevices := s.validDevices[d := 0],
       deviceBorrows := s.deviceBorrows - multiset{d},
       driverBorrows := s.driverBorrows + multiset{s.devices[d].driver})
  }

  /** DeviceHookRecordDereference of a borrowed reference. */
  function UnrefDevice(s: State, d: Address): State
    requires d in s.devices && s.devices[d].driver in s.drivers
  {
    if s.devices[d].refCount == 1 then UnrefDriver(FreeDevice(s, d), s.devices[d].driver)
    else CountDevice(s, d, -1).(deviceBorrows := s.deviceBorrows - multiset{d})
  }

  lemma RefDriverKeeps(s: State, p: Address)
    requires Conserved(s) && p in s.drivers
    ensures Conserved(RefDriver(s, p))
  {
    var t := RefDriver(s, p);
    forall q ensures DriverCount(t, q) == DriverDue(t, q) {
      assert DriverCount(s, q) == DriverDue(s, q);
    }
    forall d ensures DeviceCount(t, d) == DeviceDue(t, d) {
      assert DeviceCount(s, d) == DeviceDue(s, d);
    }
  }

  lemma RefDeviceKeeps(s: State, d: Address)
    requires Conserved(s) && d in s.devices
    ensures Conserved(RefDevice(s, d))
  {
    var t := RefDevice(s, d);
    assert Owners(t.devices) == Owners(s.devices);
    forall q ensures DriverCount(t, q) == DriverDue(t, q) {
      assert DriverCount(s, q) == DriverDue(s, q);
    }
    forall q ensures DeviceCount(t, q) == DeviceDue(t, q) {
      assert DeviceCount(s, q) == DeviceDue(s, q);
    }
  }

  /** A driver record whose last reference goes has an empty device table: every record in
      the table would still point at it. */
  lemma LastReferenceMeansNoDevices(s: State, p: Address)
    requires Conserved(s) && p in s.drivers && s.drivers[p].refCount == 1 && s.driverBorrows[p] > 0
    ensures s.drivers[p].devices == map[]
    ensures forall d :: d in s.devices ==> s.devices[d].driver != p
  {
    assert DriverCount(s, p) == DriverDue(s, p);
    forall d | d in s.devices ensures s.devices[d].driver != p {
      if s.devices[d].driver == p {
        assert Owners(s.devices)[d] == p;
        RefsPositive(Owners(s.devices), d);
      }
    }
    assert s.drivers[p].devices.Keys == {};
  }

  lemma CountDownKeeps(s: State, p: Address)
    requires Conserved(s) && p in s.drivers && s.driverBorrows[p] > 0 && s.drivers[p].refCount > 1
    ensures Conserved(UnrefDriver(s, p))
  {
    var t := UnrefDriver(s, p);
    forall q ensures DriverCount(t, q) == DriverDue(t, q) {
      assert DriverCount(s, q) == DriverDue(s, q);
    }
    forall d ensures DeviceCount(t, d) == DeviceDue(t, d) {
      assert DeviceCount(s, d) == DeviceDue(s, d);
    }
  }

  lemma FreeDriverKeeps(s: State, p: Address)
    requires Conserved(s) && p in s.drivers && s.driverBorrows[p] > 0 && s.drivers[p].refCount == 1
    ensures UnrefDriver(s, p).drivers == s.drivers - {p}
    ensures Conserved(UnrefDriver(s, p))
  {
    LastReferenceMeansNoDevices(s, p);
    var t := UnrefDriver(s, p);
    assert t == s.(drivers := s.drivers - {p}, driverBorrows := s.driverBorrows - multiset{p});
    assert DriverCount(s, p) == DriverDue(s, p);
    forall q ensures DriverCount(t, q) == DriverDue(t, q) {
      assert DriverCount(s, q) == DriverDue(s, q);
    }
    forall d ensures DeviceCount(t, d) == DeviceDue(t, d) {
      assert DeviceCount(s, d) == DeviceDue(s, d);
    }
    forall o | o in s.driverTable ensures s.driverTable[o] in t.drivers {
      RefsPositive(s.driverTable, o);
    }
  }

  lemma UnrefDriverKeeps(s: State, p: Address)
    requires Conserved(s) && s.driverBorrows[p] > 0
    ensures p in s.drivers && Conserved(UnrefDriver(s, p))
  {
    ReferencedIsLive(s, p);
    if s.drivers[p].refCount == 1 { FreeDriverKeeps(s, p); } else { CountDownKeeps(s, p); }
    hide *;
  }

  lemma FreeDeviceKeeps(s: State, d: Address)
    requires Conserved(s) && s.deviceBorrows[d] > 0 && d in s.devices && s.devices[d].refCount == 1
    ensures Conserved(FreeDevice(s, d))
  {
    var t := FreeDevice(s, d);
    assert DeviceCount(s, d) == DeviceDue(s, d);
    assert Owners(t.devices) == Owners(s.devices) - {d};
    forall q ensures DriverCount(t, q) == DriverDue(t, q) {
      assert DriverCount(s, q) == DriverDue(s, q);
      RefsRemoved(Owners(s.devices), d, q);
    }
    forall q ensures DeviceCount(t, q) == DeviceDue(t, q) {
      assert DeviceCount(s, q) == DeviceDue(s, q);
    }
  }

  lemma CountDeviceDownKeeps(s: State, d: Address)
    requires Conserved(s) && s.deviceBorrows[d] > 0 && d in s.devices && s.devices[d].refCount > 1
    ensures Conserved(CountDevice(s, d, -1).(deviceBorrows := s.deviceBorrows - multiset{d}))
  {
    var t := CountDevice(s, d, -1).(deviceBorrows := s.deviceBorrows - multiset{d});
    assert Owners(t.devices) == Owners(s.devices);
    forall q ensures DriverCount(t, q) == DriverDue(t, q) {
      assert DriverCount(s, q) == DriverDue(s, q);
    }
    forall q ensures DeviceCount(t, q) == DeviceDue(t, q) {
      assert DeviceCount(s, q) == DeviceDue(s, q);
    }
  }

  lemma UnrefDeviceKeeps(s: State, d: Address)
    requires Conserved(s) && s.deviceBorrows[d] > 0
    ensures d in s.devices && s.devices[d].driver in s.drivers && Conserved(UnrefDevice(s, d))
  {
    ReferencedIsLive(s, d);
    if s.devices[d].refCount == 1 {
      FreeDeviceKeeps(s, d);
      UnrefDriverKeeps(FreeDevice(s, d), s.devices[d].driver);
    } else {
      CountDeviceDownKeeps(s, d);
    }
    hide Conserved;
  }

  // ----- new records, tables, handles: a borrowed reference changes hands

  function NewDriver(s: State, p: Address, driverObject: Address, extensionHook: bool): State {
    s.(drivers := s.drivers[p := DriverRecord(1, driverObject, extensionHook, map[])],
       driverBorrows := s.driverBorrows + multiset{p})
  }

  /** _DeviceHookRecordCreate: the new record holds a reference to its driver record. */
  function NewDevice(s: State, d: Address, p: Address, deviceObject: Address, reason: CreateReason): State
    requires p in s.drivers
  {
    CountDriver(s, p, 1).(devices := s.devices[d := DeviceRecord(1, p, deviceObject, reason)],
                          deviceBorrows := s.deviceBorrows + multiset{d})
  }

  function TableDriver(s: State, p: Address): State
    requires p in s.drivers
  {
    s.(driverTable := s.driverTable[s.drivers[p].driverObject := p], driverBorrows := s.driverBorrows - multiset{p})
  }

  function UntableDriver(s: State, o: Address): State
    requires o in s.driverTable
  {
    s.(driverTable := s.driverTable - {o}, driverBorrows := s.driverBorrows + multiset{s.driverTable[o]})
  }

  function WithDevices(s: State, p: Address, table: map<Address, Address>): State
    requires p in s.drivers
  {
    s.(drivers := s.drivers[p := s.drivers[p].(devices := table)])
  }

  function TableDevice(s: State, d: Address): State
    requires d in s.devices && s.devices[d].driver in s.drivers
  {
    var p := s.devices[d].driver;
    WithDevices(s, p, s.drivers[p].devices[s.devices[d].deviceObject := d])
      .(deviceBorrows := s.deviceBorrows - multiset{d})
  }

  function UntableDevice(s: State, p: Address, o: Address): State
    requires p in s.drivers && o in s.drivers[p].devices
  {
    WithDevices(s, p, s.drivers[p].devices - {o})
      .(deviceBorrows := s.deviceBorrows + multiset{s.drivers[p].devices[o]})
  }

  function AddDriverHandle(s: State, h: Address, p: Address): State {
    s.(driverHandles := s.driverHandles[h := p], driverBorrows := s.driverBorrows - multiset{p})
  }

  function DropDriverHandle(s: State, h: Address): State
    requires h in s.driverHandles
  {
    s.(driverHandles := s.driverHandles - {h}, driverBorrows := s.driverBorrows + multiset{s.driverHandles[h]})
  }

  function AddDeviceHandle(s: State, h: Address, d: Address): State {
    s.(deviceHandles := s.deviceHandles[h := d], deviceBorrows := s.deviceBorrows - multiset{d})
  }

  function DropDeviceHandle(s: State, h: Address): State
    requires h in s.deviceHandles
  {
    s.(deviceHandles := s.deviceHandles - {h}, deviceBorrows := s.deviceBorrows + multiset{s.deviceHandles[h]})
  }

  /** Only fields that count nothing differ. */
  predicate SameCounts(s: State, t: State) {
    && t.drivers == s.drivers && t.driverTable == s.driverTable
    && t.driverHandles == s.driverHandles && t.deviceHandles == s.deviceHandles
    && t.driverBorrows == s.driverBorrows && t.deviceBorrows == s.deviceBorrows
    && t.devices.Keys == s.devices.Keys
    && forall d :: d in s.devices ==> t.devices[d] == s.devices[d].(reason := t.devices[d].reason)
  }

  lemma SameCountsKeeps(s: State, t: State)
    requires Conserved(s) && SameCounts(s, t)
    ensures Conserved(t)
  {
    assert Owners(t.devices) == Owners(s.devices);
    forall q ensures DriverCount(t, q) == DriverDue(t, q) && DeviceCount(t, q) == DeviceDue(t, q) {
      assert DriverCount(s, q) == DriverDue(s, q) && DeviceCount(s, q) == DeviceDue(s, q);
    }
  }

  lemma NewDriverKeeps(s: State, p: Address, o: Address, ext: bool)
    requires Conserved(s) && p !in s.drivers
    ensures Conserved(NewDriver(s, p, o, ext))
  {
    var t := NewDriver(s, p, o, ext);
    forall q ensures DriverCount(t, q) == DriverDue(t, q) && DeviceCount(t, q) == DeviceDue(t, q) {
      assert DriverCount(s, q) == DriverDue(s, q) && DeviceCount(s, q) == DeviceDue(s, q);
      ReferencedIsLive(s, q);
    }
  }

  lemma NewDeviceCountsDrivers(s: State, d: Address, p: Address, o: Address, reason: CreateReason)
    requires Conserved(s) && p in s.drivers && d !in s.devices
    ensures DriversCounted(NewDevice(s, d, p, o, reason))
  {
    var t := NewDevice(s, d, p, o, reason);
    assert Owners(t.devices) == Owners(s.devices)[d := p];
    forall q ensures DriverCount(t, q) == DriverDue(t, q) {
      assert DriverCount(s, q) == DriverDue(s, q);
      RefsAdded(Owners(s.devices), d, p, q);
    }
  }

  lemma NewDeviceCountsDevices(s: State, d: Address, p: Address, o: Address, reason: CreateReason)
    requires Conserved(s) && p in s.drivers && d !in s.devices
    ensures DevicesCounted(NewDevice(s, d, p, o, reason))
  {
    var t := NewDevice(s, d, p, o, reason);
    assert !Tabled(t.drivers, t.devices, d);
    forall q ensures DeviceCount(t, q) == DeviceDue(t, q) {
      assert DeviceCount(s, q) == DeviceDue(s, q);
      if q != d { assert Tabled(t.drivers, t.devices, q) == Tabled(s.drivers, s.devices, q); }
    }
  }

  lemma NewDeviceKeeps(s: State, d: Address, p: Address, o: Address, reason: CreateReason)
    requires Conserved(s) && p in s.drivers && d !in s.devices
    ensures Conserved(NewDevice(s, d, p, o, reason))
  {
    NewDeviceCountsDrivers(s, d, p, o, reason);
    NewDeviceCountsDevices(s, d, p, o, reason);
    hide DriversCounted, DevicesCounted;
  }

  lemma TableDriverKeeps(s: State, p: Address)
    requires Conserved(s) && s.driverBorrows[p] > 0 && p in s.drivers && s.drivers[p].driverObject !in s.driverTable
    ensures Conserved(TableDriver(s, p))
  {
    var t := TableDriver(s, p);
    forall q ensures DriverCount(t, q) == DriverDue(t, q) && DeviceCount(t, q) == DeviceDue(t, q) {
      assert DriverCount(s, q) == DriverDue(s, q) && DeviceCount(s, q) == DeviceDue(s, q);
      RefsAdded(s.driverTable, s.drivers[p].driverObject, p, q);
    }
  }

  lemma UntableDriverKeeps(s: State, o: Address)
    requires Conserved(s) && o in s.driverTable
    ensures Conserved(UntableDriver(s, o))
  {
    var t := UntableDriver(s, o);
    forall q ensures DriverCount(t, q) == DriverDue(t, q) && DeviceCount(t, q) == DeviceDue(t, q) {
      assert DriverCount(s, q) == DriverDue(s, q) && DeviceCount(s, q) == DeviceDue(s, q);
      RefsRemoved(s.driverTable, o, q);
    }
  }

  lemma TableDeviceKeeps(s: State, d: Address)
    requires Conserved(s) && s.deviceBorrows[d] > 0 && d in s.devices && s.devices[d].driver in s.drivers
    requires s.devices[d].deviceObject !in s.drivers[s.devices[d].driver].devices
    ensures Conserved(TableDevice(s, d))
  {
    var t := TableDevice(s, d);
    forall q ensures DriverCount(t, q) == DriverDue(t, q) {
      assert DriverCount(s, q) == DriverDue(s, q);
    }
    forall q ensures DeviceCount(t, q) == DeviceDue(t, q) {
      assert DeviceCount(s, q) == DeviceDue(s, q);
    }
  }

  lemma UntableDeviceKeeps(s: State, p: Address, o: Address)
    requires Conserved(s) && p in s.drivers && o in s.drivers[p].devices
    ensures Conserved(UntableDevice(s, p, o))
  {
    var t := UntableDevice(s, p, o);
    var d := s.drivers[p].devices[o];
    assert Tabled(s.drivers, s.devices, d);
    forall q ensures DriverCount(t, q) == DriverDue(t, q) {
      assert DriverCount(s, q) == DriverDue(s, q);
    }
    forall q ensures DeviceCount(t, q) == DeviceDue(t, q) {
      assert DeviceCount(s, q) == DeviceDue(s, q);
    }
  }

  lemma DriverHandleKeeps(s: State, h: Address, p: Address)
    requires Conserved(s)
    ensures h !in s.driverHandles && s.driverBorrows[p] > 0 ==> Conserved(AddDriverHandle(s, h, p))
    ensures h in s.driverHandles ==> Conserved(DropDriverHandle(s, h))
  {
    var t := if h in s.driverHandles then DropDriverHandle(s, h) else AddDriverHandle(s, h, p);
    if h in s.driverHandles || s.driverBorrows[p] > 0 {
      forall q ensures DriverCount(t, q) == DriverDue(t, q) && DeviceCount(t, q) == DeviceDue(t, q) {
        assert DriverCount(s, q) == DriverDue(s, q) && DeviceCount(s, q) == DeviceDue(s, q);
        if h in s.driverHandles { RefsRemoved(s.driverHandles, h, q); } else { RefsAdded(s.driverHandles, h, p, q); }
      }
    }
  }

  lemma DeviceHandleKeeps(s: State, h: Address, d: Address)
    requires Conserved(s)
    ensures h !in s.deviceHandles && s.deviceBorrows[d] > 0 ==> Conserved(AddDeviceHandle(s, h, d))
    ensures h in s.deviceHandles ==> Conserved(DropDeviceHandle(s, h))
  {
    var t := if h in s.deviceHandles then DropDeviceHandle(s, h) else AddDeviceHandle(s, h, d);
    if h in s.deviceHandles || s.deviceBorrows[d] > 0 {
      forall q ensures DriverCount(t, q) == DriverDue(t, q) && DeviceCount(t, q) == DeviceDue(t, q) {
        assert DriverCount(s, q) == DriverDue(s, q) && DeviceCount(s, q) == DeviceDue(s, q);
        if h in s.deviceHandles { RefsRemoved(s.deviceHandles, h, q); } else { RefsAdded(s.deviceHandles, h, d, q); }
      }
    }
  }
}
