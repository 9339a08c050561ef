/** Hooking a driver: its record, one record for each device it already has, the entry in
    the driver table. */
module HookDrivers {
  import opened Basics
  import opened HookRecords
  import opened HookExisting
  import opened HookManager

  /** The first k records have been dealt with and have b references, the rest a. */
  function Stage(n: nat, k: nat, a: nat, b: nat): (q: seq<nat>)
    ensures |q| == n
  {
    seq(n, i => if i < k then b else a)
  }

  /** Grown, with every reference accounted for. */
  ghost predicate Stands(s: State, t: State, p: Address, objects: seq<Address>, records: seq<Address>,
                         counts: seq<nat>, tabled: nat, owed: multiset<Address>) {
    Conserved(t) && Grown(s, t, p, objects, records, counts, tabled, owed)
  }

  lemma BorrowersRecord(s: State, p: Address)
    requires Conserved(s) && p !in s.drivers
    ensures s.driverBorrows[p] == 0 && Refs(s.driverTable, p) == 0 && Refs(s.driverHandles, p) == 0
  {
    assert DriverCount(s, p) == DriverDue(s, p);
  }

  lemma NothingGrown(s: State, p: Address)
    requires Conserved(s) && p in s.drivers && s.drivers[p].devices == map[]
    ensures Stands(s, s, p, [], [], Stage(0, 0, 1, 1), 0, multiset([]))
  {
    var none: seq<Address> := [];
    assert Stage(0, 0, 1, 1) == [] && multiset(none) == multiset{};
    hide Conserved;
    assert s.drivers[p] == s.drivers[p].(refCount := s.drivers[p].refCount, devices := TableOf([], [], 0));
  }

  lemma CreateStep(s: State, t: State, p: Address, objects: seq<Address>, records: seq<Address>, i: nat, d: Address)
    requires i < |objects| && |records| == i && d !in t.devices && p in t.drivers
    requires forall q :: q !in s.devices ==> s.validDevices[q] == 0
    requires Stands(s, t, p, objects[..i], records, Stage(i, i, 1, 1), 0, multiset(records))
    ensures p in NewDevice(t, d, p, objects[i], DriverHooked).drivers
    ensures Stands(s, NewDevice(t, d, p, objects[i], DriverHooked), p, objects[..i + 1], records + [d],
                   Stage(i + 1, i + 1, 1, 1), 0, multiset(records + [d]))
  {
    NewDeviceKeeps(t, d, p, objects[i], DriverHooked);
    CreatedOne(s, t, p, objects[..i], records, Stage(i, i, 1, 1), multiset(records), d, objects[i]);
    assert objects[..i + 1] == objects[..i] + [objects[i]];
    assert Stage(i + 1, i + 1, 1, 1) == Stage(i, i, 1, 1) + [1];
    hide Conserved, Grown, NewDevice;
    assert multiset(records + [d]) == multiset(records) + multiset{d};
  }

  lemma AllCreated(s: State, t: State, p: Address, objects: seq<Address>, records: seq<Address>)
    requires Stands(s, t, p, objects, records, Stage(|objects|, |objects|, 1, 1), 0, multiset(records))
    ensures Stands(s, t, p, objects, records, Stage(|objects|, 0, 1, 2), 0, multiset(records))
    ensures |records| == |objects|
  {
    assert Stage(|objects|, |objects|, 1, 1) == Stage(|objects|, 0, 1, 2);
    hide Conserved;
  }

  /** _CreateRecordsForExistingDevices. */
  method CreateRecords(m: Manager, p: Address, objects: seq<Address>) returns (records: seq<Address>)
    requires Conserved(m.Snapshot()) && p in m.drivers && m.drivers[p].devices == map[]
    requires forall d :: d !in m.devices ==> m.validDevices[d] == 0
    modifies m`drivers, m`devices, m`deviceBorrows, m`driverBorrows
    ensures Stands(old(m.Snapshot()), m.Snapshot(), p, objects, records,
                   Stage(|objects|, |objects|, 1, 1), 0, multiset(records))
  {
    hide Stands, Stage, Conserved, Grown, NewDevice;
    ghost var s := m.Snapshot();
    records := [];
    NothingGrown(s, p);
    var i := 0;
    while i < |objects|
      invariant i <= |objects| && |records| == i && p in m.drivers
      invariant Stands(s, m.Snapshot(), p, objects[..i], records, Stage(i, i, 1, 1), 0, multiset(records))
    {
      ghost var t := m.Snapshot();
      var d := m.CreateDeviceRecord(p, objects[i], DriverHooked);
      CreateStep(s, t, p, objects, records, i, d);
      records, i := records + [d], i + 1;
    }
    assert objects[..i] == objects;
  }

  method TableRecord(m: Manager, p: Address, ghost s: State, ghost objects: seq<Address>, records: seq<Address>, i: nat)
    requires Distinct(objects) && i < |records| == |objects|
    requires Stands(s, m.Snapshot(), p, objects, records, Stage(|objects|, i, 1, 2), i, multiset(records))
    modifies m`drivers, m`devices, m`deviceBorrows
    ensures Stands(s, m.Snapshot(), p, objects, records, Stage(|objects|, i + 1, 1, 2), i + 1, multiset(records))
  {
    hide Stands, Conserved, Grown, RefDevice, TableDevice, Stage;
    TableStep(s, m.Snapshot(), p, objects, records, i);
    m.ReferenceDevice(records[i]);
    m.InsertDevice(records[i]);
  }

  /** The loop of HookDriverObject that puts the records into the table. */
  method TableRecords(m: Manager, p: Address, ghost s: State, ghost objects: seq<Address>, records: seq<Address>)
    requires Distinct(objects)
    requires Stands(s, m.Snapshot(), p, objects, records, Stage(|objects|, |objects|, 1, 1), 0, multiset(records))
    modifies m`drivers, m`devices, m`deviceBorrows
    ensures Stands(s, m.Snapshot(), p, objects, records,
                   Stage(|objects|, |objects|, 1, 2), |objects|, multiset(records))
  {
    hide Stands, Stage;
    ghost var n := |objects|;
    var i := 0;
    AllCreated(s, m.Snapshot(), p, objects, records);
    while i < |records|
      invariant i <= |records| == n
      invariant Stands(s, m.Snapshot(), p, objects, records, Stage(n, i, 1, 2), i, multiset(records))
    {
      TableRecord(m, p, s, objects, records, i);
      i := i + 1;
    }
  }

  lemma LinkedKeeps(s: State, d: Address)
    requires Conserved(s) && d in s.devices && s.devices[d].driver in s.drivers
    requires s.devices[d].deviceObject !in s.drivers[s.devices[d].driver].devices
    ensures var t := RefDevice(s, d);
      d in t.devices && t.devices[d].driver in t.drivers && Conserved(TableDevice(t, d))
  {
    RefDeviceKeeps(s, d);
    assert RefDevice(s, d).deviceBorrows[d] > 0;
    TableDeviceKeeps(RefDevice(s, d), d);
    hide Conserved;
  }

  lemma TableStep(s: State, t: State, p: Address, objects: seq<Address>, records: seq<Address>, i: nat)
    requires Distinct(objects) && i < |records| == |objects|
    requires Stands(s, t, p, objects, records, Stage(|objects|, i, 1, 2), i, multiset(records))
    ensures records[i] in t.devices
    ensures var t1 := RefDevice(t, records[i]);
      && records[i] in t1.devices && t1.devices[records[i]].driver in t1.drivers
      && Stands(s, TableDevice(t1, records[i]), p, objects, records, Stage(|objects|, i + 1, 1, 2), i + 1, multiset(records))
  {
    var n := |objects|;
    TabledOne(s, t, p, objects, records, Stage(n, i, 1, 2), i, multiset(records));
    assert Stage(n, i, 1, 2)[i := 2] == Stage(n, i + 1, 1, 2);
    Untabled(s, t, p, objects, records, Stage(n, i, 1, 2), i, multiset(records));
    hide Conserved, Grown, TableOf;
    LinkedKeeps(t, records[i]);
  }

  /** The next record is not in the table yet. */
  lemma Untabled(s: State, t: State, p: Address, objects: seq<Address>, records: seq<Address>,
                 counts: seq<nat>, k: nat, owed: multiset<Address>)
    requires Grown(s, t, p, objects, records, counts, k, owed) && k < |records| && counts[k] > 0 && Distinct(objects)
    ensures t.devices[records[k]].driver == p && t.devices[records[k]].deviceObject == objects[k]
    ensures objects[k] !in t.drivers[p].devices
  {
    TableHolds(objects, records, k);
  }

  lemma ReleaseReady(s: State, t: State, p: Address, objects: seq<Address>, records: seq<Address>,
                     counts: seq<nat>, k: nat, tabled: nat, owed: multiset<Address>)
    requires Stands(s, t, p, objects, records, counts, tabled, owed) && k < |records| && counts[k] > 0
    requires owed[records[k]] > 0
    requires t.driverBorrows[p] > 0
    ensures records[k] in t.devices && t.devices[records[k]].driver == p && p in t.drivers
    ensures t.drivers[p].refCount > 1 && t.deviceBorrows[records[k]] > 0
    ensures UnrefDevice(t, records[k]).driverBorrows == t.driverBorrows
  {
    OwnerSurvives(t, records[k], p);
    PlusMinus(t.driverBorrows, p);
    hide Conserved;
  }

  /** One step of _FreeDeviceHookRecordArray. */
  lemma ReleaseStep(s: State, t: State, p: Address, objects: seq<Address>, records: seq<Address>, i: nat, a: nat,
                    tabled: nat)
    requires i < |records| == |objects| && t.driverBorrows[p] > 0 && a > 0
    requires Stands(s, t, p, objects, records, Stage(|objects|, i, a, a - 1), tabled, multiset(records[i..]))
    ensures records[i] in t.devices && t.devices[records[i]].driver in t.drivers
    ensures UnrefDevice(t, records[i]).driverBorrows[p] > 0
    ensures Stands(s, UnrefDevice(t, records[i]), p, objects, records,
                   Stage(|objects|, i + 1, a, a - 1), tabled, multiset(records[i + 1..]))
  {
    hide Conserved, Grown, UnrefDevice;
    var d := records[i];
    var counts := Stage(|objects|, i, a, a - 1);
    assert counts[i] == a && records[i..] == [d] + records[i + 1..];
    assert counts[i := a - 1] == Stage(|objects|, i + 1, a, a - 1);
    assert multiset(records[i..]) - multiset{d} == multiset(records[i + 1..]);
    ReleaseReady(s, t, p, objects, records, counts, i, tabled, multiset(records[i..]));
    ReleasedOne(s, t, p, objects, records, counts, i, tabled, multiset(records[i..]));
    UnrefDeviceKeeps(t, d);
  }

  /** _FreeDeviceHookRecordArray. */
  method ReleaseRecords(m: Manager, p: Address, ghost s: State, ghost objects: seq<Address>, records: seq<Address>,
                        ghost a: nat, ghost tabled: nat)
    requires |records| == |objects| && m.driverBorrows[p] > 0 && a > 0
    requires Stands(s, m.Snapshot(), p, objects, records, Stage(|objects|, 0, a, a - 1), tabled, multiset(records))
    modifies m`drivers, m`devices, m`deviceBorrows, m`driverBorrows, m`validDevices
    ensures Stands(s, m.Snapshot(), p, objects, records, Stage(|objects|, |objects|, a, a - 1), tabled, multiset{})
  {
    hide Stands, Stage, UnrefDevice;
    var i := 0;
    assert records[0..] == records;
    while i < |records|
      invariant i <= |records| && m.driverBorrows[p] > 0
      invariant Stands(s, m.Snapshot(), p, objects, records, Stage(|objects|, i, a, a - 1), tabled, multiset(records[i..]))
    {
      ReleaseStep(s, m.Snapshot(), p, objects, records, i, a, tabled);
      m.DereferenceDevice(records[i]);
      i := i + 1;
    }
    assert multiset(records[|records|..]) == multiset{};
  }

  // ----- entering the driver table

  /** The driver table takes a reference of its own. */
  function Entered(s: State, p: Address): State
    requires p in s.drivers
  {
    TableDriver(RefDriver(s, p), p)
  }

  /** The record becomes a valid object ID, and the caller gets a reference. */
  function Announced(s: State, p: Address): State
    requires p in s.drivers
  {
    RefDriver(s.(validDrivers := s.validDrivers + multiset{p}), p)
  }

  lemma EnteredKeeps(s: State, p: Address)
    requires Conserved(s) && p in s.drivers && s.drivers[p].driverObject !in s.driverTable
    ensures Conserved(Entered(s, p))
  {
    RefDriverKeeps(s, p);
    assert RefDriver(s, p).driverBorrows[p] > 0;
    TableDriverKeeps(RefDriver(s, p), p);
    hide Conserved;
  }

  lemma AnnouncedKeeps(s: State, p: Address)
    requires Conserved(s) && p in s.drivers
    ensures Conserved(Announced(s, p))
  {
    SameCountsKeeps(s, s.(validDrivers := s.validDrivers + multiset{p}));
    RefDriverKeeps(s.(validDrivers := s.validDrivers + multiset{p}), p);
    hide Conserved;
  }

  lemma EnterStands(s: State, t: State, p: Address, objects: seq<Address>, records: seq<Address>,
                    counts: seq<nat>, tabled: nat, owed: multiset<Address>)
    requires Stands(s, t, p, objects, records, counts, tabled, owed) && t.drivers[p].driverObject !in t.driverTable
    ensures p in t.drivers && p in s.drivers
    ensures Stands(Entered(s, p), Entered(t, p), p, objects, records, counts, tabled, owed)
  {
    EnteredKeeps(t, p);
    PlusMinus(s.driverBorrows, p);
    PlusMinus(t.driverBorrows, p);
    hide Conserved;
  }

  lemma AnnounceStands(s: State, t: State, p: Address, objects: seq<Address>, records: seq<Address>,
                       counts: seq<nat>, tabled: nat, owed: multiset<Address>)
    requires Stands(s, t, p, objects, records, counts, tabled, owed)
    ensures p in t.drivers && p in s.drivers
    ensures Stands(Announced(s, p), Announced(t, p), p, objects, records, counts, tabled, owed)
  {
    AnnouncedKeeps(t, p);
    hide Conserved;
  }

  /** What a successful HookDriverObject does: the driver table has one more record, with a
      record for every existing device in its table, none of them asked for by the user. */
  ghost predicate Hooked(s: State, t: State, p: Address, o: Address, ext: bool, objects: seq<Address>,
                         records: seq<Address>) {
    && p !in s.drivers && o !in s.driverTable && t.driverTable == s.driverTable[o := p]
    && t.drivers.Keys == s.drivers.Keys + {p} && (forall q :: q in s.drivers ==> t.drivers[q] == s.drivers[q])
    && |records| == |objects| && Distinct(records)
    && t.drivers[p] == DriverRecord(t.drivers[p].refCount, o, ext, TableOf(objects, records, |objects|))
    && (forall i :: 0 <= i < |records| ==> records[i] !in s.devices)
    && (forall i :: 0 <= i < |records| ==>
          records[i] in t.devices && t.devices[records[i]] == DeviceRecord(1, p, objects[i], DriverHooked))
    && (forall d {:trigger d in s.devices} :: d in s.devices ==> d in t.devices && t.devices[d] == s.devices[d])
    && (forall d {:trigger d in t.devices} :: d in t.devices ==> d in s.devices || d in records)
    && t.validDrivers == s.validDrivers + multiset{p} && t.validDevices == s.validDevices
    && t.driverHandles == s.driverHandles && t.deviceHandles == s.deviceHandles
    && t.driverBorrows == s.driverBorrows + multiset{p} && t.deviceBorrows == s.deviceBorrows
  }

  /** The state the loops start from, once the driver table has the record. */
  ghost predicate Base(s: State, b: State, p: Address, o: Address, ext: bool) {
    && b.drivers.Keys == s.drivers.Keys + {p} && (forall q :: q in s.drivers && q != p ==> b.drivers[q] == s.drivers[q])
    && b.drivers[p] == DriverRecord(b.drivers[p].refCount, o, ext, map[])
    && b.devices == s.devices && b.driverTable == s.driverTable[o := p]
    && b.validDrivers == s.validDrivers + multiset{p} && b.validDevices == s.validDevices
    && b.driverHandles == s.driverHandles && b.deviceHandles == s.deviceHandles
    && b.driverBorrows == s.driverBorrows + multiset{p} + multiset{p} && b.deviceBorrows == s.deviceBorrows
  }

  lemma BaseFields(s: State, p: Address, o: Address, ext: bool)
    ensures p in NewDriver(s, p, o, ext).drivers && p in Entered(NewDriver(s, p, o, ext), p).drivers
    ensures Base(s, Announced(Entered(NewDriver(s, p, o, ext), p), p), p, o, ext)
    ensures Announced(Entered(NewDriver(s, p, o, ext), p), p).driverBorrows[p] > 0
  {
    PlusMinus(s.driverBorrows + multiset{p}, p);
  }

  lemma HookedFields(s: State, b: State, t: State, p: Address, o: Address, ext: bool, objects: seq<Address>,
                     records: seq<Address>)
    requires p !in s.drivers && o !in s.driverTable && Base(s, b, p, o, ext)
    requires Grown(b, t, p, objects, records, Stage(|objects|, |objects|, 2, 1), |objects|, multiset{})
    requires t.drivers[p].refCount > 1
    ensures Hooked(s, UnrefDriver(t, p), p, o, ext, objects, records)
  {
    PlusMinus(s.driverBorrows + multiset{p}, p);
    forall i | 0 <= i < |records| ensures Stage(|objects|, |objects|, 2, 1)[i] == 1 {}
  }

  /** Giving everything back after a collision leaves no trace. */
  lemma GivenUp(s: State, t: State, p: Address, o: Address, ext: bool, objects: seq<Address>, records: seq<Address>)
    requires Conserved(s) && Conserved(t) && p !in s.drivers
    requires Grown(NewDriver(s, p, o, ext), t, p, objects, records, Stage(|objects|, |objects|, 1, 0), 0, multiset{})
    ensures UnrefDriver(t, p) == s
  {
    assert DriverCount(s, p) == DriverDue(s, p) == 0;
    forall d | d in records ensures d !in t.devices {
      var i :| 0 <= i < |records| && records[i] == d;
      assert Stage(|objects|, |objects|, 1, 0)[i] == 0;
    }
    assert t.devices == s.devices;
    assert DriverCount(t, p) == DriverDue(t, p) == 1;
    assert t.drivers - {p} == s.drivers;
    PlusMinus(s.driverBorrows, p);
  }

  lemma HookedDrivers(s: State, t: State, p: Address, o: Address, ext: bool, objects: seq<Address>,
                      records: seq<Address>)
    requires DriversIndexed(s) && Hooked(s, t, p, o, ext, objects, records)
    ensures DriversIndexed(t) && (NoStray(s) ==> NoStray(t))
  {
    forall q ensures Refs(t.driverTable, q) == Refs(s.driverTable, q) + One(q == p) {
      RefsAdded(s.driverTable, o, p, q);
    }
  }

  lemma HookedDevices(s: State, t: State, p: Address, o: Address, ext: bool, objects: seq<Address>,
                      records: seq<Address>)
    requires DevicesIndexed(s) && Hooked(s, t, p, o, ext, objects, records)
    ensures DevicesIndexed(t)
  {
    forall d ensures t.validDevices[d] == One(d in t.devices && t.devices[d].reason.UserRequest?) {
      assert s.validDevices[d] == One(d in s.devices && s.devices[d].reason.UserRequest?);
      if d in t.devices && d !in s.devices {
        var i :| 0 <= i < |records| && records[i] == d;
      }
    }
  }

  ghost predicate WellHooked(s: State, t: State, p: Address, o: Address, ext: bool, objects: seq<Address>,
                             records: seq<Address>) {
    Quiet(t) && (NoStray(s) ==> NoStray(t)) && Hooked(s, t, p, o, ext, objects, records)
  }

  lemma StillBorrowed(s: State, t: State, p: Address, o: Address, ext: bool, objects: seq<Address>,
                      records: seq<Address>)
    requires s.driverBorrows[p] == 0
    requires p in NewDriver(s, p, o, ext).drivers && p in Entered(NewDriver(s, p, o, ext), p).drivers
    requires Grown(Announced(Entered(NewDriver(s, p, o, ext), p), p), t, p, objects, records,
                   Stage(|objects|, |objects|, 2, 1), |objects|, multiset{})
    ensures p in t.drivers && t.driverBorrows[p] == 2
  {}

  lemma FullyHooked(s: State, t: State, p: Address, o: Address, ext: bool, objects: seq<Address>, records: seq<Address>)
    requires Quiet(s) && p !in s.drivers && o !in s.driverTable
    requires p in NewDriver(s, p, o, ext).drivers && p in Entered(NewDriver(s, p, o, ext), p).drivers
    requires Stands(Announced(Entered(NewDriver(s, p, o, ext), p), p), t, p, objects, records,
                    Stage(|objects|, |objects|, 2, 1), |objects|, multiset{})
    ensures p in t.drivers && WellHooked(s, UnrefDriver(t, p), p, o, ext, objects, records)
  {
    hide Grown, Base, UnrefDriver, Hooked, DevicesIndexed, DriversIndexed, NoStray, DevicesCounted, TablesOk;
    BaseFields(s, p, o, ext);
    BorrowersRecord(s, p);
    StillBorrowed(s, t, p, o, ext, objects, records);
    assert t.drivers[p].refCount > 1 by { assert DriverCount(t, p) == DriverDue(t, p); }
    HookedFields(s, Announced(Entered(NewDriver(s, p, o, ext), p), p), t, p, o, ext, objects, records);
    UnrefDriverKeeps(t, p);
    HookedDrivers(s, UnrefDriver(t, p), p, o, ext, objects, records);
    HookedDevices(s, UnrefDriver(t, p), p, o, ext, objects, records);
  }

  method EnterDriver(m: Manager, p: Address)
    requires p in m.drivers
    modifies m`drivers, m`driverTable, m`driverBorrows
    ensures m.Snapshot() == Entered(old(m.Snapshot()), p)
  {
    m.ReferenceDriver(p);
    m.driverTable := m.driverTable[m.drivers[p].driverObject := p];
    m.driverBorrows := m.driverBorrows - multiset{p};
  }

  /** _MakeDriverHookRecordValid, whose intrusive link must not be linked already, and the
      reference that goes out. */
  method AnnounceDriver(m: Manager, p: Address)
    requires p in m.drivers && m.validDrivers[p] == 0
    modifies m`drivers, m`validDrivers, m`driverBorrows
    ensures m.Snapshot() == Announced(old(m.Snapshot()), p)
  {
    m.validDrivers := m.validDrivers + multiset{p};
    m.ReferenceDriver(p);
  }

  /** The part of HookDriverObject under the driver table lock, and what follows it. */
  method EnterHooked(m: Manager, p: Address, ghost s: State, ghost objects: seq<Address>, records: seq<Address>)
    requires Distinct(objects) && p in s.drivers && s.driverTable == m.driverTable && p in m.drivers
    requires m.drivers[p].driverObject !in m.driverTable && m.validDrivers[p] == 0
    requires Stands(s, m.Snapshot(), p, objects, records, Stage(|objects|, |objects|, 1, 1), 0, multiset(records))
    modifies m`drivers, m`devices, m`driverTable, m`validDrivers, m`deviceBorrows, m`driverBorrows
    ensures p in Entered(s, p).drivers
    ensures Stands(Announced(Entered(s, p), p), m.Snapshot(), p, objects, records,
                   Stage(|objects|, |objects|, 1, 2), |objects|, multiset(records))
  {
    hide Stands, Stage, Announced;
    EnterStands(s, m.Snapshot(), p, objects, records, Stage(|objects|, |objects|, 1, 1), 0, multiset(records));
    EnterDriver(m, p);
    TableRecords(m, p, Entered(s, p), objects, records);
    AnnounceStands(Entered(s, p), m.Snapshot(), p, objects, records, Stage(|objects|, |objects|, 1, 2), |objects|,
                   multiset(records));
    AnnounceDriver(m, p);
  }

  lemma ReadyToCreate(s: State, p: Address, o: Address, ext: bool)
    requires Quiet(s) && p !in s.drivers
    ensures var t := NewDriver(s, p, o, ext);
      && Conserved(t) && p in t.drivers && t.drivers[p] == DriverRecord(1, o, ext, map[])
      && t.driverTable == s.driverTable
      && (forall d :: d !in t.devices ==> t.validDevices[d] == 0)
      && t.validDrivers[p] == 0 && t.driverBorrows[p] == 1
  {
    NewDriverKeeps(s, p, o, ext);
    BorrowersRecord(s, p);
    hide Conserved;
    assert s.validDrivers[p] == Refs(s.driverTable, p);
  }

  lemma StandsFacts(s: State, t: State, p: Address, objects: seq<Address>, records: seq<Address>,
                    counts: seq<nat>, tabled: nat, owed: multiset<Address>)
    requires Stands(s, t, p, objects, records, counts, tabled, owed)
    ensures |records| == |objects| && p in t.drivers && p in s.drivers
    ensures t.drivers[p].driverObject == s.drivers[p].driverObject
    ensures t.driverTable == s.driverTable && t.validDrivers == s.validDrivers && t.driverBorrows == s.driverBorrows
  {
    hide Conserved;
  }

  lemma AllTabled(s: State, t: State, p: Address, objects: seq<Address>, records: seq<Address>)
    requires Stands(s, t, p, objects, records, Stage(|objects|, |objects|, 1, 2), |objects|, multiset(records))
    ensures Stands(s, t, p, objects, records, Stage(|objects|, 0, 2, 1), |objects|, multiset(records))
  {
    assert Stage(|objects|, |objects|, 1, 2) == Stage(|objects|, 0, 2, 1);
    hide Conserved, Grown;
  }

  lemma NoneTabled(s: State, t: State, p: Address, objects: seq<Address>, records: seq<Address>)
    requires Stands(s, t, p, objects, records, Stage(|objects|, |objects|, 1, 1), 0, multiset(records))
    ensures Stands(s, t, p, objects, records, Stage(|objects|, 0, 1, 0), 0, multiset(records))
  {
    assert Stage(|objects|, |objects|, 1, 1) == Stage(|objects|, 0, 1, 0);
    hide Conserved, Grown;
  }

  /** The driver is entered, the records are put into its table, then the references held
      meanwhile are given back. */
  method FinishHook(m: Manager, p: Address, ghost s: State, ghost o: Address, ghost ext: bool,
                    ghost objects: seq<Address>,
                    records: seq<Address>)
    requires Quiet(s) && Distinct(objects) && p !in s.drivers && o !in s.driverTable
    requires Stands(NewDriver(s, p, o, ext), m.Snapshot(), p, objects, records,
                    Stage(|objects|, |objects|, 1, 1), 0, multiset(records))
    modifies m`drivers, m`devices, m`driverTable, m`validDrivers, m`validDevices, m`deviceBorrows, m`driverBorrows
    ensures WellHooked(s, m.Snapshot(), p, o, ext, objects, records)
  {
    hide Stands, Stage, UnrefDriver, Quiet, WellHooked, NewDriver, Entered, Announced, Base;
    ReadyToCreate(s, p, o, ext);
    BaseFields(s, p, o, ext);
    ghost var s1 := NewDriver(s, p, o, ext);
    StandsFacts(s1, m.Snapshot(), p, objects, records, Stage(|objects|, |objects|, 1, 1), 0, multiset(records));
    EnterHooked(m, p, s1, objects, records);
    ghost var s2 := Announced(Entered(s1, p), p);
    AllTabled(s2, m.Snapshot(), p, objects, records);
    StandsFacts(s2, m.Snapshot(), p, objects, records, Stage(|objects|, 0, 2, 1), |objects|, multiset(records));
    ReleaseRecords(m, p, s2, objects, records, 2, |objects|);
    FullyHooked(s, m.Snapshot(), p, o, ext, objects, records);
    m.DereferenceDriver(p);
  }

  /** The driver table already has a record for the driver object. */
  method AbandonHook(m: Manager, p: Address, ghost s: State, ghost o: Address, ghost ext: bool,
                     ghost objects: seq<Address>,
                     records: seq<Address>)
    requires Quiet(s) && p !in s.drivers
    requires Stands(NewDriver(s, p, o, ext), m.Snapshot(), p, objects, records,
                    Stage(|objects|, |objects|, 1, 1), 0, multiset(records))
    modifies m`drivers, m`devices, m`validDevices, m`deviceBorrows, m`driverBorrows
    ensures m.Snapshot() == s
  {
    ReadyToCreate(s, p, o, ext);
    ghost var s1 := NewDriver(s, p, o, ext);
    assert Conserved(s);
    hide Stage, UnrefDriver, Quiet, NewDriver, Conserved, Grown;
    StandsFacts(s1, m.Snapshot(), p, objects, records, Stage(|objects|, |objects|, 1, 1), 0, multiset(records));
    NoneTabled(s1, m.Snapshot(), p, objects, records);
    ReleaseRecords(m, p, s1, objects, records, 1, 0);
    StandsFacts(s1, m.Snapshot(), p, objects, records, Stage(|objects|, |objects|, 1, 0), 0, multiset{});
    GivenUp(s, m.Snapshot(), p, o, ext, objects, records);
    m.DereferenceDriver(p);
  }

  /** HookDriverObject.  A second attempt on the same driver object collides and leaves
      everything as it was. */
  method HookDriverObject(m: Manager, o: Address, ext: bool, existing: seq<Address>)
    returns (status: Status, p: Address, records: seq<Address>)
    requires Quiet(m.Snapshot()) && Distinct(existing)
    modifies m`drivers, m`devices, m`driverTable, m`validDrivers, m`validDevices, m`deviceBorrows, m`driverBorrows
    ensures Quiet(m.Snapshot()) && (NoStray(old(m.Snapshot())) ==> NoStray(m.Snapshot()))
    ensures status == if o in old(m.driverTable) then Collision else Success
    ensures status == Collision ==> m.Snapshot() == old(m.Snapshot())
    ensures status == Success ==> Hooked(old(m.Snapshot()), m.Snapshot(), p, o, ext, existing, records)
  {
    ghost var s := m.Snapshot();
    p := m.CreateDriverRecord(o, ext);
    ReadyToCreate(s, p, o, ext);
    hide Quiet, NoStray, Conserved, NewDriver, Hooked, Grown;
    records := CreateRecords(m, p, existing);
    StandsFacts(NewDriver(s, p, o, ext), m.Snapshot(), p, existing, records, Stage(|existing|, |existing|, 1, 1), 0,
                multiset(records));
    if o !in m.driverTable {
      FinishHook(m, p, s, o, ext, existing, records);
      status := Success;
    } else {
      AbandonHook(m, p, s, o, ext, existing, records);
      status := Collision;
    }
  }
}
