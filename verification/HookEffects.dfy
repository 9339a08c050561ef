/** What every call does to the hook records, and why the reference counts stay right. */
module HookEffects {
  import opened Basics
  import opened HookRecords
  import opened HookExisting
  import opened HookManager
  import opened HookDrivers
  import opened HookHandles
  import opened HookServices
  import opened DispatchHandlers
  import D = HookDeviceServices

  /** A user-mode service, or what a hook handler does to the records: the driver is unloaded,
      or one of its devices is seen. */
  datatype Call =
    | HookDriver(driverObject: Address, extensionHook: bool, existing: seq<Address>, copied: bool)
    | UnhookDriver(handle: Address)
    | AddDevice(driverObject: Address, deviceObject: Address, proxyOk: bool, copied: bool)
    | DeleteDevice(handle: Address)
    | OpenDriver(driverId: Address, copied: bool)
    | OpenDevice(deviceId: Address, copied: bool)
    | CloseDriver(handle: Address)
    | CloseDevice(handle: Address)
    | DeleteHandles
    | UnloadDriver(driverObject: Address)
    | SeeDevice(driverObject: Address, deviceObject: Address, catching: bool, proxyOk: bool)

  /** The device list of a driver object has no duplicates, and no driver is unhooked through
      a stale handle. */
  ghost predicate Possible(s: State, c: Call) {
    && (c.HookDriver? ==> Distinct(c.existing))
    && (c.UnhookDriver? ==> !Stale(s, c.handle))
  }

  /** The new record is referenced by the driver table, its devices, and the handle. */
  ghost predicate HookEffect(s: State, t: State, o: Address, ext: bool, existing: seq<Address>) {
    exists h, p, records ::
      HookedWithHandle(s, t, h, p, o, ext, existing, records) && t.drivers[p].refCount == |existing| + 2
  }

  ghost predicate AddEffect(s: State, t: State, driverObject: Address, o: Address, copied: bool) {
    exists h, d {:trigger D.AddOutcome(s, h, s.driverTable[driverObject], o, d, copied)} ::
      && driverObject in s.driverTable && D.Suits(s, s.driverTable[driverObject], o, d)
      && (copied ==> h !in s.deviceHandles)
      && t == D.AddOutcome(s, h, s.driverTable[driverObject], o, d, copied)
  }

  ghost predicate OpenDriverEffect(s: State, t: State, p: Address) {
    p in s.drivers && exists h :: h !in s.driverHandles && t == DriverHandleMade(s, h, p)
  }

  ghost predicate OpenDeviceEffect(s: State, t: State, d: Address) {
    d in s.devices && exists h :: h !in s.deviceHandles && t == DeviceHandleMade(s, h, d)
  }

  ghost predicate SeeEffect(s: State, t: State, driverObject: Address, o: Address) {
    && driverObject in s.driverTable && s.driverTable[driverObject] in s.drivers
    && exists d :: d !in s.devices && t == WithSeen(s, s.driverTable[driverObject], o, d)
  }

  /** Every record has lost the references of the handles closed, and a driver record those of
      the device records freed; a device record that is freed is not valid any more. */
  ghost predicate HandlesCounted(s: State, t: State) {
    && (forall p {:trigger DriverCount(t, p)} ::
          DriverCount(s, p) - DriverCount(t, p) ==
            Refs(s.driverHandles, p) - Refs(t.driverHandles, p)
            + Refs(Owners(s.devices), p) - Refs(Owners(t.devices), p))
    && (forall d {:trigger DeviceCount(t, d)} ::
          DeviceCount(s, d) - DeviceCount(t, d) == Refs(s.deviceHandles, d) - Refs(t.deviceHandles, d))
    && (forall p {:trigger t.drivers[p]} :: p in t.drivers ==> t.drivers[p].refCount > 0)
    && (forall d {:trigger t.devices[d]} :: d in t.devices ==> t.devices[d].refCount > 0)
    && (forall d {:trigger t.validDevices[d]} ::
          t.validDevices[d] == if d in s.devices && d !in t.devices then 0 else s.validDevices[d])
  }

  /** What a call does.  The effects say how the reference counts change; that they are still
      right afterwards is proved below. */
  ghost predicate Effect(s: State, c: Call, t: State) {
    match c
    case HookDriver(o, ext, existing, copied) =>
      if o !in s.driverTable && copied then HookEffect(s, t, o, ext, existing) else t == s
    case UnhookDriver(h) =>
      if h in s.driverHandles && s.driverHandles[h] in s.driverTable.Values then UnhookedByHandle(s, t, h) else t == s
    case AddDevice(driverObject, o, proxyOk, copied) =>
      var status := D.AddStatus(s, driverObject, o, proxyOk, copied);
      if status == Success || status == CopyFailed then AddEffect(s, t, driverObject, o, copied) else t == s
    case DeleteDevice(h) => if D.HandleDeletable(s, h) then D.DeletedByHandle(s, t, h) else t == s
    case OpenDriver(p, copied) => if p in s.driverTable.Values && copied then OpenDriverEffect(s, t, p) else t == s
    case OpenDevice(d, copied) =>
      if d in s.devices && s.devices[d].reason.UserRequest? && copied then OpenDeviceEffect(s, t, d) else t == s
    case CloseDriver(h) =>
      if h in s.driverHandles && s.driverHandles[h] in s.drivers then t == DriverHandleGone(s, h) else t == s
    case CloseDevice(h) =>
      if h in s.deviceHandles && s.deviceHandles[h] in s.devices && s.devices[s.deviceHandles[h]].driver in s.drivers
      then t == DeviceHandleGone(s, h) else t == s
    case DeleteHandles =>
      && FewerHandles(s, t) && HandlesCounted(s, t) && t.driverHandles == map[] && t.deviceHandles == map[]
    case UnloadDriver(o) =>
      if o in s.driverTable then UnhookedTo(s, t, s.driverTable[o], s.driverHandles) else t == s
    case SeeDevice(driverObject, o, catching, proxyOk) =>
      if Catches(s, driverObject, o, catching, proxyOk) then SeeEffect(s, t, driverObject, o) else t == s
  }


  // ----- unhooking

  lemma UnhookCountsDrivers(s: State, t: State, p: Address, handles: map<Address, Address>)
    requires Settled(s) && UnhookedTo(s, t, p, handles)
    requires forall q :: q != p ==> Refs(handles, q) == Refs(s.driverHandles, q)
    ensures DriversCounted(t)
  {
    hide Indexed, DevicesCounted;
    var o := s.drivers[p].driverObject;
    OwnEntry(s, p, o);
    forall q ensures DriverCount(t, q) == DriverDue(t, q) {
      assert DriverCount(s, q) == DriverDue(s, q);
      RefsRemoved(s.driverTable, o, q);
      if q != p { OtherOwners(s, t, p, q); }
    }
  }

  lemma OtherOwners(s: State, t: State, p: Address, q: Address)
    requires TablesOk(s) && AllReleased(s, t, p) && q != p
    ensures Refs(Owners(t.devices), q) == Refs(Owners(s.devices), q)
  {
    forall d ensures d in Holders(Owners(t.devices), q) <==> d in Holders(Owners(s.devices), q) {
      assert d in t.devices ==> d in s.devices;
    }
    assert Holders(Owners(t.devices), q) == Holders(Owners(s.devices), q);
  }

  lemma UnhookCountsDevices(s: State, t: State, p: Address, handles: map<Address, Address>)
    requires Settled(s) && UnhookedTo(s, t, p, handles)
    ensures DevicesCounted(t)
  {
    hide Indexed, DriversCounted;
    forall d ensures DeviceCount(t, d) == DeviceDue(t, d) {
      assert DeviceCount(s, d) == DeviceDue(s, d);
      UnhookTabled(s, t, p, handles, d);
    }
  }

  lemma UnhookTabled(s: State, t: State, p: Address, handles: map<Address, Address>, d: Address)
    requires UnhookedTo(s, t, p, handles)
    ensures Tabled(t.drivers, t.devices, d) <==> Tabled(s.drivers, s.devices, d) && !InTableOf(s, p, d)
  {}

  lemma UnhookTables(s: State, t: State, p: Address, handles: map<Address, Address>)
    requires TablesOk(s) && UnhookedTo(s, t, p, handles)
    ensures TablesOk(t)
  {}

  lemma UnhookIndex(s: State, t: State, p: Address, handles: map<Address, Address>)
    requires Settled(s) && UnhookedTo(s, t, p, handles)
    ensures Indexed(t)
  {
    var o := s.drivers[p].driverObject;
    OwnEntry(s, p, o);
    UnhookDevicesIndex(s, t, p, handles);
    hide Conserved, DevicesIndexed, AllReleased;
    forall q ensures Refs(t.driverTable, q) == Refs(s.driverTable, q) - One(q == p) { RefsRemoved(s.driverTable, o, q); }
  }

  lemma UnhookDevicesIndex(s: State, t: State, p: Address, handles: map<Address, Address>)
    requires DevicesIndexed(s) && UnhookedTo(s, t, p, handles)
    ensures DevicesIndexed(t)
  {
    forall d ensures t.validDevices[d] == One(d in t.devices && t.devices[d].reason.UserRequest?) {
      assert s.validDevices[d] == One(d in s.devices && s.devices[d].reason.UserRequest?);
    }
  }

  lemma UnhookedSettled(s: State, t: State, p: Address, handles: map<Address, Address>)
    requires Settled(s) && UnhookedTo(s, t, p, handles)
    requires forall q :: q != p ==> Refs(handles, q) == Refs(s.driverHandles, q)
    ensures Settled(t)
  {
    UnhookCountsDrivers(s, t, p, handles);
    UnhookCountsDevices(s, t, p, handles);
    UnhookTables(s, t, p, handles);
    UnhookIndex(s, t, p, handles);
    hide DriversCounted, DevicesCounted, TablesOk, Indexed, UnhookedTo;
  }

  lemma UnhookedByHandleSettled(s: State, t: State, h: Address)
    requires Settled(s) && UnhookedByHandle(s, t, h)
    ensures Settled(t) && t.driverBorrows == s.driverBorrows && t.deviceBorrows == s.deviceBorrows
  {
    var p := s.driverHandles[h];
    forall q | q != p ensures Refs(s.driverHandles - {h}, q) == Refs(s.driverHandles, q) {
      RefsRemoved(s.driverHandles, h, q);
    }
    UnhookedSettled(s, t, p, s.driverHandles - {h});
    hide Settled;
  }

  // ----- hooking

  function Elements(xs: seq<Address>): set<Address> { set x | x in xs }

  lemma {:induction false} DistinctCount(xs: seq<Address>)
    requires Distinct(xs)
    ensures |Elements(xs)| == |xs|
  {
    if xs != [] {
      var n := |xs| - 1;
      DistinctCount(xs[..n]);
      assert xs == xs[..n] + [xs[n]];
      assert Elements(xs) == Elements(xs[..n]) + {xs[n]} && xs[n] !in Elements(xs[..n]);
    }
  }

  /** Every new device record references the new driver record, and no other does. */
  lemma HookedOwners(s: State, t: State, p: Address, o: Address, ext: bool, objects: seq<Address>, records: seq<Address>,
                     q: Address)
    requires Settled(s) && Hooked(s, t, p, o, ext, objects, records)
    ensures Refs(Owners(t.devices), q) == Refs(Owners(s.devices), q) + if q == p then |records| else 0
  {
    OwnersLive(s);
    hide Settled;
    if q == p {
      assert Holders(Owners(s.devices), p) == {};
      assert Holders(Owners(t.devices), p) == Elements(records);
      DistinctCount(records);
    } else {
      assert Holders(Owners(t.devices), q) == Holders(Owners(s.devices), q);
    }
  }

  lemma HookedTabled(s: State, t: State, p: Address, o: Address, ext: bool, objects: seq<Address>, records: seq<Address>,
                     d: Address)
    requires Settled(s) && Hooked(s, t, p, o, ext, objects, records) && Distinct(objects)
    ensures Tabled(t.drivers, t.devices, d) <==> Tabled(s.drivers, s.devices, d) || d in records
  {
    TableHolds(objects, records, |objects|);
    OwnersLive(s);
    hide Settled;
    if d in records {
      var i :| 0 <= i < |records| && records[i] == d;
      assert t.devices[d] == DeviceRecord(1, p, objects[i], DriverHooked);
    } else if d in s.devices {
      assert t.devices[d] == s.devices[d];
    }
  }

  lemma HookedTables(s: State, t: State, p: Address, o: Address, ext: bool, objects: seq<Address>, records: seq<Address>)
    requires TablesOk(s) && Hooked(s, t, p, o, ext, objects, records) && Distinct(objects)
    ensures TablesOk(t)
  {
    TableHolds(objects, records, |objects|);
    forall q, k | q in t.drivers && k in t.drivers[q].devices
      ensures var d := t.drivers[q].devices[k];
        d in t.devices && t.devices[d].driver == q && t.devices[d].deviceObject == k
    {
      if q == p {
        var i :| 0 <= i < |objects| && objects[i] == k;
        assert t.devices[records[i]] == DeviceRecord(1, p, objects[i], DriverHooked);
      } else {
        assert q in s.drivers && k in s.drivers[q].devices;
      }
    }
  }

  /** The new device records are referenced by nobody but their table. */
  lemma NewRecordsUnheld(s: State, d: Address)
    requires Conserved(s) && d !in s.devices
    ensures Refs(s.deviceHandles, d) == 0 && s.deviceBorrows[d] == 0 && !Tabled(s.drivers, s.devices, d)
  {
    assert DeviceCount(s, d) == DeviceDue(s, d);
  }

  lemma HookedSettled(s: State, t: State, p: Address, o: Address, ext: bool, objects: seq<Address>, records: seq<Address>)
    requires Settled(s) && Hooked(s, t, p, o, ext, objects, records) && Distinct(objects)
    requires t.drivers[p].refCount == |objects| + 2
    ensures Settled(t)
  {
    HookedCounts(s, t, p, o, ext, objects, records);
    HookedTables(s, t, p, o, ext, objects, records);
    HookedDrivers(s, t, p, o, ext, objects, records);
    HookedDevices(s, t, p, o, ext, objects, records);
    hide DriversCounted, DevicesCounted, TablesOk, DevicesIndexed, DriversIndexed, NoStray, Hooked;
  }

  lemma HookedCounts(s: State, t: State, p: Address, o: Address, ext: bool, objects: seq<Address>, records: seq<Address>)
    requires Settled(s) && Hooked(s, t, p, o, ext, objects, records) && Distinct(objects)
    requires t.drivers[p].refCount == |objects| + 2
    ensures DriversCounted(t) && DevicesCounted(t)
  {
    forall q ensures DriverCount(t, q) == DriverDue(t, q) {
      assert DriverCount(s, q) == DriverDue(s, q);
      RefsAdded(s.driverTable, o, p, q);
      HookedOwners(s, t, p, o, ext, objects, records, q);
    }
    forall d ensures DeviceCount(t, d) == DeviceDue(t, d) {
      assert DeviceCount(s, d) == DeviceDue(s, d);
      HookedTabled(s, t, p, o, ext, objects, records, d);
      if d in records { NewRecordsUnheld(s, d); }
    }
    forall d | d in t.devices ensures t.devices[d].refCount > 0 {
      if d in records { var i :| 0 <= i < |records| && records[i] == d; }
    }
    hide Indexed, TablesOk;
  }

  lemma HookedWithHandleSettled(s: State, t: State, h: Address, p: Address, o: Address, ext: bool,
                                objects: seq<Address>, records: seq<Address>)
    requires Settled(s) && HookedWithHandle(s, t, h, p, o, ext, objects, records) && Distinct(objects)
    requires t.drivers[p].refCount == |objects| + 2
    ensures Settled(t) && t.driverBorrows == s.driverBorrows && t.deviceBorrows == s.deviceBorrows
  {
    var u := t.(driverHandles := s.driverHandles, driverBorrows := s.driverBorrows + multiset{p});
    HookedSettled(s, u, p, o, ext, objects, records);
    DriverHandleSettled(u, h, p);
    PlusMinus(s.driverBorrows, p);
    assert AddDriverHandle(u, h, p) == t;
    hide Settled;
  }

  /** Where the references are right before and after, the new record has as many as it should. */
  lemma HookedCount(s: State, t: State, h: Address, p: Address, o: Address, ext: bool,
                    objects: seq<Address>, records: seq<Address>)
    requires Settled(s) && Borrowless(s) && Settled(t) && HookedWithHandle(s, t, h, p, o, ext, objects, records)
    ensures t.drivers[p].refCount == |objects| + 2
  {
    var u := t.(driverHandles := s.driverHandles, driverBorrows := s.driverBorrows + multiset{p});
    HookedOwners(s, u, p, o, ext, objects, records, p);
    assert DriverCount(s, p) == DriverDue(s, p) && DriverCount(t, p) == DriverDue(t, p);
    RefsAdded(s.driverTable, o, p, p);
    RefsAdded(s.driverHandles, h, p, p);
    hide Indexed, DevicesCounted, TablesOk;
  }

  lemma HookCallSettled(s: State, t: State, o: Address, ext: bool, existing: seq<Address>)
    requires Settled(s) && HookEffect(s, t, o, ext, existing) && Distinct(existing)
    ensures Settled(t) && t.driverBorrows == s.driverBorrows && t.deviceBorrows == s.deviceBorrows
  {
    hide Settled;
    var h, p, records :|
      HookedWithHandle(s, t, h, p, o, ext, existing, records) && t.drivers[p].refCount == |existing| + 2;
    HookedWithHandleSettled(s, t, h, p, o, ext, existing, records);
  }

  // ----- closing all handles

  lemma ClosedTabled(s: State, t: State, d: Address)
    requires Settled(s) && FewerHandles(s, t) && HandlesCounted(s, t)
    ensures Tabled(t.drivers, t.devices, d) <==> Tabled(s.drivers, s.devices, d)
  {
    if Tabled(s.drivers, s.devices, d) {
      var p := s.devices[d].driver;
      assert DeviceCount(s, d) == DeviceDue(s, d) && DriverCount(s, p) == DriverDue(s, p);
      assert DeviceCount(t, d) > 0;
      assert Owners(t.devices)[d] == p;
      RefsPositive(Owners(t.devices), d);
      assert DriverCount(t, p) > 0;
    }
  }

  lemma ClosedCounts(s: State, t: State)
    requires Settled(s) && FewerHandles(s, t) && HandlesCounted(s, t)
    ensures DriversCounted(t) && DevicesCounted(t)
  {
    forall q ensures DriverCount(t, q) == DriverDue(t, q) {
      assert DriverCount(s, q) == DriverDue(s, q);
    }
    forall d ensures DeviceCount(t, d) == DeviceDue(t, d) {
      assert DeviceCount(s, d) == DeviceDue(s, d);
      ClosedTabled(s, t, d);
    }
    hide Indexed, TablesOk;
  }

  lemma ClosedTables(s: State, t: State)
    requires Settled(s) && DriversCounted(t) && FewerHandles(s, t) && HandlesCounted(s, t)
    ensures TablesOk(t)
  {
    forall o | o in t.driverTable ensures t.driverTable[o] in t.drivers && t.drivers[t.driverTable[o]].driverObject == o {
      RefsPositive(t.driverTable, o);
      assert DriverCount(t, t.driverTable[o]) == DriverDue(t, t.driverTable[o]);
    }
    forall p, o | p in t.drivers && o in t.drivers[p].devices
      ensures var d := t.drivers[p].devices[o];
        d in t.devices && t.devices[d].driver == p && t.devices[d].deviceObject == o
    {
      var d := t.drivers[p].devices[o];
      assert o in s.drivers[p].devices && s.drivers[p].devices[o] == d;
      ClosedTabled(s, t, d);
    }
  }

  lemma ClosedIndex(s: State, t: State)
    requires Indexed(s) && FewerHandles(s, t) && HandlesCounted(s, t)
    ensures Indexed(t)
  {
    forall d ensures t.validDevices[d] == One(d in t.devices && t.devices[d].reason.UserRequest?) {
      assert s.validDevices[d] == One(d in s.devices && s.devices[d].reason.UserRequest?);
    }
  }

  lemma ClosedSettled(s: State, t: State)
    requires Settled(s) && FewerHandles(s, t) && HandlesCounted(s, t)
    ensures Settled(t)
  {
    ClosedCounts(s, t);
    ClosedTables(s, t);
    ClosedIndex(s, t);
    hide DriversCounted, DevicesCounted, TablesOk, Indexed, FewerHandles, HandlesCounted;
  }

  /** Where the references are right before and after, they have changed as they should. */
  lemma CountedOff(s: State, t: State)
    requires Settled(s) && Settled(t) && FewerHandles(s, t)
    ensures HandlesCounted(s, t)
  {
    hide TablesOk, NoStray, Owners, Refs, Tabled;
    forall p ensures DriverCount(s, p) - DriverCount(t, p) ==
      Refs(s.driverHandles, p) - Refs(t.driverHandles, p) + Refs(Owners(s.devices), p) - Refs(Owners(t.devices), p)
    {
      assert DriverCount(s, p) == DriverDue(s, p) && DriverCount(t, p) == DriverDue(t, p);
    }
    forall d ensures DeviceCount(s, d) - DeviceCount(t, d) == Refs(s.deviceHandles, d) - Refs(t.deviceHandles, d) {
      assert DeviceCount(s, d) == DeviceDue(s, d) && DeviceCount(t, d) == DeviceDue(t, d);
      StillTabled(s, t, d);
    }
  }

  lemma StillTabled(s: State, t: State, d: Address)
    requires Settled(s) && Settled(t) && FewerHandles(s, t)
    ensures Tabled(t.drivers, t.devices, d) <==> Tabled(s.drivers, s.devices, d)
  {
    hide DriversCounted, DevicesCounted, DevicesIndexed, DriversIndexed;
    if Tabled(s.drivers, s.devices, d) {
      var p := s.devices[d].driver;
      if p !in t.drivers { InTableIffReferenced(s.driverTable, p); }
    }
  }

  // ----- devices

  lemma PromotedSettled(s: State, p: Address, d: Address, h: Address)
    requires Settled(s) && d in s.devices && s.devices[d].reason.DriverHooked? && h !in s.deviceHandles
    ensures Settled(PromotedIn(s, d).(deviceHandles := s.deviceHandles[h := d], deviceBorrows := s.deviceBorrows))
  {
    var t := PromotedIn(s, d);
    RefDeviceKeeps(s, d);
    SameCountsKeeps(RefDevice(s, d), t);
    hide Conserved;
    assert Indexed(t);
    assert t.deviceBorrows[d] > 0;
    DeviceHandleSettled(t, h, d);
    PlusMinus(s.deviceBorrows, d);
    assert AddDeviceHandle(t, h, d) == t.(deviceHandles := s.deviceHandles[h := d], deviceBorrows := s.deviceBorrows);
  }

  /** A new device record in the table of a hooked driver's record, as yet invalid. */
  lemma DormantConserved(s: State, p: Address, o: Address, d: Address)
    requires Conserved(s) && p in s.drivers && o !in s.drivers[p].devices && d !in s.devices
    ensures Conserved(D.WithDormant(s, p, o, d))
  {
    hide Conserved, TableDevice;
    NewDeviceKeeps(s, d, p, o, DriverHooked);
    var t := NewDevice(s, d, p, o, DriverHooked);
    TableDeviceKeeps(t, d);
    NewInTable(s, p, o, d);
  }

  lemma NewInTable(s: State, p: Address, o: Address, d: Address)
    requires p in s.drivers
    ensures TableDevice(NewDevice(s, d, p, o, DriverHooked), d) == D.WithDormant(s, p, o, d)
  {
    PlusMinus(s.deviceBorrows, d);
  }

  lemma SeenSettled(s: State, p: Address, o: Address, d: Address, reason: CreateReason)
    requires Settled(s) && p in s.drivers && p in s.driverTable.Values && o !in s.drivers[p].devices && d !in s.devices
    ensures Settled(if reason.DriverHooked? then D.WithDormant(s, p, o, d) else WithSeen(s, p, o, d))
  {
    DormantConserved(s, p, o, d);
    SameCountsKeeps(D.WithDormant(s, p, o, d), WithSeen(s, p, o, d));
    hide Conserved;
    var t := if reason.DriverHooked? then D.WithDormant(s, p, o, d) else WithSeen(s, p, o, d);
    forall e ensures t.validDevices[e] == One(e in t.devices && t.devices[e].reason.UserRequest?) {
      assert s.validDevices[e] == One(e in s.devices && s.devices[e].reason.UserRequest?);
    }
    InTableIffReferenced(s.driverTable, p);
    assert DriversIndexed(t) && NoStray(t);
  }

  lemma AddedSettled(s: State, t: State, driverObject: Address, o: Address, copied: bool)
    requires Settled(s) && AddEffect(s, t, driverObject, o, copied)
    ensures Settled(t) && t.driverBorrows == s.driverBorrows && t.deviceBorrows == s.deviceBorrows
  {
    hide Settled;
    var p := s.driverTable[driverObject];
    var h, d :| D.Suits(s, p, o, d) && (copied ==> h !in s.deviceHandles) && t == D.AddOutcome(s, h, p, o, d, copied);
    if o in s.drivers[p].devices {
      if copied { PromotedSettled(s, p, d, h); }
    } else {
      SeenSettled(s, p, o, d, if copied then UserRequest else DriverHooked);
      if copied { KeptSettled(s, p, o, d, h); }
    }
  }

  lemma KeptSettled(s: State, p: Address, o: Address, d: Address, h: Address)
    requires p in s.drivers && o !in s.drivers[p].devices && h !in s.deviceHandles && Settled(WithSeen(s, p, o, d))
    ensures Settled(D.WithDevice(s, p, o, d).(deviceHandles := s.deviceHandles[h := d], deviceBorrows := s.deviceBorrows))
  {
    var t := WithSeen(s, p, o, d);
    DeviceHandleMadeSettled(t, h, d);
    PlusMinus(s.deviceBorrows, d);
    hide Settled;
    assert DeviceHandleMade(t, h, d).devices == s.devices[d := DeviceRecord(2, p, o, UserRequest)];
    assert DeviceHandleMade(t, h, d)
        == D.WithDevice(s, p, o, d).(deviceHandles := s.deviceHandles[h := d], deviceBorrows := s.deviceBorrows);
  }

  lemma DeletedSettled(s: State, t: State, h: Address)
    requires Settled(s) && D.DeletedByHandle(s, t, h)
    ensures Settled(t) && t.driverBorrows == s.driverBorrows && t.deviceBorrows == s.deviceBorrows
  {
    var d := s.deviceHandles[h];
    var e := s.drivers[s.devices[d].driver].devices[s.devices[d].deviceObject];
    D.DemotedSettled(s, e);
    DeviceHandleGoneSettled(DemotedIn(s, e), h);
    hide Settled, UnrefDevice;
  }

  // ----- every call

  lemma OpenedSettled(s: State, c: Call, t: State)
    requires Settled(s) && Effect(s, c, t) && (c.OpenDriver? || c.OpenDevice?)
    ensures Settled(t) && t.driverBorrows == s.driverBorrows && t.deviceBorrows == s.deviceBorrows
  {
    hide Settled;
    if c.OpenDriver? && t != s {
      var h :| h !in s.driverHandles && t == DriverHandleMade(s, h, c.driverId);
      DriverHandleMadeSettled(s, h, c.driverId);
    } else if t != s {
      var h :| h !in s.deviceHandles && t == DeviceHandleMade(s, h, c.deviceId);
      DeviceHandleMadeSettled(s, h, c.deviceId);
    }
  }

  lemma ClosedCallSettled(s: State, c: Call, t: State)
    requires Settled(s) && Effect(s, c, t) && (c.CloseDriver? || c.CloseDevice? || c.DeleteHandles?)
    ensures Settled(t) && t.driverBorrows == s.driverBorrows && t.deviceBorrows == s.deviceBorrows
  {
    hide Settled, DriverHandleGone, DeviceHandleGone, HandlesCounted;
    match c
    case CloseDriver(h) =>
      if h in s.driverHandles { DriverHandleGoneSettled(s, h); FewerDriverHandles(s, h); }
    case CloseDevice(h) =>
      if h in s.deviceHandles { DeviceHandleGoneSettled(s, h); FewerDeviceHandles(s, h); }
    case DeleteHandles => ClosedSettled(s, t);
  }

  lemma HandlersSettled(s: State, c: Call, t: State)
    requires Settled(s) && Effect(s, c, t) && (c.UnloadDriver? || c.SeeDevice?)
    ensures Settled(t) && t.driverBorrows == s.driverBorrows && t.deviceBorrows == s.deviceBorrows
  {
    hide Settled;
    match c
    case UnloadDriver(o) => if o in s.driverTable { UnhookedSettled(s, t, s.driverTable[o], s.driverHandles); }
    case SeeDevice(driverObject, o, catching, proxyOk) =>
      if Catches(s, driverObject, o, catching, proxyOk) {
        var p := s.driverTable[driverObject];
        var d :| d !in s.devices && t == WithSeen(s, p, o, d);
        assert p in s.driverTable.Values;
        SeenSettled(s, p, o, d, UserRequest);
      }
  }

  /** Every call leaves the references right, and none with a caller: whatever it frees was
      not referenced any more, and whatever is referenced is still allocated. */
  lemma EffectSettled(s: State, c: Call, t: State)
    requires Settled(s) && Borrowless(s) && Possible(s, c) && Effect(s, c, t)
    ensures Settled(t) && Borrowless(t)
  {
    hide Settled, Stale, HookEffect, UnhookedByHandle, AddEffect, D.DeletedByHandle, D.HandleDeletable,
         OpenDriverEffect, OpenDeviceEffect, DriverHandleGone, DeviceHandleGone, FewerHandles, HandlesCounted,
         UnhookedTo, SeeEffect, Catches;
    match c
    case HookDriver(o, ext, existing, copied) =>
      if o !in s.driverTable && copied {
        HookCallSettled(s, t, o, ext, existing);
      }
    case UnhookDriver(h) =>
      if h in s.driverHandles && s.driverHandles[h] in s.driverTable.Values { UnhookedByHandleSettled(s, t, h); }
    case AddDevice(driverObject, o, proxyOk, copied) =>
      if t != s { AddedSettled(s, t, driverObject, o, copied); }
    case DeleteDevice(h) => if D.HandleDeletable(s, h) { DeletedSettled(s, t, h); }
    case OpenDriver(_, _) => OpenedSettled(s, c, t);
    case OpenDevice(_, _) => OpenedSettled(s, c, t);
    case CloseDriver(_) => ClosedCallSettled(s, c, t);
    case CloseDevice(_) => ClosedCallSettled(s, c, t);
    case DeleteHandles => ClosedCallSettled(s, c, t);
    case UnloadDriver(_) => HandlersSettled(s, c, t);
    case SeeDevice(_, _, _, _) => HandlersSettled(s, c, t);
  }
}
