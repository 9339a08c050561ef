/** The user-mode services on devices. */
module HookDeviceServices {
  import opened HookRecords
  import opened HookManager
  import opened HookHandles
  import HookServices

  /** The device is in p's table and valid, and the caller has a reference: a record made by
      hooking the driver is promoted, an unknown device gets a record of its own. */
  function WithDevice(s: State, p: Address, o: Address, d: Address): State
    requires p in s.drivers && (o in s.drivers[p].devices ==> d in s.devices)
  {
    if o in s.drivers[p].devices then PromotedIn(s, d)
    else s.(devices := s.devices[d := DeviceRecord(2, p, o, UserRequest)],
            drivers := s.drivers[p := s.drivers[p].(refCount := s.drivers[p].refCount + 1, devices := s.drivers[p].devices[o := d])],
            validDevices := s.validDevices[d := 1], deviceBorrows := s.deviceBorrows + multiset{d})
  }

  /** A record that is only in p's table, as if it had been made by hooking the driver. */
  function WithDormant(s: State, p: Address, o: Address, d: Address): State
    requires p in s.drivers
  {
    s.(devices := s.devices[d := DeviceRecord(1, p, o, DriverHooked)],
       drivers := s.drivers[p := s.drivers[p].(refCount := s.drivers[p].refCount + 1, devices := s.drivers[p].devices[o := d])])
  }

  ghost predicate Suits(s: State, p: Address, o: Address, d: Address) {
    && p in s.drivers
    && (if o in s.drivers[p].devices then d == s.drivers[p].devices[o] && d in s.devices && s.devices[d].reason.DriverHooked?
        else d !in s.devices)
  }

  lemma EffectIsWithDevice(s: State, t: State, p: Address, o: Address, proxyOk: bool, d: Address)
    requires p in s.drivers && AddDeviceEffect(s, t, p, o, proxyOk, Success, d)
    requires t.driverHandles == s.driverHandles && t.deviceHandles == s.deviceHandles
    ensures Suits(s, p, o, d) && t == WithDevice(s, p, o, d)
  {}

  lemma AddedIsSettled(s: State, t: State, p: Address, o: Address, d: Address)
    requires Settled(s) && Suits(s, p, o, d) && p in s.driverTable.Values && t == WithDevice(s, p, o, d) && Quiet(t)
    ensures Settled(t)
  {
    assert DevicesIndexed(t) && DriversIndexed(t);
    InTableIffReferenced(s.driverTable, p);
    forall q | q in t.drivers && Refs(t.driverTable, q) == 0 ensures t.drivers[q].devices == map[] {
      assert t.driverTable == s.driverTable && q != p && t.drivers[q] == s.drivers[q];
    }
    hide Conserved, DevicesIndexed, DriversIndexed;
  }

  lemma KnownCommutes(s: State, p: Address, d: Address)
    requires p in s.drivers && d in s.devices && s.drivers[p].refCount > 0
    ensures UnrefDriver(PromotedIn(RefDriver(s, p), d), p) == PromotedIn(s, d)
  {
    PlusMinus(s.driverBorrows, p);
    assert UnrefDriver(PromotedIn(RefDriver(s, p), d), p).drivers == s.drivers;
  }

  lemma NewCommutes(s: State, p: Address, o: Address, d: Address)
    requires p in s.drivers && o !in s.drivers[p].devices && s.drivers[p].refCount > 0
    ensures p in WithDevice(RefDriver(s, p), p, o, d).drivers
    ensures UnrefDriver(WithDevice(RefDriver(s, p), p, o, d), p) == WithDevice(s, p, o, d)
  {
    var x := s.drivers[p];
    var y := x.(refCount := x.refCount + 2, devices := x.devices[o := d]);
    RefThenDevice(s, p, o, d);
    UnrefOnce(WithDevice(RefDriver(s, p), p, o, d), s, p, y);
    hide WithDevice, RefDriver, UnrefDriver;
  }

  lemma RefThenDevice(s: State, p: Address, o: Address, d: Address)
    requires p in s.drivers && o !in s.drivers[p].devices
    ensures var x := s.drivers[p];
      WithDevice(RefDriver(s, p), p, o, d) == WithDevice(s, p, o, d)
        .(drivers := s.drivers[p := x.(refCount := x.refCount + 2, devices := x.devices[o := d])],
          driverBorrows := s.driverBorrows + multiset{p})
    ensures WithDevice(s, p, o, d).driverBorrows == s.driverBorrows
    ensures var x := s.drivers[p];
      WithDevice(s, p, o, d).drivers == s.drivers[p := x.(refCount := x.refCount + 1, devices := x.devices[o := d])]
  {}

  /** Giving back a reference that is not the last. */
  lemma UnrefOnce(t: State, s: State, p: Address, y: DriverRecord)
    requires p in s.drivers && y.refCount > 1 && t.drivers == s.drivers[p := y]
    requires t.driverBorrows == s.driverBorrows + multiset{p}
    ensures UnrefDriver(t, p) == t.(drivers := s.drivers[p := y.(refCount := y.refCount - 1)], driverBorrows := s.driverBorrows)
  {
    PlusMinus(s.driverBorrows, p);
    assert UnrefDriver(t, p).drivers == s.drivers[p := y.(refCount := y.refCount - 1)];
  }

  lemma CommutesWithBorrow(s: State, p: Address, o: Address, d: Address)
    requires Suits(s, p, o, d) && s.drivers[p].refCount > 0
    ensures Suits(RefDriver(s, p), p, o, d)
    ensures WithDevice(RefDriver(s, p), p, o, d).driverBorrows == s.driverBorrows + multiset{p}
    ensures p in WithDevice(RefDriver(s, p), p, o, d).drivers
    ensures UnrefDriver(WithDevice(RefDriver(s, p), p, o, d), p) == WithDevice(s, p, o, d)
  {
    hide UnrefDriver;
    if o in s.drivers[p].devices { KnownCommutes(s, p, d); } else { NewCommutes(s, p, o, d); }
  }

  lemma DeviceHandleTakesOver(t: State, h: Address, d: Address)
    requires d in t.devices && t.devices[d].refCount > 0 && t.devices[d].driver in t.drivers
    ensures var u := DeviceHandleMade(t, h, d);
      && d in u.devices && u.devices[d].driver in u.drivers
      && UnrefDevice(u, d) == t.(deviceHandles := t.deviceHandles[h := d], deviceBorrows := t.deviceBorrows - multiset{d})
  {
    PlusMinus(t.deviceBorrows, d);
    assert UnrefDevice(DeviceHandleMade(t, h, d), d).devices == t.devices;
  }

  /** Adding a device and deleting it again, with the caller's reference given back. */
  lemma AddUndone(s: State, p: Address, o: Address, d: Address)
    requires Suits(s, p, o, d) && s.validDevices[d] == 0
    requires d in s.devices ==> s.devices[d].refCount > 0 && s.devices[d].driver in s.drivers
    ensures var t := WithDevice(s, p, o, d);
      && d in t.devices && t.devices[d].driver in t.drivers
      && UnrefDevice(DemotedIn(t, d), d) == if o in s.drivers[p].devices then s else WithDormant(s, p, o, d)
  {
    hide UnrefDriver;
    if o in s.drivers[p].devices {
      DeleteUndoesAdd(s, d);
    } else {
      NewUndone(s, p, o, d);
    }
  }

  lemma NewUndone(s: State, p: Address, o: Address, d: Address)
    requires p in s.drivers && o !in s.drivers[p].devices && d !in s.devices && s.validDevices[d] == 0
    ensures var t := WithDevice(s, p, o, d);
      d in t.devices && t.devices[d].driver in t.drivers && UnrefDevice(DemotedIn(t, d), d) == WithDormant(s, p, o, d)
  {
    hide WithDevice, DemotedIn, UnrefDevice;
    NewDemoted(s, p, o, d);
    PlusMinus(s.deviceBorrows, d);
    UnrefOne(DemotedIn(WithDevice(s, p, o, d), d), d, s.devices, DeviceRecord(2, p, o, DriverHooked));
  }

  lemma NewDemoted(s: State, p: Address, o: Address, d: Address)
    requires p in s.drivers && o !in s.drivers[p].devices && d !in s.devices && s.validDevices[d] == 0
    ensures var t := WithDevice(s, p, o, d); var x := s.drivers[p];
      && d in t.devices && t.devices[d].driver in t.drivers
      && DemotedIn(t, d) == s.(devices := s.devices[d := DeviceRecord(2, p, o, DriverHooked)],
                               drivers := s.drivers[p := x.(refCount := x.refCount + 1, devices := x.devices[o := d])],
                               deviceBorrows := s.deviceBorrows + multiset{d})
  {
    assert s.validDevices[d := 1][d := 0] == s.validDevices;
  }

  // ----- UMHookAddDevice

  /** The status of UMHookAddDevice. */
  function AddStatus(s: State, driverObject: Address, o: Address, proxyOk: bool, copied: bool): Status {
    if driverObject !in s.driverTable || s.driverTable[driverObject] !in s.drivers then NotFound
    else var status := AddDeviceStatus(s.drivers[s.driverTable[driverObject]], s.devices, o, proxyOk);
      if status == Success && !copied then CopyFailed else status
  }

  lemma SuitableIsLive(s: State, p: Address, o: Address, d: Address)
    requires Settled(s) && Suits(s, p, o, d)
    ensures s.drivers[p].refCount > 0 && s.validDevices[d] == 0
    ensures d in s.devices ==> s.devices[d].refCount > 0 && s.devices[d].driver in s.drivers
  {
    LiveDriver(s, p);
    if d in s.devices { LiveDevice(s, d); }
    hide Conserved;
  }

  /** What was just added can be deleted again. */
  lemma AddedFacts(s: State, p: Address, o: Address, d: Address)
    requires Settled(s) && Suits(s, p, o, d)
    ensures var t := WithDevice(s, p, o, d);
      && d in t.devices && t.devices[d].refCount > 1 && t.deviceBorrows == s.deviceBorrows + multiset{d}
      && t.devices[d].driver == p && p in t.drivers && Deletable(t, d)
      && t.devices[d].deviceObject == o && t.drivers[p].devices[o] == d
      && t.deviceHandles == s.deviceHandles
  {
    SuitableIsLive(s, p, o, d);
    assert TablesOk(s);
    hide DriversCounted, DevicesCounted, Indexed;
  }

  /** The handle of a device just added takes over the caller's reference. */
  method KeepDevice(m: Manager, ghost s: State, p: Address, o: Address, d: Address) returns (h: Address)
    requires Ready(m) && Settled(s) && Suits(s, p, o, d) && m.Snapshot() == WithDevice(s, p, o, d)
    modifies m
    ensures Ready(m) && h !in s.deviceHandles
    ensures m.Snapshot() == WithDevice(s, p, o, d).(deviceHandles := s.deviceHandles[h := d], deviceBorrows := s.deviceBorrows)
  {
    hide Settled, Issued, DeviceHandleMade, UnrefDevice, WithDevice, Suits;
    ghost var t := m.Snapshot();
    AddedFacts(s, p, o, d);
    h := CreateDeviceHandle(m, d);
    DeviceHandleMadeSettled(t, h, d);
    DeviceHandleTakesOver(t, h, d);
    PlusMinus(s.deviceBorrows, d);
    DeviceRefSettled(m.Snapshot(), d);
    m.DereferenceDevice(d);
  }

  /** A device just added is deleted again, because its handle cannot be returned. */
  method WithdrawDevice(m: Manager, ghost s: State, p: Address, o: Address, d: Address)
    requires Ready(m) && Settled(s) && Suits(s, p, o, d) && m.Snapshot() == WithDevice(s, p, o, d)
    modifies m
    ensures Ready(m)
    ensures m.Snapshot() == if o in s.drivers[p].devices then s else WithDormant(s, p, o, d)
  {
    hide Settled, Issued, DeviceHandleMade, UnrefDevice, WithDevice, WithDormant, DemotedIn, Conserved, DevicesIndexed,
         DriversIndexed, NoStray;
    ghost var t := m.Snapshot();
    AddedFacts(s, p, o, d);
    var h := CreateDeviceHandle(m, d);
    DeviceHandleIsThere(t, h, d);
    DeviceHandleMadeSettled(t, h, d);
    CloseDeviceHandle(m, h);
    assert m.Snapshot() == t;
    HookServices.SettledIsQuiet(t);
    var status := m.DeleteDevice(d);
    SuitableIsLive(s, p, o, d);
    DemotedIsSettled(t, d);
    DeviceRefSettled(DemotedIn(t, d), d);
    AddUndone(s, p, o, d);
    m.DereferenceDevice(d);
  }

  lemma DeviceHandleIsThere(t: State, h: Address, d: Address)
    requires d in t.devices
    ensures h in DeviceHandleMade(t, h, d).deviceHandles && DeviceHandleMade(t, h, d).deviceHandles[h] == d
  {}

  lemma DemotedIsSettled(t: State, d: Address)
    requires Settled(t) && d in t.devices && t.deviceBorrows[d] > 0
    ensures Settled(DemotedIn(t, d)) && DemotedIn(t, d).deviceBorrows[d] > 0
  {
    SameCountsKeeps(t, DemotedIn(t, d));
    hide Conserved;
    assert DevicesIndexed(DemotedIn(t, d));
    assert NoStray(DemotedIn(t, d));
  }

  /** The outcome of UMHookAddDevice when the device could be added. */
  function AddOutcome(s: State, h: Address, p: Address, o: Address, d: Address, copied: bool): State
    requires Suits(s, p, o, d)
  {
    if copied then WithDevice(s, p, o, d).(deviceHandles := s.deviceHandles[h := d], deviceBorrows := s.deviceBorrows)
    else if o in s.drivers[p].devices then s
    else WithDormant(s, p, o, d)
  }

  lemma KeptCommutes(s: State, h: Address, p: Address, o: Address, d: Address)
    requires Suits(s, p, o, d) && s.drivers[p].refCount > 0
    ensures Suits(RefDriver(s, p), p, o, d)
    ensures var t := AddOutcome(RefDriver(s, p), h, p, o, d, true);
      p in t.drivers && t.driverBorrows[p] > 0 && UnrefDriver(t, p) == AddOutcome(s, h, p, o, d, true)
  {
    CommutesWithBorrow(s, p, o, d);
    hide RefDriver;
    var t := WithDevice(RefDriver(s, p), p, o, d);
    HandlesApart(t, p, t.deviceHandles[h := d], s.deviceBorrows);
    assert RefDriver(s, p).deviceHandles == s.deviceHandles && RefDriver(s, p).deviceBorrows == s.deviceBorrows by {
      BorrowApart(s, p);
    }
  }

  lemma BorrowApart(s: State, p: Address)
    requires p in s.drivers
    ensures RefDriver(s, p).deviceHandles == s.deviceHandles && RefDriver(s, p).deviceBorrows == s.deviceBorrows
  {}

  lemma HandlesApart(t: State, p: Address, handles: map<Address, Address>, borrows: multiset<Address>)
    requires p in t.drivers
    ensures UnrefDriver(t.(deviceHandles := handles, deviceBorrows := borrows), p)
      == UnrefDriver(t, p).(deviceHandles := handles, deviceBorrows := borrows)
  {
    var u := t.(deviceHandles := handles, deviceBorrows := borrows);
    if t.drivers[p].refCount == 1 {
      assert UnrefDriver(u, p).drivers == UnrefDriver(t, p).drivers == t.drivers - {p};
    } else {
      assert UnrefDriver(u, p).drivers == UnrefDriver(t, p).drivers;
    }
  }

  lemma WithdrawnCommutes(s: State, h: Address, p: Address, o: Address, d: Address)
    requires Suits(s, p, o, d) && s.drivers[p].refCount > 0
    ensures Suits(RefDriver(s, p), p, o, d)
    ensures var t := AddOutcome(RefDriver(s, p), h, p, o, d, false);
      p in t.drivers && t.driverBorrows[p] > 0 && UnrefDriver(t, p) == AddOutcome(s, h, p, o, d, false)
  {
    hide UnrefDriver, WithDormant;
    HookServices.BorrowDriver(s, p);
    if o !in s.drivers[p].devices { DormantCommutes(s, p, o, d); }
  }

  lemma DormantCommutes(s: State, p: Address, o: Address, d: Address)
    requires p in s.drivers && o !in s.drivers[p].devices && s.drivers[p].refCount > 0
    ensures var t := WithDormant(RefDriver(s, p), p, o, d);
      p in t.drivers && t.driverBorrows[p] > 0 && UnrefDriver(t, p) == WithDormant(s, p, o, d)
  {
    PlusMinus(s.driverBorrows, p);
    var x := s.drivers[p];
    var t := WithDormant(RefDriver(s, p), p, o, d);
    assert t.drivers == s.drivers[p := x.(refCount := x.refCount + 2, devices := x.devices[o := d])];
    assert UnrefDriver(t, p).drivers == WithDormant(s, p, o, d).drivers;
  }

  lemma AddedThrough(s: State, t: State, p: Address, o: Address, proxyOk: bool, d: Address)
    requires Settled(s) && p in s.drivers && p in s.driverTable.Values && Settled(RefDriver(s, p)) && Quiet(t)
    requires p in RefDriver(s, p).drivers && AddDeviceEffect(RefDriver(s, p), t, p, o, proxyOk, Success, d)
    requires t.driverHandles == s.driverHandles && t.deviceHandles == s.deviceHandles
    ensures Suits(s, p, o, d) && Suits(RefDriver(s, p), p, o, d) && t == WithDevice(RefDriver(s, p), p, o, d)
    ensures Settled(t)
  {
    hide Settled, Quiet;
    EffectIsWithDevice(RefDriver(s, p), t, p, o, proxyOk, d);
    AddedIsSettled(RefDriver(s, p), t, p, o, d);
  }

  /** UMHookAddDevice. */
  method AddDevice(m: Manager, driverObject: Address, o: Address, proxyOk: bool, copied: bool)
    returns (status: Status, h: Address, d: Address)
    requires Ready(m)
    modifies m
    ensures Ready(m) && status == AddStatus(old(m.Snapshot()), driverObject, o, proxyOk, copied)
    ensures status == Success || status == CopyFailed ==>
      && driverObject in old(m.driverTable) && Suits(old(m.Snapshot()), old(m.driverTable)[driverObject], o, d)
      && (status == Success ==> h !in old(m.deviceHandles))
      && m.Snapshot() == AddOutcome(old(m.Snapshot()), h, old(m.driverTable)[driverObject], o, d, copied)
    ensures status != Success && status != CopyFailed ==> m.Snapshot() == old(m.Snapshot())
    ensures if driverObject !in old(m.driverTable) then status == NotFound
            else
              var p := old(m.driverTable)[driverObject];
              && p in old(m.drivers)
              && var x := old(m.drivers)[p];
                status == if o in x.devices && x.devices[o] in old(m.devices) && old(m.devices)[x.devices[o]].reason.UserRequest?
                          then Collision else if x.extensionHook && !proxyOk then ProxyFailed
                          else if copied then Success else CopyFailed
  {
    hide Settled, Conserved, DevicesIndexed, DriversIndexed, NoStray, Issued, AddDeviceEffect, Suits, WithDevice,
         UnrefDriver, AddDeviceStatus;
    ghost var s := m.Snapshot();
    HookServices.SettledIsQuiet(s);
    h, d := 0, 0;
    var found, p := m.Get(driverObject);
    if !found { return NotFound, h, d; }
    StatusIs(s, p, o, proxyOk);
    LiveDriver(s, p);
    DriverRefSettled(s, p);
    HookServices.SettledIsQuiet(m.Snapshot());
    status, d := m.AddDevice(p, o, proxyOk);
    SameStatus(s, p, m.Snapshot(), o, proxyOk, status, d);
    if status == Success {
      AddedThrough(s, m.Snapshot(), p, o, proxyOk, d);
      h := FinishAdd(m, s, p, o, d, copied);
      if !copied { status := CopyFailed; }
    } else {
      HookServices.BorrowDriver(s, p);
      m.DereferenceDriver(p);
    }
  }

  lemma StatusIs(s: State, p: Address, o: Address, proxyOk: bool)
    requires p in s.drivers
    ensures var x := s.drivers[p];
      AddDeviceStatus(x, s.devices, o, proxyOk) ==
        if o in x.devices && x.devices[o] in s.devices && s.devices[x.devices[o]].reason.UserRequest? then Collision
        else if x.extensionHook && !proxyOk then ProxyFailed else Success
  {}

  lemma SameStatus(s: State, p: Address, t: State, o: Address, proxyOk: bool, status: Status, d: Address)
    requires p in s.drivers && p in RefDriver(s, p).drivers
    requires AddDeviceEffect(RefDriver(s, p), t, p, o, proxyOk, status, d)
    ensures status == AddDeviceStatus(s.drivers[p], s.devices, o, proxyOk)
    ensures status != Success ==> t == RefDriver(s, p)
    ensures status != CopyFailed && status != NotFound
  {}

  /** The rest of UMHookAddDevice after the device was added. */
  method FinishAdd(m: Manager, ghost s: State, p: Address, o: Address, d: Address, copied: bool) returns (h: Address)
    requires Ready(m) && Settled(s) && Suits(s, p, o, d) && Settled(RefDriver(s, p)) && Suits(RefDriver(s, p), p, o, d)
    requires m.Snapshot() == WithDevice(RefDriver(s, p), p, o, d)
    modifies m
    ensures Ready(m) && (copied ==> h !in s.deviceHandles)
    ensures m.Snapshot() == AddOutcome(s, h, p, o, d, copied)
  {
    hide Settled, Issued, UnrefDriver, WithDevice, WithDormant;
    SuitableIsLive(s, p, o, d);
    BorrowApart(s, p);
    ghost var s1 := RefDriver(s, p);
    if copied {
      h := KeepDevice(m, s1, p, o, d);
      KeptCommutes(s, h, p, o, d);
    } else {
      h := 0;
      WithdrawDevice(m, s1, p, o, d);
      WithdrawnCommutes(s, h, p, o, d);
    }
    DriverRefSettled(m.Snapshot(), p);
    m.DereferenceDriver(p);
  }

  // ----- UMHookDeleteDevice

  /** The record in the table for the handle's device object is one the user asked for. */
  predicate HandleDeletable(s: State, h: Address) {
    && h in s.deviceHandles && s.deviceHandles[h] in s.devices && s.devices[s.deviceHandles[h]].driver in s.drivers
    && Deletable(s, s.deviceHandles[h])
  }

  /** Some record, no longer valid, is as if made by hooking its driver, and the handle and
      its reference are gone. */
  ghost predicate DeletedByHandle(s: State, t: State, h: Address) {
    && HandleDeletable(s, h)
    && var d := s.deviceHandles[h];
      var e := s.drivers[s.devices[d].driver].devices[s.devices[d].deviceObject];
      var u := DemotedIn(s, e);
      d in u.devices && u.devices[d].driver in u.drivers && t == DeviceHandleGone(u, h)
  }

  lemma BorrowDevice(s: State, d: Address)
    requires d in s.devices && s.devices[d].refCount > 0 && s.devices[d].driver in s.drivers
    ensures var t := RefDevice(s, d); d in t.devices && t.devices[d].driver in t.drivers && UnrefDevice(t, d) == s
  {
    PlusMinus(s.deviceBorrows, d);
    assert UnrefDevice(RefDevice(s, d), d).devices == s.devices;
  }

  lemma DeleteCommutes(s: State, d: Address, e: Address)
    requires d in s.devices && e in s.devices && s.devices[d].refCount > 0 && s.devices[d].driver in s.drivers
    ensures var t := DemotedIn(RefDevice(s, d), e);
      d in t.devices && t.devices[d].driver in t.drivers && t.deviceBorrows[d] > 0 && UnrefDevice(t, d) == DemotedIn(s, e)
  {
    hide UnrefDevice;
    PlusMinus(s.deviceBorrows, d);
    var t, u := DemotedIn(RefDevice(s, d), e), DemotedIn(s, e);
    var x := u.devices[d];
    assert t.devices == u.devices[d := x.(refCount := x.refCount + 1)];
    UnrefOne(t, d, u.devices, x.(refCount := x.refCount + 1));
    assert u.devices[d := x] == u.devices;
  }

  lemma SameDeletable(s: State, d: Address)
    requires d in s.devices && s.devices[d].driver in s.drivers
    ensures Deletable(RefDevice(s, d), d) <==> Deletable(s, d)
  {}

  lemma DeletableIs(s: State, d: Address)
    requires d in s.devices && s.devices[d].driver in s.drivers
    ensures var x, o := s.drivers[s.devices[d].driver], s.devices[d].deviceObject;
      Deletable(s, d) <==> o in x.devices && x.devices[o] in s.devices && s.devices[x.devices[o]].reason.UserRequest?
  {}

  lemma DemotedSettled(t: State, d: Address)
    requires Settled(t) && d in t.devices
    ensures Settled(DemotedIn(t, d))
  {
    SameCountsKeeps(t, DemotedIn(t, d));
    hide Conserved;
    assert DevicesIndexed(DemotedIn(t, d));
    assert NoStray(DemotedIn(t, d));
  }

  /** UMHookDeleteDevice. */
  method DeleteDevice(m: Manager, h: Address) returns (status: Status)
    requires Ready(m)
    modifies m
    ensures Ready(m)
    ensures status == if h !in old(m.deviceHandles) then InvalidHandle
                      else if HandleDeletable(old(m.Snapshot()), h) then Success else NotFound
    ensures if status == Success then DeletedByHandle(old(m.Snapshot()), m.Snapshot(), h) else m.Snapshot() == old(m.Snapshot())
    ensures h in old(m.deviceHandles) ==>
      var d := old(m.deviceHandles)[h];
      && d in old(m.devices) && old(m.devices)[d].driver in old(m.drivers)
      && var x, o := old(m.drivers)[old(m.devices)[d].driver], old(m.devices)[d].deviceObject;
        (status == Success <==> o in x.devices && x.devices[o] in old(m.devices)
                                && old(m.devices)[x.devices[o]].reason.UserRequest?)
  {
    hide Settled, Issued, UnrefDevice, Deletable, DemotedIn, Conserved, DevicesIndexed, DriversIndexed, NoStray;
    ghost var s := m.Snapshot();
    var ok, d := TranslateDeviceHandle(m, h);
    if !ok { return InvalidHandle; }
    LiveDevice(s, d);
    ghost var s1 := m.Snapshot();
    SameDeletable(s, d);
    DeletableIs(s, d);
    HookServices.SettledIsQuiet(s1);
    BorrowDevice(s, d);
    status := m.DeleteDevice(d);
    if status == Success {
      FinishDelete(m, s, h, d);
    } else {
      m.DereferenceDevice(d);
    }
  }

  lemma TableEntryLive(s: State, d: Address)
    requires d in s.devices && s.devices[d].driver in s.drivers && Deletable(s, d)
    ensures s.devices[d].deviceObject in s.drivers[s.devices[d].driver].devices
    ensures s.drivers[s.devices[d].driver].devices[s.devices[d].deviceObject] in s.devices
  {}

  /** The rest of UMHookDeleteDevice after the device was deleted. */
  method FinishDelete(m: Manager, ghost s: State, h: Address, d: Address)
    requires Settled(s) && h in s.deviceHandles && s.deviceHandles[h] == d
    requires d in s.devices && s.devices[d].refCount > 0 && s.devices[d].driver in s.drivers && Deletable(s, d)
    requires var e := s.drivers[s.devices[d].driver].devices[s.devices[d].deviceObject];
      m.Snapshot() == DemotedIn(RefDevice(s, d), e)
    requires Issued(m.driverHandles, m.lastDriverHandle) && Issued(m.deviceHandles, m.lastDeviceHandle)
    modifies m
    ensures Ready(m) && DeletedByHandle(s, m.Snapshot(), h)
  {
    hide Settled, Issued, UnrefDevice, Deletable, RefDevice;
    TableEntryLive(s, d);
    ghost var e := s.drivers[s.devices[d].driver].devices[s.devices[d].deviceObject];
    DeleteCommutes(s, d, e);
    DemotedSettled(s, e);
    m.DereferenceDevice(d);
    assert m.Snapshot() == DemotedIn(s, e);
    CloseDeviceHandle(m, h);
  }
}
