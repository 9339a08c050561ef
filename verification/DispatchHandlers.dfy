/** The hook handlers that change hook records: a driver that is unloaded, and a device that
    is seen for the first time. */
module DispatchHandlers {
  import opened HookRecords
  import opened HookManager
  import opened HookHandles
  import opened HookServices
  import D = HookDeviceServices

  // ----- HookHandlerDriverUnloadDisptach

  lemma UnhookedWithoutHandle(s: State, u: State, p: Address)
    requires p in s.drivers && Settled(RefDriver(s, p)) && UnhookEffect(RefDriver(s, p), u, p)
    requires s.driverTable[s.drivers[p].driverObject] == p
    ensures p in u.drivers && Settled(u) && u.driverBorrows[p] > 0
    ensures UnhookedFrame(s, UnrefDriver(u, p), p, s.driverHandles)
  {
    hide Settled, Quiet, NoStray, UnrefDriver, AllReleased;
    SettledIsQuiet(RefDriver(s, p));
    SettledIsQuiet(u);
    assert u.driverBorrows == RefDriver(s, p).driverBorrows;
    assert Settled(u);
    DriverRefSettled(u, p);
    UnrefFrame(u, p);
    PlusMinus(s.driverBorrows, p);
    ReleasedAlso(s, RefDriver(s, p), u, UnrefDriver(u, p), p);
  }

  lemma Unloaded(s: State, u: State, p: Address)
    requires Settled(s) && p in s.drivers && Settled(RefDriver(s, p)) && UnhookEffect(RefDriver(s, p), u, p)
    requires s.driverTable[s.drivers[p].driverObject] == p
    ensures p in u.drivers && Settled(UnrefDriver(u, p))
    ensures UnhookedTo(s, UnrefDriver(u, p), p, s.driverHandles)
  {
    hide Settled, UnhookEffect, UnhookedFrame, UnhookedTo, UnrefDriver;
    UnhookedWithoutHandle(s, u, p);
    DriverRefSettled(u, p);
    FrameIsUnhooked(s, UnrefDriver(u, p), p, s.driverHandles);
  }

  /** HookHandlerDriverUnloadDisptach: a driver that is unloaded is unhooked, whoever has
      handles. */
  method UnloadDriver(m: Manager, driverObject: Address) returns (found: bool)
    requires Ready(m)
    modifies m
    ensures Ready(m) && found == (driverObject in old(m.driverTable))
    ensures if found
            then UnhookedTo(old(m.Snapshot()), m.Snapshot(), old(m.driverTable)[driverObject], old(m.driverHandles))
            else m.Snapshot() == old(m.Snapshot())
  {
    hide Settled, Quiet, NoStray, Issued, UnrefDriver, UnhookEffect, UnhookedTo;
    ghost var s := m.Snapshot();
    SettledIsQuiet(s);
    var p;
    found, p := m.Get(driverObject);
    if found {
      TableNames(s, driverObject);
      DriverRefSettled(s, p);
      var status := m.UnhookDriverObject(p);
      Unloaded(s, m.Snapshot(), p);
      m.DereferenceDriver(p);
    }
  }

  /** The driver table names live records under their own driver objects. */
  lemma TableNames(s: State, o: Address)
    requires Settled(s) && o in s.driverTable
    ensures s.driverTable[o] in s.drivers && s.drivers[s.driverTable[o]].driverObject == o
  {}

  // ----- _CatchRequest

  /** A device that has no record yet gets one: the driver is hooked and monitored, with new
      devices wanted (`catching`), and the proxy device can be made if one is needed. */
  predicate Catches(s: State, driverObject: Address, o: Address, catching: bool, proxyOk: bool) {
    && driverObject in s.driverTable && s.driverTable[driverObject] in s.drivers && catching
    && o !in s.drivers[s.driverTable[driverObject]].devices
    && (s.drivers[s.driverTable[driverObject]].extensionHook ==> proxyOk)
  }

  /** A record that is only in p's table, and valid. */
  function WithSeen(s: State, p: Address, o: Address, d: Address): State
    requires p in s.drivers
  {
    D.WithDormant(s, p, o, d).(devices := s.devices[d := DeviceRecord(1, p, o, UserRequest)],
                               validDevices := s.validDevices[d := 1])
  }

  lemma SeenIs(s: State, p: Address, o: Address, d: Address)
    requires p in s.drivers
    ensures var t := WithSeen(s, p, o, d);
      d in t.devices && t.devices[d] == DeviceRecord(1, p, o, UserRequest) && t.validDevices[d] == 1
  {}

  lemma AddedAndGivenBack(s: State, p: Address, o: Address, d: Address)
    requires p in s.drivers && o !in s.drivers[p].devices
    ensures var t := D.WithDevice(s, p, o, d);
      d in t.devices && t.devices[d].driver in t.drivers && UnrefDevice(t, d) == WithSeen(s, p, o, d)
  {
    PlusMinus(s.deviceBorrows, d);
    assert UnrefDevice(D.WithDevice(s, p, o, d), d).devices == WithSeen(s, p, o, d).devices;
  }

  lemma UnrefApart(s: State, p: Address, devices: map<Address, DeviceRecord>, valid: multiset<Address>)
    requires p in s.drivers
    ensures UnrefDriver(s.(devices := devices, validDevices := valid), p)
         == UnrefDriver(s, p).(devices := devices, validDevices := valid)
  {
    var t := s.(devices := devices, validDevices := valid);
    assert UnrefDriver(t, p).drivers == UnrefDriver(s, p).drivers;
  }

  lemma SeenCommutes(s: State, p: Address, o: Address, d: Address)
    requires p in s.drivers && o !in s.drivers[p].devices && s.drivers[p].refCount > 0
    ensures var t := WithSeen(RefDriver(s, p), p, o, d);
      p in t.drivers && t.driverBorrows[p] > 0 && UnrefDriver(t, p) == WithSeen(s, p, o, d)
  {
    hide UnrefDriver;
    D.DormantCommutes(s, p, o, d);
    UnrefApart(D.WithDormant(RefDriver(s, p), p, o, d), p, s.devices[d := DeviceRecord(1, p, o, UserRequest)],
               s.validDevices[d := 1]);
  }

  /** What AddDevice can answer for a device without a record. */
  lemma NewStatus(s: State, p: Address, o: Address, proxyOk: bool)
    requires p in s.drivers && o !in s.drivers[p].devices
    ensures AddDeviceStatus(s.drivers[p], s.devices, o, proxyOk) == Success <==> (s.drivers[p].extensionHook ==> proxyOk)
  {}

  lemma SameTable(s: State, p: Address)
    requires p in s.drivers
    ensures p in RefDriver(s, p).drivers && RefDriver(s, p).drivers[p].devices == s.drivers[p].devices
  {}

  /** The part of _CatchRequest that adds the device and gives its reference back. */
  method CatchDevice(m: Manager, ghost s: State, p: Address, o: Address, proxyOk: bool) returns (seen: bool, d: Address)
    requires Ready(m) && Settled(s) && p in s.drivers && m.Snapshot() == RefDriver(s, p)
    requires p in s.driverTable.Values && o !in s.drivers[p].devices
    modifies m
    ensures Ready(m) && seen == (s.drivers[p].extensionHook ==> proxyOk)
    ensures if seen then d !in s.devices && m.Snapshot() == WithSeen(RefDriver(s, p), p, o, d)
            else m.Snapshot() == RefDriver(s, p)
  {
    hide Settled, Quiet, Issued, NoStray, AddDeviceEffect, AddDeviceStatus, UnrefDevice, D.WithDevice, WithSeen;
    SettledIsQuiet(m.Snapshot());
    SameTable(s, p);
    NewStatus(s, p, o, proxyOk);
    var status;
    status, d := m.AddDevice(p, o, proxyOk);
    D.SameStatus(s, p, m.Snapshot(), o, proxyOk, status, d);
    seen := status == Success;
    if seen {
      D.AddedThrough(s, m.Snapshot(), p, o, proxyOk, d);
      AddedAndGivenBack(RefDriver(s, p), p, o, d);
      D.AddedFacts(RefDriver(s, p), p, o, d);
      DeviceRefSettled(m.Snapshot(), d);
      m.DereferenceDevice(d);
    }
  }

  /** _GetHookRecords, _CatchRequest and the references given back at the end of a handler. */
  method SeeDevice(m: Manager, driverObject: Address, o: Address, catching: bool, proxyOk: bool)
    returns (seen: bool, d: Address)
    requires Ready(m)
    modifies m
    ensures Ready(m) && seen == Catches(old(m.Snapshot()), driverObject, o, catching, proxyOk)
    ensures if driverObject !in old(m.driverTable) then !seen
            else
              var p := old(m.driverTable)[driverObject];
              && p in old(m.drivers)
              && (seen <==> catching && o !in old(m.drivers)[p].devices && (old(m.drivers)[p].extensionHook ==> proxyOk))
    ensures seen ==>
      && d in m.devices && m.devices[d] == DeviceRecord(1, old(m.driverTable)[driverObject], o, UserRequest)
      && m.validDevices[d] == 1
    ensures if seen
            then d !in old(m.devices) && m.Snapshot() == WithSeen(old(m.Snapshot()), old(m.driverTable)[driverObject], o, d)
            else m.Snapshot() == old(m.Snapshot())
  {
    hide Settled, Quiet, Issued, NoStray, UnrefDevice, UnrefDriver, WithSeen;
    ghost var s := m.Snapshot();
    SettledIsQuiet(s);
    seen, d := false, 0;
    var found, p := m.Get(driverObject);
    if found {
      LiveDriver(s, p);
      DriverRefSettled(s, p);
      ghost var s1 := m.Snapshot();
      SettledIsQuiet(s1);
      BorrowDriver(s, p);
      var known, e := m.GetDevice(p, o);
      if catching && !known {
        seen, d := CatchDevice(m, s, p, o, proxyOk);
        if seen {
          SeenIs(s, p, o, d);
          SeenCommutes(s, p, o, d);
          DriverRefSettled(m.Snapshot(), p);
        }
      }
      if known {
        LiveDevice(s1, e);
        D.BorrowDevice(s1, e);
        m.DereferenceDevice(e);
      }
      m.DereferenceDriver(p);
    }
  }
}
