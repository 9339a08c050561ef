/** The two handle tables: a handle owns one reference to a hook record. */
module HookHandles {
  import opened HookRecords
  import opened HookManager

  /** What holds between two calls of the services in module HookServices. */
  ghost predicate Settled(s: State) { Conserved(s) && Indexed(s) }

  ghost predicate Indexed(s: State) { DevicesIndexed(s) && DriversIndexed(s) && NoStray(s) }

  /** Settled, and the next handle value is free in both tables. */
  ghost predicate Ready(m: Manager)
    reads m
  {
    Settled(m.Snapshot()) && Issued(m.driverHandles, m.lastDriverHandle) && Issued(m.deviceHandles, m.lastDeviceHandle)
  }

  /** The device tables of the driver records decide what is a stray. */
  lemma NoStrayKept(s: State, t: State)
    requires NoStray(s) && t.driverTable == s.driverTable
    requires forall p :: p in t.drivers ==> p in s.drivers && t.drivers[p].devices == s.drivers[p].devices
    ensures NoStray(t)
  {}

  lemma IndexKept(s: State, t: State)
    requires DevicesIndexed(s) && DriversIndexed(s)
    requires t.driverTable == s.driverTable && t.validDrivers == s.validDrivers && t.validDevices == s.validDevices
    requires t.devices.Keys == s.devices.Keys
    requires forall d :: d in t.devices ==> t.devices[d].reason == s.devices[d].reason
    ensures DevicesIndexed(t) && DriversIndexed(t)
  {}

  lemma FreedIndexed(s: State, d: Address)
    requires Indexed(s) && d in s.devices
    ensures Indexed(FreeDevice(s, d))
  {}

  lemma RefsIndexed(s: State, t: State)
    requires Indexed(s)
    requires t.driverTable == s.driverTable && t.validDrivers == s.validDrivers && t.validDevices == s.validDevices
    requires t.devices.Keys == s.devices.Keys
    requires forall d :: d in t.devices ==> t.devices[d].reason == s.devices[d].reason
    requires forall p :: p in t.drivers ==> p in s.drivers && t.drivers[p].devices == s.drivers[p].devices
    ensures Indexed(t)
  {
    NoStrayKept(s, t);
    IndexKept(s, t);
    hide DevicesIndexed, DriversIndexed, NoStray;
  }

  lemma RefDriverIndexed(s: State, p: Address)
    requires Indexed(s) && p in s.drivers
    ensures Indexed(RefDriver(s, p))
  {
    hide Indexed;
    RefsIndexed(s, RefDriver(s, p));
  }

  lemma UnrefDriverIndexed(s: State, p: Address)
    requires Indexed(s) && p in s.drivers
    ensures Indexed(UnrefDriver(s, p))
  {
    hide Indexed;
    RefsIndexed(s, UnrefDriver(s, p));
  }

  lemma RefDeviceIndexed(s: State, d: Address)
    requires Indexed(s) && d in s.devices
    ensures Indexed(RefDevice(s, d))
    ensures Indexed(CountDevice(s, d, -1).(deviceBorrows := s.deviceBorrows - multiset{d}))
  {
    hide Indexed;
    RefsIndexed(s, RefDevice(s, d));
    RefsIndexed(s, CountDevice(s, d, -1).(deviceBorrows := s.deviceBorrows - multiset{d}));
  }

  lemma UnrefDeviceIndexed(s: State, d: Address)
    requires Indexed(s) && d in s.devices && s.devices[d].driver in s.drivers
    ensures Indexed(UnrefDevice(s, d))
  {
    hide Indexed, UnrefDriver;
    FreedIndexed(s, d);
    UnrefDriverIndexed(FreeDevice(s, d), s.devices[d].driver);
    RefDeviceIndexed(s, d);
  }

  lemma DriverRefSettled(s: State, p: Address)
    requires Settled(s)
    ensures p in s.drivers ==> Settled(RefDriver(s, p))
    ensures s.driverBorrows[p] > 0 ==> p in s.drivers && Settled(UnrefDriver(s, p))
  {
    hide Conserved, Indexed, RefDriver, UnrefDriver;
    if s.driverBorrows[p] > 0 { UnrefDriverKeeps(s, p); }
    if p in s.drivers {
      RefDriverKeeps(s, p);
      RefDriverIndexed(s, p);
      UnrefDriverIndexed(s, p);
    }
  }

  lemma DeviceRefSettled(s: State, d: Address)
    requires Settled(s)
    ensures d in s.devices ==> s.devices[d].driver in s.drivers && Settled(RefDevice(s, d))
    ensures s.deviceBorrows[d] > 0 ==> d in s.devices && s.devices[d].driver in s.drivers && Settled(UnrefDevice(s, d))
  {
    hide Conserved, Indexed, RefDevice, UnrefDevice;
    ReferencedIsLive(s, d);
    if s.deviceBorrows[d] > 0 { UnrefDeviceKeeps(s, d); }
    if d in s.devices {
      RefDeviceKeeps(s, d);
      RefDeviceIndexed(s, d);
      UnrefDeviceIndexed(s, d);
    }
  }

  lemma DriverHandleSettled(s: State, h: Address, p: Address)
    requires Settled(s)
    ensures h !in s.driverHandles && s.driverBorrows[p] > 0 ==> Settled(AddDriverHandle(s, h, p))
    ensures h in s.driverHandles ==> Settled(DropDriverHandle(s, h)) && s.driverHandles[h] in s.drivers
  {
    DriverHandleKeeps(s, h, p);
    if h in s.driverHandles { RefsPositive(s.driverHandles, h); ReferencedIsLive(s, s.driverHandles[h]); }
    hide Conserved;
  }

  lemma DeviceHandleSettled(s: State, h: Address, d: Address)
    requires Settled(s)
    ensures h !in s.deviceHandles && s.deviceBorrows[d] > 0 ==> Settled(AddDeviceHandle(s, h, d))
    ensures h in s.deviceHandles ==> Settled(DropDeviceHandle(s, h)) && s.deviceHandles[h] in s.devices
  {
    DeviceHandleKeeps(s, h, d);
    if h in s.deviceHandles { RefsPositive(s.deviceHandles, h); ReferencedIsLive(s, s.deviceHandles[h]); }
    hide Conserved;
  }

  lemma NextHandle(handles: map<Address, Address>, last: Address, x: Address)
    requires Issued(handles, last)
    ensures last + 1 !in handles && Issued(handles[last + 1 := x], last + 1)
  {}

  // ----- closing handles

  /** Some handles were closed: tables and borrowers are the same, and so are the records
      that are left, but for their reference counts, which Conserved determines. */
  ghost predicate FewerHandles(s: State, t: State) {
    && t.driverTable == s.driverTable && t.validDrivers == s.validDrivers
    && t.driverBorrows == s.driverBorrows && t.deviceBorrows == s.deviceBorrows
    && (forall h {:trigger h in t.driverHandles} :: h in t.driverHandles ==>
          h in s.driverHandles && t.driverHandles[h] == s.driverHandles[h])
    && (forall h {:trigger h in t.deviceHandles} :: h in t.deviceHandles ==>
          h in s.deviceHandles && t.deviceHandles[h] == s.deviceHandles[h])
    && (forall p {:trigger p in t.drivers} :: p in t.drivers ==>
          p in s.drivers && t.drivers[p] == s.drivers[p].(refCount := t.drivers[p].refCount))
    && (forall d {:trigger d in t.devices} :: d in t.devices ==>
          d in s.devices && t.devices[d] == s.devices[d].(refCount := t.devices[d].refCount))
  }

  lemma NoFewer(s: State)
    ensures FewerHandles(s, s)
  {}

  lemma FewerIsTransitive(s: State, t: State, u: State)
    requires FewerHandles(s, t) && FewerHandles(t, u)
    ensures FewerHandles(s, u)
  {}

  lemma FewerDriverHandles(s: State, h: Address)
    requires h in s.driverHandles && s.driverHandles[h] in s.drivers
    ensures FewerHandles(s, DriverHandleGone(s, h)) && DriverHandleGone(s, h).deviceHandles == s.deviceHandles
  {
    PlusMinus(s.driverBorrows, s.driverHandles[h]);
  }

  lemma FewerDeviceHandles(s: State, h: Address)
    requires h in s.deviceHandles && s.deviceHandles[h] in s.devices
    requires s.devices[s.deviceHandles[h]].driver in s.drivers
    ensures FewerHandles(s, DeviceHandleGone(s, h)) && DeviceHandleGone(s, h).driverHandles == s.driverHandles
  {
    hide UnrefDriver;
    var d := s.deviceHandles[h];
    var t := DropDeviceHandle(s, h);
    PlusMinus(s.deviceBorrows, d);
    if s.devices[d].refCount == 1 {
      UnrefFrame(FreeDevice(t, d), s.devices[d].driver);
      PlusMinus(s.driverBorrows, s.devices[d].driver);
    }
  }

  // ----- driver handles

  /** A new handle of p, which takes a reference of its own. */
  function DriverHandleMade(s: State, h: Address, p: Address): State
    requires p in s.drivers
  {
    AddDriverHandle(RefDriver(s, p), h, p)
  }

  /** The handle is gone, and so is its reference. */
  function DriverHandleGone(s: State, h: Address): State
    requires h in s.driverHandles && s.driverHandles[h] in s.drivers
  {
    UnrefDriver(DropDriverHandle(s, h), s.driverHandles[h])
  }

  /** Closing a handle undoes making it. */
  lemma DriverHandleComesAndGoes(s: State, h: Address, p: Address)
    requires p in s.drivers && s.drivers[p].refCount > 0 && h !in s.driverHandles
    ensures var t := DriverHandleMade(s, h, p);
      p in t.drivers && t.driverBorrows == s.driverBorrows && DriverHandleGone(t, h) == s
  {
    PlusMinus(s.driverBorrows, p);
    var t := DropDriverHandle(DriverHandleMade(s, h, p), h);
    assert t.driverHandles == s.driverHandles;
    assert UnrefDriver(t, p).drivers == s.drivers;
  }

  lemma LiveDriver(s: State, p: Address)
    requires Settled(s) && p in s.drivers
    ensures s.drivers[p].refCount > 0
  {
    hide DevicesCounted, TablesOk, Indexed;
  }

  lemma DriverHandleMadeSettled(s: State, h: Address, p: Address)
    requires Settled(s) && p in s.drivers && h !in s.driverHandles
    ensures Settled(DriverHandleMade(s, h, p))
    ensures DriverHandleMade(s, h, p).driverBorrows == s.driverBorrows
    ensures p in DriverHandleMade(s, h, p).drivers && DriverHandleGone(DriverHandleMade(s, h, p), h) == s
  {
    hide Settled;
    LiveDriver(s, p);
    DriverHandleComesAndGoes(s, h, p);
    DriverRefSettled(s, p);
    assert RefDriver(s, p).driverBorrows[p] > 0;
    DriverHandleSettled(RefDriver(s, p), h, p);
  }

  lemma DriverHandleGoneSettled(s: State, h: Address)
    requires Settled(s) && h in s.driverHandles
    ensures s.driverHandles[h] in s.drivers && Settled(DriverHandleGone(s, h))
    ensures DriverHandleGone(s, h).driverBorrows == s.driverBorrows
  {
    var p := s.driverHandles[h];
    DriverHandleSettled(s, h, p);
    assert DropDriverHandle(s, h).driverBorrows[p] > 0;
    DriverRefSettled(DropDriverHandle(s, h), p);
    PlusMinus(s.driverBorrows, p);
    hide Settled;
  }

  /** HandleTableHandleCreate on the driver handle table. */
  method CreateDriverHandle(m: Manager, p: Address) returns (h: Address)
    requires Ready(m) && p in m.drivers
    modifies m`drivers, m`driverBorrows, m`driverHandles, m`lastDriverHandle
    ensures Ready(m) && h !in old(m.driverHandles) && m.Snapshot() == DriverHandleMade(old(m.Snapshot()), h, p)
  {
    hide Settled, Issued;
    NextHandle(m.driverHandles, m.lastDriverHandle, p);
    DriverHandleMadeSettled(m.Snapshot(), m.lastDriverHandle + 1, p);
    m.lastDriverHandle := m.lastDriverHandle + 1;
    h := m.lastDriverHandle;
    assert m.Snapshot() == old(m.Snapshot());
    m.ReferenceDriver(p);
    m.driverHandles := m.driverHandles[h := p];
    m.driverBorrows := m.driverBorrows - multiset{p};
  }

  /** HandleTablehandleTranslate. */
  method TranslateDriverHandle(m: Manager, h: Address) returns (ok: bool, p: Address)
    requires Ready(m)
    modifies m`drivers, m`driverBorrows
    ensures Ready(m) && ok == (h in m.driverHandles)
    ensures ok ==> p == m.driverHandles[h] && p in old(m.drivers) && m.Snapshot() == RefDriver(old(m.Snapshot()), p)
    ensures !ok ==> m.Snapshot() == old(m.Snapshot())
  {
    hide Settled;
    ok, p := h in m.driverHandles, 0;
    if ok {
      p := m.driverHandles[h];
      DriverHandleSettled(m.Snapshot(), h, p);
      DriverRefSettled(m.Snapshot(), p);
      m.ReferenceDriver(p);
    }
  }

  /** HandleTableHandleDuplicate: the reference taken by the translation stays with the copy. */
  method DuplicateDriverHandle(m: Manager, h: Address) returns (ok: bool, newHandle: Address)
    requires Ready(m)
    modifies m`drivers, m`driverBorrows, m`driverHandles, m`lastDriverHandle
    ensures Ready(m) && ok == (h in old(m.driverHandles))
    ensures ok ==> && newHandle !in old(m.driverHandles) && old(m.driverHandles)[h] in old(m.drivers)
                   && m.Snapshot() == DriverHandleMade(old(m.Snapshot()), newHandle, old(m.driverHandles)[h])
    ensures !ok ==> m.Snapshot() == old(m.Snapshot())
  {
    hide Settled, Issued;
    ghost var s := m.Snapshot();
    var p;
    ok, p := TranslateDriverHandle(m, h);
    newHandle := 0;
    if ok {
      NextHandle(m.driverHandles, m.lastDriverHandle, p);
      m.lastDriverHandle := m.lastDriverHandle + 1;
      newHandle := m.lastDriverHandle;
      DriverHandleMadeSettled(s, newHandle, p);
      m.driverHandles := m.driverHandles[newHandle := p];
      m.driverBorrows := m.driverBorrows - multiset{p};
    }
  }

  /** HandleTableHandleClose. */
  method CloseDriverHandle(m: Manager, h: Address)
    requires Ready(m)
    modifies m`drivers, m`driverBorrows, m`driverHandles
    ensures Ready(m)
    ensures if h in old(m.driverHandles)
            then old(m.driverHandles)[h] in old(m.drivers) && m.Snapshot() == DriverHandleGone(old(m.Snapshot()), h)
            else m.Snapshot() == old(m.Snapshot())
  {
    hide Settled;
    if h in m.driverHandles {
      DriverHandleGoneSettled(m.Snapshot(), h);
      hide UnrefDriver;
      var p := m.driverHandles[h];
      m.driverHandles := m.driverHandles - {h};
      m.driverBorrows := m.driverBorrows + multiset{p};
      m.DereferenceDriver(p);
    }
  }

  /** HandleTableClear. */
  method ClearDriverHandles(m: Manager)
    requires Ready(m)
    modifies m`drivers, m`driverBorrows, m`driverHandles
    ensures Ready(m) && m.driverHandles == map[] && m.deviceHandles == old(m.deviceHandles)
    ensures FewerHandles(old(m.Snapshot()), m.Snapshot())
  {
    hide Settled, FewerHandles;
    NoFewer(m.Snapshot());
    while m.driverHandles != map[]
      invariant Ready(m) && FewerHandles(old(m.Snapshot()), m.Snapshot())
      decreases m.driverHandles.Keys
    {
      var h :| h in m.driverHandles;
      ghost var s := m.Snapshot();
      DriverHandleGoneSettled(s, h);
      FewerDriverHandles(s, h);
      FewerIsTransitive(old(m.Snapshot()), s, DriverHandleGone(s, h));
      CloseDriverHandle(m, h);
    }
  }

  // ----- device handles

  function DeviceHandleMade(s: State, h: Address, d: Address): State
    requires d in s.devices
  {
    AddDeviceHandle(RefDevice(s, d), h, d)
  }

  function DeviceHandleGone(s: State, h: Address): State
    requires h in s.deviceHandles && s.deviceHandles[h] in s.devices
    requires s.devices[s.deviceHandles[h]].driver in s.drivers
  {
    UnrefDevice(DropDeviceHandle(s, h), s.deviceHandles[h])
  }

  lemma DeviceHandleComesAndGoes(s: State, h: Address, d: Address)
    requires d in s.devices && s.devices[d].refCount > 0 && s.devices[d].driver in s.drivers && h !in s.deviceHandles
    ensures var t := DeviceHandleMade(s, h, d);
      && d in t.devices && t.devices[d].driver in t.drivers && t.deviceBorrows == s.deviceBorrows
      && DeviceHandleGone(t, h) == s
  {
    PlusMinus(s.deviceBorrows, d);
    var t := DropDeviceHandle(DeviceHandleMade(s, h, d), h);
    assert t.deviceHandles == s.deviceHandles;
    assert UnrefDevice(t, d).devices == s.devices;
  }

  lemma LiveDevice(s: State, d: Address)
    requires Settled(s) && d in s.devices
    ensures s.devices[d].refCount > 0 && s.devices[d].driver in s.drivers
  {
    ReferencedIsLive(s, d);
    hide DriversCounted, TablesOk, Indexed;
  }

  lemma DeviceHandleMadeSettled(s: State, h: Address, d: Address)
    requires Settled(s) && d in s.devices && h !in s.deviceHandles
    ensures Settled(DeviceHandleMade(s, h, d))
    ensures DeviceHandleMade(s, h, d).deviceBorrows == s.deviceBorrows
    ensures var t := DeviceHandleMade(s, h, d);
      d in t.devices && t.devices[d].driver in t.drivers && DeviceHandleGone(t, h) == s
  {
    hide Settled;
    LiveDevice(s, d);
    DeviceHandleComesAndGoes(s, h, d);
    DeviceRefSettled(s, d);
    assert RefDevice(s, d).deviceBorrows[d] > 0;
    DeviceHandleSettled(RefDevice(s, d), h, d);
  }

  lemma DeviceHandleGoneSettled(s: State, h: Address)
    requires Settled(s) && h in s.deviceHandles
    ensures s.deviceHandles[h] in s.devices && s.devices[s.deviceHandles[h]].driver in s.drivers
    ensures Settled(DeviceHandleGone(s, h))
    ensures DeviceHandleGone(s, h).deviceBorrows == s.deviceBorrows
    ensures DeviceHandleGone(s, h).driverBorrows == s.driverBorrows
  {
    hide Settled;
    var d := s.deviceHandles[h];
    DeviceHandleSettled(s, h, d);
    assert DropDeviceHandle(s, h).deviceBorrows[d] > 0;
    DeviceRefSettled(DropDeviceHandle(s, h), d);
    PlusMinus(s.deviceBorrows, d);
    PlusMinus(s.driverBorrows, s.devices[d].driver);
  }

  method CreateDeviceHandle(m: Manager, d: Address) returns (h: Address)
    requires Ready(m) && d in m.devices
    modifies m`devices, m`deviceBorrows, m`deviceHandles, m`lastDeviceHandle
    ensures Ready(m) && h !in old(m.deviceHandles) && m.Snapshot() == DeviceHandleMade(old(m.Snapshot()), h, d)
  {
    hide Settled, Issued;
    NextHandle(m.deviceHandles, m.lastDeviceHandle, d);
    DeviceHandleMadeSettled(m.Snapshot(), m.lastDeviceHandle + 1, d);
    m.lastDeviceHandle := m.lastDeviceHandle + 1;
    h := m.lastDeviceHandle;
    assert m.Snapshot() == old(m.Snapshot());
    m.ReferenceDevice(d);
    m.deviceHandles := m.deviceHandles[h := d];
    m.deviceBorrows := m.deviceBorrows - multiset{d};
  }

  method TranslateDeviceHandle(m: Manager, h: Address) returns (ok: bool, d: Address)
    requires Ready(m)
    modifies m`devices, m`deviceBorrows
    ensures Ready(m) && ok == (h in m.deviceHandles)
    ensures ok ==> d == m.deviceHandles[h] && d in old(m.devices) && m.Snapshot() == RefDevice(old(m.Snapshot()), d)
    ensures !ok ==> m.Snapshot() == old(m.Snapshot())
  {
    hide Settled;
    ok, d := h in m.deviceHandles, 0;
    if ok {
      d := m.deviceHandles[h];
      DeviceHandleSettled(m.Snapshot(), h, d);
      DeviceRefSettled(m.Snapshot(), d);
      m.ReferenceDevice(d);
    }
  }

  method CloseDeviceHandle(m: Manager, h: Address)
    requires Ready(m)
    modifies m`devices, m`deviceBorrows, m`deviceHandles, m`drivers, m`driverBorrows, m`validDevices
    ensures Ready(m)
    ensures h !in old(m.deviceHandles) ==> m.Snapshot() == old(m.Snapshot())
    ensures h in old(m.deviceHandles) ==> var d := old(m.deviceHandles)[h];
      d in old(m.devices) && old(m.devices)[d].driver in old(m.drivers) && m.Snapshot() == DeviceHandleGone(old(m.Snapshot()), h)
  {
    hide Settled;
    if h in m.deviceHandles {
      DeviceHandleGoneSettled(m.Snapshot(), h);
      hide UnrefDevice;
      var d := m.deviceHandles[h];
      m.deviceHandles := m.deviceHandles - {h};
      m.deviceBorrows := m.deviceBorrows + multiset{d};
      m.DereferenceDevice(d);
    }
  }

  method ClearDeviceHandles(m: Manager)
    requires Ready(m)
    modifies m`devices, m`deviceBorrows, m`deviceHandles, m`drivers, m`driverBorrows, m`validDevices
    ensures Ready(m) && m.deviceHandles == map[] && m.driverHandles == old(m.driverHandles)
    ensures FewerHandles(old(m.Snapshot()), m.Snapshot())
  {
    hide Settled, FewerHandles;
    NoFewer(m.Snapshot());
    while m.deviceHandles != map[]
      invariant Ready(m) && FewerHandles(old(m.Snapshot()), m.Snapshot())
      decreases m.deviceHandles.Keys
    {
      var h :| h in m.deviceHandles;
      ghost var s := m.Snapshot();
      DeviceHandleGoneSettled(s, h);
      FewerDeviceHandles(s, h);
      FewerIsTransitive(old(m.Snapshot()), s, DeviceHandleGone(s, h));
      CloseDeviceHandle(m, h);
    }
  }
}
