/** Which calls are possible, and a run that reaches a stale handle. */
module HookReached {
  import opened Basics
  import opened HookRecords
  import opened HookExisting
  import opened HookManager
  import opened HookDrivers
  import opened HookHandles
  import opened HookServices
  import opened HookEffects
  import D = HookDeviceServices
  import opened HookRuns

  ghost predicate Reached(s: State) { exists trace, calls :: Run(trace, calls) && trace[|calls|] == s }

  lemma NothingReached()
    ensures Reached(NOTHING)
  {
    assert Run([NOTHING], []);
  }

  lemma ReachedNext(s: State, c: Call, t: State)
    requires Reached(s) && Next(s, c, t)
    ensures Reached(t)
  {
    hide Next;
    var trace, calls :| Run(trace, calls) && trace[|calls|] == s;
    OneMoreState(trace, calls, c, t);
    hide Run;
    assert (trace + [t])[|calls + [c]|] == t;
  }

  lemma ReachedIsSettled(s: State)
    requires Reached(s)
    ensures Settled(s) && Borrowless(s) && AliveExactly(s)
  {
    var trace, calls :| Run(trace, calls) && trace[|calls|] == s;
    RunsStayAlive(trace, calls, |calls|);
    hide Run, Settled, Borrowless, AliveExactly;
  }

  // ----- hooking

  /** A driver without devices, hooked. */
  function JustHooked(s: State, p: Address, o: Address, ext: bool): State {
    Announced(Entered(NewDriver(s, p, o, ext), p), p)
  }

  lemma HookingPossible(s: State, p: Address, o: Address, ext: bool)
    requires Settled(s) && p !in s.drivers && o !in s.driverTable
    ensures var b := JustHooked(s, p, o, ext);
      p in b.drivers && Settled(UnrefDriver(b, p)) && Hooked(s, UnrefDriver(b, p), p, o, ext, [], [])
  {
    var s1 := NewDriver(s, p, o, ext);
    var b := JustHooked(s, p, o, ext);
    BaseFields(s, p, o, ext);
    NewDriverKeeps(s, p, o, ext);
    EnteredKeeps(s1, p);
    AnnouncedKeeps(Entered(s1, p), p);
    NothingGrown(b, p);
    UnrefDriverKeeps(b, p);
    assert Stage(0, 0, 1, 1) == Stage(0, 0, 2, 1);
    Plenty(s, b, p, o, ext);
    HookedFields(s, b, b, p, o, ext, [], []);
    HookedDrivers(s, UnrefDriver(b, p), p, o, ext, [], []);
    HookedDevices(s, UnrefDriver(b, p), p, o, ext, [], []);
    hide Conserved, Hooked, Grown, DevicesIndexed, DriversIndexed, NoStray, JustHooked, UnrefDriver;
  }

  lemma Plenty(s: State, b: State, p: Address, o: Address, ext: bool)
    requires Conserved(b) && Base(s, b, p, o, ext)
    ensures b.drivers[p].refCount > 1
  {
    assert DriverCount(b, p) == DriverDue(b, p) && b.driverBorrows[p] > 1;
  }

  /** Hooking a driver without devices, with any new record and handle. */
  lemma CanHook(s: State, p: Address, h: Address, o: Address, ext: bool) returns (t: State)
    requires Settled(s) && Borrowless(s) && p !in s.drivers && h !in s.driverHandles && o !in s.driverTable
    ensures Next(s, HookDriver(o, ext, [], true), t) && HookedWithHandle(s, t, h, p, o, ext, [], [])
    ensures t.devices == s.devices && t.drivers.Keys == s.drivers.Keys + {p} && t.driverTable == s.driverTable[o := p]
    ensures t.driverHandles == s.driverHandles[h := p] && t.deviceHandles == s.deviceHandles
    ensures t.drivers[p].driverObject == o && t.drivers[p].devices == map[] && t.drivers[p].extensionHook == ext
    ensures forall q :: q in s.drivers ==> t.drivers[q] == s.drivers[q]
  {
    hide Settled, JustHooked, HookedWithHandle, Hooked, UnrefDriver, DriverHandleMade;
    HookingPossible(s, p, o, ext);
    var b := UnrefDriver(JustHooked(s, p, o, ext), p);
    HookedOwned(s, b, h, p, o, ext, [], []);
    t := UnrefDriver(DriverHandleMade(b, h, p), p);
    BareHooked(s, t, h, p, o, ext);
    HookedCount(s, t, h, p, o, ext, [], []);
    assert Distinct<Address>([]);
  }

  lemma BareHooked(s: State, t: State, h: Address, p: Address, o: Address, ext: bool)
    requires HookedWithHandle(s, t, h, p, o, ext, [], [])
    ensures t.devices == s.devices && t.drivers.Keys == s.drivers.Keys + {p} && t.driverTable == s.driverTable[o := p]
    ensures t.driverHandles == s.driverHandles[h := p] && t.deviceHandles == s.deviceHandles
    ensures t.drivers[p].driverObject == o && t.drivers[p].devices == map[] && t.drivers[p].extensionHook == ext
    ensures forall q :: q in s.drivers ==> t.drivers[q] == s.drivers[q]
  {
    assert t.devices.Keys == s.devices.Keys;
  }

  // ----- adding a device

  /** Adding a device of a hooked driver, whether it is unknown or has a record made by hooking
      the driver, which is promoted. */
  lemma CanAdd(s: State, driverObject: Address, o: Address, d: Address, h: Address) returns (t: State)
    requires Settled(s) && driverObject in s.driverTable && h !in s.deviceHandles
    requires s.driverTable[driverObject] in s.drivers
    requires var x := s.drivers[s.driverTable[driverObject]];
      if o in x.devices then d == x.devices[o] && d in s.devices && s.devices[d].reason.DriverHooked? else d !in s.devices
    ensures Next(s, AddDevice(driverObject, o, true, true), t)
    ensures d in t.devices && t.devices[d].reason.UserRequest? && t.validDevices[d] == 1
    ensures s.driverTable[driverObject] in t.drivers && o in t.drivers[s.driverTable[driverObject]].devices
    ensures t.drivers[s.driverTable[driverObject]].devices[o] == d && t.deviceHandles == s.deviceHandles[h := d]
    ensures t.driverTable == s.driverTable
  {
    hide Settled, D.WithDevice, AddDeviceStatus;
    var p := s.driverTable[driverObject];
    assert D.Suits(s, p, o, d);
    t := D.AddOutcome(s, h, p, o, d, true);
    D.StatusIs(s, p, o, true);
    AddedIs(s, p, o, d);
    if o in s.drivers[p].devices { InTable(s, p, o); }
    assert AddEffect(s, t, driverObject, o, true);
  }

  lemma InTable(s: State, p: Address, o: Address)
    requires Settled(s) && p in s.drivers && o in s.drivers[p].devices
    ensures s.drivers[p].devices[o] in s.devices
  {}

  lemma AddedIs(s: State, p: Address, o: Address, d: Address)
    requires D.Suits(s, p, o, d)
    ensures var t := D.WithDevice(s, p, o, d);
      && d in t.devices && t.devices[d].reason.UserRequest? && t.validDevices[d] == 1 && t.driverTable == s.driverTable
      && p in t.drivers && o in t.drivers[p].devices && t.drivers[p].devices[o] == d
  {}

  // ----- unhooking

  /** Unhooking a driver without devices through the handle of its own record. */
  lemma CanUnhook(s: State, h: Address) returns (t: State)
    requires Settled(s) && Borrowless(s) && h in s.driverHandles && s.driverHandles[h] in s.drivers && !Stale(s, h)
    requires s.driverHandles[h] in s.driverTable.Values && s.drivers[s.driverHandles[h]].devices == map[]
    ensures Next(s, UnhookDriver(h), t) && UnhookedByHandle(s, t, h) && t.devices == s.devices
  {
    var p := s.driverHandles[h];
    NotStale(s, h);
    hide Settled, Stale, UnrefDriver, DriverHandleGone, UnhookedByHandle, UnhookEffect;
    DriverRefSettled(s, p);
    var u := UnhookedBare(s, p);
    OwnUnhooked(s, u, h, p);
    t := DriverHandleGone(UnrefDriver(u, p), h);
    NoDevicesReleased(s, t, h);
  }

  lemma NoDevicesReleased(s: State, t: State, h: Address)
    requires UnhookedByHandle(s, t, h) && s.drivers[s.driverHandles[h]].devices == map[]
    ensures t.devices == s.devices
  {
    assert forall d :: !InTableOf(s, s.driverHandles[h], d);
  }

  /** UnhookDriverObject of a record whose device table is empty. */
  lemma UnhookedBare(s: State, p: Address) returns (u: State)
    requires p in s.drivers && Settled(RefDriver(s, p)) && s.drivers[p].driverObject in s.driverTable
    requires s.drivers[p].devices == map[]
    ensures UnhookEffect(RefDriver(s, p), u, p)
  {
    var s0 := RefDriver(s, p);
    var s1 := UntableDriver(s0, s.drivers[p].driverObject);
    UntableDriverKeeps(s0, s.drivers[p].driverObject);
    var s2 := s1.(validDrivers := s1.validDrivers[p := 0]);
    assert s2.(validDrivers := s1.validDrivers) == s1;
    NothingEmptied(s1, p);
    SettledIsQuiet(s0);
    UnhookedSoFar(s0, s1, s2, p);
    Unhooked(s0, s2, p);
    u := UnrefDriver(s2, p);
    hide Settled, Quiet, Conserved, UnhookEffect, UnhookReady, PartlyEmptied, UnrefDriver;
  }

  lemma NothingEmptied(s: State, p: Address)
    requires p in s.drivers
    ensures PartlyEmptied(s, s, p)
  {
    assert forall d :: InTableOf(s, p, d) ==> s.devices[d].deviceObject in s.drivers[p].devices;
  }

  // ----- a stale handle

  /** Driver object 1 is hooked as record 1, with handle 2. */
  predicate HookedOnce(s: State) {
    && s.driverHandles == map[2 := 1] && s.driverTable == map[1 := 1] && s.devices == map[] && s.deviceHandles == map[]
    && s.drivers.Keys == {1} && s.drivers[1].driverObject == 1 && s.drivers[1].devices == map[]
    && !s.drivers[1].extensionHook
  }

  /** ... and opened once more. */
  predicate OpenedTwice(s: State) {
    && s.driverHandles == map[2 := 1, 3 := 1] && s.driverTable == map[1 := 1] && s.devices == map[]
    && s.deviceHandles == map[]
    && s.drivers.Keys == {1} && s.drivers[1].driverObject == 1 && s.drivers[1].devices == map[]
  }

  /** ... and unhooked through the first handle: the second one keeps the record. */
  predicate OutOfTable(s: State) {
    && s.driverHandles == map[3 := 1] && s.driverTable == map[] && s.devices == map[] && s.deviceHandles == map[]
    && s.drivers.Keys == {1} && s.drivers[1].driverObject == 1
  }

  /** ... and hooked again, as record 2 with handle 4. */
  predicate HookedAgain(s: State) {
    && s.driverHandles == map[3 := 1, 4 := 2] && s.driverTable == map[1 := 2] && s.devices == map[]
    && s.deviceHandles == map[]
    && s.drivers.Keys == {1, 2} && s.drivers[1].driverObject == 1 && s.drivers[2].driverObject == 1
    && !s.drivers[2].extensionHook
  }

  lemma HookingOnce() returns (s1: State)
    ensures Next(NOTHING, HookDriver(1, false, [], true), s1) && HookedOnce(s1)
  {
    NothingIsSettled();
    s1 := CanHook(NOTHING, 1, 2, 1, false);
    hide Settled, Next, HookedWithHandle;
  }

  lemma OpeningTwice(s1: State) returns (s2: State)
    requires Settled(s1) && Borrowless(s1) && HookedOnce(s1)
    ensures Next(s1, OpenDriver(1, true), s2) && OpenedTwice(s2)
  {
    hide Settled;
    s2 := DriverHandleMade(s1, 3, 1);
    DriverHandleMadeSettled(s1, 3, 1);
    assert s1.driverTable[1] == 1 && 1 in s1.driverTable.Values;
  }

  lemma TakingOut(s2: State) returns (s3: State)
    requires Settled(s2) && Borrowless(s2) && OpenedTwice(s2)
    ensures Next(s2, UnhookDriver(2), s3) && OutOfTable(s3)
  {
    assert s2.driverTable[1] == 1 && 1 in s2.driverTable.Values;
    s3 := CanUnhook(s2, 2);
    assert s3.driverHandles == map[3 := 1] && s3.driverTable == map[];
    assert s3.driverHandles[3] == 1;
    UnhookedByHandleSettled(s2, s3, 2);
    HandleIsLive(s3, 3);
    hide Settled, Next;
  }

  lemma HookingAgain(s3: State) returns (s4: State)
    requires Settled(s3) && Borrowless(s3) && OutOfTable(s3)
    ensures Next(s3, HookDriver(1, false, [], true), s4) && HookedAgain(s4) && Stale(s4, 3)
  {
    s4 := CanHook(s3, 2, 4, 1, false);
    hide Settled, Next, HookedWithHandle;
    assert s4.drivers[1] == s3.drivers[1];
  }

  lemma StaleReached() returns (s: State)
    ensures Reached(s) && Stale(s, 3) && HookedAgain(s)
  {
    hide Settled, Next, Reached, Stale, HookedOnce, OpenedTwice, OutOfTable, HookedAgain;
    NothingReached();
    var s1 := HookingOnce();
    ReachedNext(NOTHING, HookDriver(1, false, [], true), s1);
    ReachedIsSettled(s1);
    var s2 := OpeningTwice(s1);
    ReachedNext(s1, OpenDriver(1, true), s2);
    ReachedIsSettled(s2);
    var s3 := TakingOut(s2);
    ReachedNext(s2, UnhookDriver(2), s3);
    ReachedIsSettled(s3);
    s := HookingAgain(s3);
    ReachedNext(s3, HookDriver(1, false, [], true), s);
  }

  /** Why a handle must not be stale when a driver is unhooked through it: in this reachable
      state UMUnhookDriver frees the record and is then about to close a handle that names it. */
  lemma StaleHandleDangles()
    ensures exists s, t ::
      && Reached(s) && Stale(s, 3) && UnhookedStale(s, t, 3, true)
      && 3 in t.driverHandles && t.driverHandles[3] !in t.drivers
  {
    var s := StaleReached();
    ReachedIsSettled(s);
    HandleIsLive(s, 3);
    DriverRefSettled(s, 1);
    OnlyReference(s);
    var u := UnhookedBare(s, 1);
    StaleCounts(s, u, 3);
    LastOne(u, 1);
    UnrefFrame(u, 1);
    IsUnhookedStale(s, u, UnrefDriver(u, 1), 3, true);
    hide Settled, Reached, Stale, UnhookEffect, UnrefDriver, UnhookedStale;
  }

  /** A record outside the driver table has no devices in its table, and this one has one
      handle and nothing else. */
  lemma OnlyReference(s: State)
    requires Settled(s) && Borrowless(s) && s.driverHandles == map[3 := 1, 4 := 2] && s.driverTable == map[1 := 2]
    requires s.devices == map[]
    ensures 1 in s.drivers ==> s.drivers[1].refCount == 1 && s.drivers[1].devices == map[]
  {
    assert Holders(s.driverTable, 1) == {} && Holders(Owners(s.devices), 1) == {} && Holders(s.driverHandles, 1) == {3};
    assert DriverCount(s, 1) == DriverDue(s, 1);
  }
}
