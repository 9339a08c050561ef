/** Monitoring in runs of the user-mode services: the slots of every driver object, with any
    number of hook records that have come and gone. */
module MonitorRuns {
  import opened HookRecords
  import opened HookManager
  import opened HookHandles
  import opened HookServices
  import opened DispatchHandlers
  import opened HookEffects
  import opened HookRuns
  import opened HookReached
  import HookDeviceServices
  import H = DispatchHooks

  type Objects = map<Address, H.Slots>

  /** The hook manager, the slots of the driver objects, and what each live driver record
      knows of them. */
  datatype World = World(hooks: State, slots: Objects, monitors: map<Address, H.Monitor>)

  /** A service, with the settings a newly hooked driver gets; UMHookedDriverSetInfo; and
      UMHookedDriverMonitoringEnable. */
  datatype Action =
    | Service(call: Call, settings: H.Settings)
    | SetInfo(handle: Address, settings: H.Settings)
    | Enable(handle: Address, on: bool)

  // ----- steps

  /** What _DriverHookRecordCreate leaves in a record. */
  function NewMonitor(x: H.Settings, ext: bool): (m: H.Monitor)
    ensures H.MonitorShape(m) && !m.enabled
  {
    var nulls := H.Slots(seq(H.MAJORS, _ => H.Null), H.Null, H.Null, H.Null, seq(H.FAST_ROUTINES, _ => H.Null));
    H.Monitor(x, ext, false, nulls, H.Presence(false, false, false, false))
  }

  /** A live record whose driver object has slots. */
  predicate Known(w: World, p: Address) {
    && p in w.hooks.drivers && p in w.monitors && w.hooks.drivers[p].driverObject in w.slots
    && |w.slots[w.hooks.drivers[p].driverObject].fastIo| <= |w.monitors[p].saved.fastIo|
  }

  /** The record behind an open handle. */
  predicate Opens(w: World, h: Address) { h in w.hooks.driverHandles && Known(w, w.hooks.driverHandles[h]) }

  function Record(w: World, h: Address): Address
    requires Opens(w, h)
  {
    w.hooks.driverHandles[h]
  }

  function Object(w: World, h: Address): Address
    requires Opens(w, h)
  {
    w.hooks.drivers[Record(w, h)].driverObject
  }

  /** The slots and monitors after monitoring is switched for a record. */
  function RecordSlots(w: World, p: Address, on: bool): Objects {
    if Known(w, p) then
      var o := w.hooks.drivers[p].driverObject;
      w.slots[o := H.SlotsAfter(w.slots[o], w.monitors[p], on)]
    else w.slots
  }

  function RecordMonitors(w: World, p: Address, on: bool): map<Address, H.Monitor> {
    if Known(w, p) then w.monitors[p := H.MonitorAfter(w.slots[w.hooks.drivers[p].driverObject], w.monitors[p], on)]
    else w.monitors
  }

  /** The same, for the record behind a handle. */
  function SwitchedSlots(w: World, h: Address, on: bool): Objects {
    if Opens(w, h) then RecordSlots(w, Record(w, h), on) else w.slots
  }

  function SwitchedMonitors(w: World, h: Address, on: bool): map<Address, H.Monitor> {
    if Opens(w, h) then RecordMonitors(w, Record(w, h), on) else w.monitors
  }

  /** A call that unhooks a driver. */
  predicate Unhooks(s: State, c: Call) {
    || (c.UnhookDriver? && c.handle in s.driverHandles && s.driverHandles[c.handle] in s.driverTable.Values)
    || (c.UnloadDriver? && c.driverObject in s.driverTable)
  }

  /** The record that goes out of the driver table. */
  function UnhookedRecord(s: State, c: Call): Address
    requires Unhooks(s, c)
  {
    if c.UnhookDriver? then s.driverHandles[c.handle] else s.driverTable[c.driverObject]
  }

  /** The driver is monitored, and new devices are wanted. */
  predicate Watches(w: World, o: Address) {
    && o in w.hooks.driverTable && w.hooks.driverTable[o] in w.monitors
    && w.monitors[w.hooks.driverTable[o]].enabled && w.monitors[w.hooks.driverTable[o]].settings.newDevices
  }

  ghost predicate ServiceStep(w: World, c: Call, x: H.Settings, v: World) {
    && Next(w.hooks, c, v.hooks) && (c.HookDriver? ==> c.driverObject in w.slots)
    && (c.SeeDevice? ==> (c.catching <==> Watches(w, c.driverObject)))
    && v.slots == (if Unhooks(w.hooks, c) then RecordSlots(w, UnhookedRecord(w.hooks, c), false) else w.slots)
    && v.monitors.Keys == v.hooks.drivers.Keys
    && var monitors := if Unhooks(w.hooks, c) then RecordMonitors(w, UnhookedRecord(w.hooks, c), false) else w.monitors;
      forall p {:trigger v.monitors[p]} :: p in v.monitors ==>
        v.monitors[p] == if p in monitors then monitors[p] else NewMonitor(x, v.hooks.drivers[p].extensionHook)
  }

  /** One action.  The reference that setting and enabling borrow is given back. */
  ghost predicate Step(w: World, a: Action, v: World) {
    match a
    case Service(c, x) => ServiceStep(w, c, x, v)
    case SetInfo(h, x) =>
      v == if Opens(w, h) then w.(monitors := w.monitors[Record(w, h) := H.MonitorSet(w.monitors[Record(w, h)], x)]) else w
    case Enable(h, on) => v == w.(slots := SwitchedSlots(w, h, on), monitors := SwitchedMonitors(w, h, on))
  }

  /** SetInfo and enabling through a handle concern the record behind it, and nobody else. */
  lemma RequestedIs(w: World, a: Action, v: World, q: Address)
    requires Step(w, a, v) && !a.Service? && q in w.monitors
    ensures v.hooks == w.hooks && v.monitors.Keys == w.monitors.Keys
    ensures !(Opens(w, a.handle) && q == Record(w, a.handle)) ==> v.monitors[q] == w.monitors[q]
    ensures Opens(w, a.handle) && q == Record(w, a.handle) && a.Enable? ==>
      v.monitors[q].enabled == a.on && v.monitors[q].settings == w.monitors[q].settings
    ensures Opens(w, a.handle) && q == Record(w, a.handle) && a.SetInfo? ==>
      var t, x := v.monitors[q].settings, a.settings;
      && v.monitors[q] == w.monitors[q].(settings := t)
      && t.newDevices == x.newDevices && t.irpCompletion == x.irpCompletion && t.data == x.data && t.stackTrace == x.stackTrace
      && (!w.monitors[q].enabled ==> t == x)
    ensures a.SetInfo? ==> v.slots == w.slots
  {
    if Opens(w, a.handle) && a.SetInfo? { H.SetIs(w.monitors[Record(w, a.handle)], a.settings); }
    hide H.SlotsAfter, H.Saved;
  }

  /** A call changes the monitoring of at most the record it unhooks, which is then off; a new
      record is not monitored and has the settings the call came with. */
  lemma ServedIs(w: World, c: Call, x: H.Settings, v: World, q: Address)
    requires Step(w, Service(c, x), v) && q in v.monitors
    ensures q in v.hooks.drivers
    ensures q !in w.monitors ==>
      !v.monitors[q].enabled && v.monitors[q].settings == x && v.monitors[q].extensionHook == v.hooks.drivers[q].extensionHook
    ensures q in w.monitors && !(Unhooks(w.hooks, c) && q == UnhookedRecord(w.hooks, c)) ==> v.monitors[q] == w.monitors[q]
    ensures q in w.monitors && Unhooks(w.hooks, c) && q == UnhookedRecord(w.hooks, c) ==>
      v.monitors[q].settings == w.monitors[q].settings && (Known(w, q) ==> !v.monitors[q].enabled)
  {
    hide H.SlotsAfter, H.Saved, H.Hooked, H.Restored, Next;
  }

  // ----- what should hold

  /** The driver objects before anything was hooked. */
  ghost predicate Originals(original: Objects) {
    forall o :: o in original ==> H.Shape(original[o]) && H.NoHooks(original[o])
  }

  /** The record is being monitored and selects a routine of its driver. */
  predicate Works(w: World, original: Objects, p: Address) {
    && p in w.monitors && p in w.hooks.drivers && w.hooks.drivers[p].driverObject in original
    && w.monitors[p].enabled && H.Selects(original[w.hooks.drivers[p].driverObject], w.monitors[p])
  }

  ghost predicate Idle(w: World, original: Objects, o: Address) {
    forall p :: Works(w, original, p) ==> w.hooks.drivers[p].driverObject != o
  }

  /** Where no record works the slots are the driver's own, and every record that works finds
      its hooks in the slots, no others, and the originals in its saved pointers. */
  ghost predicate Right(w: World, original: Objects) {
    && (forall o {:trigger w.slots[o]} :: o in original && o in w.slots && Idle(w, original, o) ==>
          w.slots[o] == original[o])
    && (forall p {:trigger w.monitors[p]} :: Works(w, original, p) && w.hooks.drivers[p].driverObject in w.slots ==>
          var o := w.hooks.drivers[p].driverObject;
          H.HookedRight(original[o], w.slots[o], w.monitors[p].saved, w.monitors[p].settings, w.monitors[p].extensionHook))
  }

  // ----- the invariant

  predicate InDriverTable(s: State, p: Address) {
    p in s.drivers && s.drivers[p].driverObject in s.driverTable && s.driverTable[s.drivers[p].driverObject] == p
  }

  /** What is known of one record. */
  ghost predicate RecordOk(s: State, original: Objects, p: Address, m: H.Monitor) {
    && p in s.drivers && s.drivers[p].driverObject in original && H.MonitorShape(m)
    && (m.enabled ==> m.present == H.Present(original[s.drivers[p].driverObject]))
    && (m.enabled && !InDriverTable(s, p) ==> !H.Selects(original[s.drivers[p].driverObject], m))
  }

  /** What is known of the slots of one driver object. */
  ghost predicate ObjectOk(w: World, original: Objects, o: Address)
    requires o in original && o in w.slots
  {
    if o in w.hooks.driverTable && w.hooks.driverTable[o] in w.monitors
    then H.Alone(original[o], w.slots[o], w.monitors[w.hooks.driverTable[o]])
    else w.slots[o] == original[o]
  }

  /** Only records in the driver table work. */
  ghost predicate Neat(w: World, original: Objects) {
    && Settled(w.hooks) && Borrowless(w.hooks) && Originals(original)
    && w.slots.Keys == original.Keys && w.monitors.Keys == w.hooks.drivers.Keys
    && (forall p {:trigger w.monitors[p]} :: p in w.monitors ==> RecordOk(w.hooks, original, p, w.monitors[p]))
    && (forall o {:trigger w.slots[o]} :: o in w.slots ==> ObjectOk(w, original, o))
  }

  // ----- what a service does to the driver records

  /** No new driver records, and those left have the same driver objects. */
  predicate SameObjects(s: State, t: State) {
    && t.drivers.Keys <= s.drivers.Keys
    && forall p :: p in t.drivers ==>
        t.drivers[p].driverObject == s.drivers[p].driverObject && t.drivers[p].extensionHook == s.drivers[p].extensionHook
  }

  /** The driver table has one more record. */
  ghost predicate OneHooked(s: State, t: State, o: Address, ext: bool) {
    && o !in s.driverTable
    && exists p :: p !in s.drivers && OneNew(s, t, o, ext, p)
  }

  predicate OneNew(s: State, t: State, o: Address, ext: bool, p: Address) {
    && t.drivers.Keys == s.drivers.Keys + {p} && t.driverTable == s.driverTable[o := p]
    && t.drivers[p].driverObject == o && t.drivers[p].extensionHook == ext
    && forall q :: q in s.drivers ==> t.drivers[q] == s.drivers[q]
  }

  predicate Hooks(s: State, c: Call) { c.HookDriver? && c.driverObject !in s.driverTable && c.copied }

  lemma HookFrame(s: State, c: Call, t: State)
    requires Effect(s, c, t) && Hooks(s, c)
    ensures OneHooked(s, t, c.driverObject, c.extensionHook)
  {
    var h, p, records :| HookedWithHandle(s, t, h, p, c.driverObject, c.extensionHook, c.existing, records);
    assert OneNew(s, t, c.driverObject, c.extensionHook, p);
  }

  lemma AddFrame(s: State, c: Call, t: State)
    requires Effect(s, c, t) && c.AddDevice?
    ensures SameObjects(s, t) && t.driverTable == s.driverTable
  {}

  lemma DeleteFrame(s: State, c: Call, t: State)
    requires Effect(s, c, t) && c.DeleteDevice? && Settled(s)
    ensures SameObjects(s, t) && t.driverTable == s.driverTable
  {
    hide DeviceHandleGone, SameObjects, Indexed, NoStray;
    if HookDeviceServices.HandleDeletable(s, c.handle) {
      var d := s.deviceHandles[c.handle];
      var e := s.drivers[s.devices[d].driver].devices[s.devices[d].deviceObject];
      FewerDeviceHandles(DemotedIn(s, e), c.handle);
      DemotedFrame(s, e, t);
    } else {
      StayFrame(s);
    }
  }

  lemma DemotedFrame(s: State, e: Address, t: State)
    requires e in s.devices && SameObjects(DemotedIn(s, e), t)
    ensures SameObjects(s, t)
  {}

  lemma OpenFrame(s: State, c: Call, t: State)
    requires Effect(s, c, t) && (c.OpenDriver? || c.OpenDevice?)
    ensures SameObjects(s, t) && t.driverTable == s.driverTable
  {
    hide DriverHandleMade, DeviceHandleMade, SameObjects;
    if t != s {
      if c.OpenDriver? {
        var h :| h !in s.driverHandles && t == DriverHandleMade(s, h, c.driverId);
        OpenedFrame(s, h, c.driverId);
      } else {
        var h :| h !in s.deviceHandles && t == DeviceHandleMade(s, h, c.deviceId);
        OpenedDeviceFrame(s, h, c.deviceId);
      }
    } else {
      StayFrame(s);
    }
  }

  lemma StayFrame(s: State)
    ensures SameObjects(s, s)
  {}

  lemma OpenedFrame(s: State, h: Address, p: Address)
    requires p in s.drivers
    ensures var t := DriverHandleMade(s, h, p); SameObjects(s, t) && t.driverTable == s.driverTable
  {}

  lemma OpenedDeviceFrame(s: State, h: Address, d: Address)
    requires d in s.devices
    ensures var t := DeviceHandleMade(s, h, d); SameObjects(s, t) && t.driverTable == s.driverTable
  {}

  lemma CloseFrame(s: State, c: Call, t: State)
    requires Effect(s, c, t) && (c.CloseDriver? || c.CloseDevice? || c.DeleteHandles?)
    ensures SameObjects(s, t) && t.driverTable == s.driverTable
  {
    hide DriverHandleGone, DeviceHandleGone;
    if c.CloseDriver? && c.handle in s.driverHandles && s.driverHandles[c.handle] in s.drivers {
      FewerDriverHandles(s, c.handle);
    }
    if c.CloseDevice? && c.handle in s.deviceHandles && s.deviceHandles[c.handle] in s.devices
      && s.devices[s.deviceHandles[c.handle]].driver in s.drivers { FewerDeviceHandles(s, c.handle); }
  }

  lemma SeeFrame(s: State, c: Call, t: State)
    requires Effect(s, c, t) && c.SeeDevice?
    ensures SameObjects(s, t) && t.driverTable == s.driverTable
  {}

  lemma UnhookFrame(s: State, p: Address, t: State, handles: map<Address, Address>)
    requires UnhookedTo(s, t, p, handles)
    ensures SameObjects(s, t) && t.driverTable == s.driverTable - {s.drivers[p].driverObject}
  {}

  /** A call that unhooks a driver unhooks the driver table's own record. */
  lemma UnhooksTo(s: State, c: Call, t: State)
    requires Settled(s) && Next(s, c, t) && Unhooks(s, c)
    ensures UnhookedTo(s, t, UnhookedRecord(s, c), t.driverHandles)
    ensures InDriverTable(s, UnhookedRecord(s, c))
  {
    hide Settled, UnhookedCount, AllReleased;
  }

  /** All calls but those that hook or unhook a driver leave the driver table alone. */
  lemma OthersFrame(s: State, c: Call, t: State)
    requires Settled(s) && Next(s, c, t) && !Hooks(s, c)
    requires !Unhooks(s, c)
    ensures SameObjects(s, t) && t.driverTable == s.driverTable
  {
    hide Settled;
    match c
    case HookDriver(_, _, _, _) =>
    case UnhookDriver(_) =>
    case AddDevice(_, _, _, _) => AddFrame(s, c, t);
    case DeleteDevice(_) => DeleteFrame(s, c, t);
    case OpenDriver(_, _) => OpenFrame(s, c, t);
    case OpenDevice(_, _) => OpenFrame(s, c, t);
    case CloseDriver(_) => CloseFrame(s, c, t);
    case CloseDevice(_) => CloseFrame(s, c, t);
    case DeleteHandles => CloseFrame(s, c, t);
    case UnloadDriver(_) =>
    case SeeDevice(_, _, _, _) => SeeFrame(s, c, t);
  }

  // ----- one step keeps the invariant

  lemma QuietKeepsNeat(w: World, original: Objects, v: World)
    requires Neat(w, original) && Settled(v.hooks) && Borrowless(v.hooks)
    requires SameObjects(w.hooks, v.hooks) && v.hooks.driverTable == w.hooks.driverTable && v.slots == w.slots
    requires v.monitors.Keys == v.hooks.drivers.Keys
    requires forall p :: p in v.monitors ==> p in w.monitors && v.monitors[p] == w.monitors[p]
    ensures Neat(v, original)
  {
    hide Settled, H.Alone, H.Selects, Originals, RecordOk;
    forall o | o in v.slots ensures ObjectOk(v, original, o) {
      assert ObjectOk(w, original, o);
      if o in v.hooks.driverTable { TableNames(v.hooks, o); }
    }
    forall p | p in v.monitors ensures RecordOk(v.hooks, original, p, v.monitors[p]) {
      RecordMoves(w.hooks, v.hooks, original, p, w.monitors[p]);
    }
  }

  lemma RecordMoves(s: State, t: State, original: Objects, p: Address, m: H.Monitor)
    requires RecordOk(s, original, p, m) && p in t.drivers && t.drivers[p].driverObject == s.drivers[p].driverObject
    requires m.enabled && InDriverTable(s, p) ==> InDriverTable(t, p)
    ensures RecordOk(t, original, p, m)
  {}

  lemma OffRecordOk(s: State, original: Objects, p: Address, m: H.Monitor)
    requires p in s.drivers && s.drivers[p].driverObject in original && H.MonitorShape(m) && !m.enabled
    ensures RecordOk(s, original, p, m)
  {}

  lemma OffAlone(original: Objects, o: Address, m: H.Monitor)
    requires Originals(original) && o in original && H.MonitorShape(m) && !m.enabled
    ensures H.Alone(original[o], original[o], m)
  {}

  /** p is a new record in the driver table, not monitored. */
  ghost predicate OneMore(w: World, v: World, o: Address, p: Address) {
    && o !in w.hooks.driverTable && o in w.slots && p !in w.hooks.drivers
    && v.hooks.drivers.Keys == w.hooks.drivers.Keys + {p} && v.hooks.driverTable == w.hooks.driverTable[o := p]
    && v.hooks.drivers[p].driverObject == o
    && (forall q :: q in w.hooks.drivers ==> v.hooks.drivers[q] == w.hooks.drivers[q])
    && v.slots == w.slots && v.monitors.Keys == v.hooks.drivers.Keys
    && (forall q {:trigger v.monitors[q]} :: q in v.monitors && q != p ==>
          q in w.monitors && v.monitors[q] == w.monitors[q])
    && H.MonitorShape(v.monitors[p]) && !v.monitors[p].enabled
  }

  lemma HookMonitors(w: World, c: Call, x: H.Settings, v: World, p: Address)
    requires ServiceStep(w, c, x, v) && c.HookDriver? && w.monitors.Keys == w.hooks.drivers.Keys
    requires p !in w.hooks.drivers && v.hooks.drivers.Keys == w.hooks.drivers.Keys + {p}
    ensures v.slots == w.slots && v.monitors.Keys == v.hooks.drivers.Keys && c.driverObject in w.slots
    ensures forall q {:trigger v.monitors[q]} ::
      q in v.monitors && q != p ==> q in w.monitors && v.monitors[q] == w.monitors[q]
    ensures p in v.monitors && H.MonitorShape(v.monitors[p]) && !v.monitors[p].enabled
  {
    hide Next;
    assert p in v.monitors.Keys;
  }

  lemma HookIsOneMore(w: World, c: Call, x: H.Settings, v: World)
    requires w.monitors.Keys == w.hooks.drivers.Keys && ServiceStep(w, c, x, v) && Hooks(w.hooks, c)
    ensures exists p :: OneMore(w, v, c.driverObject, p)
  {
    hide ServiceStep, Settled, Effect, H.MonitorShape;
    assert Next(w.hooks, c, v.hooks) by { IsNext(w, c, x, v); }
    HookFrame(w.hooks, c, v.hooks);
    var p :| p !in w.hooks.drivers && OneNew(w.hooks, v.hooks, c.driverObject, c.extensionHook, p);
    HookMonitors(w, c, x, v, p);
    assert OneMore(w, v, c.driverObject, p);
  }

  lemma IsNext(w: World, c: Call, x: H.Settings, v: World)
    requires ServiceStep(w, c, x, v)
    ensures Next(w.hooks, c, v.hooks)
  {}

  lemma OneMoreKeepsNeat(w: World, original: Objects, v: World, o: Address, p: Address)
    requires Neat(w, original) && OneMore(w, v, o, p) && Settled(v.hooks) && Borrowless(v.hooks)
    ensures Neat(v, original)
  {
    hide Settled, H.Alone, H.Selects, RecordOk;
    forall q | q in v.monitors ensures RecordOk(v.hooks, original, q, v.monitors[q]) {
      if q != p {
        assert RecordOk(w.hooks, original, q, w.monitors[q]);
        RecordMoves(w.hooks, v.hooks, original, q, w.monitors[q]);
      } else {
        OffRecordOk(v.hooks, original, p, v.monitors[p]);
      }
    }
    forall k | k in v.slots ensures ObjectOk(v, original, k) {
      assert ObjectOk(w, original, k);
      if k == o { OffAlone(original, o, v.monitors[p]); }
      else if k in w.hooks.driverTable { TableNames(w.hooks, k); }
    }
  }

  /** The record of o has left the driver table; its monitoring is off and the slots restored. */
  ghost predicate OneLess(w: World, original: Objects, v: World, o: Address, p: Address) {
    && o in w.hooks.driverTable && w.hooks.driverTable[o] == p && o in original && o in w.slots
    && SameObjects(w.hooks, v.hooks) && v.hooks.driverTable == w.hooks.driverTable - {o}
    && v.slots == w.slots[o := original[o]] && v.monitors.Keys == v.hooks.drivers.Keys
    && (forall q {:trigger v.monitors[q]} :: q in v.monitors ==>
          && q in w.monitors && (q == p ==> H.MonitorShape(v.monitors[p]) && !v.monitors[p].enabled)
          && (q != p ==> v.monitors[q] == w.monitors[q]))
  }

  lemma UnhookMonitors(w: World, c: Call, x: H.Settings, v: World, p: Address, o: Address)
    requires ServiceStep(w, c, x, v) && Unhooks(w.hooks, c) && UnhookedRecord(w.hooks, c) == p
    requires w.monitors.Keys == w.hooks.drivers.Keys && SameObjects(w.hooks, v.hooks)
    requires Known(w, p) && w.hooks.drivers[p].driverObject == o
    ensures v.slots == w.slots[o := H.SlotsAfter(w.slots[o], w.monitors[p], false)]
    ensures v.monitors.Keys == v.hooks.drivers.Keys
    ensures forall q {:trigger v.monitors[q]} :: q in v.monitors ==>
      q in w.monitors && v.monitors[q] == if q == p then H.MonitorAfter(w.slots[o], w.monitors[p], false) else w.monitors[q]
  {
    hide Next, H.SlotsAfter, H.MonitorAfter;
  }

  lemma UnhookIsOneLess(w: World, original: Objects, c: Call, x: H.Settings, v: World)
    requires Neat(w, original) && ServiceStep(w, c, x, v) && Unhooks(w.hooks, c)
    ensures exists o, p :: OneLess(w, original, v, o, p)
  {
    hide ServiceStep, Effect, H.Alone, UnhookedTo, H.SlotsAfter, H.MonitorAfter, SameObjects, RecordOk, Known, Unhooks,
         UnhookedRecord;
    var p := UnhookedRecord(w.hooks, c);
    assert Next(w.hooks, c, v.hooks) by { IsNext(w, c, x, v); }
    UnhooksTo(w.hooks, c, v.hooks);
    UnhookFrame(w.hooks, p, v.hooks, v.hooks.driverHandles);
    var o := w.hooks.drivers[p].driverObject;
    RecordsKnown(w, original, p);
    OffIsOff(w, original, o, p);
    UnhookMonitors(w, c, x, v, p, o);
    assert OneLess(w, original, v, o, p);
  }

  lemma OneLessKeepsNeat(w: World, original: Objects, v: World, o: Address, p: Address)
    requires Neat(w, original) && OneLess(w, original, v, o, p) && Settled(v.hooks) && Borrowless(v.hooks)
    ensures Neat(v, original)
  {
    hide Settled, H.Alone, H.Selects, RecordOk;
    TableNames(w.hooks, o);
    forall q | q in v.monitors ensures RecordOk(v.hooks, original, q, v.monitors[q]) {
      assert RecordOk(w.hooks, original, q, w.monitors[q]);
      if q == p { OffRecordOk(v.hooks, original, p, v.monitors[p]); }
      else { RecordMoves(w.hooks, v.hooks, original, q, w.monitors[q]); }
    }
    forall k | k in v.slots ensures ObjectOk(v, original, k) {
      assert ObjectOk(w, original, k);
      if k != o && k in w.hooks.driverTable {
        TableNames(w.hooks, k);
        TableNames(v.hooks, k);
      }
    }
  }

  lemma OffIsOff(w: World, original: Objects, o: Address, p: Address)
    requires Known(w, p) && w.hooks.drivers[p].driverObject == o && o in original
    requires H.Alone(original[o], w.slots[o], w.monitors[p])
    ensures var m := H.MonitorAfter(w.slots[o], w.monitors[p], false);
      !m.enabled && H.MonitorShape(m) && H.SlotsAfter(w.slots[o], w.monitors[p], false) == original[o]
  {
    H.AloneSwitch(original[o], w.slots[o], w.monitors[p], false);
  }

  lemma MonitorsStay(w: World, c: Call, x: H.Settings, v: World)
    requires ServiceStep(w, c, x, v) && !Unhooks(w.hooks, c) && SameObjects(w.hooks, v.hooks)
    requires w.monitors.Keys == w.hooks.drivers.Keys
    ensures forall p :: p in v.monitors ==> p in w.monitors && v.monitors[p] == w.monitors[p]
  {
    hide Next;
  }

  lemma ServiceKeepsNeat(w: World, original: Objects, c: Call, x: H.Settings, v: World)
    requires Neat(w, original) && ServiceStep(w, c, x, v)
    ensures Neat(v, original)
  {
    hide Settled, Effect, ObjectOk, RecordOk, SameObjects, OneMore, OneLess, Unhooks, UnhookedRecord;
    NextSettled(w.hooks, c, v.hooks);
    if Hooks(w.hooks, c) {
      HookIsOneMore(w, c, x, v);
      var p :| OneMore(w, v, c.driverObject, p);
      OneMoreKeepsNeat(w, original, v, c.driverObject, p);
    } else if Unhooks(w.hooks, c) {
      UnhookIsOneLess(w, original, c, x, v);
      var o, p :| OneLess(w, original, v, o, p);
      OneLessKeepsNeat(w, original, v, o, p);
    } else {
      OthersFrame(w.hooks, c, v.hooks);
      MonitorsStay(w, c, x, v);
      QuietKeepsNeat(w, original, v);
    }
  }

  lemma RecordsKnown(w: World, original: Objects, p: Address)
    requires Neat(w, original) && p in w.hooks.drivers
    ensures Known(w, p) && RecordOk(w.hooks, original, p, w.monitors[p])
    ensures var o := w.hooks.drivers[p].driverObject;
      && o in original && ObjectOk(w, original, o)
      && H.Shape(w.slots[o]) && H.SamePresence(original[o], w.slots[o])
  {
    var o := w.hooks.drivers[p].driverObject;
    assert RecordOk(w.hooks, original, p, w.monitors[p]);
    assert ObjectOk(w, original, o);
    H.HookedPresence(original[o], w.monitors[p].settings, w.monitors[p].extensionHook);
    if o in w.hooks.driverTable && w.hooks.driverTable[o] in w.monitors {
      var m := w.monitors[w.hooks.driverTable[o]];
      H.HookedPresence(original[o], m.settings, m.extensionHook);
    }
    hide Settled;
  }

  /** Every open handle opens its record. */
  lemma HandlesOpen(w: World, original: Objects, h: Address)
    requires Neat(w, original)
    ensures Opens(w, h) <==> h in w.hooks.driverHandles
    ensures Opens(w, h) ==>
      && RecordOk(w.hooks, original, Record(w, h), w.monitors[Record(w, h)])
      && Object(w, h) in original && ObjectOk(w, original, Object(w, h))
      && H.Shape(w.slots[Object(w, h)]) && H.SamePresence(original[Object(w, h)], w.slots[Object(w, h)])
  {
    if h in w.hooks.driverHandles {
      HandleIsLive(w.hooks, h);
      hide Settled, RecordOk, ObjectOk, Known;
      RecordsKnown(w, original, w.hooks.driverHandles[h]);
    }
  }

  /** The slots of one driver object and one record's monitor change. */
  lemma OneChanges(w: World, original: Objects, o: Address, p: Address, s: H.Slots, m: H.Monitor, v: World)
    requires Neat(w, original) && p in w.monitors && p in w.hooks.drivers && w.hooks.drivers[p].driverObject == o
    requires o in w.slots
    requires v == w.(slots := w.slots[o := s], monitors := w.monitors[p := m])
    requires RecordOk(w.hooks, original, p, m)
    requires if InDriverTable(w.hooks, p) then H.Alone(original[o], s, m) else s == w.slots[o]
    ensures Neat(v, original)
  {
    hide Settled, H.Alone, H.Selects, RecordOk;
    forall q | q in v.monitors ensures RecordOk(v.hooks, original, q, v.monitors[q]) {
      if q != p { assert RecordOk(w.hooks, original, q, w.monitors[q]); }
    }
    forall k | k in v.slots ensures ObjectOk(v, original, k) {
      assert ObjectOk(w, original, k);
      if k in w.hooks.driverTable { TableNames(w.hooks, k); }
    }
  }

  lemma TabledAlone(w: World, original: Objects, h: Address)
    requires Opens(w, h) && Object(w, h) in original && ObjectOk(w, original, Object(w, h))
    requires InDriverTable(w.hooks, Record(w, h))
    ensures H.Alone(original[Object(w, h)], w.slots[Object(w, h)], w.monitors[Record(w, h)])
  {}

  lemma SetRecordOk(s: State, original: Objects, p: Address, m: H.Monitor, x: H.Settings)
    requires RecordOk(s, original, p, m)
    ensures RecordOk(s, original, p, H.MonitorSet(m, x))
  {
    H.SameSelection(original[s.drivers[p].driverObject], m.saved, m.settings, H.Lightly(m.settings, x), m.extensionHook);
    hide H.Hooked, H.Backed;
  }

  lemma SetKeepsNeat(w: World, original: Objects, h: Address, x: H.Settings, v: World)
    requires Neat(w, original) && Step(w, SetInfo(h, x), v)
    ensures Neat(v, original)
  {
    hide Neat, RecordOk, ObjectOk, H.MonitorSet, H.Alone, H.Shape, H.SamePresence;
    HandlesOpen(w, original, h);
    if Opens(w, h) {
      var p, o := Record(w, h), Object(w, h);
      var m := w.monitors[p];
      SetRecordOk(w.hooks, original, p, m, x);
      if InDriverTable(w.hooks, p) {
        TabledAlone(w, original, h);
        H.AloneSet(original[o], w.slots[o], m, x);
      }
      assert w.slots[o := w.slots[o]] == w.slots;
      OneChanges(w, original, o, p, w.slots[o], H.MonitorSet(m, x), v);
    }
  }

  /** Monitoring may be switched on for this record: it is in the driver table, or it selects
      nothing that is present. */
  predicate Allowed(w: World, original: Objects, h: Address) {
    Opens(w, h) && !w.monitors[Record(w, h)].enabled && Object(w, h) in original ==>
      InDriverTable(w.hooks, Record(w, h)) || !H.Selects(original[Object(w, h)], w.monitors[Record(w, h)])
  }

  lemma EnableKeepsNeat(w: World, original: Objects, h: Address, on: bool, v: World)
    requires Neat(w, original) && Step(w, Enable(h, on), v) && (on ==> Allowed(w, original, h))
    ensures Neat(v, original)
  {
    HandlesOpen(w, original, h);
    if Opens(w, h) {
      var p, o := Record(w, h), Object(w, h);
      var s, m := w.slots[o], w.monitors[p];
      if InDriverTable(w.hooks, p) {
        H.AloneSwitch(original[o], s, m, on);
      } else if m.enabled != on {
        H.HarmlessSwitch(original[o], s, m, on);
        H.ShapesStay(s, m, on, m.settings);
      }
      OneChanges(w, original, o, p, H.SlotsAfter(s, m, on), H.MonitorAfter(s, m, on), v);
    }
    hide Settled, Neat;
  }

  /** Monitoring is only switched on where it may be. */
  predicate Careful(w: World, original: Objects, a: Action) { a.Enable? && a.on ==> Allowed(w, original, a.handle) }

  lemma StepKeepsNeat(w: World, original: Objects, a: Action, v: World)
    requires Neat(w, original) && Step(w, a, v) && Careful(w, original, a)
    ensures Neat(v, original)
  {
    hide Neat, ServiceStep, SwitchedSlots, SwitchedMonitors, Allowed;
    match a
    case Service(c, x) => ServiceKeepsNeat(w, original, c, x, v);
    case SetInfo(h, x) => SetKeepsNeat(w, original, h, x, v);
    case Enable(h, on) => EnableKeepsNeat(w, original, h, on, v);
  }

  // ----- what the invariant means

  lemma WorkersAreTabled(w: World, original: Objects, p: Address)
    requires Neat(w, original) && Works(w, original, p)
    ensures InDriverTable(w.hooks, p)
    ensures H.Alone(original[w.hooks.drivers[p].driverObject], w.slots[w.hooks.drivers[p].driverObject], w.monitors[p])
  {
    assert RecordOk(w.hooks, original, p, w.monitors[p]);
    assert ObjectOk(w, original, w.hooks.drivers[p].driverObject);
    hide Settled, H.Alone, H.Selects;
  }

  lemma IdleIsOriginal(w: World, original: Objects, o: Address)
    requires Neat(w, original) && o in original && Idle(w, original, o)
    ensures w.slots[o] == original[o]
  {
    assert ObjectOk(w, original, o);
    if o in w.hooks.driverTable {
      TableNames(w.hooks, o);
      assert !Works(w, original, w.hooks.driverTable[o]);
    }
    hide Settled;
  }

  lemma NeatIsRight(w: World, original: Objects)
    requires Neat(w, original)
    ensures Right(w, original)
  {
    forall o | o in original && o in w.slots && Idle(w, original, o) ensures w.slots[o] == original[o] {
      IdleIsOriginal(w, original, o);
    }
    forall p | Works(w, original, p)
      ensures var o := w.hooks.drivers[p].driverObject;
        H.HookedRight(original[o], w.slots[o], w.monitors[p].saved, w.monitors[p].settings, w.monitors[p].extensionHook)
    {
      WorkersAreTabled(w, original, p);
      var o := w.hooks.drivers[p].driverObject;
      H.AloneIsRight(original[o], w.slots[o], w.monitors[p]);
    }
    hide Neat, H.HookedRight, H.Alone, H.Selects;
  }

  // ----- runs

  ghost predicate Runs(original: Objects, trace: seq<World>, actions: seq<Action>) {
    && Originals(original) && |trace| == |actions| + 1 && trace[0] == World(NOTHING, original, map[])
    && forall i :: 0 <= i < |actions| ==> Step(trace[i], actions[i], trace[i + 1])
  }

  lemma StartIsNeat(original: Objects)
    requires Originals(original)
    ensures Neat(World(NOTHING, original, map[]), original)
  {
    NothingIsSettled();
  }

  lemma {:induction false} RunStaysNeat(original: Objects, trace: seq<World>, actions: seq<Action>, i: nat)
    requires Runs(original, trace, actions) && i <= |actions|
    requires forall k :: 0 <= k < i ==> Careful(trace[k], original, actions[k])
    ensures Neat(trace[i], original)
  {
    hide Neat, Step, Careful;
    if i == 0 {
      StartIsNeat(original);
    } else {
      RunStaysNeat(original, trace, actions, i - 1);
      assert Step(trace[i - 1], actions[i - 1], trace[i]);
      StepKeepsNeat(trace[i - 1], original, actions[i - 1], trace[i]);
    }
  }

  /** In every state of every run of the services, over any number of records, the slots are
      right, provided monitoring is only switched on for records in the driver table or for
      those that select nothing.  An unhooked driver has its own routines back. */
  lemma RunsStayRight(original: Objects, trace: seq<World>, actions: seq<Action>, i: nat)
    requires Runs(original, trace, actions) && i < |trace|
    requires forall k :: 0 <= k < |actions| ==> Careful(trace[k], original, actions[k])
    ensures Right(trace[i], original)
    ensures forall o :: o in original && o !in trace[i].hooks.driverTable ==>
      o in trace[i].slots && trace[i].slots[o] == original[o]
  {
    hide Right, Settled, Careful, Step;
    RunStaysNeat(original, trace, actions, i);
    NeatIsRight(trace[i], original);
    forall o | o in original && o !in trace[i].hooks.driverTable ensures trace[i].slots[o] == original[o] {
      assert ObjectOk(trace[i], original, o);
    }
  }
}
