/** Replacing the dispatch pointers of a driver object by the monitor's hooks and putting
    them back. */
module DispatchHooks {
  const MAJORS: nat := 28
  const FAST_ROUTINES: nat := 25

  datatype HookName = Major(index: nat) | AddDevice | Unload | StartIo | FastIo(index: nat)

  /** A routine of the driver's own, or one of the monitor's hooks. */
  datatype Routine = Null | Own(code: nat) | Hook(name: HookName)

  /** All dispatch pointers of a driver object; without a fast I/O table, fastIo is empty. */
  datatype Slots = Slots(major: seq<Routine>, addDevice: Routine, unload: Routine, startIo: Routine, fastIo: seq<Routine>)

  datatype Settings = Settings(newDevices: bool, irpCompletion: bool, data: bool, stackTrace: bool,
                               addDevice: bool, startIo: bool, unload: bool, irp: bool, fastIo: bool,
                               irpSettings: seq<bool>, fastIoSettings: seq<bool>)

  /** Which routines were there when the hooks went in. */
  datatype Presence = Presence(addDevice: bool, unload: bool, startIo: bool, fastIo: bool)

  predicate Shape(s: Slots) { |s.major| == MAJORS && (s.fastIo == [] || |s.fastIo| == FAST_ROUTINES) }

  function Hooked1(r: Routine, selected: bool, name: HookName): Routine {
    if selected && r != Null then Hook(name) else r
  }

  function HookedMajors(n: nat): (r: seq<Routine>) { seq(n, i requires 0 <= i < n => Hook(Major(i))) }

  function HookedFast(fast: seq<Routine>): (r: seq<Routine>) {
    seq(|fast|, i requires 0 <= i < |fast| => Hooked1(fast[i], true, FastIo(i)))
  }

  /** The slots with the hooks in: the selected routines that are present, and all major
      functions if they are selected.  Drivers hooked by device extension keep their major
      functions and fast I/O routines. */
  function Hooked(s: Slots, x: Settings, ext: bool): (r: Slots) {
    Slots(if x.irp && !ext then HookedMajors(|s.major|) else s.major,
          Hooked1(s.addDevice, x.addDevice, AddDevice), Hooked1(s.unload, x.unload, Unload), Hooked1(s.startIo, x.startIo, StartIo),
          if x.fastIo && !ext then HookedFast(s.fastIo) else s.fastIo)
  }

  function Saved1(r: Routine, saved: Routine, selected: bool): Routine {
    if selected && r != Null then r else saved
  }

  function SavedFast(fast: seq<Routine>, saved: seq<Routine>): seq<Routine>
    requires |fast| <= |saved|
  {
    seq(|saved|, i requires 0 <= i < |saved| => if i < |fast| then Saved1(fast[i], saved[i], true) else saved[i])
  }

  /** What hooking leaves in the record's saved pointers. */
  function Saved(s: Slots, saved: Slots, x: Settings, ext: bool): Slots
    requires |s.fastIo| <= |saved.fastIo|
  {
    Slots(if x.irp && !ext then s.major else saved.major,
          Saved1(s.addDevice, saved.addDevice, x.addDevice), Saved1(s.unload, saved.unload, x.unload),
          Saved1(s.startIo, saved.startIo, x.startIo),
          if x.fastIo && !ext then SavedFast(s.fastIo, saved.fastIo) else saved.fastIo)
  }

  lemma NoFastRoutines(saved: seq<Routine>)
    ensures HookedFast([]) == [] && SavedFast([], saved) == saved
  {}

  function Present(s: Slots): Presence {
    Presence(s.addDevice != Null, s.unload != Null, s.startIo != Null, s.fastIo != [])
  }

  function RestoredFast(fast: seq<Routine>, saved: seq<Routine>): seq<Routine>
    requires |fast| <= |saved|
  {
    seq(|fast|, i requires 0 <= i < |fast| => if fast[i] == Null then Null else saved[i])
  }

  /** The slots with the saved pointers put back. */
  function Restored(s: Slots, saved: Slots, x: Settings, ext: bool, present: Presence): Slots
    requires |s.fastIo| <= |saved.fastIo|
  {
    Slots(if x.irp && !ext then saved.major else s.major,
          if present.addDevice && x.addDevice then saved.addDevice else s.addDevice,
          if present.unload && x.unload then saved.unload else s.unload,
          if present.startIo && x.startIo then saved.startIo else s.startIo,
          if present.fastIo && x.fastIo && !ext then RestoredFast(s.fastIo, saved.fastIo) else s.fastIo)
  }

  ghost predicate NoHooks(s: Slots) {
    && (forall i :: 0 <= i < |s.major| ==> !s.major[i].Hook?)
    && (forall i :: 0 <= i < |s.fastIo| ==> !s.fastIo[i].Hook?)
    && !s.addDevice.Hook? && !s.unload.Hook? && !s.startIo.Hook?
  }

  /** The selected slots hold their hooks, the originals of the selected slots are saved and
      none of them is a hook, and every other slot is the driver's own. */
  ghost predicate HookedRight(original: Slots, s: Slots, saved: Slots, x: Settings, ext: bool) {
    && |s.major| == |saved.major| == |original.major| && |s.fastIo| == |original.fastIo| <= |saved.fastIo|
    && (forall i :: 0 <= i < |s.major| ==>
          if x.irp && !ext then s.major[i] == Hook(Major(i)) && saved.major[i] == original.major[i] && !saved.major[i].Hook?
          else s.major[i] == original.major[i])
    && (if x.addDevice && original.addDevice != Null
        then s.addDevice == Hook(AddDevice) && saved.addDevice == original.addDevice && !saved.addDevice.Hook?
        else s.addDevice == original.addDevice)
    && (if x.unload && original.unload != Null
        then s.unload == Hook(Unload) && saved.unload == original.unload && !saved.unload.Hook?
        else s.unload == original.unload)
    && (if x.startIo && original.startIo != Null
        then s.startIo == Hook(StartIo) && saved.startIo == original.startIo && !saved.startIo.Hook?
        else s.startIo == original.startIo)
    && (forall i :: 0 <= i < |s.fastIo| ==>
          if x.fastIo && !ext && original.fastIo[i] != Null
          then s.fastIo[i] == Hook(FastIo(i)) && saved.fastIo[i] == original.fastIo[i] && !saved.fastIo[i].Hook?
          else s.fastIo[i] == original.fastIo[i])
  }

  lemma HookingIsRight(s: Slots, saved: Slots, x: Settings, ext: bool)
    requires NoHooks(s) && |saved.major| == |s.major| && |s.fastIo| <= |saved.fastIo|
    ensures HookedRight(s, Hooked(s, x, ext), Saved(s, saved, x, ext), x, ext)
  {}

  /** Whatever was in the slots, taking the hooks out again restores it, if the slots and
      the selection are those the hooks went in with. */
  lemma RestoringUndoesHooking(s: Slots, saved: Slots, x: Settings, ext: bool)
    requires Shape(s) && |s.fastIo| <= |saved.fastIo|
    ensures Restored(Hooked(s, x, ext), Saved(s, saved, x, ext), x, ext, Present(s)) == s
  {
    var t := Restored(Hooked(s, x, ext), Saved(s, saved, x, ext), x, ext, Present(s));
    assert t.fastIo == s.fastIo;
  }

  /** Some present routine is selected by both. */
  predicate Overlap(s: Slots, x: Settings, extX: bool, y: Settings, extY: bool) {
    || (x.irp && !extX && y.irp && !extY)
    || (x.addDevice && y.addDevice && s.addDevice != Null)
    || (x.unload && y.unload && s.unload != Null)
    || (x.startIo && y.startIo && s.startIo != Null)
    || (x.fastIo && !extX && y.fastIo && !extY && exists i :: 0 <= i < |s.fastIo| && s.fastIo[i] != Null)
  }

  /** Two records of one driver object, switched on one after the other and off in the same
      order. */
  function OnOnOffOff(s: Slots, x: Settings, extX: bool, savedX: Slots, y: Settings, extY: bool, savedY: Slots): Slots
    requires Shape(s) && |savedX.fastIo| == |savedY.fastIo| == FAST_ROUTINES
  {
    var s1 := Hooked(s, x, extX);
    var s2 := Hooked(s1, y, extY);
    var s3 := Restored(s2, Saved(s, savedX, x, extX), x, extX, Present(s));
    Restored(s3, Saved(s1, savedY, y, extY), y, extY, Present(s1))
  }

  /** Switched off in the reverse order, everything is restored whatever they select. */
  lemma TwoNested(s: Slots, x: Settings, extX: bool, savedX: Slots, y: Settings, extY: bool, savedY: Slots)
    requires Shape(s) && |savedX.fastIo| == |savedY.fastIo| == FAST_ROUTINES
    ensures var s1 := Hooked(s, x, extX); var s2 := Hooked(s1, y, extY);
      var s3 := Restored(s2, Saved(s1, savedY, y, extY), y, extY, Present(s1));
      Restored(s3, Saved(s, savedX, x, extX), x, extX, Present(s)) == s
  {
    RestoringUndoesHooking(s, savedX, x, extX);
    RestoringUndoesHooking(Hooked(s, x, extX), savedY, y, extY);
    hide Restored, Saved;
  }

  lemma SinglesOfTwo(s: Slots, x: Settings, extX: bool, savedX: Slots, y: Settings, extY: bool, savedY: Slots)
    requires Shape(s) && NoHooks(s) && |savedX.fastIo| == |savedY.fastIo| == FAST_ROUTINES
    ensures var t := OnOnOffOff(s, x, extX, savedX, y, extY, savedY);
      && (t.addDevice == s.addDevice <==> !(x.addDevice && y.addDevice && s.addDevice != Null))
      && (t.unload == s.unload <==> !(x.unload && y.unload && s.unload != Null))
      && (t.startIo == s.startIo <==> !(x.startIo && y.startIo && s.startIo != Null))
  {
    SlotOfTwo(s.addDevice, AddDevice, x.addDevice, y.addDevice, savedX.addDevice, savedY.addDevice);
    SlotOfTwo(s.unload, Unload, x.unload, y.unload, savedX.unload, savedY.unload);
    SlotOfTwo(s.startIo, StartIo, x.startIo, y.startIo, savedX.startIo, savedY.startIo);
    hide HookedFast, HookedMajors, SavedFast, RestoredFast;
  }

  lemma TablesOfTwo(s: Slots, x: Settings, extX: bool, savedX: Slots, y: Settings, extY: bool, savedY: Slots)
    requires Shape(s) && NoHooks(s) && |savedX.fastIo| == |savedY.fastIo| == FAST_ROUTINES
    ensures var t := OnOnOffOff(s, x, extX, savedX, y, extY, savedY);
      && (t.major == s.major <==> !(x.irp && !extX && y.irp && !extY))
      && (t.fastIo == s.fastIo <==>
            !(x.fastIo && !extX && y.fastIo && !extY && exists i :: 0 <= i < |s.fastIo| && s.fastIo[i] != Null))
  {
    var t := OnOnOffOff(s, x, extX, savedX, y, extY, savedY);
    var s1 := Hooked(s, x, extX);
    var s2 := Hooked(s1, y, extY);
    var s3 := Restored(s2, Saved(s, savedX, x, extX), x, extX, Present(s));
    hide Hooked1, Saved1, HookedFast, HookedMajors, SavedFast, RestoredFast, NoHooks;
    MajorsOfTwo(s, t, x.irp && !extX, y.irp && !extY, s1);
    FastOfTwo(s, t, x.fastIo && !extX, y.fastIo && !extY, s1, s2, s3, savedX.fastIo, savedY.fastIo);
  }

  /** Everything is restored exactly if the two records select no present routine in common. */
  lemma TwoRecords(s: Slots, x: Settings, extX: bool, savedX: Slots, y: Settings, extY: bool, savedY: Slots)
    requires Shape(s) && NoHooks(s) && |savedX.fastIo| == |savedY.fastIo| == FAST_ROUTINES
    ensures OnOnOffOff(s, x, extX, savedX, y, extY, savedY) == s <==> !Overlap(s, x, extX, y, extY)
  {
    SinglesOfTwo(s, x, extX, savedX, y, extY, savedY);
    TablesOfTwo(s, x, extX, savedX, y, extY, savedY);
    hide OnOnOffOff;
  }

  lemma SlotOfTwo(r: Routine, name: HookName, byX: bool, byY: bool, savedX: Routine, savedY: Routine)
    requires !r.Hook?
    ensures var r1 := Hooked1(r, byX, name);
      var r2 := Hooked1(r1, byY, name);
      var r3 := if r != Null && byX then Saved1(r, savedX, byX) else r2;
      var r4 := if r1 != Null && byY then Saved1(r1, savedY, byY) else r3;
      r4 == r <==> !(byX && byY && r != Null)
  {}

  lemma FastOfTwo(s: Slots, s4: Slots, byX: bool, byY: bool, s1: Slots, s2: Slots, s3: Slots, savedX: seq<Routine>,
                  savedY: seq<Routine>)
    requires Shape(s) && NoHooks(s) && |savedX| == |savedY| == FAST_ROUTINES
    requires s1.fastIo == (if byX then HookedFast(s.fastIo) else s.fastIo)
    requires s2.fastIo == (if byY then HookedFast(s1.fastIo) else s1.fastIo)
    requires s3.fastIo == if s.fastIo != [] && byX then RestoredFast(s2.fastIo, SavedFast(s.fastIo, savedX)) else s2.fastIo
    requires s4.fastIo == if s1.fastIo != [] && byY then RestoredFast(s3.fastIo, SavedFast(s1.fastIo, savedY)) else s3.fastIo
    ensures s4.fastIo == s.fastIo <==> !(byX && byY && exists i :: 0 <= i < |s.fastIo| && s.fastIo[i] != Null)
  {
    assert |s4.fastIo| == |s.fastIo|;
    if byX && byY {
      assert forall i :: 0 <= i < |s.fastIo| ==> s4.fastIo[i] == Hooked1(s.fastIo[i], true, FastIo(i));
    } else {
      assert forall i :: 0 <= i < |s.fastIo| ==> s4.fastIo[i] == s.fastIo[i];
    }
  }

  lemma MajorsOfTwo(s: Slots, s4: Slots, byX: bool, byY: bool, s1: Slots)
    requires Shape(s) && NoHooks(s)
    requires s1.major == if byX then HookedMajors(|s.major|) else s.major
    requires s4.major == if byY then s1.major else s.major
    ensures s4.major == s.major <==> !(byX && byY)
  {
    assert !s.major[0].Hook?;
  }

  /** The saved pointers are what hooking these slots leaves, whatever was there before. */
  ghost predicate Backed(s: Slots, saved: Slots, x: Settings, ext: bool) {
    exists before: Slots :: SavedFrom(s, saved, before, x, ext)
  }

  predicate SavedFrom(s: Slots, saved: Slots, before: Slots, x: Settings, ext: bool) {
    |before.major| == |s.major| && |s.fastIo| <= |before.fastIo| && saved == Saved(s, before, x, ext)
  }

  lemma BackedRestores(s: Slots, saved: Slots, x: Settings, ext: bool)
    requires Shape(s) && NoHooks(s) && Backed(s, saved, x, ext)
    ensures |s.fastIo| <= |saved.fastIo| && Restored(Hooked(s, x, ext), saved, x, ext, Present(s)) == s
    ensures HookedRight(s, Hooked(s, x, ext), saved, x, ext)
  {
    var before: Slots :| SavedFrom(s, saved, before, x, ext);
    RestoringUndoesHooking(s, before, x, ext);
    HookingIsRight(s, before, x, ext);
    hide HookedRight, Hooked, Restored;
  }

  /** Settings changed only where they do not select slots. */
  function Lightly(x: Settings, y: Settings): Settings {
    x.(newDevices := y.newDevices, irpCompletion := y.irpCompletion, data := y.data, stackTrace := y.stackTrace)
  }

  /** Settings that select the same slots do the same to them. */
  lemma SameSelection(s: Slots, saved: Slots, x: Settings, y: Settings, ext: bool)
    requires y == Lightly(x, y)
    ensures Hooked(s, y, ext) == Hooked(s, x, ext) && (Backed(s, saved, x, ext) ==> Backed(s, saved, y, ext))
  {
    if Backed(s, saved, x, ext) {
      var before: Slots :| SavedFrom(s, saved, before, x, ext);
      assert SavedFrom(s, saved, before, y, ext);
    }
  }

  // ----- a record's monitoring

  /** What a driver hook record knows of the slots. */
  datatype Monitor = Monitor(settings: Settings, extensionHook: bool, enabled: bool, saved: Slots, present: Presence)

  predicate MonitorShape(m: Monitor) { |m.saved.major| == MAJORS && |m.saved.fastIo| == FAST_ROUTINES }

  /** The slots after monitoring is switched on or off, and the record. */
  function SlotsAfter(s: Slots, m: Monitor, on: bool): Slots
    requires |s.fastIo| <= |m.saved.fastIo|
  {
    if m.enabled == on then s
    else if on then Hooked(s, m.settings, m.extensionHook)
    else Restored(s, m.saved, m.settings, m.extensionHook, m.present)
  }

  function MonitorAfter(s: Slots, m: Monitor, on: bool): Monitor
    requires |s.fastIo| <= |m.saved.fastIo|
  {
    if m.enabled == on then m
    else if on then m.(enabled := true, saved := Saved(s, m.saved, m.settings, m.extensionHook), present := Present(s))
    else m.(enabled := false)
  }

  /** While monitoring is on, what selects the slots is frozen. */
  function MonitorSet(m: Monitor, x: Settings): Monitor {
    m.(settings := if m.enabled then Lightly(m.settings, x) else x)
  }

  /** What SetInfo takes over, field by field. */
  lemma SetIs(m: Monitor, x: Settings)
    ensures var t := MonitorSet(m, x); var from := if m.enabled then m.settings else x;
      && t.settings.newDevices == x.newDevices && t.settings.irpCompletion == x.irpCompletion
      && t.settings.data == x.data && t.settings.stackTrace == x.stackTrace
      && t.settings.addDevice == from.addDevice && t.settings.startIo == from.startIo && t.settings.unload == from.unload
      && t.settings.irp == from.irp && t.settings.fastIo == from.fastIo
      && t.settings.irpSettings == from.irpSettings && t.settings.fastIoSettings == from.fastIoSettings
      && t.enabled == m.enabled && t.saved == m.saved && t.present == m.present && t.extensionHook == m.extensionHook
  {}

  /** What hooking does not select keeps its saved pointer. */
  lemma SavedElsewhere(s: Slots, saved: Slots, x: Settings, ext: bool)
    requires |s.fastIo| <= |saved.fastIo|
    ensures var t := Saved(s, saved, x, ext);
      && (!(x.irp && !ext) ==> t.major == saved.major) && (!x.addDevice || s.addDevice == Null ==> t.addDevice == saved.addDevice)
      && (!x.unload || s.unload == Null ==> t.unload == saved.unload)
      && (!x.startIo || s.startIo == Null ==> t.startIo == saved.startIo) && |t.fastIo| == |saved.fastIo|
      && forall i :: 0 <= i < |saved.fastIo| ==>
          (x.fastIo && !ext && i < |s.fastIo| && s.fastIo[i] != Null) || t.fastIo[i] == saved.fastIo[i]
  {}

  lemma ShapesStay(s: Slots, m: Monitor, on: bool, x: Settings)
    requires Shape(s) && MonitorShape(m)
    ensures Shape(SlotsAfter(s, m, on)) && MonitorShape(MonitorAfter(s, m, on)) && MonitorShape(MonitorSet(m, x))
    ensures SlotsAfter(s, m, on).fastIo == [] <==> s.fastIo == []
  {}

  /** The record is the only one that has touched the slots: while monitoring is off they are
      the driver's own; while it is on, the selected slots are hooked and their originals
      saved. */
  ghost predicate Alone(original: Slots, s: Slots, m: Monitor) {
    && Shape(original) && NoHooks(original) && MonitorShape(m)
    && (if m.enabled then
          && s == Hooked(original, m.settings, m.extensionHook) && m.present == Present(original)
          && Backed(original, m.saved, m.settings, m.extensionHook)
        else s == original)
  }

  lemma AloneSwitch(original: Slots, s: Slots, m: Monitor, on: bool)
    requires Alone(original, s, m)
    ensures Shape(s) && Alone(original, SlotsAfter(s, m, on), MonitorAfter(s, m, on))
  {
    if m.enabled && !on {
      BackedRestores(original, m.saved, m.settings, m.extensionHook);
    } else if !m.enabled && on {
      assert SavedFrom(original, MonitorAfter(s, m, on).saved, m.saved, m.settings, m.extensionHook);
    }
  }

  lemma AloneSet(original: Slots, s: Slots, m: Monitor, x: Settings)
    requires Alone(original, s, m)
    ensures Alone(original, s, MonitorSet(m, x))
  {
    SameSelection(original, m.saved, m.settings, Lightly(m.settings, x), m.extensionHook);
    hide Hooked, Backed, NoHooks;
  }

  /** Monitoring off means all slots are the driver's own; on, that they are hooked right. */
  lemma AloneIsRight(original: Slots, s: Slots, m: Monitor)
    requires Alone(original, s, m)
    ensures if m.enabled then HookedRight(original, s, m.saved, m.settings, m.extensionHook) else s == original
  {
    if m.enabled {
      BackedRestores(original, m.saved, m.settings, m.extensionHook);
      hide HookedRight, Restored, Hooked;
    }
  }

  // ----- several records of one driver object

  /** The record selects a routine that is present. */
  predicate Selects(original: Slots, m: Monitor) { Hooked(original, m.settings, m.extensionHook) != original }

  /** The same routines are present. */
  ghost predicate SamePresence(a: Slots, b: Slots) {
    && |a.major| == |b.major| && |a.fastIo| == |b.fastIo| && Present(a) == Present(b)
    && forall i :: 0 <= i < |a.fastIo| ==> (a.fastIo[i] == Null <==> b.fastIo[i] == Null)
  }

  lemma HookedPresence(s: Slots, x: Settings, ext: bool)
    ensures SamePresence(s, Hooked(s, x, ext)) && SamePresence(s, s)
  {}

  /** A record that selects nothing present does nothing, whatever other hooks are in. */
  lemma HarmlessSwitch(original: Slots, s: Slots, m: Monitor, on: bool)
    requires Shape(original) && NoHooks(original) && SamePresence(original, s) && MonitorShape(m)
    requires !Selects(original, m)
    requires m.enabled ==> m.present == Present(original)
    ensures SlotsAfter(s, m, on) == s
  {
    var h := Hooked(original, m.settings, m.extensionHook);
    assert HookedMajors(|original.major|)[0].Hook? && !original.major[0].Hook?;
    assert h.major == original.major && h.fastIo == original.fastIo;
    if m.settings.fastIo && !m.extensionHook {
      forall i | 0 <= i < |original.fastIo| ensures s.fastIo[i] == Null {
        assert h.fastIo[i] == original.fastIo[i] && !original.fastIo[i].Hook?;
      }
      assert HookedFast(s.fastIo) == s.fastIo && RestoredFast(s.fastIo, m.saved.fastIo) == s.fastIo;
    }
  }

  /** Two records that both select a present routine are not both right: the second one saves
      a hook, or the first one finds a foreign hook. */
  lemma NotBothRight(original: Slots, x: Settings, ext: bool, saved: Slots, m: Monitor)
    requires Shape(original) && NoHooks(original) && MonitorShape(m) && Selects(original, m)
    ensures var s1 := Hooked(original, x, ext);
      var s2 := Hooked(s1, m.settings, m.extensionHook); var own := Saved(s1, m.saved, m.settings, m.extensionHook);
      !(HookedRight(original, s2, saved, x, ext) && HookedRight(original, s2, own, m.settings, m.extensionHook))
  {
    var h := Hooked(original, m.settings, m.extensionHook);
    var s1 := Hooked(original, x, ext);
    var s2 := Hooked(s1, m.settings, m.extensionHook);
    var own := Saved(s1, m.saved, m.settings, m.extensionHook);
    if m.settings.irp && !m.extensionHook {
      assert s2.major[0] == Hook(Major(0)) && !original.major[0].Hook? && own.major[0] == s1.major[0];
    } else if h.addDevice == original.addDevice && h.unload == original.unload && h.startIo == original.startIo {
      assert h.fastIo != original.fastIo;
      var i :| 0 <= i < |original.fastIo| && h.fastIo[i] != original.fastIo[i];
      assert s2.fastIo[i] == Hook(FastIo(i)) && own.fastIo[i] == s1.fastIo[i] && !original.fastIo[i].Hook?;
    }
  }

  /** What a user can do to a hook record's monitoring. */
  datatype Request = SetInfo(settings: Settings) | Enable(on: bool) | Unhook

  function SlotsRequested(s: Slots, m: Monitor, request: Request): Slots
    requires |s.fastIo| <= |m.saved.fastIo|
  {
    match request
    case SetInfo(_) => s
    case Enable(on) => SlotsAfter(s, m, on)
    case Unhook => SlotsAfter(s, m, false)
  }

  function MonitorRequested(s: Slots, m: Monitor, request: Request): Monitor
    requires |s.fastIo| <= |m.saved.fastIo|
  {
    match request
    case SetInfo(x) => MonitorSet(m, x)
    case Enable(on) => MonitorAfter(s, m, on)
    case Unhook => MonitorAfter(s, m, false)
  }

  /** One request after the other. */
  function Ran(s: Slots, m: Monitor, requests: seq<Request>): (r: (Slots, Monitor))
    requires Shape(s) && MonitorShape(m)
    ensures Shape(r.0) && MonitorShape(r.1)
    decreases |requests|
  {
    if requests == [] then (s, m)
    else
      var n := |requests| - 1;
      var (t, k) := Ran(s, m, requests[..n]);
      (SlotsRequested(t, k, requests[n]), MonitorRequested(t, k, requests[n]))
  }

  /** A record that alone works on its driver object keeps the slots right over every run. */
  lemma {:induction false} RanAlone(original: Slots, s: Slots, m: Monitor, requests: seq<Request>)
    requires Alone(original, s, m)
    ensures Shape(s) && Alone(original, Ran(s, m, requests).0, Ran(s, m, requests).1)
    decreases |requests|
  {
    AloneSwitch(original, s, m, m.enabled);
    hide Alone, SlotsAfter, MonitorAfter, MonitorSet, Shape, MonitorShape;
    if requests != [] {
      var n := |requests| - 1;
      RanAlone(original, s, m, requests[..n]);
      var (t, k) := Ran(s, m, requests[..n]);
      match requests[n] {
        case SetInfo(x) => AloneSet(original, t, k, x);
        case Enable(on) => AloneSwitch(original, t, k, on);
        case Unhook => AloneSwitch(original, t, k, false);
      }
    }
  }

  /** What the last request of a run does to the record: enabling and unhooking say whether
      monitoring is on, setting says everything while it is off, and four flags while it is on. */
  lemma RanLast(s: Slots, m: Monitor, requests: seq<Request>, last: Request)
    requires Shape(s) && MonitorShape(m)
    ensures var (t, k) := Ran(s, m, requests); var (u, l) := Ran(s, m, requests + [last]);
      && (last.Enable? ==> l.enabled == last.on && l.settings == k.settings)
      && (last.Unhook? ==> !l.enabled && l.settings == k.settings)
      && (last.SetInfo? ==>
            && u == t && l == k.(settings := l.settings)
            && (!k.enabled ==> l.settings == last.settings)
            && (k.enabled ==> l.settings == k.settings.(
                  newDevices := last.settings.newDevices, irpCompletion := last.settings.irpCompletion,
                  data := last.settings.data, stackTrace := last.settings.stackTrace)))
  {
    assert (requests + [last])[..|requests|] == requests;
    hide Shape, MonitorShape, Saved, Hooked, Restored;
  }

  // ----- driver objects and their records

  class DriverObject {
    const major: array<Routine>
    var addDevice: Routine
    var unload: Routine
    var startIo: Routine
    const fastIo: array?<Routine>

    ghost predicate Shaped() {
      major.Length == MAJORS && (fastIo != null ==> fastIo.Length == FAST_ROUTINES && fastIo != major)
    }

    ghost function Current(): (s: Slots)
      requires Shaped()
      reads this, major, fastIo
      ensures Shape(s)
    {
      Slots(major[..], addDevice, unload, startIo, if fastIo == null then [] else fastIo[..])
    }

    constructor (major: array<Routine>, addDevice: Routine, unload: Routine, startIo: Routine, fastIo: array?<Routine>)
      requires major.Length == MAJORS && (fastIo != null ==> fastIo.Length == FAST_ROUTINES && fastIo != major)
      ensures Shaped() && this.major == major && this.fastIo == fastIo
      ensures this.addDevice == addDevice && this.unload == unload && this.startIo == startIo
    {
      this.major, this.fastIo := major, fastIo;
      this.addDevice, this.unload, this.startIo := addDevice, unload, startIo;
    }
  }

  /** A driver hook record, as far as the slots are concerned.  Several records may have the
      same target. */
  class HookRecord {
    const target: DriverObject
    const extensionHook: bool
    var settings: Settings
    var enabled: bool
    const oldMajor: array<Routine>
    var oldAddDevice: Routine
    var oldUnload: Routine
    var oldStartIo: Routine
    const oldFastIo: array<Routine>
    var present: Presence

    ghost predicate Shaped()
      reads this
    {
      && target.Shaped() && oldMajor.Length == MAJORS && oldFastIo.Length == FAST_ROUTINES
      && oldMajor != oldFastIo && oldMajor != target.major && oldFastIo != target.major
      && (target.fastIo != null ==> oldMajor != target.fastIo && oldFastIo != target.fastIo)
      && (present.fastIo ==> target.fastIo != null)
    }

    ghost function Footprint(): set<object> {
      {this, target, target.major, oldMajor, oldFastIo} + (if target.fastIo == null then {} else {target.fastIo})
    }

    ghost function SavedPointers(): Slots
      reads this, oldMajor, oldFastIo
    {
      Slots(oldMajor[..], oldAddDevice, oldUnload, oldStartIo, oldFastIo[..])
    }

    ghost function Now(): (m: Monitor)
      requires Shaped()
      reads this, oldMajor, oldFastIo
      ensures MonitorShape(m)
    {
      Monitor(settings, extensionHook, enabled, SavedPointers(), present)
    }

    constructor (target: DriverObject, settings: Settings, extensionHook: bool)
      requires target.Shaped()
      ensures Shaped() && !enabled && this.target == target && this.settings == settings
      ensures this.extensionHook == extensionHook
      ensures fresh(oldMajor) && fresh(oldFastIo)
      ensures NoHooks(target.Current()) ==> Alone(target.Current(), target.Current(), Now())
    {
      this.target, this.settings, this.extensionHook, this.enabled := target, settings, extensionHook, false;
      var majors := new Routine[MAJORS](_ => Null);
      var fasts := new Routine[FAST_ROUTINES](_ => Null);
      oldMajor, oldFastIo := majors, fasts;
      oldAddDevice, oldUnload, oldStartIo := Null, Null, Null;
      present := Presence(false, false, false, false);
    }

    method HookMajors()
      requires Shaped()
      modifies target.major, oldMajor
      ensures target.major[..] == HookedMajors(MAJORS) && oldMajor[..] == old(target.major[..])
    {
      var i := 0;
      while i < MAJORS
        invariant i <= MAJORS
        invariant forall k :: 0 <= k < i ==> target.major[k] == Hook(Major(k)) && oldMajor[k] == old(target.major[k])
        invariant forall k :: i <= k < MAJORS ==> target.major[k] == old(target.major[k])
      {
        oldMajor[i], target.major[i] := target.major[i], Hook(Major(i));
        i := i + 1;
      }
    }

    /** _HookFastIoRoutine for one routine after the other. */
    method HookFastRoutines(fastIo: array<Routine>)
      requires Shaped() && fastIo == target.fastIo
      modifies fastIo, oldFastIo
      ensures fastIo[..] == HookedFast(old(fastIo[..]))
      ensures oldFastIo[..] == SavedFast(old(fastIo[..]), old(oldFastIo[..]))
    {
      var i := 0;
      while i < FAST_ROUTINES
        invariant i <= FAST_ROUTINES
        invariant forall k :: 0 <= k < i ==> fastIo[k] == Hooked1(old(fastIo[k]), true, FastIo(k))
        invariant forall k :: 0 <= k < i ==> oldFastIo[k] == Saved1(old(fastIo[k]), old(oldFastIo[k]), true)
        invariant forall k :: i <= k < FAST_ROUTINES ==>
          fastIo[k] == old(fastIo[k]) && oldFastIo[k] == old(oldFastIo[k])
      {
        if fastIo[i] != Null {
          oldFastIo[i], fastIo[i] := fastIo[i], Hook(FastIo(i));
        }
        i := i + 1;
      }
    }

    method HookSingles()
      requires Shaped()
      modifies target, this`oldAddDevice, this`oldUnload, this`oldStartIo, this`present
      ensures target.addDevice == Hooked1(old(target.addDevice), settings.addDevice, AddDevice)
      ensures target.unload == Hooked1(old(target.unload), settings.unload, Unload)
      ensures target.startIo == Hooked1(old(target.startIo), settings.startIo, StartIo)
      ensures oldAddDevice == Saved1(old(target.addDevice), old(oldAddDevice), settings.addDevice)
      ensures oldUnload == Saved1(old(target.unload), old(oldUnload), settings.unload)
      ensures oldStartIo == Saved1(old(target.startIo), old(oldStartIo), settings.startIo)
      ensures present == Presence(old(target.addDevice) != Null, old(target.unload) != Null,
                                  old(target.startIo) != Null, target.fastIo != null)
    {
      var addDevicePresent := target.addDevice != Null;
      if addDevicePresent && settings.addDevice {
        oldAddDevice, target.addDevice := target.addDevice, Hook(AddDevice);
      }
      var unloadPresent := target.unload != Null;
      if unloadPresent && settings.unload {
        oldUnload, target.unload := target.unload, Hook(Unload);
      }
      var startIoPresent := target.startIo != Null;
      if startIoPresent && settings.startIo {
        oldStartIo, target.startIo := target.startIo, Hook(StartIo);
      }
      present := Presence(addDevicePresent, unloadPresent, startIoPresent, target.fastIo != null);
    }

    /** _HookDriverObject. */
    method HookTarget()
      requires Shaped()
      modifies target, target.major, target.fastIo, oldMajor, oldFastIo
      modifies this`oldAddDevice, this`oldUnload, this`oldStartIo, this`present
      ensures target.Current() == Hooked(old(target.Current()), settings, extensionHook)
      ensures SavedPointers() == Saved(old(target.Current()), old(SavedPointers()), settings, extensionHook)
      ensures present == Present(old(target.Current()))
    {
      hide Hooked1, Saved1, HookedFast, SavedFast, HookedMajors;
      NoFastRoutines(oldFastIo[..]);
      if settings.irp && !extensionHook {
        HookMajors();
      }
      HookSingles();
      if present.fastIo && !extensionHook && settings.fastIo {
        HookFastRoutines(target.fastIo);
      }
    }

    method RestoreMajors()
      requires Shaped()
      modifies target.major
      ensures target.major[..] == oldMajor[..]
    {
      var i := 0;
      while i < MAJORS
        invariant i <= MAJORS && forall k :: 0 <= k < i ==> target.major[k] == oldMajor[k]
      {
        target.major[i] := oldMajor[i];
        i := i + 1;
      }
    }

    /** _UnhookFastIoRoutine for one routine after the other. */
    method RestoreFastRoutines(fastIo: array<Routine>)
      requires Shaped() && fastIo == target.fastIo
      modifies fastIo
      ensures fastIo[..] == RestoredFast(old(fastIo[..]), oldFastIo[..])
    {
      var i := 0;
      while i < FAST_ROUTINES
        invariant i <= FAST_ROUTINES
        invariant forall k :: 0 <= k < i ==> fastIo[k] == if old(fastIo[k]) == Null then Null else oldFastIo[k]
        invariant forall k :: i <= k < FAST_ROUTINES ==> fastIo[k] == old(fastIo[k])
      {
        if fastIo[i] != Null {
          fastIo[i] := oldFastIo[i];
        }
        i := i + 1;
      }
    }

    method RestoreSingles()
      modifies target
      ensures target.addDevice == if present.addDevice && settings.addDevice then oldAddDevice else old(target.addDevice)
      ensures target.unload == if present.unload && settings.unload then oldUnload else old(target.unload)
      ensures target.startIo == if present.startIo && settings.startIo then oldStartIo else old(target.startIo)
    {
      if present.addDevice && settings.addDevice {
        target.addDevice := oldAddDevice;
      }
      if present.unload && settings.unload {
        target.unload := oldUnload;
      }
      if present.startIo && settings.startIo {
        target.startIo := oldStartIo;
      }
    }

    /** _UnhookDriverObject. */
    method UnhookTarget()
      requires Shaped()
      modifies target, target.major, target.fastIo
      ensures target.Current() == Restored(old(target.Current()), SavedPointers(), settings, extensionHook, present)
    {
      if settings.irp && !extensionHook {
        RestoreMajors();
      }
      RestoreSingles();
      if present.fastIo && !extensionHook && settings.fastIo {
        RestoreFastRoutines(target.fastIo);
      }
    }

    /** DriverHookRecordEnable. */
    method SetEnabled(on: bool) returns (ok: bool)
      requires Shaped()
      modifies Footprint()
      ensures Shaped() && ok == (old(enabled) != on)
      ensures target.Current() == SlotsAfter(old(target.Current()), old(Now()), on)
      ensures Now() == MonitorAfter(old(target.Current()), old(Now()), on)
      ensures enabled == on && settings == old(settings)
      ensures !ok ==> target.Current() == old(target.Current()) && Now() == old(Now())
      ensures ok && on && NoHooks(old(target.Current())) ==>
        HookedRight(old(target.Current()), target.Current(), SavedPointers(), settings, extensionHook)
      ensures !on ==> SavedPointers() == old(SavedPointers())
    {
      ghost var s, saved := target.Current(), SavedPointers();
      if NoHooks(s) { HookingIsRight(s, saved, settings, extensionHook); }
      hide HookedRight, NoHooks;
      ok := enabled != on;
      if ok && on {
        enabled := true;
        HookTarget();
      } else if ok {
        enabled := false;
        UnhookTarget();
      }
    }

    /** DriverHookRecordSetInfo. */
    method SetSettings(x: Settings)
      requires Shaped()
      modifies this`settings
      ensures Shaped() && Now() == MonitorSet(old(Now()), x)
      ensures !enabled ==> settings == x
      ensures enabled ==> settings == old(settings).(
        newDevices := x.newDevices, irpCompletion := x.irpCompletion, data := x.data, stackTrace := x.stackTrace)
      ensures SavedPointers() == old(SavedPointers()) && target.Current() == old(target.Current())
    {
      hide NoHooks, Hooked, Saved;
      assert x == Lightly(settings, x).(
        addDevice := x.addDevice, startIo := x.startIo, unload := x.unload, irp := x.irp, fastIo := x.fastIo,
        irpSettings := x.irpSettings, fastIoSettings := x.fastIoSettings);
      settings := Lightly(settings, x);
      if !enabled {
        settings := settings.(
          addDevice := x.addDevice, startIo := x.startIo, unload := x.unload, irp := x.irp, fastIo := x.fastIo,
          irpSettings := x.irpSettings, fastIoSettings := x.fastIoSettings);
      }
    }

    /** The part of UnhookDriverObject that concerns the slots. */
    method StopMonitoring()
      requires Shaped()
      modifies Footprint()
      ensures Shaped() && target.Current() == SlotsAfter(old(target.Current()), old(Now()), false)
      ensures Now() == MonitorAfter(old(target.Current()), old(Now()), false)
      ensures !enabled && settings == old(settings) && SavedPointers() == old(SavedPointers())
    {
      if enabled {
        UnhookTarget();
        enabled := false;
      }
    }

    method Serve(request: Request)
      requires Shaped()
      modifies Footprint()
      ensures Shaped() && target.Current() == SlotsRequested(old(target.Current()), old(Now()), request)
      ensures Now() == MonitorRequested(old(target.Current()), old(Now()), request)
    {
      match request {
        case SetInfo(x) => SetSettings(x);
        case Enable(on) => var ok := SetEnabled(on);
        case Unhook => StopMonitoring();
      }
    }

    /** Any run of requests to one record. */
    method Run(requests: seq<Request>)
      requires Shaped()
      modifies Footprint()
      ensures Shaped() && (target.Current(), Now()) == Ran(old(target.Current()), old(Now()), requests)
    {
      hide SlotsRequested, MonitorRequested;
      var i := 0;
      while i < |requests|
        invariant i <= |requests| && Shaped()
        invariant (target.Current(), Now()) == Ran(old(target.Current()), old(Now()), requests[..i])
      {
        assert requests[..i + 1][..i] == requests[..i];
        Serve(requests[i]);
        i := i + 1;
      }
      assert requests[..i] == requests;
    }
  }
}
