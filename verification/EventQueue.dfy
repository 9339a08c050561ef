/** The event queue as a concurrent protocol.

    Any number of threads run RequestQueueInsert, any number run RequestQueueClear,
    one runs RequestQueueGet, one connects and disconnects.  Every lock-protected
    region and every interlocked operation is one step; the steps of one routine may
    be separated by steps of all the others.  The remove lock is the set of its
    outstanding acquisitions and a removed flag. */
module EventQueue {

  datatype Pool = Paged | NonPaged

  /** A request record; its pool is fixed when it is allocated. */
  datatype Request = Request(key: nat, pool: Pool)

  /** How far the call of RequestQueueInsert for a request has come. */
  datatype Pc =
    | Fresh        // not called
    | Entered      // called; connection not yet looked at
    | Admitted     // saw a connected (or collecting) queue
    | Locked       // holds the remove lock, has no ID yet
    | Numbered     // has its ID, is on no list
    | Linked       // on its list, counted nowhere
    | ListCounted  // counted in the length of its list
    | Counted      // counted in the total length too
    | Returned     // the routine has returned

  /** Who is responsible for a request. */
  datatype Place =
    | Nowhere             // not given to the queue
    | Calling             // the thread inside RequestQueueInsert
    | Listed              // on the list of its pool
    | Taken               // unlinked by the consumer
    | Delivered           // returned by RequestQueueGet
    | Detached            // taken off its list by RequestQueueClear
    | Cleared(owed: nat)  // freed by RequestQueueClear, `owed` counters still to be lowered
    | HandedOver          // passed to the callbacks
    | Refused             // freed by RequestQueueInsert

  /** IDs start at 1; 0 stands for no ID. */
  datatype Status = Status(pc: Pc, place: Place, id: nat)

  /** Progress of the one thread inside RequestQueueGet. */
  datatype Consumer =
    | Idle
    | Knocking                    // saw a connected queue
    | Ready                       // holds the remove lock
    | Taking(r: Request)          // chose the paged head, still holds the paged lock
    | Unlinked(r: Request)
    | ListDiscounted(r: Request)
    | Holding(r: Request)
    | PutBack(r: Request)         // relinked at the head, counted nowhere
    | ListRecounted(r: Request)
    | Leaving                     // about to release the remove lock

  datatype Session = Down | Connecting | Up | Draining | Clearing | ClearingPaged

  datatype Holder = Inserter(r: Request) | SessionHolder | Getter

  datatype State = State(
    requests: map<Request, Status>, lastId: nat,
    paged: seq<Request>, nonpaged: seq<Request>, delivered: seq<Request>,
    consumer: Consumer,
    pagedLength: int, nonpagedLength: int, length: int,
    session: Session, removed: bool, holders: set<Holder>, snapshot: set<Request>,
    collect: bool, clearOnDisconnect: bool)

  predicate Connected(s: State) { s.session.Up? || s.session.Draining? }

  function Of(m: map<Request, Status>, r: Request): Status {
    if r in m then m[r] else Status(Fresh, Nowhere, 0)
  }

  function Set(m: map<Request, Status>, r: Request, status: Status): (n: map<Request, Status>)
    ensures forall x {:trigger Of(n, x)} :: Of(n, x) == if x == r then status else Of(m, x)
  {
    m[r := status]
  }

  function SetPc(s: State, r: Request, pc: Pc): State {
    s.(requests := Set(s.requests, r, Of(s.requests, r).(pc := pc)))
  }

  function SetPlace(s: State, r: Request, place: Place): State {
    s.(requests := Set(s.requests, r, Of(s.requests, r).(place := place)))
  }

  function SetStatus(s: State, r: Request, pc: Pc, place: Place, id: nat): State {
    s.(requests := Set(s.requests, r, Status(pc, place, id)))
  }

  /** InterlockedIncrement of the last ID, the result stored in the request. */
  function Next(s: State): State { s.(lastId := s.lastId + 1) }

  /** The state RequestQueueModuleInit leaves behind. */
  function Initial(collect: bool, clearOnDisconnect: bool): State {
    State(map[], 0, [], [], [], Idle, 0, 0, 0, Down, false, {}, {}, collect, clearOnDisconnect)
  }

  datatype Step =
    // RequestQueueInsert
    | Call(r: Request) | PassGate(r: Request) | Refuse(r: Request, callbacks: bool)
    | Acquire(r: Request) | Number(r: Request) | Link(r: Request)
    | CountList(r: Request) | CountTotal(r: Request) | Return(r: Request)
    // RequestQueueGet
    | GetEnter | GetAcquire | Choose | UnlinkPaged | DiscountList | DiscountTotal
    | Deliver | TooLarge | RecountList | RecountTotal | GetRelease
    // RequestQueueClear
    | ClearList(pool: Pool) | FreeDetached(r: Request)
    | ClearDiscountList(r: Request) | ClearDiscountTotal(r: Request)
    // RequestQueueConnect, RequestQueueDisconnect, settings
    | ConnectStart | SnapshotInsert(r: Request) | ConnectFail | ConnectFinish
    | DisconnectStart | DisconnectDrained | DisconnectClearNonPaged | DisconnectClearPaged
    | Configure(collect: bool, clearOnDisconnect: bool)

  predicate InsertStep(step: Step) {
    step.Call? || step.PassGate? || step.Refuse? || step.Acquire? || step.Number? || step.Link? ||
    step.CountList? || step.CountTotal? || step.Return? || step.SnapshotInsert?
  }

  predicate GetStep(step: Step) {
    step.GetEnter? || step.GetAcquire? || step.Choose? || step.UnlinkPaged? || step.DiscountList? ||
    step.DiscountTotal? || step.Deliver? || step.TooLarge? || step.RecountList? || step.RecountTotal? ||
    step.GetRelease?
  }

  predicate At(s: State, r: Request, pc: Pc) { Of(s.requests, r).pc == pc }

  /** The consumer holds the lock of the paged list. */
  predicate PagedLocked(s: State) { s.consumer.Taking? }

  predicate Enabled(s: State, step: Step) {
    match step
    case Call(r) => At(s, r, Fresh)
    case PassGate(r) => At(s, r, Entered) && (Connected(s) || s.collect)
    case Refuse(r, _) => At(s, r, Entered) && !(Connected(s) || s.collect)
    case Acquire(r) => At(s, r, Admitted)
    case Number(r) => At(s, r, Locked)
    case Link(r) => At(s, r, Numbered) && (r.pool.Paged? ==> !PagedLocked(s))
    case CountList(r) => At(s, r, Linked)
    case CountTotal(r) => At(s, r, ListCounted)
    case Return(r) => At(s, r, Counted)
    case GetEnter => s.consumer.Idle? && Connected(s)
    case GetAcquire => s.consumer.Knocking?
    case Choose => s.consumer.Ready?
    case UnlinkPaged => s.consumer.Taking? && s.paged != []
    case DiscountList => s.consumer.Unlinked?
    case DiscountTotal => s.consumer.ListDiscounted?
    case Deliver => s.consumer.Holding?
    case TooLarge => s.consumer.Holding?
    case RecountList => s.consumer.PutBack?
    case RecountTotal => s.consumer.ListRecounted?
    case GetRelease => s.consumer.Leaving?
    case ClearList(pool) => pool.Paged? ==> !PagedLocked(s)
    case FreeDetached(r) => Of(s.requests, r).place == Detached
    case ClearDiscountList(r) => Of(s.requests, r).place == Cleared(2)
    case ClearDiscountTotal(r) => Of(s.requests, r).place == Cleared(1)
    // the remove lock is reinitialised; the model assumes nobody holds it then
    case ConnectStart => s.session.Down? && s.holders == {}
    case SnapshotInsert(r) => s.session.Connecting? && At(s, r, Fresh)
    // the snapshot is collected before any of it is numbered, so a failed connect inserts nothing
    case ConnectFail => s.session.Connecting? && s.snapshot == {}
    case ConnectFinish => s.session.Connecting? && forall r :: r in s.snapshot ==> At(s, r, Returned)
    case DisconnectStart => s.session.Up?
    case DisconnectDrained => s.session.Draining? && s.holders == {}
    case DisconnectClearNonPaged => s.session.Clearing?
    case DisconnectClearPaged => s.session.ClearingPaged? && !PagedLocked(s)
    case Configure(_, _) => true
  }

  function AddToList(s: State, pool: Pool, delta: int): State {
    if pool.Paged? then s.(pagedLength := s.pagedLength + delta) else s.(nonpagedLength := s.nonpagedLength + delta)
  }

  function ListOf(s: State, pool: Pool): seq<Request> { if pool.Paged? then s.paged else s.nonpaged }

  function WithList(s: State, pool: Pool, q: seq<Request>): State {
    if pool.Paged? then s.(paged := q) else s.(nonpaged := q)
  }

  function DetachAll(m: map<Request, Status>, q: seq<Request>): (n: map<Request, Status>)
    ensures forall x {:trigger Of(n, x)} ::
      Of(n, x) == if x in q && x in m then Of(m, x).(place := Detached) else Of(m, x)
  {
    map r | r in m :: if r in q then m[r].(place := Detached) else m[r]
  }

  function Detach(s: State, pool: Pool): State {
    WithList(s.(requests := DetachAll(s.requests, ListOf(s, pool))), pool, [])
  }

  /** _RequestRemove, up to the point where it gives up the nonpaged lock: the paged
      head wins unless the nonpaged head has the smaller ID. */
  function ChooseHead(s: State): State {
    if s.nonpaged != [] && (s.paged == [] || Of(s.requests, s.nonpaged[0]).id < Of(s.requests, s.paged[0]).id) then
      var r := s.nonpaged[0];
      SetPlace(s, r, Taken).(nonpaged := s.nonpaged[1..], consumer := Unlinked(r))
    else if s.paged != [] then s.(consumer := Taking(s.paged[0]))
    else s.(consumer := Leaving)
  }

  /** What one step does. */
  function After(s: State, step: Step): State
    requires Enabled(s, step)
  {
    match step
    case Call(r) => SetStatus(s, r, Entered, Calling, 0)
    case PassGate(r) => SetPc(s, r, Admitted)
    case Refuse(r, callbacks) =>
      if callbacks then Next(SetStatus(s, r, Returned, HandedOver, s.lastId + 1))
      else SetStatus(s, r, Returned, Refused, 0)
    case Acquire(r) =>
      if s.removed then SetStatus(s, r, Returned, Refused, 0)
      else SetPc(s, r, Locked).(holders := s.holders + {Inserter(r)})
    case Number(r) => Next(SetStatus(s, r, Numbered, Calling, s.lastId + 1))
    case Link(r) =>
      WithList(SetStatus(s, r, Linked, Listed, Of(s.requests, r).id), r.pool, ListOf(s, r.pool) + [r])
    case CountList(r) => AddToList(SetPc(s, r, ListCounted), r.pool, 1)
    case CountTotal(r) => SetPc(s, r, Counted).(length := s.length + 1)
    case Return(r) => SetPc(s, r, Returned).(holders := s.holders - {Inserter(r)})
    case GetEnter => s.(consumer := Knocking)
    case GetAcquire =>
      if s.removed then s.(consumer := Idle) else s.(consumer := Ready, holders := s.holders + {Getter})
    case Choose => ChooseHead(s)
    case UnlinkPaged =>
      SetPlace(s, s.consumer.r, Taken).(paged := s.paged[1..], consumer := Unlinked(s.consumer.r))
    case DiscountList => AddToList(s.(consumer := ListDiscounted(s.consumer.r)), s.consumer.r.pool, -1)
    case DiscountTotal => s.(consumer := Holding(s.consumer.r), length := s.length - 1)
    case Deliver =>
      SetPlace(s, s.consumer.r, Delivered).(delivered := s.delivered + [s.consumer.r], consumer := Leaving)
    case TooLarge =>
      var r := s.consumer.r;
      WithList(SetPlace(s, r, Listed).(consumer := PutBack(r)), r.pool, [r] + ListOf(s, r.pool))
    case RecountList => AddToList(s.(consumer := ListRecounted(s.consumer.r)), s.consumer.r.pool, 1)
    case RecountTotal => s.(consumer := Leaving, length := s.length + 1)
    case GetRelease => s.(consumer := Idle, holders := s.holders - {Getter})
    case ClearList(pool) => Detach(s, pool)
    case FreeDetached(r) => SetPlace(s, r, Cleared(2))
    case ClearDiscountList(r) => AddToList(SetPlace(s, r, Cleared(1)), r.pool, -1)
    case ClearDiscountTotal(r) => SetPlace(s, r, Cleared(0)).(length := s.length - 1)
    case ConnectStart => s.(session := Connecting, removed := false, holders := {SessionHolder})
    case SnapshotInsert(r) =>
      Next(SetStatus(s, r, Numbered, Calling, s.lastId + 1)).(snapshot := s.snapshot + {r})
    case ConnectFail => s.(session := Down, holders := s.holders - {SessionHolder})
    case ConnectFinish => s.(session := Up, snapshot := {})
    case DisconnectStart => s.(session := Draining, removed := true, holders := s.holders - {SessionHolder})
    case DisconnectDrained => s.(session := if s.clearOnDisconnect then Clearing else Down)
    case DisconnectClearNonPaged => Detach(s, NonPaged).(session := ClearingPaged)
    case DisconnectClearPaged => Detach(s, Paged).(session := Down)
    case Configure(collect, clearOnDisconnect) => s.(collect := collect, clearOnDisconnect := clearOnDisconnect)
  }

  // ----- runs

  predicate Legal(s: State, run: seq<Step>)
    decreases |run|
  {
    run == [] || (Enabled(s, run[0]) && Legal(After(s, run[0]), run[1..]))
  }

  function Exec(s: State, run: seq<Step>): State
    requires Legal(s, run)
    decreases |run|
  {
    if run == [] then s else Exec(After(s, run[0]), run[1..])
  }
}
