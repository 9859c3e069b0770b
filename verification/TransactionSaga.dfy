/** The Transaction saga as a step relation: any number of saga runs, rollback
    requests and Transfer progress, interleaved at every load, call and append
    (go/internal/transaction/saga.go, server.go). */
module TransactionSaga {
  import opened Common
  import opened Dag
  import opened TransactionStream
  import opened TransactionOrder
  import T = TransferStream
  import V = ValidateDag

  type Outcomes = map<Id, T.OutcomeKind>

  function OutcomeOf(m: Outcomes, c: Id): T.OutcomeKind { if c in m then m[c] else T.NotFound }

  const MaxDispatchPerStep: nat := 8

  /** Where a caller stands between two shared steps. */
  datatype Pc =
    | Idle
    | Opening(event: Event)                                   // StartInitializingTransaction found no stream
    | Reconciling(seen: Stream, todo: set<Id>, moved: bool)   // reconcileInFlight, over the fold of `seen`
    | Dispatching(seen: Stream, slice: seq<Id>)               // dispatchReady chose a slice
    | Requesting(todo: set<Id>, next: Pc)                     // requestChildTransfer, for each
    | Awaiting(seen: Stream, todo: set<Id>, moved: bool)      // reconcileRollbacks
    | RollingBack(todo: set<Id>)                              // rollbackNext's slice
    | Undoing(id: Id, saw: T.OutcomeKind, todo: set<Id>)      // rollbackChild read an outcome
    | Recording(event: Event, next: Pc)                       // appendSagaStep, about to load
    | Appending(seen: Stream, event: Event, next: Pc)         // and about to append

  /** `transfers` and `reversals` hold the live outcome of each child's Transfer
      and of the Reversal under the id derived from it. */
  datatype World = World(stream: Stream, transfers: Outcomes, reversals: Outcomes, drivers: map<nat, Pc>)

  function PcOf(w: World, d: nat): Pc { if d in w.drivers then w.drivers[d] else Idle }

  function Goto(w: World, d: nat, pc: Pc): World { w.(drivers := w.drivers[d := pc]) }

  function Live(w: World, c: Id): T.OutcomeKind { OutcomeOf(w.transfers, c) }

  function Reversal(w: World, c: Id): T.OutcomeKind { OutcomeOf(w.reversals, c) }

  datatype Action =
    | Open(d: nat, transfers: map<Id, V.Child>, deps: Deps, accept: bool)
    | AppendOpening(d: nat)
    | StartRollback(d: nat)                       // StartTransactionRollback
    | Load(d: nat)                                // runSaga's load
    | ReadOutcome(d: nat, c: Id)
    | Proceed(d: nat, slice: seq<Id>)             // reconciled: conclude or choose a slice
    | AppendSlice(d: nat)                         // recordIntents
    | Request(d: nat, c: Id, accept: bool)        // RequestTransfer
    | ReadReversal(d: nat, c: Id)
    | ProceedRollback(d: nat, slice: seq<Id>)     // reconciled: conclude or choose whom to undo
    | Look(d: nat, c: Id)                         // rollbackChild's read
    | Act(d: nat, accept: bool)                   // and its call
    | Finish(d: nat)
    | LoadStep(d: nat)                            // appendSagaStep's load
    | AppendStep(d: nat)                          // and its append
    | Stop(d: nat)                                // a crash or an error, anywhere
    | Move(c: Id, to: T.OutcomeKind)              // the child's own saga, or a command from outside
    | MoveReversal(c: Id, to: T.OutcomeKind)

  /** A slice as dispatchReady and rollbackNext cut it: distinct members of
      `ready`, all of them unless there are more than the bound. */
  predicate Cut(ready: set<Id>, slice: seq<Id>) {
    && (forall i, j :: 0 <= i < j < |slice| ==> slice[i] != slice[j])
    && (forall i :: 0 <= i < |slice| ==> slice[i] in ready)
    && |slice| == if |ready| > MaxDispatchPerStep then MaxDispatchPerStep else |ready|
  }

  predicate CanOpen(t: Top) { t.IsInitialized? || t.IsStarted? }

  predicate Enabled(w: World, a: Action) {
    match a
    case Open(d, _, _, _) => PcOf(w, d).Idle? && w.stream == []
    case AppendOpening(d) => PcOf(w, d).Opening?
    case StartRollback(d) => PcOf(w, d).Idle? && CanOpen(TopLevelState(w.stream))
    case Load(d) => PcOf(w, d).Idle? && w.stream != []
    case ReadOutcome(d, c) => PcOf(w, d).Reconciling? && c in PcOf(w, d).todo
    case Proceed(d, slice) => PcOf(w, d).Reconciling? && PcOf(w, d).todo == {} && Cut(ReadyIn(PcOf(w, d).seen), slice)
    case AppendSlice(d) => PcOf(w, d).Dispatching?
    case Request(d, c, _) => PcOf(w, d).Requesting? && c in PcOf(w, d).todo
    case ReadReversal(d, c) => PcOf(w, d).Awaiting? && c in PcOf(w, d).todo
    case ProceedRollback(d, slice) =>
      PcOf(w, d).Awaiting? && PcOf(w, d).todo == {} && Cut(CandidatesIn(PcOf(w, d).seen), slice)
    case Look(d, c) => PcOf(w, d).RollingBack? && c in PcOf(w, d).todo
    case Act(d, _) => PcOf(w, d).Undoing? && Answered(PcOf(w, d).saw, Live(w, PcOf(w, d).id))
    case Finish(d) => (PcOf(w, d).RollingBack? || PcOf(w, d).Requesting?) && PcOf(w, d).todo == {}
    case LoadStep(d) => PcOf(w, d).Recording?
    case AppendStep(d) => PcOf(w, d).Appending?
    case Stop(_) => true
    case Move(c, to) => !Live(w, c).NotFound? && T.Moves(Live(w, c), to)
    case MoveReversal(c, to) => !Reversal(w, c).NotFound? && T.Moves(Reversal(w, c), to)
  }

  function CandidatesIn(es: Stream): set<Id> { Candidates(SpecOf(es), ChildStates(es)) }

  /** A cancel answers once the Transfer has left the state it cancels from. */
  predicate Answered(saw: T.OutcomeKind, now: T.OutcomeKind) {
    match saw
    case InFlight => !now.InFlight?
    case IsStaged => !now.IsStaged? && !now.IsPending?
    case IsPending => !now.IsStaged? && !now.IsPending?
    case _ => true
  }

  /** A request is decided once; asked again it returns what was decided. */
  function Requests(o: T.OutcomeKind, accept: bool): T.OutcomeKind {
    if o.NotFound? then (if accept then T.InFlight else T.Rejected) else o
  }

  function SetOf(slice: seq<Id>): set<Id> { set c | c in slice }

  /** runSaga's switch on the state it loaded. */
  function Begin(es: Stream): Pc {
    match TopLevelState(es)
    case IsInitialized => Reconciling(es, {}, false)
    case IsStarted => Reconciling(es, With(ChildStates(es), Requested), false)
    case IsRollingBack => Awaiting(es, With(ChildStates(es), ReversalRequested), false)
    case _ => Idle
  }

  function AfterOutcome(pc: Pc, c: Id, o: T.OutcomeKind): Pc
    requires pc.Reconciling?
  {
    var rest, todo := Reconciling(pc.seen, pc.todo - {c}, pc.moved), pc.todo - {c};
    match o
    case NotFound => Requesting({c}, rest)
    case Rejected => Requesting({c}, rest)
    case IsCommitted => Recording(Child(c, Done), Reconciling(pc.seen, todo, true))
    case IsFailed => Recording(Child(c, Failed), Reconciling(pc.seen, todo, true))
    case IsCancelled => Recording(Child(c, Failed), Reconciling(pc.seen, todo, true))
    case _ => rest
  }

  function AfterReconciling(pc: Pc, slice: seq<Id>): Pc
    requires pc.Reconciling?
  {
    if pc.moved then Idle
    else if Consequence(pc.seen).Some? then Recording(Consequence(pc.seen).value, Idle)
    else if slice == [] && !TopLevelState(pc.seen).IsInitialized? then Idle
    else Dispatching(pc.seen, slice)
  }

  /** What recordIntents appends: TransactionStarted leads the first slice. */
  function SliceEvents(seen: Stream, slice: seq<Id>): seq<Event> {
    if TopLevelState(seen).IsInitialized? then [Started] + Intents(slice) else Intents(slice)
  }

  function Moved(pc: Pc): Pc { if pc.Reconciling? then Reconciling(pc.seen, pc.todo, true) else pc }

  /** A rejection is recorded, and tells the run that something moved. */
  function AfterRequest(pc: Pc, c: Id, o: T.OutcomeKind): Pc
    requires pc.Requesting?
  {
    if o.Rejected? then Recording(Child(c, Failed), Requesting(pc.todo - {c}, Moved(pc.next)))
    else Requesting(pc.todo - {c}, pc.next)
  }

  function AfterReversal(pc: Pc, c: Id, o: T.OutcomeKind): Pc
    requires pc.Awaiting?
  {
    var todo := pc.todo - {c};
    match o
    case IsCommitted => Recording(Child(c, Undone), Awaiting(pc.seen, todo, true))
    case IsFailed => Recording(Child(c, Stuck), Awaiting(pc.seen, todo, true))
    case IsCancelled => Recording(Child(c, Stuck), Awaiting(pc.seen, todo, true))
    case Rejected => Recording(Child(c, Stuck), Awaiting(pc.seen, todo, true))
    case _ => Awaiting(pc.seen, todo, pc.moved)
  }

  function AfterAwaiting(pc: Pc, slice: seq<Id>): Pc
    requires pc.Awaiting?
  {
    if pc.moved then Idle
    else if slice != [] then RollingBack(SetOf(slice))
    else if Consequence(pc.seen).Some? then Recording(Consequence(pc.seen).value, Idle)
    else Idle
  }

  /** rollbackChild: what undoing a child takes, by the outcome read. */
  function Undo(w: World, d: nat, c: Id, saw: T.OutcomeKind, todo: set<Id>, accept: bool): World {
    match saw
    case NotFound =>
      Goto(w, d, RollingBack(todo + {c})).(transfers := w.transfers[c := Requests(Live(w, c), accept)])
    case IsCommitted =>
      var o := Requests(Reversal(w, c), accept);
      Goto(w, d, Recording(Child(c, if o.Rejected? then Stuck else ReversalRequested), RollingBack(todo)))
      .(reversals := w.reversals[c := o])
    case IsStaged =>
      Goto(w, d, Recording(Child(c, if Live(w, c).IsCancelled? then Undone else Stuck), RollingBack(todo)))
    case IsPending =>
      Goto(w, d, Recording(Child(c, if Live(w, c).IsCancelled? then Undone else Stuck), RollingBack(todo)))
    case InFlight =>
      Goto(w, d, if Live(w, c).IsCancelled? then Recording(Child(c, Undone), RollingBack(todo))
                 else RollingBack(todo + {c}))
    case _ => Goto(w, d, Recording(Child(c, Undone), RollingBack(todo)))
  }

  ghost function Step(w: World, a: Action): World
    requires Enabled(w, a)
  {
    match a
    case Open(d, transfers, deps, accept) =>
      var valid := V.Valid(transfers, deps) && accept;
      Goto(w, d, Opening(if valid then Initialized(Spec(transfers.Keys, deps)) else Rejected))
    case AppendOpening(d) => Goto(w, d, Idle).(stream := if w.stream == [] then [PcOf(w, d).event] else w.stream)
    case StartRollback(d) => Goto(w, d, Recording(RollbackStarted, Idle))
    case Load(d) => Goto(w, d, Begin(w.stream))
    case ReadOutcome(d, c) => Goto(w, d, AfterOutcome(PcOf(w, d), c, Live(w, c)))
    case Proceed(d, slice) => Goto(w, d, AfterReconciling(PcOf(w, d), slice))
    case AppendSlice(d) =>
      var pc := PcOf(w, d);
      if |w.stream| == |pc.seen|
      then Goto(w, d, Requesting(SetOf(pc.slice), Idle)).(stream := w.stream + SliceEvents(pc.seen, pc.slice))
      else Goto(w, d, Idle)
    case Request(d, c, accept) =>
      var o := Requests(Live(w, c), accept);
      Goto(w, d, AfterRequest(PcOf(w, d), c, o)).(transfers := w.transfers[c := o])
    case ReadReversal(d, c) => Goto(w, d, AfterReversal(PcOf(w, d), c, Reversal(w, c)))
    case ProceedRollback(d, slice) => Goto(w, d, AfterAwaiting(PcOf(w, d), slice))
    case Look(d, c) => Goto(w, d, Undoing(c, Live(w, c), PcOf(w, d).todo - {c}))
    case Act(d, accept) => var pc := PcOf(w, d); Undo(w, d, pc.id, pc.saw, pc.todo, accept)
    case Finish(d) => Goto(w, d, if PcOf(w, d).Requesting? then PcOf(w, d).next else Idle)
    case LoadStep(d) =>
      var pc := PcOf(w, d);
      Goto(w, d, if Appends(w.stream, pc.event) == [] then pc.next else Appending(w.stream, pc.event, pc.next))
    case AppendStep(d) =>
      var pc := PcOf(w, d);
      if |w.stream| == |pc.seen|
      then Goto(w, d, pc.next).(stream := w.stream + Appends(pc.seen, pc.event))
      else Goto(w, d, Recording(pc.event, pc.next))
    case Stop(d) => Goto(w, d, Idle)
    case Move(c, to) => w.(transfers := w.transfers[c := to])
    case MoveReversal(c, to) => w.(reversals := w.reversals[c := to])
  }

  const Start: World := World([], map[], map[], map[])

  /** The worlds a sequence of actions passes through. */
  ghost predicate IsRun(ws: seq<World>, actions: seq<Action>) {
    && |ws| == |actions| + 1 && ws[0] == Start
    && forall i :: 0 <= i < |actions| ==> Enabled(ws[i], actions[i]) && ws[i + 1] == Step(ws[i], actions[i])
  }

  ghost predicate Reachable(w: World) {
    exists ws, actions :: IsRun(ws, actions) && ws[|ws| - 1] == w
  }

  lemma ReachableStep(w: World, a: Action)
    requires Reachable(w) && Enabled(w, a)
    ensures Reachable(Step(w, a))
  {
    var ws, actions :| IsRun(ws, actions) && ws[|ws| - 1] == w;
    var ws', actions' := ws + [Step(w, a)], actions + [a];
    forall i | 0 <= i < |actions'| ensures Enabled(ws'[i], actions'[i]) && ws'[i + 1] == Step(ws'[i], actions'[i]) {
      if i < |actions| { assert ws'[i] == ws[i] && ws'[i + 1] == ws[i + 1] && actions'[i] == actions[i]; }
    }
    assert IsRun(ws', actions');
  }
}
