/** A Transaction, the Transfers and Reversals of its children and everyone else,
    stepping together over one ledger (go/internal/transaction/saga.go,
    transfer/saga.go, transfer/manifest.go, wallet/tokens.go). */
module TransactionSystem {
  import opened Common
  import L = Ledger
  import LI = LedgerInvariant
  import M = Manifest
  import T = TransferStream
  import P = TransferProtocol
  import S = TransactionSaga
  import I = Isolation
  import opened Dag
  import opened TransactionStream
  import opened TransactionLedger
  import opened IsolationLedger

  /** One of the Transaction's Transfers: a child's own, or its Reversal. */
  datatype Part = Forward(child: Id) | Backward(child: Id)

  /** A Transfer's stream and drivers; the ledger is everyone's. */
  datatype Proc = Proc(stream: T.Stream, drivers: map<nat, P.Pc>)

  /** What does not change: the Transaction's id, who draws the ledger ids of each
      part, and the Token each child mints to pay into. */
  datatype Cast = Cast(me: Id, draws: map<Part, nat>, dest: map<Id, Id>)

  ghost predicate IsCast(k: Cast) {
    && (forall x: Part :: x in k.draws <==> x.child in k.dest)
    && (forall x, y :: x in k.draws && y in k.draws && x != y ==> k.draws[x] != k.draws[y])
    && (forall c, x :: c in k.dest && x in k.dest && c != x ==> k.dest[c] != k.dest[x])
  }

  datatype System = System(scene: I.Scene, ledger: L.State, procs: map<Part, Proc>)

  function WorldOf(j: System, x: Part): P.World
    requires x in j.procs
  {
    P.World(j.procs[x].stream, j.ledger, j.procs[x].drivers)
  }

  function LegsAt(j: System, x: Part): Option<seq<T.Leg>>
    requires x in j.procs
  {
    T.LegsOf(j.procs[x].stream)
  }

  /** The outcome the Transaction reads. */
  function OutcomeAt(saga: S.World, x: Part): T.OutcomeKind {
    match x case Forward(c) => S.Live(saga, c) case Backward(c) => S.Reversal(saga, c)
  }

  // ---- Calls ---------------------------------------------------------------

  /** The request a saga step makes of a Transfer. */
  datatype Call = Call(part: Part, accept: bool)

  function CallOf(saga: S.World, a: S.Action): Option<Call> {
    match a
    case Request(_, c, accept) => Some(Call(Forward(c), accept))
    case Act(d, accept) =>
      var pc := S.PcOf(saga, d);
      if !pc.Undoing? then None
      else if pc.saw.NotFound? then Some(Call(Forward(pc.id), accept))
      else if pc.saw.IsCommitted? then Some(Call(Backward(pc.id), accept))
      else None
    case _ => None
  }

  /** A request of a Transfer that has not been asked for before begins it. */
  predicate Begins(j: System, a: I.Action) {
    && a.Saga? && CallOf(j.scene.saga, a.step).Some?
    && var x := CallOf(j.scene.saga, a.step).value.part; x in j.procs && OutcomeAt(j.scene.saga, x).NotFound?
  }

  /** Driver `d` is there to take the request. */
  predicate Answers(j: System, a: I.Action, d: nat) {
    Begins(j, a) ==> P.PcOf(WorldOf(j, CallOf(j.scene.saga, a.step).value.part), d).Idle?
  }

  function Begun(p: Proc, accept: bool, stage: bool, d: nat): Proc {
    Proc([if accept then T.Accepted(stage) else T.RequestRejected], p.drivers[d := P.Idle])
  }

  // ---- Plans ---------------------------------------------------------------

  /** What a part may plan. A child pays into the Token it minted under the
      Transaction's tag, and spends another child's only if it depends on it. A
      Reversal swaps the legs its original prepared. */
  ghost predicate Fits(k: Cast, j: System, x: Part, legs: seq<T.Leg>)
    requires x in k.draws && IsCast(k) && j.procs.Keys == k.draws.Keys
  {
    match x
    case Forward(c) =>
      && j.scene.saga.stream != [] && I.Tagged(j.scene.minted, k.dest[c], Some(k.me)) && k.dest[c] in j.ledger.accounts
      && forall i :: 0 <= i < |legs| ==> LegFits(k, SpecOf(j.scene.saga.stream).deps, c, legs[i])
    case Backward(c) =>
      && LegsAt(j, Forward(c)).Some? && M.Plain(legs) == M.Reversed(M.Plain(LegsAt(j, Forward(c)).value))
  }

  ghost predicate LegFits(k: Cast, deps: Deps, c: Id, leg: T.Leg)
    requires c in k.dest
  {
    && leg.dest == k.dest[c] && leg.source != k.dest[c]
    && forall x :: x in k.dest && leg.source == k.dest[x] ==> DependsOn(deps, c, x)
  }

  /** A plan some driver of `p` is about to append. */
  ghost predicate Planned(p: Proc, legs: seq<T.Leg>) {
    exists d, seen :: d in p.drivers && p.drivers[d] == P.Trying(seen, P.Prepare(legs))
  }

  // ---- Steps ---------------------------------------------------------------

  datatype Action =
    | Scene(a: I.Action, stage: bool, d: nat)   // the Transaction's saga, Tokens and outside callers
    | Drive(part: Part, p: P.Action)             // a driver of one of its Transfers
    | Outside(run: seq<L.Transfer>)              // an outside caller's ledger run
    | OpenAccount(op: LI.Op)

  /** Its Transfers' own progress is not the saga's to make, and the stream opens
      with the children of the cast. */
  ghost predicate SceneEnabled(k: Cast, j: System, a: I.Action, d: nat) {
    && I.Enabled(k.me, j.scene, a)
    && (a.Saga? ==> !a.step.Move? && !a.step.MoveReversal?)
    && Answers(j, a, d)
    && var saga' := I.Step(k.me, j.scene, a).saga;
       j.scene.saga.stream == [] && saga'.stream != [] && saga'.stream[0].Initialized? ==>
         saga'.stream[0].spec.nodes == k.dest.Keys
  }

  /** Only a request begins a Transfer, and only fitting plans are made. */
  ghost predicate DriveEnabled(k: Cast, j: System, x: Part, a: P.Action)
    requires IsCast(k) && j.procs.Keys == k.draws.Keys
  {
    && x in j.procs && !a.Outside? && !a.OpenAccount? && P.Enabled(k.draws[x], WorldOf(j, x), a)
    && (a.Decide? && a.decision.Prepare? ==>
          && Fits(k, j, x, a.decision.plan)
          && (x.Backward? ==> T.Outcome(j.procs[Forward(x.child)].stream).IsCommitted?))
    && var o := T.Outcome(P.Step(k.draws[x], WorldOf(j, x), a).stream);
       T.Outcome(j.procs[x].stream).NotFound? ==> o.NotFound?
  }

  ghost predicate Enabled(k: Cast, j: System, a: Action)
    requires IsCast(k) && j.procs.Keys == k.draws.Keys
  {
    match a
    case Scene(s, _, d) => SceneEnabled(k, j, s, d)
    case Drive(x, p) => DriveEnabled(k, j, x, p)
    case Outside(run) =>
      && LI.Proper(run) && (forall x :: x in k.draws ==> P.Foreign(k.draws[x], run))
      && forall i :: 0 <= i < |run| && LI.Moves(L.Store(run[i])) ==> Carried(L.Store(run[i]), j.scene.posted)
    case OpenAccount(op) => op.OpenAccount?
  }

  /** What the Transaction sees of a Transfer's step. */
  ghost function Shown(k: Cast, scene: I.Scene, x: Part, o: T.OutcomeKind): I.Scene {
    if OutcomeAt(scene.saga, x) == o then scene
    else
      var step := match x case Forward(c) => S.Move(c, o) case Backward(c) => S.MoveReversal(c, o);
      if I.Enabled(k.me, scene, I.Saga(step)) then I.Step(k.me, scene, I.Saga(step)) else scene
  }

  /** The Transfers as a step of the scene leaves them. */
  function Asked(j: System, a: I.Action, stage: bool, d: nat): map<Part, Proc> {
    if Begins(j, a) then
      var call := CallOf(j.scene.saga, a.step).value;
      j.procs[call.part := Begun(j.procs[call.part], call.accept, stage, d)]
    else j.procs
  }

  ghost function SceneStep(k: Cast, j: System, a: I.Action, stage: bool, d: nat): System
    requires I.Enabled(k.me, j.scene, a)
  {
    System(I.Step(k.me, j.scene, a), j.ledger, Asked(j, a, stage, d))
  }

  ghost function DriveStep(k: Cast, j: System, x: Part, a: P.Action): System
    requires x in j.procs && x in k.draws && P.Enabled(k.draws[x], WorldOf(j, x), a)
  {
    var w := P.Step(k.draws[x], WorldOf(j, x), a);
    System(Shown(k, j.scene, x, T.Outcome(w.stream)), w.ledger, j.procs[x := Proc(w.stream, w.drivers)])
  }

  ghost function Step(k: Cast, j: System, a: Action): System
    requires IsCast(k) && j.procs.Keys == k.draws.Keys && Enabled(k, j, a)
  {
    match a
    case Scene(s, stage, d) => SceneStep(k, j, s, stage, d)
    case Drive(x, p) => DriveStep(k, j, x, p)
    case Outside(run) => j.(ledger := L.ApplyRun(j.ledger, run))
    case OpenAccount(op) => j.(ledger := LI.Perform(j.ledger, op))
  }

  ghost predicate IsStart(k: Cast, j: System) {
    && j.scene == I.Start && j.ledger == L.State(map[], map[], map[])
    && j.procs.Keys == k.draws.Keys && forall x :: x in j.procs ==> j.procs[x] == Proc([], map[])
  }

  ghost predicate Follows(k: Cast, j: System, a: Action, j': System)
    requires IsCast(k)
  {
    j.procs.Keys == k.draws.Keys && Enabled(k, j, a) && j' == Step(k, j, a)
  }

  /** A run of these actions ends at `j`. */
  ghost predicate Reaches(k: Cast, actions: seq<Action>, j: System)
    requires IsCast(k)
  {
    if actions == [] then IsStart(k, j)
    else
      var n := |actions| - 1;
      exists before :: Reaches(k, actions[..n], before) && Follows(k, before, actions[n], j)
  }

  ghost predicate Reachable(k: Cast, j: System) { IsCast(k) && exists actions :: Reaches(k, actions, j) }

  lemma ReachableStep(k: Cast, j: System, a: Action, j': System)
    requires Reachable(k, j) && Follows(k, j, a, j')
    ensures Reachable(k, j')
  {
    var actions :| Reaches(k, actions, j);
    assert (actions + [a])[..|actions|] == actions;
    assert Reaches(k, actions + [a], j');
  }

  /** The children's Transfers and Reversals, as one ledger holds them. */
  ghost function PairsOf(k: Cast, j: System): (cs: Pairs)
    requires IsCast(k) && j.procs.Keys == k.draws.Keys
    ensures cs.Keys == k.dest.Keys
  {
    map c | c in k.dest ::
      Pair(k.draws[Forward(c)], WorldOf(j, Forward(c)), k.draws[Backward(c)], WorldOf(j, Backward(c)))
  }
}
