/** The saga consumer: partition workers, one committer, halts, shutdowns and
    restarts, interleaved at every hand-over (go/internal/saga/consumer.go). */
module Consumer {
  import opened Common

  /** A partition's worker: about to receive, holding a message it has not judged
      yet, handling one, or holding one it has handled. */
  datatype Worker = Ready | Got(offset: nat) | Handling(offset: nat) | Handled(offset: nat) | Stopped

  /** One partition. `committed` is the first offset not committed, `frontier`
      the first its worker has not got past, `position` the next to be fetched,
      `done` every offset ever handled, over all restarts. */
  datatype Lane = Lane(committed: nat, frontier: nat, position: nat, done: set<nat>, fetched: Option<nat>,
                       backlog: seq<nat>, worker: Worker, handled: seq<nat>, pending: Option<nat>)

  const NewLane: Lane := Lane(0, 0, 0, {}, None, [], Ready, [], None)

  datatype World = World(lanes: map<nat, Lane>, failed: bool, shutdown: bool, recording: bool)

  const Start: World := World(map[], false, false, true)

  function LaneOf(w: World, p: nat): Lane { if p in w.lanes then w.lanes[p] else NewLane }

  function Put(w: World, p: nat, l: Lane): World { w.(lanes := w.lanes[p := l]) }

  predicate Stopping(w: World) { w.failed || w.shutdown }

  datatype Action =
    | Fetch(p: nat)                    // the next message of a partition
    | Enqueue(p: nat)                  // into its worker's backlog
    | Drop(p: nat)                     // or nowhere, once stopping
    | Receive(p: nat)
    | Judge(p: nat)                    // stop, or start handling
    | Finish(p: nat, ok: bool)
    | HandOver(p: nat)
    | GiveUp(p: nat)                   // the committer has stopped
    | Take(p: nat)                     // the committer takes one
    | Commit(ok: bool, landed: set<nat>)
    | Shutdown
    | Restart                          // after any crash or exit

  predicate Enabled(w: World, a: Action) {
    match a
    case Fetch(p) => LaneOf(w, p).fetched.None?
    case Enqueue(p) => LaneOf(w, p).fetched.Some?
    case Drop(p) => LaneOf(w, p).fetched.Some? && Stopping(w)
    case Receive(p) => LaneOf(w, p).worker.Ready? && LaneOf(w, p).backlog != []
    case Judge(p) => LaneOf(w, p).worker.Got?
    case Finish(p, _) => LaneOf(w, p).worker.Handling?
    case HandOver(p) => LaneOf(w, p).worker.Handled?
    case GiveUp(p) => LaneOf(w, p).worker.Handled? && w.failed
    case Take(p) => LaneOf(w, p).handled != [] && w.recording
    case Commit(_, _) => w.recording
    case Shutdown => true
    case Restart => true
  }

  /** commitHandled's high-water mark. */
  function HigherOf(pending: Option<nat>, offset: nat): Option<nat> {
    if pending.None? || offset > pending.value then Some(offset) else pending
  }

  /** A commit records the mark whatever the partition held before. */
  function Record(l: Lane): Lane { if l.pending.Some? then l.(committed := l.pending.value + 1) else l }

  /** A fresh start: only what was committed, and what was handled, survives. */
  function Reborn(l: Lane): Lane {
    NewLane.(committed := l.committed, frontier := l.committed, position := l.committed, done := l.done)
  }

  function Step(w: World, a: Action): World
    requires Enabled(w, a)
  {
    match a
    case Fetch(p) => var l := LaneOf(w, p); Put(w, p, l.(fetched := Some(l.position), position := l.position + 1))
    case Enqueue(p) => var l := LaneOf(w, p); Put(w, p, l.(fetched := None, backlog := l.backlog + [l.fetched.value]))
    case Drop(p) => Put(w, p, LaneOf(w, p).(fetched := None))
    case Receive(p) => var l := LaneOf(w, p); Put(w, p, l.(backlog := l.backlog[1..], worker := Got(l.backlog[0])))
    case Judge(p) =>
      var l := LaneOf(w, p);
      Put(w, p, l.(worker := if Stopping(w) then Stopped else Handling(l.worker.offset)))
    case Finish(p, ok) =>
      var l := LaneOf(w, p);
      if ok then
        Put(w, p, l.(worker := Handled(l.worker.offset), done := l.done + {l.worker.offset},
                     frontier := l.worker.offset + 1))
      else Put(w, p, l.(worker := Stopped)).(failed := w.failed || !w.shutdown)
    case HandOver(p) => var l := LaneOf(w, p); Put(w, p, l.(handled := l.handled + [l.worker.offset], worker := Ready))
    case GiveUp(p) => Put(w, p, LaneOf(w, p).(worker := Stopped))
    case Take(p) =>
      var l := LaneOf(w, p);
      Put(w, p, l.(handled := l.handled[1..], pending := HigherOf(l.pending, l.handled[0])))
    case Commit(ok, landed) =>
      if ok then w.(lanes := map p | p in w.lanes :: Record(w.lanes[p]).(pending := None))
      else w.(lanes := map p | p in w.lanes :: if p in landed then Record(w.lanes[p]) else w.lanes[p],
              failed := w.failed || !w.shutdown, recording := w.shutdown)
    case Shutdown => w.(shutdown := true)
    case Restart => World(map p | p in w.lanes :: Reborn(w.lanes[p]), false, false, true)
  }

  ghost predicate IsRun(ws: seq<World>, actions: seq<Action>) {
    && |ws| == |actions| + 1 && ws[0] == Start
    && forall i :: 0 <= i < |actions| ==> Enabled(ws[i], actions[i]) && ws[i + 1] == Step(ws[i], actions[i])
  }

  // ---- One partition -------------------------------------------------------

  predicate Rising(s: seq<nat>) { forall i, j :: 0 <= i < j < |s| ==> s[i] < s[j] }

  /** What is on its way to the worker, in order: the next offset first and no
      gap, up to what has been fetched. */
  predicate Unbroken(l: Lane) {
    var next := l.frontier + if l.worker.Got? || l.worker.Handling? then 1 else 0;
    && (l.worker.Got? ==> l.worker.offset == l.frontier)
    && (forall i :: 0 <= i < |l.backlog| ==> l.backlog[i] == next + i)
    && l.position == next + |l.backlog| + (if l.fetched.Some? then 1 else 0)
    && (l.fetched.Some? ==> l.fetched.value == next + |l.backlog|)
  }

  /** What is on its way to the committer: handled, rising, and above what is
      committed. */
  predicate Owed(l: Lane) {
    && Rising(l.handled)
    && (forall i :: 0 <= i < |l.handled| ==> l.committed <= l.handled[i] < l.frontier)
    && (l.pending.Some? ==> l.committed <= l.pending.value + 1 && l.pending.value < l.frontier)
    && (l.pending.Some? ==> forall i :: 0 <= i < |l.handled| ==> l.pending.value < l.handled[i])
    && (l.worker.Handled? ==> l.worker.offset + 1 == l.frontier && l.committed <= l.worker.offset)
    && (l.worker.Handled? ==> forall i :: 0 <= i < |l.handled| ==> l.handled[i] < l.worker.offset)
    && (l.worker.Handled? && l.pending.Some? ==> l.pending.value < l.worker.offset)
  }

  predicate Sound(l: Lane, stopping: bool) {
    && (forall o :: 0 <= o < l.frontier ==> o in l.done) && l.committed <= l.frontier
    && (l.worker.Handling? ==> l.worker.offset == l.frontier)
    && Owed(l) && (!stopping ==> Unbroken(l))
  }

  ghost predicate Inv(w: World) { forall p :: Sound(LaneOf(w, p), Stopping(w)) }

  lemma PutKeeps(w: World, p: nat, l: Lane, failed: bool)
    requires Inv(w) && (w.failed ==> failed) && Sound(l, failed || w.shutdown)
    ensures Inv(Put(w, p, l).(failed := failed))
  {
    var w' := Put(w, p, l).(failed := failed);
    forall q ensures Sound(LaneOf(w', q), Stopping(w')) { if q != p { assert Sound(LaneOf(w, q), Stopping(w)); } }
  }

  /** Fetching and receiving keep the offsets unbroken. */
  lemma ArrivalKeeps(w: World, p: nat, a: Action)
    requires Inv(w) && Enabled(w, a) &&
      (a == Fetch(p) || a == Enqueue(p) || a == Drop(p) || a == Receive(p) || a == Judge(p))
    ensures Inv(Step(w, a))
  {
    assert Sound(LaneOf(w, p), Stopping(w));
    PutKeeps(w, p, LaneOf(Step(w, a), p), w.failed);
  }

  /** So does handling one, which owes its offset to the committer. */
  lemma HandlingKeeps(w: World, p: nat, ok: bool)
    requires Inv(w) && Enabled(w, Finish(p, ok))
    ensures Inv(Step(w, Finish(p, ok)))
  {
    assert Sound(LaneOf(w, p), Stopping(w));
    var w' := Step(w, Finish(p, ok));
    PutKeeps(w, p, LaneOf(w', p), w'.failed);
  }

  /** Offsets reach the committer in the order they were handled. */
  lemma HandOverKeeps(w: World, p: nat, a: Action)
    requires Inv(w) && Enabled(w, a) && (a == HandOver(p) || a == GiveUp(p) || a == Take(p))
    ensures Inv(Step(w, a))
  {
    assert Sound(LaneOf(w, p), Stopping(w));
    PutKeeps(w, p, LaneOf(Step(w, a), p), w.failed);
  }

  lemma CommitKeeps(w: World, ok: bool, landed: set<nat>)
    requires Inv(w)
    ensures w.recording ==> Inv(Step(w, Commit(ok, landed)))
  {
    if w.recording {
      var w' := Step(w, Commit(ok, landed));
      forall q ensures Sound(LaneOf(w', q), Stopping(w')) { assert Sound(LaneOf(w, q), Stopping(w)); }
    }
  }

  lemma StepKeeps(w: World, a: Action)
    requires Inv(w) && Enabled(w, a)
    ensures Inv(Step(w, a))
  {
    match a
    case Fetch(p) => ArrivalKeeps(w, p, a);
    case Enqueue(p) => ArrivalKeeps(w, p, a);
    case Drop(p) => ArrivalKeeps(w, p, a);
    case Receive(p) => ArrivalKeeps(w, p, a);
    case Judge(p) => ArrivalKeeps(w, p, a);
    case Finish(p, ok) => HandlingKeeps(w, p, ok);
    case HandOver(p) => HandOverKeeps(w, p, a);
    case GiveUp(p) => HandOverKeeps(w, p, a);
    case Take(p) => HandOverKeeps(w, p, a);
    case Commit(ok, landed) => CommitKeeps(w, ok, landed);
    case Shutdown => forall q ensures Sound(LaneOf(Step(w, a), q), true) { assert Sound(LaneOf(w, q), Stopping(w)); }
    case Restart => forall q ensures Sound(LaneOf(Step(w, a), q), false) { assert Sound(LaneOf(w, q), Stopping(w)); }
  }

  lemma {:induction false} RunKeepsInv(ws: seq<World>, actions: seq<Action>, n: nat)
    requires IsRun(ws, actions) && n < |ws|
    ensures Inv(ws[n])
  {
    if n > 0 {
      RunKeepsInv(ws, actions, n - 1);
      StepKeeps(ws[n - 1], actions[n - 1]);
    }
  }

  // ---- Theorems ------------------------------------------------------------

  /** A committed offset never passes unhandled work: every message below it has
      been handled, so no restart can skip one. */
  lemma CommittedIsHandled(ws: seq<World>, actions: seq<Action>, n: nat, p: nat, offset: nat)
    requires IsRun(ws, actions) && n < |ws| && offset < LaneOf(ws[n], p).committed
    ensures offset in LaneOf(ws[n], p).done
  {
    RunKeepsInv(ws, actions, n);
    assert Sound(LaneOf(ws[n], p), Stopping(ws[n]));
  }

  lemma StepForward(w: World, a: Action, p: nat)
    requires Inv(w) && Enabled(w, a)
    ensures LaneOf(w, p).committed <= LaneOf(Step(w, a), p).committed && LaneOf(w, p).done <= LaneOf(Step(w, a), p).done
  {
    assert Sound(LaneOf(w, p), Stopping(w));
  }

  /** No commit, restart or redelivery moves a partition's committed offset back,
      and what was handled stays handled. */
  lemma {:induction false} CommitsNeverGoBack(ws: seq<World>, actions: seq<Action>, m: nat, n: nat, p: nat)
    requires IsRun(ws, actions) && m <= n < |ws|
    ensures LaneOf(ws[m], p).committed <= LaneOf(ws[n], p).committed && LaneOf(ws[m], p).done <= LaneOf(ws[n], p).done
  {
    if m < n {
      CommitsNeverGoBack(ws, actions, m, n - 1, p);
      RunKeepsInv(ws, actions, n - 1);
      StepForward(ws[n - 1], actions[n - 1], p);
    }
  }

  /** Whatever is still unhandled when a consumer restarts is fetched again: the
      restarted reader stands at or before it. */
  lemma RestartMissesNothing(ws: seq<World>, actions: seq<Action>, n: nat, p: nat, offset: nat)
    requires IsRun(ws, actions) && n < |actions| && actions[n].Restart? && offset !in LaneOf(ws[n], p).done
    ensures LaneOf(ws[n + 1], p).position <= offset && LaneOf(ws[n + 1], p).done == LaneOf(ws[n], p).done
  {
    RunKeepsInv(ws, actions, n);
    assert Sound(LaneOf(ws[n], p), Stopping(ws[n]));
  }

  // ---- Nothing handled is left behind --------------------------------------

  /** Nothing of the partition is between its worker and a commit. */
  predicate Delivered(l: Lane) { !l.worker.Handled? && l.handled == [] }

  /** The last message got past is committed, or on its way: in the worker's
      hands, in the channel's last place, or the committer's mark. */
  predicate OnItsWay(l: Lane) {
    if l.worker.Handled? then l.worker.offset + 1 == l.frontier
    else if l.handled != [] then l.handled[|l.handled| - 1] + 1 == l.frontier
    else if l.pending.Some? then l.pending.value + 1 == l.frontier
    else l.committed == l.frontier
  }

  ghost predicate AllOnTheirWay(w: World) { w.failed || forall p :: OnItsWay(LaneOf(w, p)) }

  lemma CommitLosesNone(w: World, ok: bool, landed: set<nat>, p: nat)
    requires Sound(LaneOf(w, p), Stopping(w)) && w.recording && OnItsWay(LaneOf(w, p))
    ensures OnItsWay(LaneOf(Step(w, Commit(ok, landed)), p))
  {
  }

  lemma HandOverLosesNone(w: World, a: Action, p: nat)
    requires Enabled(w, a) && (a.HandOver? || a.Take?) && OnItsWay(LaneOf(w, p)) && Sound(LaneOf(w, p), Stopping(w))
    ensures OnItsWay(LaneOf(Step(w, a), p))
  {
  }

  lemma ArrivalLosesNone(w: World, a: Action, p: nat)
    requires Enabled(w, a) && OnItsWay(LaneOf(w, p))
    requires a.Fetch? || a.Enqueue? || a.Drop? || a.Receive? || a.Judge? || a.Finish? || a.Shutdown?
    ensures OnItsWay(LaneOf(Step(w, a), p))
  {
  }

  lemma StepLosesNone(w: World, a: Action, p: nat)
    requires Inv(w) && Enabled(w, a) && !a.Restart? && !Step(w, a).failed && OnItsWay(LaneOf(w, p))
    ensures OnItsWay(LaneOf(Step(w, a), p))
  {
    assert Sound(LaneOf(w, p), Stopping(w));
    if a.Commit? { CommitLosesNone(w, a.ok, a.landed, p); }
    else if a.HandOver? || a.Take? { HandOverLosesNone(w, a, p); }
    else { ArrivalLosesNone(w, a, p); }
  }

  lemma {:induction false} RunLosesNone(ws: seq<World>, actions: seq<Action>, n: nat)
    requires IsRun(ws, actions) && n < |ws|
    ensures AllOnTheirWay(ws[n])
  {
    if n > 0 {
      RunLosesNone(ws, actions, n - 1);
      RunKeepsInv(ws, actions, n - 1);
      if !ws[n].failed {
        forall p ensures OnItsWay(LaneOf(ws[n], p)) {
          if !actions[n - 1].Restart? { StepLosesNone(ws[n - 1], actions[n - 1], p); }
        }
      }
    }
  }

  /** A commit that succeeds once a partition has handed everything over commits
      all that was handled: a restart then fetches nothing again that was got
      past. So it is after a clean shutdown; a halt may lose the last one. */
  lemma CommitCatchesUp(ws: seq<World>, actions: seq<Action>, n: nat, p: nat, landed: set<nat>)
    requires IsRun(ws, actions) && n < |actions| && actions[n] == Commit(true, landed)
    requires !ws[n].failed && Delivered(LaneOf(ws[n], p))
    ensures LaneOf(ws[n + 1], p).committed == LaneOf(ws[n], p).frontier == LaneOf(ws[n + 1], p).frontier
  {
    RunLosesNone(ws, actions, n);
    assert OnItsWay(LaneOf(ws[n], p));
    RunKeepsInv(ws, actions, n);
    assert Sound(LaneOf(ws[n], p), Stopping(ws[n]));
  }

  // ---- The committer's batch -----------------------------------------------

  datatype Message = Message(partition: nat, offset: nat)

  predicate HandsOver(ms: seq<Message>, p: nat) { exists i :: 0 <= i < |ms| && ms[i].partition == p }

  /** `offset` is the largest handed over for `p`. */
  predicate IsHighest(ms: seq<Message>, p: nat, offset: nat) {
    Message(p, offset) in ms && forall i :: 0 <= i < |ms| && ms[i].partition == p ==> ms[i].offset <= offset
  }

  /** commitHandled's drain: one high-water mark for each partition that handed
      anything over, and none for the others. */
  method Drain(ms: seq<Message>) returns (pending: map<nat, nat>)
    ensures forall p :: p in pending <==> HandsOver(ms, p)
    ensures forall p :: p in pending ==> IsHighest(ms, p, pending[p])
  {
    pending := map[];
    for n := 0 to |ms|
      invariant forall p :: p in pending <==> HandsOver(ms[..n], p)
      invariant forall p :: p in pending ==> IsHighest(ms[..n], p, pending[p])
    {
      var m := ms[n];
      assert ms[..n + 1] == ms[..n] + [m];
      assert forall p :: HandsOver(ms[..n + 1], p) <==> HandsOver(ms[..n], p) || p == m.partition;
      if m.partition !in pending || m.offset > pending[m.partition] {
        pending := pending[m.partition := m.offset];
      }
    }
    assert ms[..|ms|] == ms;
  }
}
