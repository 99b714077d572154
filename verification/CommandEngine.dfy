/**
 * The command engine: workers take numbered commands from one queue and start them strictly in the
 * order of their tickets. Every mutex section is one action and any worker may act next.
 */
module CommandEngine {
  import opened Counting

  /** A worker: waiting for work, at the gate, through it, running a command, leaving one unrun, gone. */
  datatype Worker =
    | Idle | AtGate(order: nat) | Passed(order: nat) | Running(order: nat, advanced: bool) | Leaving(order: nat) | Gone

  predicate Holds(w: Worker, order: nat) { !w.Idle? && !w.Gone? && w.order == order }

  /** `starts` and `settled` record history: runner calls in order, and commands with an outcome. */
  datatype Engine = Engine(
    pending: seq<nat>, nextOrder: nat, nextEntry: nat, stop: bool, workers: seq<Worker>,
    starts: seq<nat>, settled: seq<nat>)

  function Started(workers: nat): Engine { Engine([], 0, 0, false, seq(workers, _ => Idle), [], []) }

  function Put(e: Engine, i: nat, w: Worker): Engine
    requires i < |e.workers|
  {
    e.(workers := e.workers[i := w])
  }

  function Submit(e: Engine): Engine {
    if e.stop then e else e.(pending := e.pending + [e.nextOrder], nextOrder := e.nextOrder + 1)
  }

  function Dequeue(e: Engine, i: nat): Engine {
    if i >= |e.workers| || !e.workers[i].Idle? then e
    else if e.pending == [] then if e.stop then Put(e, i, Gone) else e
    else Put(e, i, AtGate(e.pending[0])).(pending := e.pending[1..])
  }

  function AdvanceEntry(e: Engine, order: nat): Engine {
    if order == e.nextEntry then e.(nextEntry := e.nextEntry + 1) else e
  }

  function SettleIdle(e: Engine, i: nat, order: nat): Engine
    requires i < |e.workers|
  {
    Put(e, i, Idle).(settled := e.settled + [order])
  }

  /** Woken at the gate: by a stop, which cancels, or by the command's turn. */
  function PassGate(e: Engine, i: nat): Engine {
    if i >= |e.workers| || !e.workers[i].AtGate? then e
    else if e.stop then Put(e, i, Leaving(e.workers[i].order))
    else if e.workers[i].order == e.nextEntry then Put(e, i, Passed(e.workers[i].order))
    else e
  }

  /** A withdrawn or expired command gives up its turn without running; its outcome follows. */
  function Skip(e: Engine, i: nat): Engine {
    if i < |e.workers| && e.workers[i].Passed?
    then Put(AdvanceEntry(e, e.workers[i].order), i, Leaving(e.workers[i].order)) else e
  }

  function StartRunner(e: Engine, i: nat): Engine {
    if i < |e.workers| && e.workers[i].Passed?
    then Put(e, i, Running(e.workers[i].order, false)).(starts := e.starts + [e.workers[i].order]) else e
  }

  /** The guard moves the gate on once: when the transport reports entry, or else when the runner returns. */
  function Notify(e: Engine, i: nat): Engine {
    if i < |e.workers| && e.workers[i].Running? && !e.workers[i].advanced
    then Put(AdvanceEntry(e, e.workers[i].order), i, Running(e.workers[i].order, true)) else e
  }

  predicate Ending(w: Worker) { w.Leaving? || (w.Running? && w.advanced) }

  /** The outcome is published and the worker goes back for more. */
  function Finish(e: Engine, i: nat): Engine {
    if i < |e.workers| && Ending(e.workers[i]) then SettleIdle(e, i, e.workers[i].order) else e
  }

  datatype Action =
    | DoSubmit | DoStop
    | DoDequeue(i: nat) | DoPassGate(i: nat) | DoSkip(i: nat) | DoStart(i: nat) | DoNotify(i: nat) | DoFinish(i: nat)

  function Act(e: Engine, a: Action): Engine {
    match a
    case DoSubmit => Submit(e)
    case DoStop => e.(stop := true)
    case DoDequeue(i) => Dequeue(e, i)
    case DoPassGate(i) => PassGate(e, i)
    case DoSkip(i) => Skip(e, i)
    case DoStart(i) => StartRunner(e, i)
    case DoNotify(i) => Notify(e, i)
    case DoFinish(i) => Finish(e, i)
  }

  function ActAll(e: Engine, actions: seq<Action>): Engine
    decreases |actions|
  {
    if actions == [] then e else ActAll(Act(e, actions[0]), actions[1..])
  }

  // ----------------------------------------------------------- the invariant

  function HeldCount(ws: seq<Worker>, order: nat): nat
    decreases |ws|
  {
    if ws == [] then 0 else (if Holds(ws[0], order) then 1 else 0) + HeldCount(ws[1..], order)
  }

  lemma {:induction false} HeldUpdate(ws: seq<Worker>, i: nat, w: Worker, order: nat)
    requires i < |ws|
    ensures HeldCount(ws[i := w], order) + (if Holds(ws[i], order) then 1 else 0)
         == HeldCount(ws, order) + (if Holds(w, order) then 1 else 0)
    decreases |ws|
  {
    if i == 0 {
      assert ws[0 := w][1..] == ws[1..];
    } else {
      assert ws[i := w][1..] == ws[1..][i - 1 := w];
      HeldUpdate(ws[1..], i - 1, w, order);
    }
  }

  lemma {:induction false} HeldOnce(ws: seq<Worker>, i: nat, order: nat)
    requires i < |ws| && Holds(ws[i], order)
    ensures HeldCount(ws, order) >= 1
    ensures forall j :: 0 <= j < |ws| && j != i && Holds(ws[j], order) ==> HeldCount(ws, order) >= 2
    decreases |ws|
  {
    if i > 0 {
      HeldOnce(ws[1..], i - 1, order);
      forall j | 0 <= j < |ws| && j != i && Holds(ws[j], order) ensures HeldCount(ws, order) >= 2 {
        if j > 0 { assert ws[1..][j - 1] == ws[j]; }
      }
    } else {
      forall j | 0 <= j < |ws| && j != i && Holds(ws[j], order) ensures HeldCount(ws, order) >= 2 {
        assert ws[1..][j - 1] == ws[j];
        HeldOnce(ws[1..], j - 1, order);
      }
    }
  }

  lemma {:induction false} HeldByNone(ws: seq<Worker>, order: nat)
    requires forall i :: 0 <= i < |ws| ==> !Holds(ws[i], order)
    ensures HeldCount(ws, order) == 0
    decreases |ws|
  {
    if ws != [] { HeldByNone(ws[1..], order); }
  }

  function Front(e: Engine): int { e.nextOrder - |e.pending| }

  /** The queue holds the newest tickets, in order. */
  ghost predicate QueueInv(e: Engine) {
    && e.nextEntry <= Front(e)
    && forall i :: 0 <= i < |e.pending| ==> e.pending[i] == Front(e) + i
  }

  ghost predicate PlacedOnce(e: Engine, order: nat) {
    Count(e.pending, order) + HeldCount(e.workers, order) + Count(e.settled, order) ==
      if order < e.nextOrder then 1 else 0
  }

  ghost predicate WorkerOk(e: Engine, w: Worker) {
    match w
    case Idle => true
    case AtGate(order) => e.nextEntry <= order < Front(e)
    case Passed(order) => order == e.nextEntry < Front(e)
    case Running(order, advanced) => if advanced then order < e.nextEntry else order == e.nextEntry < Front(e)
    case Leaving(order) => order < e.nextEntry || (e.stop && order < Front(e))
    case Gone => e.stop && e.pending == []
  }

  ghost predicate WorkersInv(e: Engine) { forall i :: 0 <= i < |e.workers| ==> WorkerOk(e, e.workers[i]) }

  predicate Increasing(s: seq<nat>) { forall i, j :: 0 <= i < j < |s| ==> s[i] < s[j] }

  ghost predicate HistoryInv(e: Engine) {
    && Increasing(e.starts)
    && (forall i :: 0 <= i < |e.starts| ==> e.starts[i] <= e.nextEntry)
    && (e.nextEntry in e.starts ==> Running(e.nextEntry, false) in e.workers)
    && (!e.stop ==> forall order :: order in e.settled ==> order < e.nextEntry)
  }

  ghost predicate Inv(e: Engine) {
    QueueInv(e) && (forall order :: PlacedOnce(e, order)) && WorkersInv(e) && HistoryInv(e)
  }

  /** No two workers hold one ticket. */
  lemma HeldApart(e: Engine, i: nat, j: nat, order: nat)
    requires PlacedOnce(e, order) && i < |e.workers| && j < |e.workers| && i != j && Holds(e.workers[i], order)
    ensures !Holds(e.workers[j], order)
  {
    HeldOnce(e.workers, i, order);
  }

  lemma SubmitKeeps(e: Engine)
    requires Inv(e)
    ensures Inv(Submit(e))
  {
    var n := Submit(e);
    forall order ensures PlacedOnce(n, order) {
      assert PlacedOnce(e, order);
      CountSnoc(e.pending, e.nextOrder, order);
    }
    assert QueueInv(n) && WorkersInv(n) && HistoryInv(n) by { hide PlacedOnce, Increasing; }
  }

  lemma DequeueKeeps(e: Engine, i: nat)
    requires Inv(e)
    ensures Inv(Dequeue(e, i))
  {
    var n := Dequeue(e, i);
    if i < |e.workers| && e.workers[i].Idle? {
      forall order ensures PlacedOnce(n, order) {
        assert PlacedOnce(e, order);
        HeldUpdate(e.workers, i, n.workers[i], order);
        if e.pending != [] { CountHead(e.pending, order); }
      }
      KeepsRunner(e, n, i);
      hide PlacedOnce, Increasing, HeldCount;
    }
  }

  /** A worker that is not the one running the entry ticket leaves that one in place. */
  lemma KeepsRunner(e: Engine, n: Engine, i: nat)
    requires i < |e.workers| == |n.workers| && n.workers == e.workers[i := n.workers[i]]
    requires e.workers[i] != Running(e.nextEntry, false)
    ensures Running(e.nextEntry, false) in e.workers ==> Running(e.nextEntry, false) in n.workers
  {
    if Running(e.nextEntry, false) in e.workers {
      var j :| 0 <= j < |e.workers| && e.workers[j] == Running(e.nextEntry, false);
      assert n.workers[j] == e.workers[j];
    }
  }

  lemma PlacesMove(e: Engine, n: Engine, i: nat)
    requires i < |e.workers| == |n.workers| && n.workers == e.workers[i := n.workers[i]]
    requires n.pending == e.pending && n.nextOrder == e.nextOrder && forall order :: PlacedOnce(e, order)
    requires !e.workers[i].Idle? && !e.workers[i].Gone?
    requires (n.settled == e.settled && Holds(n.workers[i], e.workers[i].order)) ||
             (n.settled == e.settled + [e.workers[i].order] && n.workers[i].Idle?)
    ensures forall order :: PlacedOnce(n, order)
  {
    forall order ensures PlacedOnce(n, order) {
      assert PlacedOnce(e, order);
      HeldUpdate(e.workers, i, n.workers[i], order);
      CountSnoc(e.settled, e.workers[i].order, order);
    }
  }

  lemma PassGateKeeps(e: Engine, i: nat)
    requires Inv(e)
    ensures Inv(PassGate(e, i))
  {
    var n := PassGate(e, i);
    if n != e {
      PlacesMove(e, n, i);
      KeepsRunner(e, n, i);
      hide PlacedOnce, Increasing;
    }
  }

  lemma StartKeeps(e: Engine, i: nat)
    requires Inv(e)
    ensures Inv(StartRunner(e, i))
  {
    if i < |e.workers| && e.workers[i].Passed? {
      var n := StartRunner(e, i);
      PlacesMove(e, n, i);
      NotYetStarted(e, i);
      assert n.workers[i] == Running(e.nextEntry, false);
      hide PlacedOnce;
    }
  }

  lemma NotYetStarted(e: Engine, i: nat)
    requires Inv(e) && i < |e.workers| && e.workers[i].Passed?
    ensures e.workers[i].order == e.nextEntry && e.nextEntry !in e.starts
    ensures forall k :: 0 <= k < |e.starts| ==> e.starts[k] < e.nextEntry
  {
    assert WorkerOk(e, e.workers[i]);
    forall j | 0 <= j < |e.workers| ensures e.workers[j] != Running(e.nextEntry, false) {
      assert PlacedOnce(e, e.nextEntry);
      if j != i { HeldApart(e, i, j, e.nextEntry); }
    }
    hide PlacedOnce, WorkersInv, QueueInv;
    assert e.nextEntry !in e.starts;
  }

  /** The holder of the entry ticket moves the gate on; every other ticket at the gate is later. */
  lemma AdvanceWorkers(e: Engine, n: Engine, i: nat)
    requires Inv(e) && i < |e.workers| && Holds(e.workers[i], e.nextEntry) && e.nextEntry < Front(e)
    requires n.pending == e.pending && n.nextOrder == e.nextOrder && n.stop == e.stop && n.nextEntry == e.nextEntry + 1
    requires |n.workers| == |e.workers| && n.workers == e.workers[i := n.workers[i]]
    requires n.workers[i] == Leaving(e.nextEntry) || n.workers[i] == Running(e.nextEntry, true)
    ensures QueueInv(n) && WorkersInv(n)
  {
    forall j | 0 <= j < |n.workers| ensures WorkerOk(n, n.workers[j]) {
      assert WorkerOk(e, e.workers[j]);
      if j != i {
        assert PlacedOnce(e, e.nextEntry);
        HeldApart(e, i, j, e.nextEntry);
        assert n.workers[j] == e.workers[j];
      }
    }
    hide PlacedOnce;
  }

  lemma SkipKeeps(e: Engine, i: nat)
    requires Inv(e)
    ensures Inv(Skip(e, i))
  {
    if i < |e.workers| && e.workers[i].Passed? {
      var n := Skip(e, i);
      NotYetStarted(e, i);
      assert WorkerOk(e, e.workers[i]);
      PlacesMove(e, n, i);
      AdvanceWorkers(e, n, i);
      hide PlacedOnce, WorkersInv, QueueInv;
    }
  }

  lemma NotifyKeeps(e: Engine, i: nat)
    requires Inv(e)
    ensures Inv(Notify(e, i))
  {
    if i < |e.workers| && e.workers[i].Running? && !e.workers[i].advanced {
      var n := Notify(e, i);
      assert WorkerOk(e, e.workers[i]);
      PlacesMove(e, n, i);
      AdvanceWorkers(e, n, i);
      hide PlacedOnce, WorkersInv, QueueInv;
    }
  }

  lemma FinishKeeps(e: Engine, i: nat)
    requires Inv(e)
    ensures Inv(Finish(e, i))
  {
    if i < |e.workers| && Ending(e.workers[i]) {
      var n := Finish(e, i);
      assert WorkerOk(e, e.workers[i]);
      PlacesMove(e, n, i);
      KeepsRunner(e, n, i);
      hide PlacedOnce, Increasing;
    }
  }

  lemma StopKeeps(e: Engine)
    requires Inv(e)
    ensures Inv(e.(stop := true))
  {
    var n := e.(stop := true);
    forall order ensures PlacedOnce(n, order) { assert PlacedOnce(e, order); }
    hide PlacedOnce, Increasing;
  }

  lemma ActKeeps(e: Engine, a: Action)
    requires Inv(e)
    ensures Inv(Act(e, a))
  {
    hide Inv, Submit, Dequeue, PassGate, Skip, StartRunner, Notify, Finish;
    match a {
      case DoSubmit => SubmitKeeps(e);
      case DoStop => StopKeeps(e);
      case DoDequeue(i) => DequeueKeeps(e, i);
      case DoPassGate(i) => PassGateKeeps(e, i);
      case DoSkip(i) => SkipKeeps(e, i);
      case DoStart(i) => StartKeeps(e, i);
      case DoNotify(i) => NotifyKeeps(e, i);
      case DoFinish(i) => FinishKeeps(e, i);
    }
  }

  lemma {:induction false} ActAllKeeps(e: Engine, actions: seq<Action>)
    requires Inv(e)
    ensures Inv(ActAll(e, actions))
    decreases |actions|
  {
    if actions != [] {
      hide Inv, Act;
      ActKeeps(e, actions[0]);
      ActAllKeeps(Act(e, actions[0]), actions[1..]);
    }
  }

  lemma StartedInv(workers: nat)
    ensures Inv(Started(workers))
  {
    var e := Started(workers);
    forall order ensures PlacedOnce(e, order) { HeldByNone(e.workers, order); }
  }

  // ------------------------------------------------------------ main results

  /** Over every run: runner calls start in submission order, and every ticket is in exactly one place. */
  lemma StartsFollowTickets(workers: nat, actions: seq<Action>, order: nat)
    ensures var e := ActAll(Started(workers), actions);
            && Increasing(e.starts)
            && Count(e.pending, order) + HeldCount(e.workers, order) + Count(e.settled, order) ==
                 (if order < e.nextOrder then 1 else 0)
            && (!e.stop && e.nextEntry <= order < e.nextOrder ==>
                 Count(e.pending, order) + HeldCount(e.workers, order) == 1)
  {
    StartedInv(workers);
    ActAllKeeps(Started(workers), actions);
    var e := ActAll(Started(workers), actions);
    assert PlacedOnce(e, order);
    if order !in e.settled { assert Count(e.settled, order) == 0; }
    hide ActAll;
  }

  predicate Blocked(e: Engine, w: Worker) { w.AtGate? && !e.stop && w.order != e.nextEntry }

  /** In no reachable state are all workers blocked at the gate. */
  lemma NeverAllBlocked(workers: nat, actions: seq<Action>)
    requires workers > 0
    ensures var e := ActAll(Started(workers), actions); exists i :: 0 <= i < |e.workers| && !Blocked(e, e.workers[i])
  {
    StartedInv(workers);
    ActAllKeeps(Started(workers), actions);
    WorkerCount(Started(workers), actions);
    var e := ActAll(Started(workers), actions);
    hide ActAll;
    SomeoneUnblocked(e);
  }

  lemma {:induction false} WorkerCount(e: Engine, actions: seq<Action>)
    ensures |ActAll(e, actions).workers| == |e.workers|
    decreases |actions|
  {
    if actions != [] { WorkerCount(Act(e, actions[0]), actions[1..]); }
  }

  lemma SomeoneUnblocked(e: Engine)
    requires Inv(e) && e.workers != []
    ensures exists i :: 0 <= i < |e.workers| && !Blocked(e, e.workers[i])
  {
    if Blocked(e, e.workers[0]) {
      assert WorkerOk(e, e.workers[0]);
      EntryIsHeld(e);
      var i :| 0 <= i < |e.workers| && Holds(e.workers[i], e.nextEntry);
      assert !Blocked(e, e.workers[i]);
    }
  }

  /** A ticket older than the queue that has not settled is held by a worker. */
  lemma EntryIsHeld(e: Engine)
    requires Inv(e) && !e.stop && e.nextEntry < Front(e)
    ensures exists i :: 0 <= i < |e.workers| && Holds(e.workers[i], e.nextEntry)
  {
    var t := e.nextEntry;
    assert PlacedOnce(e, t);
    assert t !in e.pending && t !in e.settled;
    assert Count(e.pending, t) == 0 && Count(e.settled, t) == 0;
    if forall i :: 0 <= i < |e.workers| ==> !Holds(e.workers[i], t) {
      HeldByNone(e.workers, t);
      assert false;
    }
  }

  // -------------------------------------------------------- every command settles

  predicate AllSettled(e: Engine) {
    e.pending == [] && forall i :: 0 <= i < |e.workers| ==> e.workers[i].Idle? || e.workers[i].Gone?
  }

  /** The next thing a worker does. */
  function NextStep(w: Worker, i: nat): Action {
    match w
    case Idle => DoDequeue(i)
    case AtGate(_) => DoPassGate(i)
    case Passed(_) => DoStart(i)
    case Running(_, advanced) => if advanced then DoFinish(i) else DoNotify(i)
    case Leaving(_) => DoFinish(i)
    case Gone => DoDequeue(i)
  }

  predicate CanMove(e: Engine, w: Worker) {
    if w.Idle? then e.stop || e.pending != [] else !w.Gone? && !Blocked(e, w)
  }

  /** While any accepted command is unsettled some worker can move. */
  lemma SomeoneMoves(e: Engine) returns (i: nat)
    requires Inv(e) && e.workers != [] && !AllSettled(e)
    ensures i < |e.workers| && CanMove(e, e.workers[i])
  {
    if busy :| 0 <= busy < |e.workers| && !e.workers[busy].Idle? && !e.workers[busy].Gone? {
      i := busy;
      if Blocked(e, e.workers[i]) {
        assert WorkerOk(e, e.workers[i]);
        EntryIsHeld(e);
        i :| 0 <= i < |e.workers| && Holds(e.workers[i], e.nextEntry);
      }
    } else {
      i := 0;
      assert WorkerOk(e, e.workers[0]);
    }
  }

  function Weight(w: Worker): nat {
    match w
    case Idle => 1
    case AtGate(_) => 5
    case Passed(_) => 4
    case Running(_, advanced) => if advanced then 2 else 3
    case Leaving(_) => 2
    case Gone => 0
  }

  function TotalWeight(ws: seq<Worker>): nat
    decreases |ws|
  {
    if ws == [] then 0 else Weight(ws[0]) + TotalWeight(ws[1..])
  }

  lemma {:induction false} WeightUpdate(ws: seq<Worker>, i: nat, w: Worker)
    requires i < |ws|
    ensures TotalWeight(ws[i := w]) + Weight(ws[i]) == TotalWeight(ws) + Weight(w)
    decreases |ws|
  {
    if i == 0 {
      assert ws[0 := w][1..] == ws[1..];
    } else {
      assert ws[i := w][1..] == ws[1..][i - 1 := w];
      WeightUpdate(ws[1..], i - 1, w);
    }
  }

  function Work(e: Engine): nat { 5 * |e.pending| + TotalWeight(e.workers) }

  predicate WorkerStep(a: Action) { !a.DoSubmit? && !a.DoStop? }

  /** Every step of a worker that changes anything uses up work, whatever it decides. */
  lemma StepUsesWork(e: Engine, a: Action)
    requires WorkerStep(a) && Act(e, a) != e
    ensures var n := Act(e, a);
            Work(n) < Work(e) && n.nextOrder == e.nextOrder && |n.workers| == |e.workers| && n.stop == e.stop
  {
    var n := Act(e, a);
    WeightUpdate(e.workers, a.i, n.workers[a.i]);
    hide TotalWeight;
  }

  lemma MoveChanges(e: Engine, i: nat)
    requires i < |e.workers| && CanMove(e, e.workers[i])
    ensures WorkerStep(NextStep(e.workers[i], i)) && Act(e, NextStep(e.workers[i], i)) != e
  {
    assert Act(e, NextStep(e.workers[i], i)).workers[i] != e.workers[i];
  }

  ghost predicate SettledOnce(e: Engine) {
    forall order: nat :: Count(e.settled, order) == if order < e.nextOrder then 1 else 0
  }

  lemma AllSettledOnce(e: Engine)
    requires Inv(e) && AllSettled(e)
    ensures SettledOnce(e)
  {
    forall order: nat ensures Count(e.settled, order) == if order < e.nextOrder then 1 else 0 {
      assert PlacedOnce(e, order);
      HeldByNone(e.workers, order);
      CountNone(order);
    }
  }

  /** From every reachable state the workers can settle every accepted command without a new submission. */
  lemma {:induction false} EveryCommandSettles(e: Engine) returns (actions: seq<Action>)
    requires Inv(e) && e.workers != []
    ensures var n := ActAll(e, actions); n.nextOrder == e.nextOrder && Increasing(n.starts) && SettledOnce(n)
    decreases Work(e)
  {
    if AllSettled(e) {
      actions := [];
      AllSettledOnce(e);
    } else {
      hide Inv, Act, Work, SettledOnce;
      var i := SomeoneMoves(e);
      var a := NextStep(e.workers[i], i);
      MoveChanges(e, i);
      StepUsesWork(e, a);
      ActKeeps(e, a);
      var rest := EveryCommandSettles(Act(e, a));
      actions := [a] + rest;
      assert actions[0] == a && actions[1..] == rest;
    }
  }

  /** Worker steps each of which changes something. */
  ghost predicate Effective(e: Engine, actions: seq<Action>)
    decreases |actions|
  {
    actions != [] ==> WorkerStep(actions[0]) && Act(e, actions[0]) != e && Effective(Act(e, actions[0]), actions[1..])
  }

  ghost predicate AtRest(e: Engine) { forall a :: WorkerStep(a) ==> Act(e, a) == e }

  lemma RestIsSettled(e: Engine)
    requires Inv(e) && e.workers != [] && AtRest(e)
    ensures SettledOnce(e) && (e.stop ==> forall i :: 0 <= i < |e.workers| ==> e.workers[i].Gone?)
  {
    hide Inv, Act, SettledOnce;
    if !AllSettled(e) {
      var i := SomeoneMoves(e);
      MoveChanges(e, i);
      assert false;
    }
    AllSettledOnce(e);
    if e.stop {
      forall i | 0 <= i < |e.workers| ensures e.workers[i].Gone? {
        if !e.workers[i].Gone? { MoveChanges(e, i); }
      }
    }
  }

  /**
   * However the workers are scheduled, their effective steps are no more than the work there is; and when no worker
   * can move, every accepted command has settled exactly once and a stopped engine's workers are all gone.
   */
  lemma {:induction false} EveryScheduleSettles(e: Engine, actions: seq<Action>)
    requires Inv(e) && e.workers != [] && Effective(e, actions)
    ensures var n := ActAll(e, actions);
            && |actions| + Work(n) <= Work(e) && n.nextOrder == e.nextOrder && n.stop == e.stop && Increasing(n.starts)
            && (AtRest(n) ==> SettledOnce(n) && (n.stop ==> forall i :: 0 <= i < |n.workers| ==> n.workers[i].Gone?))
    decreases |actions|
  {
    if actions == [] {
      if AtRest(e) { RestIsSettled(e); }
    } else {
      hide Act, Inv, Work, SettledOnce, AtRest;
      StepUsesWork(e, actions[0]);
      ActKeeps(e, actions[0]);
      EveryScheduleSettles(Act(e, actions[0]), actions[1..]);
    }
  }

  // ------------------------------------------------------------- the object

  /** The engine's shared queue, tickets and gate. */
  class SharedGate {
    var pending: seq<nat>
    var nextOrder: nat
    var nextEntry: nat
    var stop: bool
    var workers: seq<Worker>
    ghost var starts: seq<nat>
    ghost var settled: seq<nat>

    ghost function View(): Engine
      reads this
    {
      Engine(pending, nextOrder, nextEntry, stop, workers, starts, settled)
    }

    constructor (count: nat)
      ensures View() == Started(count)
    {
      pending, nextOrder, nextEntry, stop := [], 0, 0, false;
      workers := seq(count, _ => Idle);
      starts, settled := [], [];
    }

    method SubmitCommand() returns (accepted: bool)
      modifies this`pending, this`nextOrder
      ensures View() == Submit(old(View())) && (accepted <==> !stop)
    {
      accepted := !stop;
      if accepted {
        pending := pending + [nextOrder];
        nextOrder := nextOrder + 1;
      }
    }

    method TakeCommand(i: nat)
      requires i < |workers| && workers[i].Idle?
      modifies this`pending, this`workers
      ensures View() == Dequeue(old(View()), i)
    {
      if pending == [] {
        if stop { workers := workers[i := Gone]; }
      } else {
        workers := workers[i := AtGate(pending[0])];
        pending := pending[1..];
      }
    }

    method Advance(order: nat)
      modifies this`nextEntry
      ensures View() == AdvanceEntry(old(View()), order)
    {
      if order != nextEntry { return; }
      nextEntry := nextEntry + 1;
    }

    method WaitAtGate(i: nat) returns (woken: bool)
      requires i < |workers| && workers[i].AtGate?
      modifies this`workers
      ensures View() == PassGate(old(View()), i)
      ensures woken <==> !Blocked(old(View()), old(workers[i]))
    {
      var order := workers[i].order;
      woken := stop || order == nextEntry;
      if !woken { return; }
      workers := workers[i := if stop then Leaving(order) else Passed(order)];
    }

    /** A withdrawn or expired command moves the gate on before its outcome is published. */
    method SkipCommand(i: nat)
      requires i < |workers| && workers[i].Passed?
      modifies this`nextEntry, this`workers
      ensures View() == Skip(old(View()), i)
    {
      var order := workers[i].order;
      Advance(order);
      workers := workers[i := Leaving(order)];
    }

    method PublishOutcome(i: nat)
      requires i < |workers| && Ending(workers[i])
      modifies this`workers, this`settled
      ensures View() == Finish(old(View()), i)
    {
      var order := workers[i].order;
      workers := workers[i := Idle];
      settled := settled + [order];
    }

    /** The guard advances at most once, however often it is asked. */
    method NotifyEntry(i: nat)
      requires i < |workers| && workers[i].Running?
      modifies this`nextEntry, this`workers
      ensures View() == Notify(old(View()), i)
    {
      if !workers[i].advanced {
        var order := workers[i].order;
        Advance(order);
        workers := workers[i := Running(order, true)];
      }
    }
  }
}
