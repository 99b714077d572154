/**
 * The process engine: submissions pass from a queue through one launch thread to a reactor thread.
 * Every mutex section is one action and any thread may act next.
 */
module ProcessEngine {
  import opened Prelude
  import opened Counting

  /** Why a submission ended without a child. */
  datatype Reason = PipeFailed | Cancelled | TimedOut | LaunchFailed

  /** The launch thread: waiting, deciding, past the refusals, with a new child, about to account, gone. */
  datatype Launcher =
    | Idle
    | Holding(id: nat, stopping: bool, failed: bool)
    | Cleared(id: nat)
    | Created(id: nat)
    | HandedOff
    | LauncherGone

  /** `accepted`, `launched`, `settled`, `finished` and `reasons` record history. */
  datatype Engine = Engine(
    pending: seq<nat>, launcher: Launcher, launching: nat, arrived: seq<nat>, live: seq<nat>,
    stop: bool, failure: bool, channelFailure: bool, withdrawn: set<nat>,
    reactorGone: bool, published: nat,
    accepted: seq<nat>, launched: seq<nat>, settled: seq<nat>, finished: seq<nat>, reasons: map<nat, Reason>)

  function Started(): Engine {
    Engine([], Idle, 0, [], [], false, false, false, {}, false, 0, [], [], [], [], map[])
  }

  datatype Action =
    | DoSubmit(id: nat) | DoWithdraw(id: nat) | DoStop | DoChannelFails | DoAdoptFailure
    | DoTake | DoDecide(expired: bool) | DoLaunch(created: bool) | DoArrive | DoAccount
    | DoCollect | DoPublish(index: nat)

  // ---------------------------------------------------------- the sections

  /** Acceptance and the stop request share one lock. */
  function Submit(e: Engine, id: nat): Engine {
    if e.stop || e.failure || id in e.accepted then e
    else e.(pending := e.pending + [id], accepted := e.accepted + [id])
  }

  function Take(e: Engine): Engine {
    if !e.launcher.Idle? then e
    else if e.pending == [] then if e.stop || e.failure then e.(launcher := LauncherGone) else e
    else e.(launcher := Holding(e.pending[0], e.stop, e.failure), pending := e.pending[1..],
         launching := e.launching + 1)
  }

  function Settle(e: Engine, id: nat, reason: Reason): Engine {
    e.(launcher := HandedOff, settled := e.settled + [id], reasons := e.reasons[id := reason])
  }

  /** The refusals that need no child, in the order the source tries them. */
  function Decide(e: Engine, expired: bool): Engine {
    if !e.launcher.Holding? then e
    else
      var id := e.launcher.id;
      if e.launcher.failed then Settle(e, id, PipeFailed)
      else if id in e.withdrawn || e.launcher.stopping then Settle(e, id, Cancelled)
      else if expired then Settle(e, id, TimedOut)
      else e.(launcher := Cleared(id))
  }

  /** The launch gate keeps the channel from failing while a child is created. */
  function Launch(e: Engine, created: bool): Engine {
    if !e.launcher.Cleared? then e
    else if e.channelFailure then Settle(e, e.launcher.id, PipeFailed)
    else if !created then Settle(e, e.launcher.id, LaunchFailed)
    else e.(launcher := Created(e.launcher.id), launched := e.launched + [e.launcher.id])
  }

  /** The new child is handed to the reactor. */
  function Arrive(e: Engine): Engine {
    if e.launcher.Created? then e.(launcher := HandedOff, arrived := e.arrived + [e.launcher.id]) else e
  }

  function Account(e: Engine): Engine {
    if e.launcher.HandedOff? && e.launching > 0 then e.(launcher := Idle, launching := e.launching - 1) else e
  }

  predicate MayReturn(e: Engine) {
    (e.stop || e.failure) && e.live == [] && e.pending == [] && e.launching == 0
  }

  /** The top of the reactor's loop: own the arrivals, then return or go on. */
  function Collect(e: Engine): Engine {
    if e.reactorGone then e
    else
      var owned := e.(live := e.live + e.arrived, arrived := []);
      if MayReturn(owned) then owned.(reactorGone := true) else owned
  }

  /** A child that has exited and whose output is closed is published and removed. */
  function Publish(e: Engine, index: nat): Engine {
    if e.reactorGone || index >= |e.live| then e
    else
      e.(live := e.live[..index] + e.live[index + 1..], finished := e.finished + [e.live[index]],
        published := e.published + 1)
  }

  function Act(e: Engine, a: Action): Engine {
    match a
    case DoSubmit(id) => Submit(e, id)
    case DoWithdraw(id) => e.(withdrawn := e.withdrawn + {id})
    case DoStop => e.(stop := true)
    case DoChannelFails => e.(channelFailure := true)
    case DoAdoptFailure => if e.channelFailure then e.(failure := true) else e
    case DoTake => Take(e)
    case DoDecide(expired) => Decide(e, expired)
    case DoLaunch(created) => Launch(e, created)
    case DoArrive => Arrive(e)
    case DoAccount => Account(e)
    case DoCollect => Collect(e)
    case DoPublish(index) => Publish(e, index)
  }

  function ActAll(e: Engine, actions: seq<Action>): Engine
    decreases |actions|
  {
    if actions == [] then e else ActAll(Act(e, actions[0]), actions[1..])
  }

  // ----------------------------------------------------------- the invariant

  function Held(l: Launcher): seq<nat> {
    if l.Holding? then [l.id] else if l.Cleared? then [l.id] else Born(l)
  }

  /** The child that has been created and not yet handed over. */
  function Born(l: Launcher): seq<nat> { if l.Created? then [l.id] else [] }

  /** How often an accepted submission is anywhere. */
  function Places(e: Engine, id: nat): nat {
    Count(e.pending, id) + Count(Held(e.launcher), id) + Count(e.arrived, id) + Count(e.live, id)
    + Count(e.settled, id) + Count(e.finished, id)
  }

  function Children(e: Engine, id: nat): nat {
    Count(Born(e.launcher), id) + Count(e.arrived, id) + Count(e.live, id) + Count(e.finished, id)
  }

  ghost predicate ConservedAt(e: Engine, id: nat) {
    Places(e, id) == Count(e.accepted, id) && Children(e, id) == Count(e.launched, id)
  }

  ghost predicate Conserved(e: Engine) { Distinct(e.accepted) && forall id :: ConservedAt(e, id) }

  ghost predicate Phases(e: Engine) {
    && e.launching == (if e.launcher.Idle? || e.launcher.LauncherGone? then 0 else 1)
    && e.published == |e.finished|
    && (e.failure ==> e.channelFailure)
    && (e.launcher.Holding? && e.launcher.stopping ==> e.stop)
    && (e.launcher.Holding? && e.launcher.failed ==> e.failure)
    && (e.launcher.LauncherGone? ==> e.pending == [] && (e.stop || e.failure))
    && (e.reactorGone ==> MayReturn(e) && e.arrived == [])
  }

  /** A submission that never started has a reason, and the reason is true. */
  ghost predicate ReasonOk(e: Engine, id: nat) {
    && (id in e.settled <==> id in e.reasons)
    && (id in e.reasons ==>
          match e.reasons[id]
          case PipeFailed => e.channelFailure
          case Cancelled => e.stop || id in e.withdrawn
          case _ => true)
  }

  ghost predicate Inv(e: Engine) { Conserved(e) && Phases(e) && forall id :: ReasonOk(e, id) }

  ghost predicate SameReasons(e: Engine, n: Engine) {
    && n.settled == e.settled && n.reasons == e.reasons && e.withdrawn <= n.withdrawn
    && (e.channelFailure ==> n.channelFailure) && (e.stop ==> n.stop)
  }

  lemma ReasonsKept(e: Engine, n: Engine)
    requires SameReasons(e, n) && forall id :: ReasonOk(e, id)
    ensures forall id :: ReasonOk(n, id)
  {
    forall id ensures ReasonOk(n, id) { assert ReasonOk(e, id); }
  }

  lemma AllKept(e: Engine, n: Engine)
    requires Inv(e) && SameReasons(e, n) && Conserved(n) && Phases(n)
    ensures Inv(n)
  {
    ReasonsKept(e, n);
    hide Conserved, Phases, ReasonOk;
  }

  ghost predicate SamePlaces(e: Engine, n: Engine) {
    && n.pending == e.pending && Held(n.launcher) == Held(e.launcher) && Born(n.launcher) == Born(e.launcher)
    && n.settled == e.settled && n.arrived == e.arrived
    && n.live == e.live && n.finished == e.finished && n.accepted == e.accepted && n.launched == e.launched
  }

  lemma PlacesKept(e: Engine, n: Engine)
    requires Conserved(e) && SamePlaces(e, n)
    ensures Conserved(n)
  {
    hide Count;
    forall x ensures ConservedAt(n, x) { assert ConservedAt(e, x); }
  }

  lemma SubmitConserves(e: Engine, id: nat)
    requires Conserved(e)
    ensures Conserved(Submit(e, id))
  {
    hide Count;
    var n := Submit(e, id);
    forall x ensures ConservedAt(n, x) {
      assert ConservedAt(e, x);
      CountSnoc(e.pending, id, x);
      CountSnoc(e.accepted, id, x);
    }
  }

  lemma SubmitKeeps(e: Engine, id: nat)
    requires Inv(e)
    ensures Inv(Submit(e, id))
  {
    hide Conserved, ReasonOk;
    SubmitConserves(e, id);
    assert Phases(Submit(e, id)) && SameReasons(e, Submit(e, id));
    hide Phases, Submit, SameReasons;
    AllKept(e, Submit(e, id));
  }

  lemma TakeConserves(e: Engine)
    requires Conserved(e)
    ensures Conserved(Take(e))
  {
    hide Count;
    var n := Take(e);
    forall x ensures ConservedAt(n, x) {
      assert ConservedAt(e, x);
      if e.pending != [] { CountHead(e.pending, x); }
      CountNone(x);
    }
  }

  lemma TakePhases(e: Engine)
    requires Phases(e)
    ensures Phases(Take(e)) && SameReasons(e, Take(e))
  {}

  lemma TakeKeeps(e: Engine)
    requires Inv(e)
    ensures Inv(Take(e))
  {
    hide Conserved, Phases, ReasonOk, Take, SameReasons;
    TakeConserves(e);
    TakePhases(e);
    AllKept(e, Take(e));
  }

  lemma SettleConserves(e: Engine, reason: Reason)
    requires Conserved(e) && (e.launcher.Holding? || e.launcher.Cleared?)
    ensures Conserved(Settle(e, e.launcher.id, reason))
  {
    hide Count;
    var n := Settle(e, e.launcher.id, reason);
    forall x ensures ConservedAt(n, x) {
      assert ConservedAt(e, x);
      CountSnoc(e.settled, e.launcher.id, x);
      CountNone(x);
    }
  }

  lemma SettleReasons(e: Engine, id: nat, reason: Reason)
    requires forall x :: ReasonOk(e, x)
    requires (reason.PipeFailed? ==> e.channelFailure) && (reason.Cancelled? ==> e.stop || id in e.withdrawn)
    ensures forall x :: ReasonOk(Settle(e, id, reason), x)
  {
    var n := Settle(e, id, reason);
    forall x ensures ReasonOk(n, x) { assert ReasonOk(e, x); }
  }

  lemma SettleKeeps(e: Engine, reason: Reason)
    requires Inv(e) && (e.launcher.Holding? || e.launcher.Cleared?)
    requires reason.PipeFailed? ==> e.channelFailure
    requires reason.Cancelled? ==> e.stop || e.launcher.id in e.withdrawn
    ensures Inv(Settle(e, e.launcher.id, reason))
  {
    hide Conserved, ReasonOk;
    SettleConserves(e, reason);
    SettleReasons(e, e.launcher.id, reason);
    assert Phases(Settle(e, e.launcher.id, reason));
    hide Phases, Settle;
  }

  lemma DecideKeeps(e: Engine, expired: bool)
    requires Inv(e)
    ensures Inv(Decide(e, expired))
  {
    if e.launcher.Holding? {
      if e.launcher.failed { SettleKeeps(e, PipeFailed); hide Inv; }
      else if e.launcher.id in e.withdrawn || e.launcher.stopping { SettleKeeps(e, Cancelled); hide Inv; }
      else if expired { SettleKeeps(e, TimedOut); hide Inv; }
      else { ClearKeeps(e); hide Inv; }
    }
  }

  lemma ClearKeeps(e: Engine)
    requires Inv(e) && e.launcher.Holding?
    ensures Inv(e.(launcher := Cleared(e.launcher.id)))
  {
    var n := e.(launcher := Cleared(e.launcher.id));
    assert Phases(n);
    hide Conserved, Phases, ReasonOk;
    PlacesKept(e, n);
    AllKept(e, n);
  }

  lemma LaunchKeeps(e: Engine, created: bool)
    requires Inv(e)
    ensures Inv(Launch(e, created))
  {
    if e.launcher.Cleared? {
      if e.channelFailure { SettleKeeps(e, PipeFailed); hide Inv; }
      else if !created { SettleKeeps(e, LaunchFailed); hide Inv; }
      else { CreateKeeps(e); hide Inv; }
    }
  }

  lemma CreateConserves(e: Engine)
    requires Conserved(e) && e.launcher.Cleared? && !e.channelFailure
    ensures Conserved(Launch(e, true))
  {
    hide Count;
    var n := Launch(e, true);
    forall x ensures ConservedAt(n, x) {
      assert ConservedAt(e, x);
      CountSnoc(e.launched, e.launcher.id, x);
      CountNone(x);
    }
  }

  lemma CreateKeeps(e: Engine)
    requires Inv(e) && e.launcher.Cleared? && !e.channelFailure
    ensures Inv(Launch(e, true))
  {
    hide Conserved, ReasonOk;
    var n := Launch(e, true);
    CreateConserves(e);
    assert Phases(n) && SameReasons(e, n);
    hide Phases, Launch, SameReasons;
    AllKept(e, n);
  }

  lemma ArriveConserves(e: Engine)
    requires Conserved(e)
    ensures Conserved(Arrive(e))
  {
    hide Count;
    var n := Arrive(e);
    if e.launcher.Created? {
      forall x ensures ConservedAt(n, x) {
        assert ConservedAt(e, x);
        CountSnoc(e.arrived, e.launcher.id, x);
        CountNone(x);
      }
    }
  }

  lemma ArriveKeeps(e: Engine)
    requires Inv(e)
    ensures Inv(Arrive(e))
  {
    hide Conserved, ReasonOk;
    var n := Arrive(e);
    ArriveConserves(e);
    assert Phases(n) && SameReasons(e, n);
    hide Phases, Arrive, SameReasons;
    AllKept(e, n);
  }

  lemma CollectConserves(e: Engine)
    requires Conserved(e)
    ensures Conserved(Collect(e))
  {
    hide Count;
    var n := Collect(e);
    forall x ensures ConservedAt(n, x) {
      assert ConservedAt(e, x);
      CountAppend(e.live, e.arrived, x);
      CountNone(x);
    }
  }

  lemma CollectPhases(e: Engine)
    requires Phases(e)
    ensures Phases(Collect(e)) && SameReasons(e, Collect(e))
  {}

  lemma CollectKeeps(e: Engine)
    requires Inv(e)
    ensures Inv(Collect(e))
  {
    hide Conserved, Phases, ReasonOk, Collect, SameReasons;
    CollectConserves(e);
    CollectPhases(e);
    AllKept(e, Collect(e));
  }

  lemma PublishConserves(e: Engine, index: nat)
    requires Conserved(e)
    ensures Conserved(Publish(e, index))
  {
    hide Count;
    var n := Publish(e, index);
    if !e.reactorGone && index < |e.live| {
      forall x ensures ConservedAt(n, x) {
        assert ConservedAt(e, x);
        CountRemove(e.live, index, x);
        CountSnoc(e.finished, e.live[index], x);
      }
    }
  }

  lemma PublishPhases(e: Engine, index: nat)
    requires Phases(e)
    ensures Phases(Publish(e, index)) && SameReasons(e, Publish(e, index))
  {}

  lemma PublishKeeps(e: Engine, index: nat)
    requires Inv(e)
    ensures Inv(Publish(e, index))
  {
    hide Conserved, Phases, ReasonOk, Publish, SameReasons;
    PublishConserves(e, index);
    PublishPhases(e, index);
    AllKept(e, Publish(e, index));
  }

  predicate FlagAction(a: Action) {
    a.DoWithdraw? || a.DoStop? || a.DoChannelFails? || a.DoAdoptFailure? || a.DoAccount?
  }

  lemma FlagKeeps(e: Engine, a: Action)
    requires Inv(e) && FlagAction(a)
    ensures Inv(Act(e, a))
  {
    var n := Act(e, a);
    assert Phases(n) by { hide Conserved, ReasonOk; }
    assert SameReasons(e, n) && SamePlaces(e, n);
    hide Conserved, Phases, ReasonOk, Act, SameReasons, SamePlaces;
    PlacesKept(e, n);
    AllKept(e, n);
  }

  lemma ActKeeps(e: Engine, a: Action)
    requires Inv(e)
    ensures Inv(Act(e, a))
  {
    if FlagAction(a) {
      FlagKeeps(e, a);
      hide Inv, Act;
    } else {
      hide Inv, Submit, Take, Decide, Launch, Arrive, Collect, Publish;
      match a {
        case DoSubmit(id) => SubmitKeeps(e, id);
        case DoTake => TakeKeeps(e);
        case DoDecide(expired) => DecideKeeps(e, expired);
        case DoLaunch(created) => LaunchKeeps(e, created);
        case DoArrive => ArriveKeeps(e);
        case DoCollect => CollectKeeps(e);
        case DoPublish(index) => PublishKeeps(e, index);
      }
    }
  }

  lemma {:induction false} ActAllKeeps(e: Engine, actions: seq<Action>)
    requires Inv(e)
    ensures Inv(ActAll(e, actions))
    decreases |actions|
  {
    if actions != [] {
      hide Inv, Act;
      ActKeeps(e, actions[0]);
      ActAllKeeps(Act(e, actions[0]), actions[1..]);
    }
  }

  // ------------------------------------------------------------ main results

  /** An accepted submission is in exactly one place, so it is published at most once and never started twice. */
  lemma ExactlyOnePlace(actions: seq<Action>, id: nat)
    ensures var e := ActAll(Started(), actions); Places(e, id) == if id in e.accepted then 1 else 0
    ensures var e := ActAll(Started(), actions); Count(e.launched, id) <= 1 && (id in e.settled ==> id !in e.launched)
  {
    StartedInv();
    ActAllKeeps(Started(), actions);
    var e := ActAll(Started(), actions);
    hide ActAll;
    CountDistinct(e.accepted, id);
    assert ConservedAt(e, id);
  }

  lemma StartedInv()
    ensures Inv(Started())
  {}

  /** The step refuses the submission it decides about for this reason, no earlier reason applying. */
  ghost predicate Refuses(e: Engine, a: Action, id: nat, reason: Reason) {
    match e.launcher
    case Holding(held, stopping, failed) =>
      && held == id && a.DoDecide?
      && (match reason
          case PipeFailed => failed
          case Cancelled => !failed && (id in e.withdrawn || stopping)
          case TimedOut => !failed && id !in e.withdrawn && !stopping && a.expired
          case LaunchFailed => false)
    case Cleared(cleared) =>
      && cleared == id && a.DoLaunch?
      && (match reason
          case PipeFailed => e.channelFailure
          case LaunchFailed => !e.channelFailure && !a.created
          case _ => false)
    case _ => false
  }

  /** Some step of the run did. */
  ghost predicate RefusedIn(e: Engine, actions: seq<Action>, id: nat, reason: Reason)
    decreases |actions|
  {
    actions != [] &&
    (Refuses(e, actions[0], id, reason) || RefusedIn(Act(e, actions[0]), actions[1..], id, reason))
  }

  ghost predicate HasReason(e: Engine, id: nat, reason: Reason) { id in e.reasons && e.reasons[id] == reason }

  lemma ReasonArises(e: Engine, a: Action, id: nat, reason: Reason)
    requires HasReason(Act(e, a), id, reason) && !HasReason(e, id, reason)
    ensures Refuses(e, a, id, reason)
  {
    hide Settle;
    SettledReason(e, id, reason);
    if !a.DoDecide? && !a.DoLaunch? { NoReason(e, a); }
  }

  lemma SettledReason(e: Engine, id: nat, reason: Reason)
    requires !HasReason(e, id, reason)
    ensures forall settled, why :: HasReason(Settle(e, settled, why), id, reason) ==> settled == id && why == reason
  {}

  lemma NoReason(e: Engine, a: Action)
    requires !a.DoDecide? && !a.DoLaunch?
    ensures Act(e, a).reasons == e.reasons
  {}

  lemma {:induction false} ReasonsArise(e: Engine, actions: seq<Action>, id: nat, reason: Reason)
    requires HasReason(ActAll(e, actions), id, reason) && !HasReason(e, id, reason)
    ensures RefusedIn(e, actions, id, reason)
    decreases |actions|
  {
    hide Act, HasReason, Refuses;
    if HasReason(Act(e, actions[0]), id, reason) {
      ReasonArises(e, actions[0], id, reason);
    } else {
      ReasonsArise(Act(e, actions[0]), actions[1..], id, reason);
    }
  }

  /** Exactly the submissions settled without a child have a reason, and some step refused each for that reason. */
  lemma RefusalsAreTrue(actions: seq<Action>, id: nat)
    ensures var e := ActAll(Started(), actions);
            && ReasonOk(e, id)
            && (id in e.reasons ==> RefusedIn(Started(), actions, id, e.reasons[id]))
  {
    hide ActAll;
    StartedInv();
    ActAllKeeps(Started(), actions);
    var e := ActAll(Started(), actions);
    if id in e.reasons { ReasonsArise(Started(), actions, id, e.reasons[id]); }
  }

  /** Every accepted submission has been published, once, and nothing else has. */
  ghost predicate AllPublished(e: Engine) {
    forall id :: Count(e.settled, id) + Count(e.finished, id) == if id in e.accepted then 1 else 0
  }

  /** Once the reactor has returned everything accepted is published, whatever happens later. */
  lemma ReactorReturnsLast(before: seq<Action>, after: seq<Action>)
    requires ActAll(Started(), before).reactorGone
    ensures var e, n := ActAll(Started(), before), ActAll(ActAll(Started(), before), after);
            && AllPublished(e)
            && n.accepted == e.accepted && n.settled == e.settled && n.finished == e.finished && n.reactorGone
  {
    var e := ActAll(Started(), before);
    StartedInv();
    ActAllKeeps(Started(), before);
    hide Inv, ActAll;
    NothingAfterReturn(e, after);
  }

  lemma ReturnedMeansPublished(e: Engine)
    requires Inv(e) && e.reactorGone
    ensures e.pending == [] && e.arrived == [] && e.live == [] && Held(e.launcher) == [] && (e.stop || e.failure)
    ensures AllPublished(e)
  {
    hide ReasonOk, Count;
    forall id ensures Count(e.settled, id) + Count(e.finished, id) == if id in e.accepted then 1 else 0 {
      assert ConservedAt(e, id);
      CountNone(id);
      CountDistinct(e.accepted, id);
    }
  }

  lemma NothingNew(e: Engine, a: Action)
    requires e.reactorGone && e.pending == [] && e.live == [] && Held(e.launcher) == [] && (e.stop || e.failure)
    ensures var n := Act(e, a);
            n.accepted == e.accepted && n.settled == e.settled && n.finished == e.finished && n.reactorGone
  {
    if a.DoSubmit? || a.DoPublish? || a.DoCollect? { assert Act(e, a) == e; }
  }

  lemma {:induction false} NothingAfterReturn(e: Engine, actions: seq<Action>)
    requires Inv(e) && e.reactorGone
    ensures AllPublished(e)
    ensures var n := ActAll(e, actions);
            n.accepted == e.accepted && n.settled == e.settled && n.finished == e.finished && n.reactorGone
    decreases |actions|
  {
    ReturnedMeansPublished(e);
    if actions != [] {
      NothingNew(e, actions[0]);
      ActKeeps(e, actions[0]);
      hide Inv, Act;
      NothingAfterReturn(Act(e, actions[0]), actions[1..]);
    }
  }

  // --------------------------------------------------- shutdown always finishes

  predicate Done(e: Engine) { e.launcher.LauncherGone? && e.reactorGone }

  /** The work the two threads still have; arrivals of new submissions are over once a stop is requested. */
  function Work(e: Engine): nat {
    7 * |e.pending| + 2 * |e.arrived| + |e.live| + (if e.reactorGone then 0 else 1) +
    match e.launcher
    case Idle => 1
    case Holding(_, _, _) => 7
    case Cleared(_) => 6
    case Created(_) => 5
    case HandedOff => 2
    case LauncherGone => 0
  }

  predicate ThreadStep(a: Action) {
    a.DoTake? || a.DoDecide? || a.DoLaunch? || a.DoArrive? || a.DoAccount? || a.DoCollect? || a.DoPublish?
  }

  /** After a stop every step of a thread uses up work, and nothing else adds any. */
  lemma StopUsesUpWork(e: Engine, a: Action)
    requires e.stop || e.failure
    ensures ThreadStep(a) && Act(e, a) != e ==> Work(Act(e, a)) < Work(e)
    ensures Work(Act(e, a)) <= Work(e)
  {
    hide Take, Decide, Launch, Arrive, Collect, Publish;
    match a {
      case DoTake => TakeUses(e);
      case DoDecide(expired) => DecideUses(e, expired);
      case DoLaunch(created) => LaunchUses(e, created);
      case DoArrive => ArriveUses(e);
      case DoCollect => CollectUses(e);
      case DoPublish(index) => PublishUses(e, index);
      case _ =>
    }
  }

  ghost predicate Uses(e: Engine, n: Engine) { n == e || Work(n) < Work(e) }

  lemma TakeUses(e: Engine)
    ensures Uses(e, Take(e))
  {}

  lemma DecideUses(e: Engine, expired: bool)
    ensures Uses(e, Decide(e, expired))
  {
    hide Settle, Uses;
    if e.launcher.Holding? {
      SettleUses(e, e.launcher.id);
      ClearUses(e);
    } else {
      UsesNothing(e);
    }
  }

  lemma UsesNothing(e: Engine)
    ensures Uses(e, e)
  {}

  lemma SettleUses(e: Engine, id: nat)
    requires e.launcher.Holding?
    ensures forall reason :: Uses(e, Settle(e, id, reason))
  {}

  lemma ClearUses(e: Engine)
    requires e.launcher.Holding?
    ensures Uses(e, e.(launcher := Cleared(e.launcher.id)))
  {}

  lemma LaunchUses(e: Engine, created: bool)
    ensures Uses(e, Launch(e, created))
  {}

  lemma ArriveUses(e: Engine)
    ensures Uses(e, Arrive(e))
  {}

  lemma CollectUses(e: Engine)
    ensures Uses(e, Collect(e))
  {
    if !e.reactorGone && e.arrived == [] && !MayReturn(e) {
      assert e.live + e.arrived == e.live;
      assert Collect(e) == e;
    }
  }

  lemma PublishUses(e: Engine, index: nat)
    ensures Uses(e, Publish(e, index))
  {}

  /** The step a thread can take next. */
  function NextStep(e: Engine): Action {
    match e.launcher
    case Idle => DoTake
    case Holding(_, _, _) => DoDecide(false)
    case Cleared(_) => DoLaunch(false)
    case Created(_) => DoArrive
    case HandedOff => DoAccount
    case LauncherGone => if e.arrived == [] && e.live != [] then DoPublish(0) else DoCollect
  }

  /** No reachable state of a stopping engine is stuck: until both threads have returned, one can move. */
  lemma NeverStuck(e: Engine)
    requires Inv(e) && (e.stop || e.failure) && !Done(e)
    ensures ThreadStep(NextStep(e)) && Act(e, NextStep(e)) != e
  {
    hide Conserved, ReasonOk;
    var n := Act(e, NextStep(e));
    if e.launcher.LauncherGone? {
      if e.arrived != [] { assert n.arrived == []; }
      else if e.live != [] { assert |n.live| == |e.live| - 1; }
      else { assert n.reactorGone; }
    } else {
      assert n.launcher != e.launcher;
    }
  }

  /** The steps that finish a stopping engine. */
  function Drain(e: Engine, steps: nat): seq<Action>
    decreases steps
  {
    if steps == 0 || Done(e) then [] else [NextStep(e)] + Drain(Act(e, NextStep(e)), steps - 1)
  }

  /** From every reachable stopping state both threads can return, with every accepted submission published. */
  lemma {:induction false} ShutdownCompletes(e: Engine, steps: nat)
    requires Inv(e) && (e.stop || e.failure) && Work(e) <= steps
    ensures var n := ActAll(e, Drain(e, steps));
            Done(n) && n.accepted == e.accepted && AllPublished(n)
    decreases steps
  {
    hide Inv, Act, NextStep, Work;
    if Done(e) {
      NothingAfterReturn(e, []);
    } else {
      var a := NextStep(e);
      NeverStuck(e);
      StopUsesUpWork(e, a);
      ActKeeps(e, a);
      StopStays(e, a);
      ShutdownCompletes(Act(e, a), steps - 1);
      var rest := Drain(Act(e, a), steps - 1);
      assert ([a] + rest)[0] == a && ([a] + rest)[1..] == rest;
    }
  }

  /** Steps of the threads each of which changes something. */
  ghost predicate Effective(e: Engine, actions: seq<Action>)
    decreases |actions|
  {
    actions != [] ==> ThreadStep(actions[0]) && Act(e, actions[0]) != e && Effective(Act(e, actions[0]), actions[1..])
  }

  /**
   * However a stopping engine's threads are scheduled, and whatever launches and children do, their effective steps
   * are no more than the work there is, and when no thread can move both have returned with everything published.
   */
  lemma {:induction false} EveryShutdownFinishes(e: Engine, actions: seq<Action>)
    requires Inv(e) && (e.stop || e.failure) && Effective(e, actions)
    ensures var n := ActAll(e, actions);
            && |actions| + Work(n) <= Work(e) && n.accepted == e.accepted
            && ((forall a :: ThreadStep(a) ==> Act(n, a) == n) ==> Done(n) && AllPublished(n))
    decreases |actions|
  {
    if actions == [] {
      if !Done(e) { NeverStuck(e); } else { hide Inv; NothingAfterReturn(e, []); }
    } else {
      hide Act, Inv, Work, Done;
      var a := actions[0];
      StopUsesUpWork(e, a);
      ActKeeps(e, a);
      StopStays(e, a);
      EveryShutdownFinishes(Act(e, a), actions[1..]);
    }
  }

  lemma StopStays(e: Engine, a: Action)
    requires e.stop || e.failure
    ensures (Act(e, a).stop || Act(e, a).failure) && Act(e, a).accepted == e.accepted
  {
    hide Settle;
    SettleStays(e);
  }

  lemma SettleStays(e: Engine)
    ensures forall id, reason ::
              var n := Settle(e, id, reason); n.stop == e.stop && n.failure == e.failure && n.accepted == e.accepted
  {}

  // -------------------------------------------------- publishing in one pass

  /** The pass over the live children that publishes and removes the finished ones. */
  function Retire(e: Engine, k: nat, done: set<nat>): Engine
    requires k <= |e.live|
    decreases |e.live| - k
  {
    if k == |e.live| then e
    else if !e.reactorGone && e.live[k] in done then Retire(Publish(e, k), k, done)
    else Retire(e, k + 1, done)
  }

  function Keep(s: seq<nat>, done: set<nat>): seq<nat>
    decreases |s|
  {
    if s == [] then [] else (if s[0] in done then [] else [s[0]]) + Keep(s[1..], done)
  }

  function Drop(s: seq<nat>, done: set<nat>): seq<nat>
    decreases |s|
  {
    if s == [] then [] else (if s[0] in done then [s[0]] else []) + Drop(s[1..], done)
  }

  /** One pass publishes exactly the finished children, in order, and keeps the others in order. */
  lemma {:induction false} RetireSplits(e: Engine, k: nat, done: set<nat>)
    requires k <= |e.live| && !e.reactorGone
    ensures var n := Retire(e, k, done);
            && n.live == e.live[..k] + Keep(e.live[k..], done)
            && n.finished == e.finished + Drop(e.live[k..], done)
            && n.published == e.published + |Drop(e.live[k..], done)|
            && n == e.(live := n.live, finished := n.finished, published := n.published)
    decreases |e.live| - k
  {
    hide Retire, Keep, Drop;
    RetireStep(e, k, done);
    if k == |e.live| {
      SplitNothing(done);
      assert e.live[k..] == [] && e.live[..k] == e.live;
    } else {
      SplitStep(e.live, k, done);
      if e.live[k] in done {
        RetireSplits(Removed(e, k), k, done);
      } else {
        RetireSplits(e, k + 1, done);
      }
    }
  }

  function Removed(e: Engine, k: nat): Engine
    requires k < |e.live|
  {
    e.(live := e.live[..k] + e.live[k + 1..], finished := e.finished + [e.live[k]], published := e.published + 1)
  }

  lemma SplitNothing(done: set<nat>)
    ensures Keep([], done) == [] && Drop([], done) == []
  {}

  lemma SplitStep(live: seq<nat>, k: nat, done: set<nat>)
    requires k < |live|
    ensures Keep(live[k..], done) == (if live[k] in done then [] else [live[k]]) + Keep(live[k + 1..], done)
    ensures Drop(live[k..], done) == (if live[k] in done then [live[k]] else []) + Drop(live[k + 1..], done)
    ensures (live[..k] + live[k + 1..])[..k] == live[..k] && (live[..k] + live[k + 1..])[k..] == live[k + 1..]
    ensures live[..k + 1] == live[..k] + [live[k]]
  {
    assert live[k..][0] == live[k] && live[k..][1..] == live[k + 1..];
  }

  lemma RetireStep(e: Engine, k: nat, done: set<nat>)
    requires k <= |e.live| && !e.reactorGone
    ensures Retire(e, k, done) ==
            if k == |e.live| then e
            else if e.live[k] in done then Retire(Removed(e, k), k, done)
            else Retire(e, k + 1, done)
  {}

  lemma {:induction false} RetireKeeps(e: Engine, k: nat, done: set<nat>)
    requires Inv(e) && k <= |e.live|
    ensures Inv(Retire(e, k, done))
    decreases |e.live| - k
  {
    if k < |e.live| {
      if !e.reactorGone && e.live[k] in done {
        PublishKeeps(e, k);
        hide Inv;
        RetireKeeps(Publish(e, k), k, done);
      } else {
        hide Inv;
        RetireKeeps(e, k + 1, done);
      }
    }
  }

  // ------------------------------------------------------------- the object

  /** The engine's shared queues and the sections its threads run on them. */
  class SharedQueues {
    var pending: seq<nat>
    var launcher: Launcher
    var launching: nat
    var arrived: seq<nat>
    var live: seq<nat>
    var stop: bool
    var failure: bool
    var channelFailure: bool
    var withdrawn: set<nat>
    var reactorGone: bool
    var published: nat
    ghost var accepted: seq<nat>
    ghost var launched: seq<nat>
    ghost var settled: seq<nat>
    ghost var finished: seq<nat>
    ghost var reasons: map<nat, Reason>

    ghost function View(): Engine
      reads this
    {
      Engine(pending, launcher, launching, arrived, live, stop, failure, channelFailure, withdrawn,
             reactorGone, published, accepted, launched, settled, finished, reasons)
    }

    constructor ()
      ensures View() == Started()
    {
      pending, launcher, launching, arrived, live := [], Idle, 0, [], [];
      stop, failure, channelFailure, withdrawn, reactorGone, published := false, false, false, {}, false, 0;
      accepted, launched, settled, finished, reasons := [], [], [], [], map[];
    }

    method SubmitWork(id: nat) returns (taken: bool)
      requires id !in accepted
      modifies this`pending, this`accepted
      ensures View() == Submit(old(View()), id)
      ensures taken <==> !stop && !failure
    {
      taken := !stop && !failure;
      if taken {
        pending := pending + [id];
        accepted := accepted + [id];
      }
    }

    method TakeWork()
      requires launcher.Idle?
      modifies this`pending, this`launcher, this`launching
      ensures View() == Take(old(View()))
    {
      if pending == [] {
        if stop || failure { launcher := LauncherGone; }
      } else {
        launcher := Holding(pending[0], stop, failure);
        pending := pending[1..];
        launching := launching + 1;
      }
    }

    method SettleWork(id: nat, reason: Reason)
      modifies this`launcher, this`settled, this`reasons
      ensures View() == Settle(old(View()), id, reason)
    {
      settled := settled + [id];
      reasons := reasons[id := reason];
      launcher := HandedOff;
    }

    method DecideLaunch(expired: bool)
      requires launcher.Holding?
      modifies this`launcher, this`settled, this`reasons
      ensures View() == Decide(old(View()), expired)
    {
      var id := launcher.id;
      if launcher.failed {
        SettleWork(id, PipeFailed);
      } else if id in withdrawn || launcher.stopping {
        SettleWork(id, Cancelled);
      } else if expired {
        SettleWork(id, TimedOut);
      } else {
        launcher := Cleared(id);
      }
    }

    method LaunchThroughGate(created: bool)
      requires launcher.Cleared?
      modifies this`launcher, this`settled, this`reasons, this`launched
      ensures View() == Launch(old(View()), created)
    {
      var id := launcher.id;
      if channelFailure {
        SettleWork(id, PipeFailed);
      } else if !created {
        SettleWork(id, LaunchFailed);
      } else {
        launched := launched + [id];
        launcher := Created(id);
      }
    }

    method HandOver()
      requires launcher.Created?
      modifies this`launcher, this`arrived
      ensures View() == Arrive(old(View()))
    {
      arrived := arrived + [launcher.id];
      launcher := HandedOff;
    }

    /** The reactor takes ownership of the arrivals one by one, then decides whether it is finished. */
    method CollectArrivals() returns (finishedLoop: bool)
      requires !reactorGone
      modifies this`live, this`arrived, this`reactorGone
      ensures View() == Collect(old(View()))
      ensures finishedLoop == reactorGone
    {
      for i := 0 to |arrived|
        modifies this`live
        invariant live == old(live) + arrived[..i]
      {
        assert arrived[..i + 1] == arrived[..i] + [arrived[i]];
        live := live + [arrived[i]];
      }
      assert arrived[..|arrived|] == arrived;
      arrived := [];
      finishedLoop := (stop || failure) && live == [] && pending == [] && launching == 0;
      if finishedLoop { reactorGone := true; }
    }

    /** Deciding and removing in one pass over the live children. */
    method RetireFinished(done: set<nat>)
      requires !reactorGone
      modifies this`live, this`finished, this`published
      ensures View() == Retire(old(View()), 0, done)
      ensures live == Keep(old(live), done) && finished == old(finished) + Drop(old(live), done)
    {
      hide Retire, Publish, Keep, Drop;
      RetireSplits(View(), 0, done);
      assert live[0..] == live && live[..0] == [];
      var k := 0;
      while k < |live|
        invariant k <= |live|
        invariant Retire(View(), k, done) == Retire(old(View()), 0, done)
        decreases |live| - k
      {
        RetireStep(View(), k, done);
        if live[k] in done {
          finished := finished + [live[k]];
          published := published + 1;
          live := live[..k] + live[k + 1..];
        } else {
          k := k + 1;
        }
      }
      RetireStep(View(), k, done);
    }
  }
}
