/**
 * One asynchronous operation: the observer and transport phases, and their race with the
 * record that waits for the outcome in a completion queue.
 */
module OperationProtocol {
  import opened Prelude
  import Queue = CompletionQueue

  type Token = nat

  datatype Observer = Unselected | Callback | Blocking | BlockingWaiting | Detached | Delivered

  datatype Transport = Queued | Dispatching | Active | Retiring | Retired

  datatype Delivery = NotStarted | Indeterminate

  /** Either what the source published, or what retirement left in its place. */
  datatype Outcome = Published(result: nat) | Abandoned(delivery: Delivery)

  datatype Relay = Relay(observing: Option<Token>, cancelled: bool, published: bool, retired: bool)

  datatype Core = Core(
    outcome: Option<Outcome>, observer: Observer, token: Token,
    transport: Transport, released: bool, relay: Relay)

  const FRESH := Core(None, Unselected, 0, Queued, false, Relay(None, false, false, false))

  function Rank(t: Transport): nat {
    match t case Queued => 0 case Dispatching => 1 case Active => 2 case Retiring => 3 case Retired => 4
  }

  predicate ObserverFinished(c: Core) { c.observer.Detached? || c.observer.Delivered? }

  /** Hands out the admission release the first time both sides are done. */
  function ReleaseHook(c: Core): (Core, bool) {
    if c.released || !c.transport.Retired? || !ObserverFinished(c) then (c, false)
    else (c.(released := true), true)
  }

  /** What a critical section asks its caller to do after unlocking. */
  datatype Effect = Effect(enqueue: Option<Token>, release: bool)

  const NOTHING := Effect(None, false)

  function Notify(c: Core): Option<Token> { if c.observer.Callback? then Some(c.token) else None }

  function Publish(c: Core, result: nat): (Core, Effect) {
    if c.outcome.Some? then (c, NOTHING)
    else (c.(outcome := Some(Published(result)), relay := c.relay.(published := true)), Effect(Notify(c), false))
  }

  function Retire(c: Core): (Core, Effect) {
    var retired := c.(transport := Retired, relay := c.relay.(retired := true));
    var settled := if c.outcome.Some? then retired
                   else retired.(outcome := Some(Abandoned(if c.transport.Queued? then NotStarted else Indeterminate)));
    var (last, release) := ReleaseHook(settled);
    (last, Effect(if c.outcome.Some? then None else Notify(c), release))
  }

  function SelectCallback(c: Core, t: Token): Core {
    c.(observer := Callback, token := t, relay := c.relay.(observing := Some(t)))
  }

  function StopObserving(r: Relay, t: Token): Relay {
    if r.observing == Some(t) then r.(observing := None) else r
  }

  function FinishObserver(c: Core, t: Token, phase: Observer): (Core, Effect) {
    var (last, release) := ReleaseHook(c.(observer := phase, token := 0, relay := StopObserving(c.relay, t)));
    (last, Effect(None, release))
  }

  /** The assertions of take_callback. */
  predicate CanTake(c: Core, t: Token) { c.outcome.Some? && c.observer.Callback? && c.token == t }

  function TakeCallback(c: Core, t: Token): (Core, Effect) { FinishObserver(c, t, Delivered) }

  function DetachCallback(c: Core, t: Token): (Core, Effect) {
    if !c.observer.Callback? || c.token != t then (c, NOTHING) else FinishObserver(c, t, Detached)
  }

  function DetachUnselected(c: Core): (Core, Effect) {
    if !c.observer.Unselected? then (c, NOTHING)
    else
      var (last, release) := ReleaseHook(c.(observer := Detached));
      (last, Effect(None, release))
  }

  function FinishWait(c: Core): (Core, Effect) {
    var (last, release) := ReleaseHook(c.(observer := Delivered));
    (last, Effect(None, release))
  }

  /** The source reports how far the transport has come. */
  function Mark(c: Core, phase: Transport): Core { c.(transport := phase) }

  function RequestCancel(c: Core): (Core, bool) {
    if c.relay.cancelled || c.relay.published || c.relay.retired then (c, false)
    else (c.(relay := c.relay.(cancelled := true)), true)
  }

  /** The state object, one method per critical section. */
  class OperationState {
    var outcome: Option<Outcome>
    var observer: Observer
    var token: Token
    var transport: Transport
    var released: bool
    var relay: Relay

    function View(): Core
      reads this
    {
      Core(outcome, observer, token, transport, released, relay)
    }

    constructor ()
      ensures View() == FRESH
    {
      outcome, observer, token, transport, released := None, Unselected, 0, Queued, false;
      relay := Relay(None, false, false, false);
    }

    method TakeRelease() returns (release: bool)
      modifies this`released
      ensures (View(), release) == ReleaseHook(old(View()))
    {
      var finished := observer == Detached || observer == Delivered;
      if released || transport != Retired || !finished { return false; }
      released := true;
      release := true;
    }

    method DoPublish(result: nat) returns (accepted: bool, effect: Effect)
      modifies this
      ensures (View(), effect) == Publish(old(View()), result) && accepted == old(outcome).None?
    {
      if outcome.Some? { return false, NOTHING; }
      relay := relay.(published := true);
      outcome := Some(Published(result));
      effect := NOTHING;
      if observer == Callback { effect := effect.(enqueue := Some(token)); }
      accepted := true;
    }

    method DoRetire() returns (effect: Effect)
      modifies this
      ensures (View(), effect) == Retire(old(View()))
    {
      var delivery := if transport == Queued then NotStarted else Indeterminate;
      transport := Retired;
      relay := relay.(retired := true);
      var notify := None;
      if outcome.None? {
        outcome := Some(Abandoned(delivery));
        if observer == Callback { notify := Some(token); }
      }
      var release := TakeRelease();
      effect := Effect(notify, release);
    }

    method DoSelectCallback(t: Token)
      requires observer == Unselected
      modifies this
      ensures View() == SelectCallback(old(View()), t)
    {
      observer, token := Callback, t;
      relay := relay.(observing := Some(t));
    }

    method DoTakeCallback(t: Token) returns (effect: Effect)
      requires CanTake(View(), t)
      modifies this
      ensures (View(), effect) == TakeCallback(old(View()), t) && outcome == old(outcome)
    {
      observer := Delivered;
      if relay.observing == Some(t) { relay := relay.(observing := None); }
      token := 0;
      var release := TakeRelease();
      effect := Effect(None, release);
    }

    method DoDetachCallback(t: Token) returns (effect: Effect)
      modifies this
      ensures (View(), effect) == DetachCallback(old(View()), t)
    {
      if observer != Callback || token != t { return NOTHING; }
      observer := Detached;
      if relay.observing == Some(t) { relay := relay.(observing := None); }
      token := 0;
      var release := TakeRelease();
      effect := Effect(None, release);
    }

    method DoDetachUnselected() returns (effect: Effect)
      modifies this
      ensures (View(), effect) == DetachUnselected(old(View()))
    {
      if observer != Unselected { return NOTHING; }
      observer := Detached;
      var release := TakeRelease();
      effect := Effect(None, release);
    }

    method DoFinishWait() returns (effect: Effect)
      requires observer == BlockingWaiting && outcome.Some?
      modifies this
      ensures (View(), effect) == FinishWait(old(View()))
    {
      observer := Delivered;
      var release := TakeRelease();
      effect := Effect(None, release);
    }

    method DoRequestCancel() returns (requested: bool)
      modifies this`relay
      ensures (View(), requested) == RequestCancel(old(View()))
    {
      if relay.cancelled || relay.published || relay.retired { return false; }
      relay := relay.(cancelled := true);
      requested := true;
    }

    method AdvanceTransport(phase: Transport)
      requires Rank(transport) <= Rank(phase)
      modifies this`transport
      ensures View() == Mark(old(View()), phase)
    {
      transport := phase;
    }
  }

  // --------------------------------------------------------------- the race

  datatype SubscribePhase = NotSubscribed | Selected | Registered | Subscribed | Refused

  /** Where the observer record is. Gone means extracted: run, or destroyed with its lease. */
  datatype RecordPhase = Absent | Present | Ready | Claimed | Gone

  datatype System = System(
    core: Core, token: Token, subscribe: SubscribePhase, record: RecordPhase,
    queueClosed: bool, enqueues: nat, leaseDrop: bool, takenAway: bool,
    links: nat, runs: nat, releaseCalls: nat, releases: nat)

  const START := System(FRESH, 0, NotSubscribed, Absent, false, 0, false, false, 0, 0, 0, 0)

  /** Critical sections of every thread that can touch the operation or its record. */
  datatype Action =
    | DoPublish(result: nat) | DoRetire | DoMark(phase: Transport) | DoCancel
    | DoSelect(token: Token) | DoRegister | DoCheck
    | DoEnqueue | DoClaim | DoRun | DoDiscard | DoDetachRecord | DoCloseQueue | DoDropLease
    | DoSelectBlocking | DoBeginWait | DoFinishWait | DoAbandonHandle
    | DoReleaseCall

  function Carry(s: System, next: (Core, Effect)): System {
    s.(core := next.0,
       enqueues := s.enqueues + (if next.1.enqueue.Some? then 1 else 0),
       releaseCalls := s.releaseCalls + (if next.1.release then 1 else 0))
  }

  function TakeRecordAway(s: System): System {
    s.(record := Gone, leaseDrop := true, takenAway := true)
  }

  /** One critical section; a section whose turn it is not changes nothing. */
  function Act(s: System, a: Action): System {
    match a
    case DoPublish(result) => Carry(s, Publish(s.core, result))
    case DoRetire => Carry(s, Retire(s.core))
    case DoMark(phase) => if Rank(s.core.transport) <= Rank(phase) < 4 then s.(core := Mark(s.core, phase)) else s
    case DoCancel => s.(core := RequestCancel(s.core).0)
    case DoSelect(t) =>
      if s.core.observer.Unselected? then s.(core := SelectCallback(s.core, t), token := t, subscribe := Selected)
      else s
    case DoRegister =>
      if !s.subscribe.Selected? then s
      else if s.queueClosed then s.(subscribe := Refused, leaseDrop := true)
      else s.(subscribe := Registered, record := Present)
    case DoCheck =>
      if !s.subscribe.Registered? then s
      else s.(subscribe := Subscribed, enqueues := s.enqueues + (if s.core.outcome.Some? then 1 else 0))
    case DoEnqueue =>
      if s.enqueues == 0 then s
      else if s.queueClosed || !s.record.Present? then s.(enqueues := s.enqueues - 1)
      else s.(enqueues := s.enqueues - 1, record := Ready, links := s.links + 1)
    case DoClaim => if s.record.Ready? then s.(record := Claimed) else s
    case DoRun =>
      if s.record.Claimed? then Carry(s.(record := Gone, runs := s.runs + 1), TakeCallback(s.core, s.token)) else s
    case DoDiscard => if s.record.Ready? then TakeRecordAway(s) else s
    case DoDetachRecord => if s.record.Present? || s.record.Ready? then TakeRecordAway(s) else s
    case DoCloseQueue =>
      var closed := s.(queueClosed := true);
      if s.record.Present? || s.record.Ready? then TakeRecordAway(closed) else closed
    case DoDropLease =>
      if s.leaseDrop then Carry(s.(leaseDrop := false), DetachCallback(s.core, s.token)) else s
    case DoSelectBlocking =>
      if s.core.observer.Unselected? then s.(core := s.core.(observer := Blocking)) else s
    case DoBeginWait =>
      if s.core.observer.Blocking? then s.(core := s.core.(observer := BlockingWaiting)) else s
    case DoFinishWait =>
      if s.core.observer.BlockingWaiting? && s.core.outcome.Some? then Carry(s, FinishWait(s.core)) else s
    case DoAbandonHandle => Carry(s, DetachUnselected(s.core))
    case DoReleaseCall =>
      if s.releaseCalls == 0 then s else s.(releaseCalls := s.releaseCalls - 1, releases := s.releases + 1)
  }

  function ActAll(s: System, actions: seq<Action>): System
    decreases |actions|
  {
    if actions == [] then s else ActAll(Act(s, actions[0]), actions[1..])
  }

  /** A record or a lease exists only while the callback observer is the one selected. */
  ghost predicate LeaseInv(s: System) {
    && (s.subscribe.NotSubscribed? ==> !s.core.observer.Callback?)
    && (s.subscribe.Selected? ==> s.core.observer.Callback? && s.core.token == s.token && !s.leaseDrop)
    && ((s.record.Present? || s.record.Ready? || s.record.Claimed? || s.leaseDrop) ==>
          s.core.observer.Callback? && s.core.token == s.token)
    && (s.leaseDrop ==> s.record.Gone? || s.subscribe.Refused?)
    && (s.record.Absent? <==> s.subscribe.NotSubscribed? || s.subscribe.Selected? || s.subscribe.Refused?)
    && (s.subscribe.NotSubscribed? ==> !s.leaseDrop)
    && (s.core.observer.Unselected? ==> s.subscribe.NotSubscribed?)
  }

  ghost predicate LinkInv(s: System) {
    && (s.enqueues > 0 ==> s.core.outcome.Some?)
    && (s.record.Absent? || s.record.Present? ==> s.links == 0)
    && (s.record.Ready? || s.record.Claimed? ==> s.links == 1 && s.core.outcome.Some?)
    && s.links <= 1
    && (s.record.Gone? && !s.takenAway ==> s.links == 1 && s.runs == 1)
    && (s.runs > 0 ==> s.record.Gone? && !s.takenAway && s.runs == 1 && s.core.observer.Delivered?)
    && (s.takenAway ==> s.record.Gone?)
    && (s.queueClosed ==> !s.record.Present? && !s.record.Ready?)
    // The handshake: an outcome that found the record unlinked still owes it an enqueue.
    && (s.record.Present? && s.subscribe.Subscribed? && s.core.outcome.Some? ==> s.enqueues > 0)
    && (s.record.Present? ==> s.subscribe.Registered? || s.subscribe.Subscribed?)
  }

  ghost predicate ReleaseInv(s: System) {
    && (s.core.released <==> s.core.transport.Retired? && ObserverFinished(s.core))
    && s.releaseCalls + s.releases == (if s.core.released then 1 else 0)
    && (s.core.transport.Retired? ==> s.core.outcome.Some?)
    && (s.core.observer.Delivered? ==> s.core.outcome.Some?)
  }

  /** The relay, which outlives the result, knows enough to refuse a late cancellation. */
  ghost predicate RelayInv(s: System) {
    && (s.core.outcome.Some? ==> s.core.relay.published || s.core.relay.retired)
    && (s.core.transport.Retired? ==> s.core.relay.retired)
    && (s.core.relay.observing.Some? <==> s.core.observer.Callback?)
    && (s.core.observer.Callback? ==> s.core.relay.observing == Some(s.core.token))
  }

  ghost predicate Inv(s: System) { LeaseInv(s) && LinkInv(s) && ReleaseInv(s) && RelayInv(s) }

  predicate SourceAction(a: Action) { a.DoPublish? || a.DoRetire? || a.DoMark? || a.DoCancel? }

  predicate SubscriberAction(a: Action) { a.DoSelect? || a.DoRegister? || a.DoCheck? || a.DoEnqueue? }

  predicate RecordAction(a: Action) {
    a.DoClaim? || a.DoRun? || a.DoDiscard? || a.DoDetachRecord? || a.DoCloseQueue? || a.DoDropLease?
  }

  lemma SourceKeepsInv(s: System, a: Action)
    requires Inv(s) && SourceAction(a)
    ensures Inv(Act(s, a))
  {}

  lemma SubscriberKeepsInv(s: System, a: Action)
    requires Inv(s) && SubscriberAction(a)
    ensures Inv(Act(s, a))
  {}

  lemma RecordKeepsInv(s: System, a: Action)
    requires Inv(s) && RecordAction(a)
    ensures Inv(Act(s, a))
  {}

  lemma WaiterKeepsInv(s: System, a: Action)
    requires Inv(s) && !SourceAction(a) && !SubscriberAction(a) && !RecordAction(a)
    ensures Inv(Act(s, a))
  {}

  lemma ActKeepsInv(s: System, a: Action)
    requires Inv(s)
    ensures Inv(Act(s, a))
  {
    hide Inv, Act;
    if SourceAction(a) {
      SourceKeepsInv(s, a);
    } else if SubscriberAction(a) {
      SubscriberKeepsInv(s, a);
    } else if RecordAction(a) {
      RecordKeepsInv(s, a);
    } else {
      WaiterKeepsInv(s, a);
    }
  }

  lemma {:induction false} ActAllKeepsInv(s: System, actions: seq<Action>)
    requires Inv(s)
    ensures Inv(ActAll(s, actions))
    decreases |actions|
  {
    if actions != [] {
      hide Inv, Act;
      ActKeepsInv(s, actions[0]);
      ActAllKeepsInv(Act(s, actions[0]), actions[1..]);
    }
  }

  lemma EveryRunKeepsInv(actions: seq<Action>)
    ensures Inv(ActAll(START, actions))
  {
    StartIsInv();
    hide Inv, ActAll;
    ActAllKeepsInv(START, actions);
  }

  lemma StartIsInv()
    ensures Inv(START)
  {}

  /** Every enqueue asked for has happened and the subscriber has finished. */
  ghost predicate Settled(s: System) { s.subscribe.Subscribed? && s.core.outcome.Some? && s.enqueues == 0 }

  /**
   * Over every interleaving: the record is linked at most once and run at most once; a record
   * about to run satisfies the assertions of take_callback, so it always finds an outcome; and
   * once both sides are done, a record nobody detached, discarded or closed was linked exactly once.
   */
  lemma {:induction false} NoLostOrDoubledCompletion(actions: seq<Action>)
    ensures var s := ActAll(START, actions);
            && s.links <= 1 && s.runs <= 1
            && (s.record.Claimed? ==> CanTake(s.core, s.token))
            && (s.runs == 1 ==> s.core.outcome.Some? && s.core.observer.Delivered?)
            && (Settled(s) && !s.takenAway ==> s.links == 1 && (s.record.Ready? || s.record.Claimed? || s.runs == 1))
  {
    EveryRunKeepsInv(actions);
  }

  /**
   * The admission is given back at most once, and a give-back has been called for exactly when the
   * transport is retired and the observer is detached or delivered.
   */
  lemma {:induction false} AdmissionReleasedExactlyOnce(actions: seq<Action>)
    ensures var s := ActAll(START, actions);
            && s.releases <= 1
            && (s.releaseCalls + s.releases == 1 <==> s.core.transport.Retired? && ObserverFinished(s.core))
            && (s.releaseCalls == 0 ==> (s.releases == 1 <==> s.core.transport.Retired? && ObserverFinished(s.core)))
  {
    EveryRunKeepsInv(actions);
  }

  lemma ActKeepsOutcome(s: System, a: Action)
    requires s.core.outcome.Some?
    ensures Act(s, a).core.outcome == s.core.outcome
  {}

  /** The first outcome is the only one: nothing that happens later changes it. */
  lemma {:induction false} OutcomeIsFinal(s: System, actions: seq<Action>)
    requires s.core.outcome.Some?
    ensures ActAll(s, actions).core.outcome == s.core.outcome
    decreases |actions|
  {
    if actions != [] {
      hide Act;
      ActKeepsOutcome(s, actions[0]);
      OutcomeIsFinal(Act(s, actions[0]), actions[1..]);
    }
  }

  /** A cancellation is accepted only while there is no outcome and the transport is not retired. */
  lemma {:induction false} CancelOnlyBeforeOutcome(actions: seq<Action>)
    ensures var s := ActAll(START, actions);
            RequestCancel(s.core).1 ==> s.core.outcome.None? && !s.core.transport.Retired?
  {
    EveryRunKeepsInv(actions);
  }

  // ------------------------------------- the record phase, seen in the queue

  /** Where the queue has the record of token t; Absent covers every extracted record. */
  function PhaseIn(f: Queue.Fifo, t: Token): RecordPhase {
    if t !in f.records then Absent else if Queue.IsReady(f.ready, t) then Ready else Present
  }

  /** The record steps of the race are what the queue's operations on that token do. */
  lemma QueueDoesRecordSteps(f: Queue.Fifo, t: Token, callback: nat)
    requires Queue.WellFormed(f)
    ensures Queue.Enqueue(f, t).1 <==> !f.closed && PhaseIn(f, t).Present?
    ensures PhaseIn(Queue.Enqueue(f, t).0, t) == if !f.closed && PhaseIn(f, t).Present? then Ready else PhaseIn(f, t)
    ensures Queue.Register(f, t, callback).1 <==> !f.closed && PhaseIn(f, t).Absent?
    ensures Queue.Register(f, t, callback).1 ==> PhaseIn(Queue.Register(f, t, callback).0, t).Present?
    ensures PhaseIn(Queue.Detach(f, t), t).Absent? && PhaseIn(Queue.Close(f), t).Absent?
    ensures f.ready != [] && f.ready[0].token == t ==> PhaseIn(f, t).Ready? && PhaseIn(Queue.Claim(f), t).Absent?
  {
    Queue.ReadyAppend(f.ready, Queue.Entry(t, f.lastGeneration + 1), t);
    if Queue.IsReady(f.ready, t) {
      var i :| 0 <= i < |f.ready| && f.ready[i].token == t;
      assert f.ready[i] in f.ready;
    }
  }

  /** What happens to other tokens, short of closing the queue, leaves this record where it is. */
  lemma OtherTokensDoNotMatter(f: Queue.Fifo, t: Token, op: Queue.Op)
    requires Queue.WellFormed(f) && t != f.nextToken
    requires !op.DoClose?
    requires (op.DoRegister? || op.DoEnqueue? || op.DoDetach?) ==> op.token != t
    ensures PhaseIn(Queue.Apply(f, op), t) == PhaseIn(f, t)
  {
    Queue.ReadyAppend(f.ready, Queue.Entry(if op.DoEnqueue? then op.token else f.nextToken, f.lastGeneration + 1), t);
    match op {
      case DoDetach(u) =>
        Queue.WithoutMembers(f.ready, u);
      case _ =>
    }
  }

  // ------------------------------------------------------- engine admission

  /** The bounded channel of an engine and every operation it admitted. */
  datatype Engine = Engine(limit: nat, inFlight: nat, failed: bool, operations: map<nat, System>)

  datatype EngineAction = Admit(id: nat) | Within(id: nat, action: Action) | FailChannel

  function Released(n: nat): nat { if n > 0 then n - 1 else 0 }

  function EngineAct(e: Engine, a: EngineAction): Engine {
    match a
    case Admit(id) =>
      if e.failed || e.inFlight >= e.limit || id in e.operations then e
      else e.(inFlight := e.inFlight + 1, operations := e.operations[id := START])
    case Within(id, action) =>
      if id !in e.operations then e
      else
        var s := e.operations[id];
        e.(operations := e.operations[id := Act(s, action)],
           inFlight := if action.DoReleaseCall? && s.releaseCalls > 0 then Released(e.inFlight) else e.inFlight)
    case FailChannel => e.(failed := true)
  }

  function EngineActAll(e: Engine, actions: seq<EngineAction>): Engine
    decreases |actions|
  {
    if actions == [] then e else EngineActAll(EngineAct(e, actions[0]), actions[1..])
  }

  /** Operations whose admission has not been given back. */
  function Held(operations: map<nat, System>): set<nat> {
    set id | id in operations && operations[id].releases == 0
  }

  ghost predicate EngineInv(e: Engine) {
    && (forall id :: id in e.operations ==> Inv(e.operations[id]))
    && e.inFlight == |Held(e.operations)|
    && e.inFlight <= e.limit
  }

  lemma ActReleases(s: System, a: Action)
    requires Inv(s)
    ensures Act(s, a).releases == s.releases + (if a.DoReleaseCall? && s.releaseCalls > 0 then 1 else 0)
  {}

  lemma HeldAfter(operations: map<nat, System>, id: nat, next: System)
    requires id in operations && next.releases >= operations[id].releases
    ensures var after := Held(operations[id := next]);
            |after| == |Held(operations)| - (if operations[id].releases == 0 < next.releases then 1 else 0)
  {
    var after := Held(operations[id := next]);
    if operations[id].releases == 0 < next.releases {
      assert after == Held(operations) - {id} && id in Held(operations);
    } else {
      assert after == Held(operations);
    }
  }

  /** An operation that still owes its give-back is held. */
  lemma HeldWhileOwed(operations: map<nat, System>, id: nat)
    requires id in operations && Inv(operations[id])
    ensures operations[id].releaseCalls > 0 ==> operations[id].releases == 0 && |Held(operations)| > 0
  {
    if operations[id].releaseCalls > 0 { assert id in Held(operations); }
  }

  lemma EngineActKeepsInv(e: Engine, a: EngineAction)
    requires EngineInv(e)
    ensures EngineInv(EngineAct(e, a))
  {
    hide Inv, Act;
    StartIsInv();
    match a {
      case Admit(id) =>
        if !(e.failed || e.inFlight >= e.limit || id in e.operations) {
          assert Held(e.operations[id := START]) == Held(e.operations) + {id};
        }
      case Within(id, action) =>
        if id in e.operations {
          var s := e.operations[id];
          ActKeepsInv(s, action);
          ActReleases(s, action);
          HeldAfter(e.operations, id, Act(s, action));
          HeldWhileOwed(e.operations, id);
        }
      case FailChannel =>
    }
  }

  /**
   * Over every interleaving of any number of operations, the in-flight count is the number of
   * admissions not yet given back, it never exceeds the limit, and giving back never meets zero.
   */
  lemma {:induction false} InFlightIsHeldAdmissions(e: Engine, actions: seq<EngineAction>)
    requires EngineInv(e)
    ensures var last := EngineActAll(e, actions);
            && last.inFlight == |Held(last.operations)| && last.inFlight <= last.limit
            && (forall id :: id in last.operations && last.operations[id].releaseCalls > 0 ==> last.inFlight > 0)
    decreases |actions|
  {
    if actions == [] {
      forall id | id in e.operations && e.operations[id].releaseCalls > 0 ensures e.inFlight > 0 {
        HeldWhileOwed(e.operations, id);
      }
    } else {
      EngineActKeepsInv(e, actions[0]);
      InFlightIsHeldAdmissions(EngineAct(e, actions[0]), actions[1..]);
    }
  }

  class Channel {
    const limit: nat
    var inFlight: nat
    var failed: bool

    constructor (limit: nat)
      ensures this.limit == limit && inFlight == 0 && !failed
    {
      this.limit := limit;
      inFlight, failed := 0, false;
    }

    method TryAdmit() returns (accepted: bool)
      modifies this`inFlight
      ensures accepted <==> !failed && old(inFlight) < limit
      ensures inFlight == old(inFlight) + (if accepted then 1 else 0)
    {
      if failed { return false; }
      if inFlight >= limit { return false; }
      inFlight := inFlight + 1;
      accepted := true;
    }

    method Release()
      modifies this`inFlight
      ensures inFlight == Released(old(inFlight))
    {
      if inFlight > 0 { inFlight := inFlight - 1; }
    }
  }
}
