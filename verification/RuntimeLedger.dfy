/**
 * The command runtime's ledger: every admitted command holds a lease with three legs, and the
 * ledger's counters follow the leases. Every mutex section is one action.
 */
module RuntimeLedger {

  datatype Leg = Transport | Result | Observer

  /** `returned` counts how often the lease gave its slot back. */
  datatype Lease = Lease(
    admitted: bool, completed: bool, transport: bool, result: bool, observer: bool, released: bool, returned: nat)

  /** The holder of the submission lock: nobody, past the accepting check, or past the capacity check. */
  datatype Submitter = Nobody | Checking | Cleared

  /** Counters are integers so that an underflow would show. */
  datatype Ledger = Ledger(
    capacity: nat, inFlight: int, pendingResults: int, pendingObservers: int,
    accepted: int, refused: int, completed: int, accepting: bool,
    leases: seq<Lease>, submitter: Submitter, attempts: nat)

  function NewLedger(capacity: nat): Ledger { Ledger(capacity, 0, 0, 0, 0, 0, 0, true, [], Nobody, 0) }

  const NEW_LEASE := Lease(false, false, false, false, false, false, 0)

  // ---------------------------------------------------------- the sections

  function Refuse(l: Ledger): Ledger { l.(refused := l.refused + 1, submitter := Nobody, attempts := l.attempts + 1) }

  function BeginSubmit(l: Ledger): Ledger {
    if !l.submitter.Nobody? then l else if !l.accepting then Refuse(l) else l.(submitter := Checking)
  }

  /** Validation and preflight refuse before the capacity check, a failed registration after it. */
  function RefuseSubmit(l: Ledger): Ledger { if l.submitter.Nobody? then l else Refuse(l) }

  function CheckFull(l: Ledger): Ledger {
    if !l.submitter.Checking? then l else if l.inFlight >= l.capacity then Refuse(l) else l.(submitter := Cleared)
  }

  function MakeLease(l: Ledger): Ledger { l.(leases := l.leases + [NEW_LEASE]) }

  function Put(l: Ledger, i: nat, lease: Lease): Ledger
    requires i < |l.leases|
  {
    l.(leases := l.leases[i := lease])
  }

  function Admit(l: Ledger, i: nat, hasObserver: bool): Ledger {
    if i >= |l.leases| || l.leases[i].admitted || !l.submitter.Cleared? then l
    else
      Put(l, i, l.leases[i].(admitted := true, observer := !hasObserver))
        .(inFlight := l.inFlight + 1, pendingResults := l.pendingResults + 1,
          pendingObservers := if hasObserver then l.pendingObservers + 1 else l.pendingObservers,
          accepted := l.accepted + 1, submitter := Nobody, attempts := l.attempts + 1)
  }

  function Complete(l: Ledger, i: nat): Ledger {
    if i < |l.leases| && l.leases[i].admitted && !l.leases[i].completed
    then Put(l, i, l.leases[i].(completed := true)).(completed := l.completed + 1) else l
  }

  predicate LegsDone(r: Lease) { r.transport && r.result && r.observer }

  function Marked(r: Lease, leg: Leg): Lease {
    match leg
    case Transport => r.(transport := true)
    case Result => r.(result := true)
    case Observer => r.(observer := true)
  }

  /** The last leg to finish returns the slot. */
  predicate ReturnsSlot(r: Lease, leg: Leg) { !r.released && LegsDone(Marked(r, leg)) }

  function Finished(r: Lease, leg: Leg): Lease {
    if ReturnsSlot(r, leg) then Marked(r, leg).(released := true, returned := r.returned + 1) else Marked(r, leg)
  }

  function FinishLeg(l: Ledger, i: nat, leg: Leg): Ledger {
    if i < |l.leases| && l.leases[i].admitted then
      var r := l.leases[i];
      Put(l, i, Finished(r, leg)).(
      pendingResults := if leg.Result? && !r.result then l.pendingResults - 1 else l.pendingResults,
      pendingObservers := if leg.Observer? && !r.observer then l.pendingObservers - 1 else l.pendingObservers,
      inFlight := if ReturnsSlot(r, leg) then l.inFlight - 1 else l.inFlight)
    else l
  }

  datatype Action =
    | DoBegin | DoRefuse | DoCheckFull | DoMakeLease | DoAdmit(i: nat, hasObserver: bool)
    | DoComplete(i: nat) | DoFinish(i: nat, leg: Leg) | DoStop

  function Act(l: Ledger, a: Action): Ledger {
    match a
    case DoBegin => BeginSubmit(l)
    case DoRefuse => RefuseSubmit(l)
    case DoCheckFull => CheckFull(l)
    case DoMakeLease => MakeLease(l)
    case DoAdmit(i, hasObserver) => Admit(l, i, hasObserver)
    case DoComplete(i) => Complete(l, i)
    case DoFinish(i, leg) => FinishLeg(l, i, leg)
    case DoStop => l.(accepting := false)
  }

  function ActAll(l: Ledger, actions: seq<Action>): Ledger
    decreases |actions|
  {
    if actions == [] then l else ActAll(Act(l, actions[0]), actions[1..])
  }

  // --------------------------------------------------- counting the leases

  datatype Quality = Admitted | Completed | HoldsSlot | AwaitsResult | AwaitsObserver

  predicate Has(r: Lease, q: Quality) {
    match q
    case Admitted => r.admitted
    case Completed => r.completed
    case HoldsSlot => r.admitted && !LegsDone(r)
    case AwaitsResult => r.admitted && !r.result
    case AwaitsObserver => r.admitted && !r.observer
  }

  function One(r: Lease, q: Quality): nat { if Has(r, q) then 1 else 0 }

  /** How many leases have a quality. */
  function Tally(leases: seq<Lease>, q: Quality): nat
    decreases |leases|
  {
    if leases == [] then 0 else One(leases[0], q) + Tally(leases[1..], q)
  }

  lemma {:induction false} TallyUpdate(leases: seq<Lease>, i: nat, r: Lease, q: Quality)
    requires i < |leases|
    ensures Tally(leases[i := r], q) + One(leases[i], q) == Tally(leases, q) + One(r, q)
    decreases |leases|
  {
    if i == 0 {
      assert leases[0 := r][1..] == leases[1..];
    } else {
      assert leases[i := r][1..] == leases[1..][i - 1 := r];
      TallyUpdate(leases[1..], i - 1, r, q);
    }
  }

  lemma {:induction false} TallySnoc(leases: seq<Lease>, r: Lease, q: Quality)
    ensures Tally(leases + [r], q) == Tally(leases, q) + One(r, q)
    decreases |leases|
  {
    if leases == [] {
      assert leases + [r] == [r] && [r][1..] == [];
    } else {
      assert (leases + [r])[1..] == leases[1..] + [r];
      TallySnoc(leases[1..], r, q);
    }
  }

  /** What the ledger shows for a quality. */
  function Shown(l: Ledger, q: Quality): int {
    match q
    case Admitted => l.accepted
    case Completed => l.completed
    case HoldsSlot => l.inFlight
    case AwaitsResult => l.pendingResults
    case AwaitsObserver => l.pendingObservers
  }

  ghost predicate LeaseOk(r: Lease) {
    && (r.completed ==> r.admitted)
    && (!r.admitted ==> !r.transport && !r.result && !r.observer && !r.released)
    && (r.admitted ==> (r.released <==> LegsDone(r)))
    && r.returned == if r.released then 1 else 0
  }

  ghost predicate Inv(l: Ledger) {
    && (forall i :: 0 <= i < |l.leases| ==> LeaseOk(l.leases[i]))
    && (forall q :: Shown(l, q) == Tally(l.leases, q))
    && l.inFlight <= l.capacity && (l.submitter.Cleared? ==> l.inFlight < l.capacity)
    && l.accepted + l.refused == l.attempts
  }

  /** One lease changes and every counter moves with it. */
  lemma Moves(l: Ledger, n: Ledger, i: nat)
    requires Inv(l) && i < |l.leases| && |n.leases| == |l.leases| && n.leases == l.leases[i := n.leases[i]]
             && LeaseOk(n.leases[i])
    requires forall q :: Shown(n, q) - Shown(l, q) == One(n.leases[i], q) - One(l.leases[i], q)
    requires n.capacity == l.capacity && n.inFlight <= n.capacity && (n.submitter.Cleared? ==> n.inFlight < n.capacity)
    requires n.accepted + n.refused == n.attempts
    ensures Inv(n)
  {
    forall q ensures Shown(n, q) == Tally(n.leases, q) { TallyUpdate(l.leases, i, n.leases[i], q); }
  }

  lemma AdmitKeeps(l: Ledger, i: nat, hasObserver: bool)
    requires Inv(l)
    ensures Inv(Admit(l, i, hasObserver))
  {
    var n := Admit(l, i, hasObserver);
    if n != l {
      assert LeaseOk(l.leases[i]);
      Moves(l, n, i);
    }
  }

  lemma CompleteKeeps(l: Ledger, i: nat)
    requires Inv(l)
    ensures Inv(Complete(l, i))
  {
    var n := Complete(l, i);
    if n != l {
      assert LeaseOk(l.leases[i]);
      Moves(l, n, i);
    }
  }

  lemma FinishKeeps(l: Ledger, i: nat, leg: Leg)
    requires Inv(l)
    ensures Inv(FinishLeg(l, i, leg))
  {
    if i < |l.leases| && l.leases[i].admitted {
      var n := FinishLeg(l, i, leg);
      assert LeaseOk(l.leases[i]);
      assert n.leases == l.leases[i := n.leases[i]];
      Moves(l, n, i);
    }
  }

  lemma MakeLeaseKeeps(l: Ledger)
    requires Inv(l)
    ensures Inv(MakeLease(l))
  {
    var n := MakeLease(l);
    forall q ensures Shown(n, q) == Tally(n.leases, q) { TallySnoc(l.leases, NEW_LEASE, q); }
  }

  lemma OthersKeep(l: Ledger, n: Ledger)
    requires Inv(l) && n.leases == l.leases && n.capacity == l.capacity
    requires n.inFlight == l.inFlight && n.pendingResults == l.pendingResults
             && n.pendingObservers == l.pendingObservers
    requires n.accepted == l.accepted && n.completed == l.completed
    requires n.submitter.Cleared? ==> n.inFlight < n.capacity
    requires n.accepted + n.refused == n.attempts
    ensures Inv(n)
  {
    forall q ensures Shown(n, q) == Tally(n.leases, q) { assert Shown(n, q) == Shown(l, q); }
  }

  lemma ActKeeps(l: Ledger, a: Action)
    requires Inv(l)
    ensures Inv(Act(l, a))
  {
    match a {
      case DoMakeLease => MakeLeaseKeeps(l);
      case DoAdmit(i, hasObserver) => AdmitKeeps(l, i, hasObserver);
      case DoComplete(i) => CompleteKeeps(l, i);
      case DoFinish(i, leg) => FinishKeeps(l, i, leg);
      case _ => OthersKeep(l, Act(l, a));
    }
  }

  lemma {:induction false} ActAllKeeps(l: Ledger, actions: seq<Action>)
    requires Inv(l)
    ensures Inv(ActAll(l, actions))
    decreases |actions|
  {
    if actions != [] {
      hide Inv, Act;
      ActKeeps(l, actions[0]);
      ActAllKeeps(Act(l, actions[0]), actions[1..]);
    }
  }

  // ------------------------------------------------------------ main results

  /** Over every run each counter is the number of leases it stands for, so none underflows, and the bound holds. */
  lemma CountersFollowLeases(capacity: nat, actions: seq<Action>)
    ensures var l := ActAll(NewLedger(capacity), actions);
            && l.inFlight == Tally(l.leases, HoldsSlot) <= l.capacity
            && l.pendingResults == Tally(l.leases, AwaitsResult)
            && l.pendingObservers == Tally(l.leases, AwaitsObserver)
            && l.accepted == Tally(l.leases, Admitted) && l.completed == Tally(l.leases, Completed)
            && l.accepted + l.refused == l.attempts
  {
    ActAllKeeps(NewLedger(capacity), actions);
    var l := ActAll(NewLedger(capacity), actions);
    hide ActAll;
    assert Shown(l, HoldsSlot) == Tally(l.leases, HoldsSlot) && Shown(l, AwaitsResult) == Tally(l.leases, AwaitsResult);
    assert Shown(l, AwaitsObserver) == Tally(l.leases, AwaitsObserver)
        && Shown(l, Admitted) == Tally(l.leases, Admitted);
    assert Shown(l, Completed) == Tally(l.leases, Completed);
  }

  /** A lease returns its slot exactly once, and exactly when all three legs have finished. */
  lemma SlotReturnedOnce(capacity: nat, actions: seq<Action>, i: nat)
    requires i < |ActAll(NewLedger(capacity), actions).leases|
    ensures var r := ActAll(NewLedger(capacity), actions).leases[i];
            r.returned == if r.admitted && r.transport && r.result && r.observer then 1 else 0
  {
    ActAllKeeps(NewLedger(capacity), actions);
    hide ActAll;
    assert LeaseOk(ActAll(NewLedger(capacity), actions).leases[i]);
  }

  /** Legs of any leases may finish in any order, and again, without changing what the ledger ends up with. */
  lemma LegsCommute(l: Ledger, i: nat, a: Leg, j: nat, b: Leg)
    requires Inv(l)
    ensures FinishLeg(FinishLeg(l, i, a), j, b) == FinishLeg(FinishLeg(l, j, b), i, a)
    ensures FinishLeg(FinishLeg(l, i, a), i, a) == FinishLeg(l, i, a)
  {
    if i < |l.leases| && j < |l.leases| && l.leases[i].admitted && l.leases[j].admitted {
      assert LeaseOk(l.leases[i]) && LeaseOk(l.leases[j]);
      hide Inv;
      if i == j { SameLeaseCommutes(l, i, a, b); } else { OtherLeaseCommutes(l, i, a, j, b); }
    }
    if i < |l.leases| && l.leases[i].admitted {
      assert LeaseOk(l.leases[i]);
      hide Inv;
      LegAgain(l, i, a);
    }
  }

  lemma FinishedCommutes(r: Lease, a: Leg, b: Leg)
    requires r.admitted && LeaseOk(r)
    ensures Finished(Finished(r, a), b) == Finished(Finished(r, b), a)
    ensures ReturnsSlot(r, a) && ReturnsSlot(r, b) ==>
            !ReturnsSlot(Finished(r, a), b) && !ReturnsSlot(Finished(r, b), a)
    ensures (ReturnsSlot(r, a) || ReturnsSlot(Finished(r, a), b)) <==>
            (ReturnsSlot(r, b) || ReturnsSlot(Finished(r, b), a))
    ensures !(ReturnsSlot(r, a) && ReturnsSlot(Finished(r, a), b))
            && !(ReturnsSlot(r, b) && ReturnsSlot(Finished(r, b), a))
    ensures Finished(r, a).result == (r.result || a.Result?) && Finished(r, a).observer == (r.observer || a.Observer?)
            && Finished(r, a).admitted
    ensures Finished(r, b).result == (r.result || b.Result?) && Finished(r, b).observer == (r.observer || b.Observer?)
            && Finished(r, b).admitted
  {}

  lemma SameLeaseCommutes(l: Ledger, i: nat, a: Leg, b: Leg)
    requires i < |l.leases| && l.leases[i].admitted && LeaseOk(l.leases[i])
    ensures FinishLeg(FinishLeg(l, i, a), i, b) == FinishLeg(FinishLeg(l, i, b), i, a)
  {
    var r := l.leases[i];
    FinishedCommutes(r, a, b);
    hide Finished, ReturnsSlot, LeaseOk;
    assert l.leases[i := Finished(r, a)][i := Finished(Finished(r, a), b)] ==
        l.leases[i := Finished(Finished(r, a), b)];
    assert l.leases[i := Finished(r, b)][i := Finished(Finished(r, b), a)] ==
        l.leases[i := Finished(Finished(r, b), a)];
  }

  lemma OtherLeaseCommutes(l: Ledger, i: nat, a: Leg, j: nat, b: Leg)
    requires i < |l.leases| && j < |l.leases| && i != j && l.leases[i].admitted && l.leases[j].admitted
    ensures FinishLeg(FinishLeg(l, i, a), j, b) == FinishLeg(FinishLeg(l, j, b), i, a)
  {
    hide Finished, ReturnsSlot;
    var p, q := Finished(l.leases[i], a), Finished(l.leases[j], b);
    assert l.leases[i := p][j := q] == l.leases[j := q][i := p];
  }

  lemma LegAgain(l: Ledger, i: nat, a: Leg)
    requires i < |l.leases| && l.leases[i].admitted && LeaseOk(l.leases[i])
    ensures FinishLeg(FinishLeg(l, i, a), i, a) == FinishLeg(l, i, a)
  {
    var f := Finished(l.leases[i], a);
    assert Finished(f, a) == f && !ReturnsSlot(f, a);
    assert l.leases[i := f][i := f] == l.leases[i := f];
  }

  // ------------------------------------------------------------- the objects

  class LedgerObject {
    const capacity: nat
    var inFlight: int
    var pendingResults: int
    var pendingObservers: int
    var accepted: int
    var refused: int
    var completed: int
    var accepting: bool
    ghost var leases: seq<Lease>
    ghost var submitter: Submitter
    ghost var attempts: nat

    ghost function View(): Ledger
      reads this
    {
      Ledger(capacity, inFlight, pendingResults, pendingObservers, accepted, refused, completed, accepting,
             leases, submitter, attempts)
    }

    constructor (capacity: nat)
      ensures View() == NewLedger(capacity)
    {
      this.capacity := capacity;
      inFlight, pendingResults, pendingObservers, accepted, refused, completed := 0, 0, 0, 0, 0, 0;
      accepting := true;
      leases, submitter, attempts := [], Nobody, 0;
    }

    method IsFull() returns (full: bool)
      requires submitter.Checking?
      modifies this`submitter
      ensures full <==> inFlight >= capacity
      ensures !full ==> View() == CheckFull(old(View()))
      ensures full ==> View() == old(View())
    {
      full := inFlight >= capacity;
      if !full { submitter := Cleared; }
    }

    method RefuseOne()
      modifies this`refused, this`submitter, this`attempts
      ensures View() == Refuse(old(View()))
    {
      refused := refused + 1;
      submitter, attempts := Nobody, attempts + 1;
    }

    /** The counters an admission raises. */
    method CountAdmission(hasObserver: bool)
      modifies this
      ensures View() == old(View()).(
                inFlight := old(inFlight) + 1, pendingResults := old(pendingResults) + 1,
                pendingObservers := if hasObserver then old(pendingObservers) + 1 else old(pendingObservers),
                accepted := old(accepted) + 1, submitter := Nobody, attempts := old(attempts) + 1)
    {
      inFlight := inFlight + 1;
      pendingResults := pendingResults + 1;
      if hasObserver { pendingObservers := pendingObservers + 1; }
      accepted := accepted + 1;
      submitter, attempts := Nobody, attempts + 1;
    }
  }

  class LeaseObject {
    const ledger: LedgerObject
    ghost const index: nat
    var admitted: bool
    var completed: bool
    var transport: bool
    var result: bool
    var observer: bool
    var released: bool
    ghost var returned: nat

    ghost function Flags(): Lease
      reads this
    {
      Lease(admitted, completed, transport, result, observer, released, returned)
    }

    /** The ledger's record of this lease is the lease. */
    ghost predicate Valid()
      reads this, ledger
    {
      index < |ledger.leases| && ledger.leases[index] == Flags()
    }

    constructor (ledger: LedgerObject)
      modifies ledger`leases
      ensures this.ledger == ledger && Valid() && ledger.View() == MakeLease(old(ledger.View()))
    {
      this.ledger := ledger;
      index := |ledger.leases|;
      admitted, completed, transport, result, observer, released := false, false, false, false, false, false;
      returned := 0;
      new;
      ledger.leases := ledger.leases + [NEW_LEASE];
    }

    method AdmitLease(hasObserver: bool)
      requires Valid() && !admitted && ledger.submitter.Cleared?
      modifies this, ledger
      ensures Valid() && ledger.View() == Admit(old(ledger.View()), index, hasObserver)
    {
      admitted := true;
      observer := !hasObserver;
      ledger.CountAdmission(hasObserver);
      ledger.leases := ledger.leases[index := Flags()];
    }

    method CompleteLease()
      requires Valid()
      modifies this`completed, ledger`completed, ledger`leases
      ensures Valid() && ledger.View() == Complete(old(ledger.View()), index)
    {
      if admitted && !completed {
        completed := true;
        ledger.completed := ledger.completed + 1;
        ledger.leases := ledger.leases[index := Flags()];
      }
    }

    method Finish(leg: Leg)
      requires Valid()
      modifies this, ledger`pendingResults, ledger`pendingObservers, ledger`inFlight, ledger`leases
      ensures Valid() && ledger.View() == FinishLeg(old(ledger.View()), index, leg)
    {
      if !admitted { return; }
      hide Marked;
      MarkLeg(leg);
      ReleaseSlot();
      ledger.leases := ledger.leases[index := Flags()];
    }

    /** The leg's flag, and the counter it holds up the first time. */
    method MarkLeg(leg: Leg)
      modifies this`transport, this`result, this`observer, ledger`pendingResults, ledger`pendingObservers
      ensures Flags() == Marked(old(Flags()), leg)
      ensures ledger.View() == old(ledger.View()).(
                pendingResults := old(ledger.pendingResults) - (if leg.Result? && !old(result) then 1 else 0),
                pendingObservers := old(ledger.pendingObservers) - (if leg.Observer? && !old(observer) then 1 else 0))
    {
      match leg {
        case Transport => transport := true;
        case Result =>
          if !result {
            result := true;
            ledger.pendingResults := ledger.pendingResults - 1;
          }
        case Observer =>
          if !observer {
            observer := true;
            ledger.pendingObservers := ledger.pendingObservers - 1;
          }
      }
    }

    /** The slot goes back when the last leg is done, once. */
    method ReleaseSlot()
      modifies this`released, this`returned, ledger`inFlight
      ensures var due := !old(released) && LegsDone(old(Flags()));
              && Flags() == (if due then old(Flags()).(released := true, returned := old(returned) + 1)
                   else old(Flags()))
              && ledger.View() == old(ledger.View()).(inFlight := old(ledger.inFlight) - if due then 1 else 0)
    {
      if !released && transport && result && observer {
        released := true;
        returned := returned + 1;
        ledger.inFlight := ledger.inFlight - 1;
      }
    }
  }
}
