/**
 * One operation together with the queue its record waits in. Everything the operation learns about its record it
 * learns from the queue; other tokens come and go, and dispatchers claim or discard whatever is oldest. Every run of
 * the two is a run of the race, so what holds of every race holds of the operation and its real queue.
 */
module CompletionRace {
  import opened Prelude
  import opened OperationProtocol
  import Queue = CompletionQueue

  /** The observer record: not made yet, in the queue, in a dispatcher's hand, or destroyed. */
  datatype Holding = NotMade | InQueue | InHand | Dropped

  datatype Product = Product(
    core: Core, fifo: Queue.Fifo, drawn: Option<Token>, token: Token, subscribe: SubscribePhase, holding: Holding,
    enqueues: nat, leaseDrop: bool, takenAway: bool, links: nat, runs: nat, releaseCalls: nat, releases: nat)

  /** A queue in use, and an operation nobody observes. */
  function Begin(f: Queue.Fifo): Product {
    Product(FRESH, f, None, 0, NotSubscribed, NotMade, 0, false, false, 0, 0, 0, 0)
  }

  function RecordOf(p: Product): RecordPhase {
    match p.holding
    case NotMade => Absent
    case InQueue => PhaseIn(p.fifo, p.token)
    case InHand => Claimed
    case Dropped => Gone
  }

  /** The race this state stands for. */
  function Race(p: Product): System {
    System(p.core, p.token, p.subscribe, RecordOf(p), p.fifo.closed, p.enqueues, p.leaseDrop, p.takenAway,
           p.links, p.runs, p.releaseCalls, p.releases)
  }

  /** The race's sections that leave queue and record alone. */
  predicate LocalAction(a: Action) {
    || SourceAction(a) || a.DoCheck? || a.DoDropLease? || a.DoSelectBlocking? || a.DoBeginWait? || a.DoFinishWait?
    || a.DoAbandonHandle? || a.DoReleaseCall?
  }

  datatype Move =
    | Local(action: Action) | Draw | Select | Register(callback: nat) | Enqueue
    | Claim | Run | Discard | Detach | Close | Other(op: Queue.Op)

  /** What a section leaves, apart from the record. */
  function Follow(p: Product, s: System): Product {
    p.(core := s.core, subscribe := s.subscribe, enqueues := s.enqueues, leaseDrop := s.leaseDrop,
       takenAway := s.takenAway, links := s.links, runs := s.runs, releaseCalls := s.releaseCalls,
         releases := s.releases)
  }

  function Lose(p: Product, f: Queue.Fifo): Product {
    p.(fifo := f, holding := Dropped, leaseDrop := true, takenAway := true)
  }

  /** An operation on somebody else's token, which the queue has handed out before. */
  predicate Foreign(p: Product, op: Queue.Op) {
    && !op.DoClose?
    && (op.DoRegister? || op.DoEnqueue? || op.DoDetach? ==>
          1 <= op.token < p.fifo.nextToken && Some(op.token) != p.drawn)
  }

  function MoveDraw(p: Product): Product {
    if p.drawn.Some? then p
    else p.(drawn := Some(p.fifo.nextToken), fifo := Queue.Apply(p.fifo, Queue.DoNextToken))
  }

  function MoveSelect(p: Product): Product {
    if p.drawn.None? || !p.core.observer.Unselected? then p
    else p.(core := SelectCallback(p.core, p.drawn.value), token := p.drawn.value, subscribe := Selected)
  }

  function MoveRegister(p: Product, callback: nat): Product {
    if !p.subscribe.Selected? then p
    else
      var (f, registered) := Queue.Register(p.fifo, p.token, callback);
      if registered then p.(fifo := f, subscribe := Registered, holding := InQueue)
      else p.(fifo := f, subscribe := Refused, leaseDrop := true)
  }

  function MoveEnqueue(p: Product): Product {
    if p.enqueues == 0 then p
    else
      var (f, linked) := Queue.Enqueue(p.fifo, p.token);
      p.(fifo := f, enqueues := p.enqueues - 1, links := if linked then p.links + 1 else p.links)
  }

  predicate OwnIsOldest(p: Product) { p.fifo.ready != [] && p.fifo.ready[0].token == p.token }

  function MoveClaim(p: Product): Product {
    if p.fifo.ready == [] then p
    else if OwnIsOldest(p) then p.(fifo := Queue.Claim(p.fifo), holding := InHand)
    else p.(fifo := Queue.Claim(p.fifo))
  }

  function MoveRun(p: Product): Product {
    if p.holding.InHand? then Follow(p, Act(Race(p), DoRun)).(holding := Dropped) else p
  }

  function MoveDiscard(p: Product): Product {
    if p.fifo.ready == [] then p
    else if OwnIsOldest(p) then Lose(p, Queue.Claim(p.fifo))
    else p.(fifo := Queue.Claim(p.fifo))
  }

  function MoveDetach(p: Product): Product {
    if p.token in p.fifo.records then Lose(p, Queue.Detach(p.fifo, p.token)) else p
  }

  function MoveClose(p: Product): Product {
    if p.token in p.fifo.records then Lose(p, Queue.Close(p.fifo)) else p.(fifo := Queue.Close(p.fifo))
  }

  function Make(p: Product, m: Move): Product {
    match m
    case Local(a) => if LocalAction(a) then Follow(p, Act(Race(p), a)) else p
    case Draw => MoveDraw(p)
    case Select => MoveSelect(p)
    case Register(callback) => MoveRegister(p, callback)
    case Enqueue => MoveEnqueue(p)
    case Claim => MoveClaim(p)
    case Run => MoveRun(p)
    case Discard => MoveDiscard(p)
    case Detach => MoveDetach(p)
    case Close => MoveClose(p)
    case Other(op) => if Foreign(p, op) then p.(fifo := Queue.Apply(p.fifo, op)) else p
  }

  function MakeAll(p: Product, moves: seq<Move>): Product
    decreases |moves|
  {
    if moves == [] then p else MakeAll(Make(p, moves[0]), moves[1..])
  }

  // ------------------------------------------------------ queue and record agree

  /** The queue has handed out every token it holds, and the operation's own only while its record is there. */
  ghost predicate Agree(p: Product) {
    && Queue.WellFormed(p.fifo) && p.fifo.nextToken >= 1
    && (forall t :: t in p.fifo.records ==> 1 <= t < p.fifo.nextToken)
    && (p.drawn.Some? ==> 1 <= p.drawn.value < p.fifo.nextToken)
    && (if p.subscribe.NotSubscribed? then p.token == 0 else p.drawn == Some(p.token))
    && (p.token in p.fifo.records <==> p.holding.InQueue?)
    && (p.drawn.Some? && p.subscribe.NotSubscribed? ==> p.drawn.value !in p.fifo.records)
    && (p.holding.NotMade? <==> p.subscribe.NotSubscribed? || p.subscribe.Selected? || p.subscribe.Refused?)
    && (p.core.observer.Unselected? ==> p.subscribe.NotSubscribed?)
  }

  /** The section of the race that a move is; none for what the operation does not notice. */
  function Section(p: Product, m: Move): Option<Action> {
    match m
    case Local(a) => if LocalAction(a) then Some(a) else None
    case Draw => None
    case Select => if p.drawn.Some? then Some(DoSelect(p.drawn.value)) else None
    case Register(_) => Some(DoRegister)
    case Enqueue => Some(DoEnqueue)
    case Claim => if OwnIsOldest(p) then Some(DoClaim) else None
    case Run => Some(DoRun)
    case Discard => if OwnIsOldest(p) then Some(DoDiscard) else None
    case Detach => Some(DoDetachRecord)
    case Close => Some(DoCloseQueue)
    case Other(_) => None
  }

  ghost predicate IsSection(p: Product, n: Product, a: Option<Action>) {
    Agree(n) && Race(n) == if a.Some? then Act(Race(p), a.value) else Race(p)
  }

  lemma LocalIsSection(p: Product, a: Action)
    requires Agree(p) && LocalAction(a)
    ensures IsSection(p, Follow(p, Act(Race(p), a)), Some(a))
  {
    LocalKeeps(Race(p), a);
    hide Act, PhaseIn;
  }

  lemma LocalKeeps(s: System, a: Action)
    requires LocalAction(a)
    ensures var n := Act(s, a);
            && n.record == s.record && n.token == s.token && n.queueClosed == s.queueClosed
            && (n.core.observer.Unselected? ==> s.core.observer.Unselected?)
            && (n.subscribe == s.subscribe || (s.subscribe.Registered? && n.subscribe.Subscribed?))
  {}

  lemma DrawIsSection(p: Product)
    requires Agree(p)
    ensures IsSection(p, MoveDraw(p), None)
  {}

  lemma SelectIsSection(p: Product)
    requires Agree(p)
    ensures IsSection(p, MoveSelect(p), Section(p, Select))
  {}

  lemma RegisterIsSection(p: Product, callback: nat)
    requires Agree(p)
    ensures IsSection(p, MoveRegister(p, callback), Some(DoRegister))
  {}

  /** A change of the queue that leaves every other part of the agreement to the tokens and to the own record. */
  ghost predicate QueueMoves(p: Product, f: Queue.Fifo) {
    && Queue.WellFormed(f) && f.nextToken >= p.fifo.nextToken
    && (forall t :: t in f.records ==> 1 <= t < f.nextToken)
    && (p.drawn.Some? && p.subscribe.NotSubscribed? ==> p.drawn.value !in f.records)
  }

  lemma QueueMovesAgree(p: Product, n: Product)
    requires Agree(p) && QueueMoves(p, n.fifo) && n.drawn == p.drawn && n.token == p.token && n.subscribe == p.subscribe
    requires n.core == p.core && (n.token in n.fifo.records <==> n.holding.InQueue?)
    requires n.holding == p.holding || (p.holding.InQueue? && (n.holding.InHand? || n.holding.Dropped?))
    ensures Agree(n)
  {
    hide Queue.WellFormed;
  }

  lemma EnqueueAgrees(p: Product)
    requires Agree(p)
    ensures Agree(MoveEnqueue(p))
  {
    Queue.EnqueueWellFormed(p.fifo, p.token);
    EnqueueKeepsRecords(p.fifo, p.token);
    hide Queue.WellFormed, Queue.Enqueue;
    QueueMovesAgree(p, MoveEnqueue(p));
  }

  lemma EnqueueIsSection(p: Product)
    requires Agree(p)
    ensures IsSection(p, MoveEnqueue(p), Some(DoEnqueue))
  {
    EnqueueAgrees(p);
    QueueDoesRecordSteps(p.fifo, p.token, 0);
    EnqueueKeepsRecords(p.fifo, p.token);
    OwnIsInQueue(p);
    hide Agree, Queue.WellFormed, Queue.Enqueue, PhaseIn;
    EnqueueRace(p);
  }

  lemma EnqueueRace(p: Product)
    requires p.holding.InQueue? <==> !PhaseIn(p.fifo, p.token).Absent?
    requires var (f, linked) := Queue.Enqueue(p.fifo, p.token);
             && f.closed == p.fifo.closed && (linked <==> !p.fifo.closed && PhaseIn(p.fifo, p.token).Present?)
             && PhaseIn(f, p.token) == if linked then Ready else PhaseIn(p.fifo, p.token)
    ensures Race(MoveEnqueue(p)) == Act(Race(p), DoEnqueue)
  {
    hide Queue.Enqueue, PhaseIn, Queue.WellFormed;
    if p.enqueues > 0 {
      var n := MoveEnqueue(p);
      assert RecordOf(n) == if Queue.Enqueue(p.fifo, p.token).1 then Ready else RecordOf(p);
    }
  }

  lemma EnqueueKeepsRecords(f: Queue.Fifo, t: Token)
    ensures var g := Queue.Enqueue(f, t).0; g.records == f.records && g.nextToken == f.nextToken && g.closed == f.closed
  {}

  /** The race sees the own record as the queue has it, or nothing to link. */
  lemma OwnIsInQueue(p: Product)
    requires Agree(p)
    ensures p.holding.InQueue? <==> !PhaseIn(p.fifo, p.token).Absent?
  {
    hide Queue.WellFormed;
  }

  lemma OtherIsSection(p: Product, op: Queue.Op)
    requires Agree(p) && Foreign(p, op)
    ensures IsSection(p, p.(fifo := Queue.Apply(p.fifo, op)), None)
  {
    OtherTokensDoNotMatter(p.fifo, p.token, op);
    Queue.ApplyWellFormed(p.fifo, op);
    ForeignRecords(p, op);
    hide Queue.WellFormed, Queue.Apply, PhaseIn;
    QueueMovesAgree(p, p.(fifo := Queue.Apply(p.fifo, op)));
  }

  lemma ForeignRecords(p: Product, op: Queue.Op)
    requires Agree(p) && Foreign(p, op)
    ensures var f := Queue.Apply(p.fifo, op);
            && f.nextToken >= p.fifo.nextToken && f.closed == p.fifo.closed
            && (forall t :: t in f.records ==> 1 <= t < f.nextToken)
            && (p.token in f.records <==> p.token in p.fifo.records)
            && (p.drawn.Some? ==> (p.drawn.value in f.records <==> p.drawn.value in p.fifo.records))
  {
    hide Queue.WellFormed, Queue.Without, Queue.IsReady;
  }

  /** The oldest record leaves; every other one stays where it is. */
  lemma ClaimRecords(f: Queue.Fifo, t: Token)
    requires Queue.WellFormed(f) && f.ready != []
    ensures var g := Queue.Claim(f);
            && Queue.WellFormed(g) && g.nextToken == f.nextToken && g.closed == f.closed
            && (forall u :: u in g.records <==> u in f.records && u != f.ready[0].token)
            && (if t == f.ready[0].token then PhaseIn(f, t).Ready? else PhaseIn(g, t) == PhaseIn(f, t))
  {
    hide Queue.WellFormed, Queue.IsReady;
    Queue.ClaimWellFormed(f);
    HeadIsRegistered(f);
    ReadyAfterHead(f.ready, t);
  }

  lemma HeadIsRegistered(f: Queue.Fifo)
    requires Queue.WellFormed(f) && f.ready != []
    ensures f.ready[0].token in f.records
  {
    assert f.ready[0] in f.ready;
  }

  lemma ReadyAfterHead(ready: seq<Queue.Entry>, t: Token)
    requires ready != []
    ensures Queue.IsReady(ready, t) <==> t == ready[0].token || Queue.IsReady(ready[1..], t)
  {
    var rest := ready[1..];
    if Queue.IsReady(ready, t) && t != ready[0].token {
      var i :| 0 <= i < |ready| && ready[i].token == t;
      assert rest[i - 1] == ready[i];
    }
    if Queue.IsReady(rest, t) {
      var i :| 0 <= i < |rest| && rest[i].token == t;
      assert ready[i + 1].token == t;
    }
  }

  lemma ClaimIsSection(p: Product)
    requires Agree(p)
    ensures IsSection(p, MoveClaim(p), Section(p, Claim)) && IsSection(p, MoveDiscard(p), Section(p, Discard))
  {
    if p.fifo.ready != [] {
      ClaimRecords(p.fifo, p.token);
      OwnIsInQueue(p);
      hide Queue.WellFormed, Queue.Claim, PhaseIn;
      QueueMovesAgree(p, MoveClaim(p));
      QueueMovesAgree(p, MoveDiscard(p));
    }
  }

  lemma DetachIsSection(p: Product)
    requires Agree(p)
    ensures IsSection(p, MoveDetach(p), Some(DoDetachRecord))
  {
    Queue.DetachWellFormed(p.fifo, p.token);
    OwnIsInQueue(p);
    hide Queue.WellFormed, PhaseIn;
    QueueMovesAgree(p, MoveDetach(p));
  }

  lemma CloseIsSection(p: Product)
    requires Agree(p)
    ensures IsSection(p, MoveClose(p), Some(DoCloseQueue))
  {
    Queue.ApplyWellFormed(p.fifo, Queue.DoClose);
    CloseRecords(p.fifo);
    OwnIsInQueue(p);
    hide Queue.WellFormed, PhaseIn, Queue.Close;
    QueueMovesAgree(p, MoveClose(p));
  }

  lemma CloseRecords(f: Queue.Fifo)
    requires Queue.WellFormed(f)
    ensures var g := Queue.Close(f);
            Queue.WellFormed(g) && g.records == map[] && g.closed && g.nextToken == f.nextToken
  {}

  lemma RunIsSection(p: Product)
    requires Agree(p)
    ensures IsSection(p, MoveRun(p), Some(DoRun))
  {
    hide Queue.WellFormed;
  }

  /** Every move is a section of the race, or one the operation does not notice. */
  lemma MakeIsSection(p: Product, m: Move)
    requires Agree(p)
    ensures IsSection(p, Make(p, m), Section(p, m))
  {
    hide IsSection, MoveDraw, MoveSelect, MoveRegister, MoveEnqueue, MoveClaim, MoveRun, MoveDiscard, MoveDetach,
         MoveClose;
    SameIsSection(p);
    match m {
      case Local(a) => if LocalAction(a) { LocalIsSection(p, a); }
      case Draw => DrawIsSection(p);
      case Select => SelectIsSection(p);
      case Register(callback) => RegisterIsSection(p, callback);
      case Enqueue => EnqueueIsSection(p);
      case Claim => ClaimIsSection(p);
      case Run => RunIsSection(p);
      case Discard => ClaimIsSection(p);
      case Detach => DetachIsSection(p);
      case Close => CloseIsSection(p);
      case Other(op) => if Foreign(p, op) { OtherIsSection(p, op); }
    }
  }

  lemma SameIsSection(p: Product)
    requires Agree(p)
    ensures IsSection(p, p, None)
  {}

  // ------------------------------------------------------------- main results

  lemma {:induction false} ActAllSnoc(s: System, actions: seq<Action>, a: Action)
    ensures ActAll(s, actions + [a]) == Act(ActAll(s, actions), a)
    decreases |actions|
  {
    hide Act;
    var all := actions + [a];
    if actions == [] {
      assert all[0] == a && all[1..] == [];
      assert ActAll(Act(s, a), []) == Act(s, a);
    } else {
      assert all[0] == actions[0] && all[1..] == actions[1..] + [a];
      ActAllSnoc(Act(s, actions[0]), actions[1..], a);
    }
  }

  /** Every run of the operation with its queue is a run of the race. */
  lemma {:induction false} EveryRunIsARace(p: Product, moves: seq<Move>, done: seq<Action>)
    returns (actions: seq<Action>)
    requires Agree(p) && Race(p) == ActAll(START, done)
    ensures var n := MakeAll(p, moves); Agree(n) && Race(n) == ActAll(START, actions)
    decreases |moves|
  {
    hide Agree, Race, Make, Section, Act;
    if moves == [] {
      actions := done;
    } else {
      MakeIsSection(p, moves[0]);
      var a := Section(p, moves[0]);
      var more := done;
      if a.Some? {
        more := done + [a.value];
        ActAllSnoc(START, done, a.value);
      }
      hide ActAll;
      actions := EveryRunIsARace(Make(p, moves[0]), moves[1..], more);
    }
  }

  /** A queue in whatever state of use, before this operation draws its token. */
  ghost predicate InUse(f: Queue.Fifo) {
    Queue.WellFormed(f) && f.nextToken >= 1 && forall t :: t in f.records ==> 1 <= t < f.nextToken
  }

  /**
   * No lost or doubled completion, in the real queue among any other records: linked at most once, run at most once
   * and then with an outcome, and when both sides are done a record nobody took away is ready in the queue, in a
   * dispatcher's hand, or has run.
   */
  lemma NoLostCompletionInQueue(f: Queue.Fifo, moves: seq<Move>)
    requires InUse(f)
    ensures var p := MakeAll(Begin(f), moves);
            && p.links <= 1 && p.runs <= 1
            && (p.holding.InHand? ==> CanTake(p.core, p.token))
            && (p.runs == 1 ==> p.core.outcome.Some? && p.core.observer.Delivered?)
            && (p.subscribe.Subscribed? && p.core.outcome.Some? && p.enqueues == 0 && !p.takenAway ==>
                  && p.links == 1
                  && ((p.token in p.fifo.records && Queue.IsReady(p.fifo.ready, p.token)) || p.holding.InHand?
                       || p.runs == 1))
  {
    BeginAgrees(f);
    var actions := EveryRunIsARace(Begin(f), moves, if f.closed then [DoCloseQueue] else []);
    NoLostOrDoubledCompletion(actions);
    hide MakeAll, ActAll, Agree;
  }

  lemma BeginAgrees(f: Queue.Fifo)
    requires InUse(f)
    ensures Agree(Begin(f)) && Race(Begin(f)) == ActAll(START, if f.closed then [DoCloseQueue] else [])
  {
    ActAllSnoc(START, [], DoCloseQueue);
    assert [] + [DoCloseQueue] == [DoCloseQueue] && ActAll(START, []) == START;
  }
}
