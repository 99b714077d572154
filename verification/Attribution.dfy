/**
 * Reply attribution: when the server answers the request lines in order, each with its own blocks and
 * then its boundary, every successful request has collected exactly its own blocks.
 */
module Attribution {
  import opened Prelude
  import opened Boundary
  import opened Connection

  // ------------------------------------------------------------- invariant

  /** The order up to `answered` has been ended by the server, and the open rest is pending. */
  ghost predicate QueueInv(c: Conn) {
    && c.answered <= |c.order|
    && (!c.closing && !c.fatal ==> c.pending == c.order[c.answered..])
    && (c.order != [] || c.ready ==> c.startupSeen)
  }

  ghost predicate Ended(c: Conn, id: nat) { c.answered <= |c.order| && id in c.order[..c.answered] }

  ghost predicate RepliesOk(r: Request, entered: bool, ended: bool, said: seq<Block>) {
    && (!entered ==> r.blocks == [] && !(r.complete && r.error.None?))
    && (entered && r.error.None? ==> r.blocks == said)
    && (r.complete && r.error.None? ==> ended && r.written == |r.frame| && r.delivery.Replied?)
  }

  ghost predicate AnswerInv(c: Conn, id: nat) {
    && (id !in c.order ==> Said(c, id) == [])
    && (id in c.requests ==> RepliesOk(c.requests[id], id in c.order, Ended(c, id), Said(c, id)))
  }

  ghost predicate AttributionInv(c: Conn) { QueueInv(c) && forall id :: AnswerInv(c, id) }

  // ------------------------------------------- actions that answer nothing

  ghost predicate Quiet(p: Request, q: Request) {
    || q.error.Some?
    || (&& p.error.None? && q.blocks == p.blocks && q.frame == p.frame && (q.complete ==> p.complete)
        && (p.written == |p.frame| ==> q.written == p.written) && (p.delivery.Replied? ==> q.delivery.Replied?))
  }

  lemma QuietOk(p: Request, q: Request, entered: bool, ended: bool, said: seq<Block>)
    requires RepliesOk(p, entered, ended, said) && Quiet(p, q) && (!entered ==> q.blocks == p.blocks)
    ensures RepliesOk(q, entered, ended, said)
  {}

  /** What the answers depend on, apart from the requests themselves. */
  ghost predicate SameHistory(c: Conn, n: Conn) {
    && n.order == c.order && n.sent == c.sent && n.answered == c.answered
    && (n.closing || n.fatal || (!c.closing && !c.fatal && n.pending == c.pending))
    && (c.startupSeen ==> n.startupSeen) && (n.ready && !c.ready ==> n.startupSeen)
  }

  ghost predicate Calm(c: Conn, n: Conn, id: nat) {
    && (id in n.requests <==> id in c.requests)
    && (id in c.requests ==> Quiet(c.requests[id], n.requests[id]) && n.requests[id].blocks == c.requests[id].blocks)
  }

  lemma CalmKeeps(c: Conn, n: Conn)
    requires AttributionInv(c) && SameHistory(c, n) && forall id :: Calm(c, n, id)
    ensures AttributionInv(n)
  {
    forall id ensures AnswerInv(n, id) {
      assert AnswerInv(c, id) && Calm(c, n, id);
      CalmAnswer(c, n, id);
    }
    hide AnswerInv, Calm;
  }

  lemma CalmAnswer(c: Conn, n: Conn, id: nat)
    requires AnswerInv(c, id) && SameHistory(c, n) && Calm(c, n, id)
    ensures AnswerInv(n, id)
  {
    if id in c.requests {
      QuietOk(c.requests[id], n.requests[id], id in c.order, Ended(c, id), Said(c, id));
    }
    hide RepliesOk, Quiet;
  }

  ghost predicate AllCalm(c: Conn, n: Conn) { SameHistory(c, n) && forall id :: Calm(c, n, id) }

  lemma CalmSame(c: Conn, n: Conn)
    requires SameHistory(c, n) && n.requests == c.requests
    ensures AllCalm(c, n)
  {}

  lemma CalmPut(c: Conn, n: Conn, id: nat, r: Request)
    requires id in c.requests && Quiet(c.requests[id], r) && r.blocks == c.requests[id].blocks
    requires n.requests == c.requests[id := r] && SameHistory(c, n)
    ensures AllCalm(c, n)
  {}

  lemma CalmTwice(c: Conn, m: Conn, n: Conn)
    requires AllCalm(c, m) && AllCalm(m, n)
    ensures AllCalm(c, n)
  {
    forall id ensures Calm(c, n, id) { assert Calm(c, m, id) && Calm(m, n, id); }
  }

  lemma CalmFail(c: Conn)
    ensures AllCalm(c, Fail(c))
  {}

  lemma CalmFails(c: Conn)
    ensures AllCalm(c, Fail(c)) && AllCalm(c, Fail(c.(closing := true))) && AllCalm(c, Fail(c.(startupSeen := true)))
  {
    CalmFail(c);
    var closing, started := c.(closing := true), c.(startupSeen := true);
    CalmSame(c, closing);
    CalmFail(closing);
    CalmSame(c, started);
    CalmFail(started);
    hide AllCalm, Fail;
    CalmTwice(c, closing, Fail(closing));
    CalmTwice(c, started, Fail(started));
  }

  lemma CalmShutdown(c: Conn)
    ensures AllCalm(c, BeginShutdown(c))
  {}

  lemma CalmPhase(c: Conn, id: nat, phase: Phase)
    requires id in c.requests
    ensures AllCalm(c, Put(c, id, c.requests[id].(phase := phase)))
  {
    CalmPut(c, Put(c, id, c.requests[id].(phase := phase)), id, c.requests[id].(phase := phase));
    hide AllCalm;
  }

  lemma CalmPhases(c: Conn, id: nat)
    ensures AllCalm(c, CheckOpen(c, id)) && AllCalm(c, Retry(c, id)) && AllCalm(c, FailWrite(c, id))
  {
    CalmSame(c, c);
    hide AllCalm, Put;
    if id in c.requests {
      CalmPhase(c, id, WriteFailed);
      CalmPhase(c, id, Permitted);
      CalmPhase(c, id, Writing);
    }
  }

  lemma CalmWrite(c: Conn, id: nat, count: nat, lost: bool)
    ensures AllCalm(c, WriteSome(c, id, count, lost))
  {
    if CanWrite(c, id, count) {
      CalmPut(c, WriteSome(c, id, count, lost), id, Wrote(c.requests[id], count, lost));
      hide AllCalm;
    } else {
      CalmSame(c, c);
      hide AllCalm;
    }
  }

  lemma CalmRecord(c: Conn, id: nat)
    ensures AllCalm(c, TryRecord(c, id))
  {
    if In(c, id, Unrecorded) {
      var r := c.requests[id];
      CalmPut(c, TryRecord(c, id), id, Recorded(r));
      hide AllCalm;
    } else {
      CalmSame(c, c);
      hide AllCalm;
    }
  }

  /** A request changes its phase, then every pending one is failed. */
  lemma CalmPhaseThenFail(c: Conn, id: nat, phase: Phase, writer: Writer)
    requires id in c.requests
    ensures var left := Put(c, id, c.requests[id].(phase := phase)).(writer := writer);
            AllCalm(c, left) && AllCalm(c, Fail(left.(closing := true)))
  {
    var left := Put(c, id, c.requests[id].(phase := phase)).(writer := writer);
    CalmPut(c, left, id, c.requests[id].(phase := phase));
    CalmFails(left);
    hide AllCalm, Fail;
    CalmTwice(c, left, Fail(left.(closing := true)));
  }

  lemma CalmLeave(c: Conn, id: nat)
    ensures AllCalm(c, Leave(c, id))
  {
    CalmSame(c, c);
    hide AllCalm, Fail;
    if id in c.requests {
      CalmPhaseThenFail(c, id, Waiting, Free);
      CalmPhaseThenFail(c, id, Poisoning, Free);
    }
  }

  lemma CalmExpire(c: Conn, id: nat)
    ensures AllCalm(c, Expire(c, id))
  {
    hide AllCalm, Fail;
    CalmSame(c, c);
    if id in c.requests {
      var n := Put(c, id, c.requests[id].(phase := Poisoning));
      CalmPhaseThenFail(c, id, Poisoning, c.writer);
      assert n.(writer := c.writer) == n;
    }
  }

  lemma CalmPoison(c: Conn, id: nat)
    ensures AllCalm(c, Poison(c, id))
  {
    if In(c, id, Poisoning) && c.writer.Free? {
      CalmPut(c, Poison(c, id), id, c.requests[id].(phase := Waiting));
      hide AllCalm;
    } else {
      CalmSame(c, c);
      hide AllCalm;
    }
  }

  lemma CalmReport(c: Conn, id: nat)
    ensures AllCalm(c, TryReport(c, id))
  {
    CalmSame(c, c);
    if id in c.requests { CalmPut(c, Put(c, id, Report(c.requests[id])), id, Report(c.requests[id])); }
    hide AllCalm, Put, Report;
  }

  lemma CalmSwitches(c: Conn)
    ensures AllCalm(c, EndReading(c)) && AllCalm(c, CloseInput(c)) && AllCalm(c, LockForShutdown(c))
  {
    hide AllCalm;
    CalmSame(c, c);
    CalmSame(c, c.(closing := true));
    CalmSame(c, c.(inputOpen := false));
    CalmSame(c, c.(writer := HeldByShutdown));
  }

  lemma CalmShutdownWriter(c: Conn)
    ensures AllCalm(c, SendNewline(c)) && AllCalm(c, FinishShutdown(c))
  {
    CalmSame(c, c);
    CalmSame(c, c.(wire := c.wire + "\n", newline := true));
    CalmSame(c, c.(writer := Free, inputOpen := false));
    hide AllCalm;
  }

  lemma CalmStart(c: Conn, b: Block)
    ensures AllCalm(c, ServerStarts(c, b))
  {
    CalmSame(c, c);
    CalmFails(c);
    CalmSame(c, c.(startupSeen := true, ready := true));
    hide AllCalm, Fail, GuardFlags;
  }

  lemma CalmNoise(c: Conn, b: Block)
    ensures ServerNoise(c, b) == c
  {
    hide GuardFlags;
  }

  lemma CalmWriter(c: Conn, a: Action)
    requires WriterAction(a) && !a.DoAcquire? && !a.DoEnter?
    ensures AllCalm(c, Act(c, a))
  {
    hide AllCalm, CheckOpen, WriteSome, TryRecord, Retry, FailWrite, Leave;
    match a {
      case DoWrite(id, count) => CalmWrite(c, id, count, false);
      case DoWriteThenMaskFails(id, count) => CalmWrite(c, id, count, true);
      case DoRecord(id) => CalmRecord(c, id);
      case DoLeave(id) => CalmLeave(c, id);
      case DoCheckOpen(id) => CalmPhases(c, id);
      case DoRetry(id) => CalmPhases(c, id);
      case DoWriteError(id) => CalmPhases(c, id);
    }
  }

  lemma CalmOthers(c: Conn, a: Action)
    requires !WriterAction(a) && !BlockAction(a)
    ensures AllCalm(c, Act(c, a))
  {
    hide AllCalm, Fail, Expire, Poison, TryReport, BeginShutdown, EndReading, CloseInput;
    hide LockForShutdown, SendNewline, FinishShutdown;
    CalmFail(c);
    CalmShutdown(c);
    CalmSwitches(c);
    CalmShutdownWriter(c);
    if a.DoDeadline? { CalmExpire(c, a.id); }
    if a.DoPoison? { CalmPoison(c, a.id); }
    if a.DoReport? { CalmReport(c, a.id); }
  }

  // ------------------------------------------------- a request begins

  lemma AcquireAttribution(c: Conn, id: nat, line: string)
    requires Inv(c) && AttributionInv(c) && id !in c.requests
    ensures AttributionInv(Acquire(c, id, line))
  {
    var n := Acquire(c, id, line);
    Basics(c);
    hide Inv, BoundaryName, BoundaryReply;
    assert id !in c.order;
    forall other ensures AnswerInv(n, other) {
      assert AnswerInv(c, other);
    }
    hide AnswerInv;
  }

  lemma EnterAttribution(c: Conn, id: nat)
    requires Inv(c) && AttributionInv(c) && In(c, id, Locked)
    ensures AttributionInv(Enter(c, id, c.requests[id]))
  {
    hide Inv, AnswerInv, Enter;
    LockedFacts(c, id);
    EnterShape(c, id);
    EnterQueue(c, id);
    forall other ensures AnswerInv(Enter(c, id, c.requests[id]), other) {
      assert AnswerInv(c, other);
      if other != id { EnterOther(c, Enter(c, id, c.requests[id]), id, other); } else { EnterSelf(c, id); }
    }
  }

  lemma EnterShape(c: Conn, id: nat)
    requires id in c.requests
    ensures var n := Enter(c, id, c.requests[id]);
            && (n.order == c.order || n.order == c.order + [id]) && n.sent == c.sent && n.answered == c.answered
            && id in n.requests && n.requests == c.requests[id := n.requests[id]]
  {}

  lemma EnterQueue(c: Conn, id: nat)
    requires QueueInv(c) && id in c.requests
    ensures QueueInv(Enter(c, id, c.requests[id]))
  {
    hide Put;
    assert (c.order + [id])[c.answered..] == c.order[c.answered..] + [id];
    PutQueue(c, id);
  }

  lemma PutQueue(c: Conn, id: nat)
    ensures forall r :: var n := Put(c, id, r); n == c.(requests := n.requests)
  {}

  lemma LockedFacts(c: Conn, id: nat)
    requires Inv(c) && In(c, id, Locked)
    ensures id !in c.order && !c.requests[id].complete && c.requests[id].error.None?
  {
    hide OrderInv, TailInv;
    assert RequestInv(c, id);
  }

  lemma EnterOther(c: Conn, n: Conn, id: nat, other: nat)
    requires AnswerInv(c, other) && other != id && c.answered <= |c.order|
             && (n.order == c.order || n.order == c.order + [id])
    requires n.sent == c.sent && n.answered == c.answered
    requires (other in n.requests <==> other in c.requests)
             && (other in c.requests ==> n.requests[other] == c.requests[other])
    ensures AnswerInv(n, other)
  {
    assert n.order[..n.answered] == c.order[..c.answered];
    hide RepliesOk;
  }

  lemma EnterSelf(c: Conn, id: nat)
    requires AnswerInv(c, id) && id in c.requests && id !in c.order && c.answered <= |c.order|
    requires !c.requests[id].complete && c.requests[id].error.None?
    ensures AnswerInv(Enter(c, id, c.requests[id]), id)
  {}

  // --------------------------------------------------------- the answers

  /** A reply that finds the connection closing reaches no request. */
  lemma AnswerWhenClosed(c: Conn, b: Block)
    requires c.pending == [] && (c.closing || c.fatal) && c.startupSeen && GuardFlags(b) == Some(1)
    ensures Accept(c, b) == c
  {
    hide GuardFlags;
  }

  lemma AnswerWhenOpen(c: Conn, b: Block)
    requires c.pending != [] && c.pending[0] in c.requests && c.startupSeen && GuardFlags(b) == Some(1)
    ensures var id, r := c.pending[0], c.requests[c.pending[0]];
            Accept(c, b) ==
              if IsBoundary(b, r.boundary)
              then Put(c, id, r.(delivery := Replied, complete := true)).(pending := c.pending[1..])
              else Put(c, id, r.(delivery := Replied, blocks := r.blocks + [b]))
  {
    hide GuardFlags, IsBoundary, Put;
  }

  /** The request being answered: pending while the connection is open, failed once it is not. */
  lemma Target(c: Conn)
    requires Inv(c) && AttributionInv(c) && Answering(c)
    ensures var id := c.order[c.answered];
            && id in c.order && !Ended(c, id) && c.startupSeen && c.requests[id].written <= |c.requests[id].frame|
            && (if c.closing || c.fatal then c.pending == [] && c.requests[id].error.Some?
                else c.pending != [] && c.pending[0] == id && !c.requests[id].complete)
  {
    var id := c.order[c.answered];
    assert RequestInv(c, id) && AnswerInv(c, id);
    hide TailInv;
  }

  lemma ReplyAttribution(c: Conn, b: Block)
    requires Inv(c) && AttributionInv(c) && CanReply(c, b)
    ensures AttributionInv(ServerReplies(c, b))
  {
    hide Inv, AnswerInv, ServerReplies, GuardFlags, IsBoundary, Ended;
    Target(c);
    var id, n := c.order[c.answered], ServerReplies(c, b);
    ReplyState(c, b);
    forall other ensures AnswerInv(n, other) {
      assert AnswerInv(c, other);
      if other != id { ReplyOther(c, n, other); } else { ReplyTarget(c, n, id, b); }
    }
    assert QueueInv(n);
  }

  ghost predicate SameQueue(c: Conn, n: Conn) {
    && n.order == c.order && n.closing == c.closing && n.fatal == c.fatal
    && n.startupSeen == c.startupSeen && n.ready == c.ready
  }

  lemma ReplyState(c: Conn, b: Block)
    requires CanReply(c, b) && c.startupSeen
    requires if c.closing || c.fatal then c.pending == [] else c.pending != [] && c.pending[0] == c.order[c.answered]
    ensures var n, id := ServerReplies(c, b), c.order[c.answered];
            var r := c.requests[id];
            && SameQueue(c, n) && n.pending == c.pending && n.answered == c.answered
            && n.sent == c.sent[id := Said(c, id) + [b]]
            && n.requests == if c.closing || c.fatal then c.requests
                 else c.requests[id := r.(delivery := Replied, blocks := r.blocks + [b])]
  {
    hide GuardFlags, IsBoundary, Accept;
    if c.closing || c.fatal { AnswerWhenClosed(c, b); } else { AnswerWhenOpen(c, b); }
  }

  lemma ReplyOther(c: Conn, n: Conn, other: nat)
    requires AnswerInv(c, other) && n.order == c.order && n.answered == c.answered && Said(n, other) == Said(c, other)
    requires (other in n.requests <==> other in c.requests)
             && (other in c.requests ==> n.requests[other] == c.requests[other])
    ensures AnswerInv(n, other)
  {
    hide RepliesOk;
  }

  lemma ReplyTarget(c: Conn, n: Conn, id: nat, b: Block)
    requires AnswerInv(c, id) && id in c.requests && id in n.requests && id in c.order && n.order == c.order
             && Said(n, id) == Said(c, id) + [b]
    requires (n.requests[id] == c.requests[id] && c.requests[id].error.Some?) ||
             (n.requests[id] == c.requests[id].(delivery := Replied, blocks := c.requests[id].blocks + [b])
               && !c.requests[id].complete)
    ensures AnswerInv(n, id)
  {}

  lemma EndAttribution(c: Conn, b: Block)
    requires Inv(c) && AttributionInv(c) && CanEnd(c, b)
    ensures AttributionInv(ServerEnds(c, b))
  {
    hide Inv, AnswerInv, ServerEnds, GuardFlags, IsBoundary, Ended;
    Target(c);
    var id, n := c.order[c.answered], ServerEnds(c, b);
    EndState(c, b);
    assert n.order[..n.answered] == c.order[..c.answered] + [id];
    forall other ensures AnswerInv(n, other) {
      assert AnswerInv(c, other);
      if other != id { EndOther(c, n, id, other); } else { EndTarget(c, n, id); }
    }
    assert QueueInv(n);
  }

  lemma EndState(c: Conn, b: Block)
    requires CanEnd(c, b) && c.startupSeen
    requires if c.closing || c.fatal then c.pending == [] else c.pending != [] && c.pending[0] == c.order[c.answered]
    ensures var n, id := ServerEnds(c, b), c.order[c.answered];
            var r := c.requests[id];
            && SameQueue(c, n) && n.answered == c.answered + 1 && n.sent == c.sent
            && n.pending == (if c.closing || c.fatal then [] else c.pending[1..])
            && n.requests == if c.closing || c.fatal then c.requests
                 else c.requests[id := r.(delivery := Replied, complete := true)]
  {
    hide GuardFlags, IsBoundary, Accept;
    if c.closing || c.fatal { AnswerWhenClosed(c, b); } else { AnswerWhenOpen(c, b); }
  }

  lemma EndOther(c: Conn, n: Conn, id: nat, other: nat)
    requires AnswerInv(c, other) && other != id && n.order == c.order && n.answered == c.answered + 1 <= |c.order|
    requires n.order[..n.answered] == c.order[..c.answered] + [id]
    requires n.sent == c.sent
    requires (other in n.requests <==> other in c.requests)
             && (other in c.requests ==> n.requests[other] == c.requests[other])
    ensures AnswerInv(n, other)
  {
    assert Ended(n, other) <==> Ended(c, other);
    hide RepliesOk;
  }

  lemma EndTarget(c: Conn, n: Conn, id: nat)
    requires AnswerInv(c, id) && id in c.requests && id in n.requests && id in c.order && n.order == c.order
             && n.sent == c.sent
    requires n.answered <= |n.order| && c.answered <= |c.order| && n.order[..n.answered] == c.order[..c.answered] + [id]
    requires c.requests[id].written == |c.requests[id].frame|
    requires (n.requests[id] == c.requests[id] && c.requests[id].error.Some?) ||
             n.requests[id] == c.requests[id].(delivery := Replied, complete := true)
    ensures AnswerInv(n, id)
  {}

  // ------------------------------------------------------------ every run

  /** The server sends only what the protocol lets it: no block of unknown origin reaches the reader. */
  ghost predicate HonestServer(actions: seq<Action>) {
    forall i :: 0 <= i < |actions| ==> !actions[i].DoBlock?
  }

  lemma BeginAttribution(c: Conn, a: Action)
    requires Inv(c) && AttributionInv(c) && (a.DoAcquire? || a.DoEnter?)
    ensures AttributionInv(Act(c, a))
  {
    hide Inv, AttributionInv, Acquire, Enter;
    if a.DoAcquire? {
      if c.writer.Free? && a.id !in c.requests { AcquireAttribution(c, a.id, a.line); }
    } else if In(c, a.id, Locked) {
      EnterAttribution(c, a.id);
    }
  }

  lemma BlockAttribution(c: Conn, a: Action)
    requires Inv(c) && AttributionInv(c) && BlockAction(a) && !a.DoBlock?
    ensures AttributionInv(Act(c, a))
  {
    hide Inv, ServerStarts, ServerNoise, CanReply, CanEnd, Accept, AttributionInv, AllCalm, Said, QueueInv, AnswerInv;
    match a {
      case DoServerStarts(b) => CalmStart(c, b); CalmIsKept(c, ServerStarts(c, b));
      case DoServerNoise(b) => CalmNoise(c, b);
      case DoServerReplies(b) => if CanReply(c, b) { ReplyAttribution(c, b); }
      case DoServerEnds(b) => if CanEnd(c, b) { EndAttribution(c, b); }
    }
  }

  lemma CalmIsKept(c: Conn, n: Conn)
    requires AttributionInv(c) && AllCalm(c, n)
    ensures AttributionInv(n)
  {
    hide AttributionInv, SameHistory, Calm;
    CalmKeeps(c, n);
  }

  lemma ActAttribution(c: Conn, a: Action)
    requires Inv(c) && AttributionInv(c) && !a.DoBlock?
    ensures AttributionInv(Act(c, a))
  {
    hide Inv, AttributionInv, Act, AllCalm;
    if a.DoAcquire? || a.DoEnter? {
      BeginAttribution(c, a);
    } else if BlockAction(a) {
      BlockAttribution(c, a);
    } else if WriterAction(a) {
      CalmWriter(c, a);
      CalmIsKept(c, Act(c, a));
    } else {
      CalmOthers(c, a);
      CalmIsKept(c, Act(c, a));
    }
  }

  lemma {:induction false} ActAllAttribution(c: Conn, actions: seq<Action>)
    requires Inv(c) && AttributionInv(c) && HonestServer(actions)
    ensures AttributionInv(ActAll(c, actions))
    decreases |actions|
  {
    if actions != [] {
      hide Inv, AttributionInv, Act;
      ActKeepsInv(c, actions[0]);
      ActAttribution(c, actions[0]);
      ActAllAttribution(Act(c, actions[0]), actions[1..]);
    }
  }

  /**
   * Over every run against such a server, a request that completed without an error wrote its whole frame,
   * was ended by its own boundary, and holds exactly the blocks the server sent for it, in order.
   */
  lemma SuccessfulRequestsGetTheirOwnReplies(seed: Seed, actions: seq<Action>, id: nat)
    requires HonestServer(actions)
    requires id in ActAll(Opened(seed), actions).requests
    ensures var c := ActAll(Opened(seed), actions);
            var r := c.requests[id];
            r.complete && r.error.None? ==>
              r.blocks == Said(c, id) && Ended(c, id) && r.written == |r.frame| && r.delivery == Replied
  {
    hide Inv, ActAll;
    OpenedIsInv(seed);
    ActAllAttribution(Opened(seed), actions);
    var c := ActAll(Opened(seed), actions);
    assert AnswerInv(c, id);
  }
}
