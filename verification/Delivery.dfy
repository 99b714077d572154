/**
 * What every run of the control connection guarantees: whole frames first and a torn one last,
 * a status that only moves forward, and what a reported status says about the pipe.
 */
module Delivery {
  import opened Prelude
  import opened Boundary
  import opened Connection
  import Control = ControlParser

  // ------------------------------------------------------ requests move forward

  /** What one action may do to a request: its identity stays, its progress and status only grow. */
  ghost predicate Forward(p: Request, q: Request) {
    && q.frame == p.frame && q.lineLength == p.lineLength && q.number == p.number && q.boundary == p.boundary
    && p.written <= q.written && Rank(p.delivery) <= Rank(q.delivery)
    && (!p.phase.Permitted? ==> q.written == p.written) && q.lost == p.lost
    && (!p.phase.Unrecorded? ==> q.recorded == p.recorded)
    && (!HoldsLock(p.phase) ==> !HoldsLock(q.phase))
    && (p.phase.Reported? ==> q == p)
  }

  lemma PendingFacts(c: Conn, id: nat)
    requires Inv(c) && id in c.requests
    ensures id in c.pending ==> !c.requests[id].complete && !c.requests[id].phase.Reported?
    ensures c.requests[id].phase.Unrecorded? ==> !c.requests[id].delivery.Written?
    ensures c.pending != [] ==> c.pending[0] in c.requests
  {
    Basics(c);
    assert RequestInv(c, id);
    hide OrderInv, TailInv;
  }

  lemma ForwardSame(p: Request)
    ensures Forward(p, p)
  {}

  lemma ForwardPhase(p: Request, phase: Phase)
    requires HoldsLock(p.phase)
    ensures Forward(p, p.(phase := phase))
    ensures Forward(p, p.(complete := true, error := Some(NotStarted), phase := phase))
  {}

  lemma ForwardRecorded(p: Request)
    requires p.phase.Unrecorded? && !p.delivery.Written?
    ensures Forward(p, Recorded(p))
  {}

  lemma ForwardReply(p: Request, b: Block)
    requires !p.phase.Reported?
    ensures Forward(p, p.(delivery := Replied, complete := true))
    ensures Forward(p, p.(delivery := Replied, blocks := p.blocks + [b]))
  {}

  lemma ForwardCompleted(p: Request, error: Delivery)
    requires !p.phase.Reported?
    ensures Forward(p, Completed(p, error))
  {}

  lemma ForwardTwice(p: Request, q: Request, r: Request)
    requires Forward(p, q) && Forward(q, r) && (q.phase.Waiting? || q.phase.Poisoning?) && q.recorded == p.recorded
    ensures Forward(p, r)
  {}

  ghost predicate Goes(c: Conn, n: Conn, id: nat) {
    id in c.requests && id in n.requests && Forward(c.requests[id], n.requests[id])
  }

  lemma GoesSame(c: Conn, id: nat)
    requires id in c.requests
    ensures Goes(c, c, id)
  {
    ForwardSame(c.requests[id]);
  }

  lemma GoesPut(c: Conn, id: nat, changed: nat, r: Request)
    requires id in c.requests && changed in c.requests && Forward(c.requests[changed], r)
    ensures Goes(c, Put(c, changed, r), id)
  {
    ForwardSame(c.requests[id]);
    hide Forward;
  }

  lemma GoesFail(c: Conn, id: nat)
    requires id in c.requests && (id in c.pending ==> !c.requests[id].phase.Reported?)
    ensures Goes(c, Fail(c), id) && Goes(c, BeginShutdown(c), id)
  {
    var r := c.requests[id];
    ForwardSame(r);
    if id in c.pending {
      ForwardCompleted(r, r.delivery);
      ForwardCompleted(r, Indeterminate);
    }
    hide Forward;
  }

  lemma AnswerForward(c: Conn, id: nat, b: Block)
    requires id in c.requests && (id in c.pending ==> !c.requests[id].phase.Reported?)
    requires c.pending != [] && c.pending[0] in c.requests ==> !c.requests[c.pending[0]].phase.Reported?
    ensures Goes(c, AcceptAnswer(c, b), id)
  {
    GoesSame(c, id);
    GoesFail(c, id);
    if c.pending != [] && c.pending[0] in c.requests {
      var r := c.requests[c.pending[0]];
      ForwardReply(r, b);
      GoesPut(c, id, c.pending[0], r.(delivery := Replied, complete := true));
      GoesPut(c, id, c.pending[0], r.(delivery := Replied, blocks := r.blocks + [b]));
    }
    hide Forward, Fail, IsBoundary, Put;
  }

  lemma StartupForward(c: Conn, id: nat)
    requires id in c.requests && (id in c.pending ==> !c.requests[id].phase.Reported?)
    ensures Goes(c, Fail(c.(startupSeen := true)), id) && Goes(c, c.(startupSeen := true, ready := true), id)
  {
    GoesSame(c, id);
    GoesFail(c.(startupSeen := true), id);
    hide Forward, Fail;
  }

  lemma AcceptForward(c: Conn, id: nat, b: Block)
    requires id in c.requests && (id in c.pending ==> !c.requests[id].phase.Reported?)
    requires c.pending != [] && c.pending[0] in c.requests ==> !c.requests[c.pending[0]].phase.Reported?
    ensures Goes(c, Accept(c, b), id)
  {
    hide Fail, GuardFlags, AcceptAnswer, Goes;
    GoesSame(c, id);
    GoesFail(c, id);
    StartupForward(c, id);
    AnswerForward(c, id, b);
  }

  lemma AcceptIsForward(c: Conn, id: nat, b: Block)
    requires Inv(c) && id in c.requests
    ensures Goes(c, Accept(c, b), id)
  {
    hide Inv, Accept, Goes;
    PendingFacts(c, id);
    if c.pending != [] { PendingFacts(c, c.pending[0]); }
    AcceptForward(c, id, b);
  }

  lemma PhasesForward(c: Conn, changed: nat, id: nat)
    requires id in c.requests
    ensures Goes(c, CheckOpen(c, changed), id) && Goes(c, Retry(c, changed), id) && Goes(c, FailWrite(c, changed), id)
  {
    GoesSame(c, id);
    if In(c, changed, Writing) || In(c, changed, Permitted) {
      var r := c.requests[changed];
      ForwardPhase(r, Writing);
      GoesPut(c, id, changed, r.(phase := Writing));
      ForwardPhase(r, Permitted);
      GoesPut(c, id, changed, r.(phase := Permitted));
      ForwardPhase(r, WriteFailed);
      GoesPut(c, id, changed, r.(phase := WriteFailed));
    }
    hide Forward, Put;
  }

  lemma WriteForward(c: Conn, changed: nat, count: nat, id: nat)
    requires id in c.requests
    ensures Goes(c, WriteSome(c, changed, count, false), id)
  {
    GoesSame(c, id);
    if CanWrite(c, changed, count) {
      GoesPut(c, id, changed, Wrote(c.requests[changed], count, false));
    }
    hide Forward, Put, Wrote;
  }

  /** A failed restore of the signal mask is the one action after which progress can go unreported. */
  ghost predicate GoesUnseen(c: Conn, n: Conn, id: nat) {
    && id in c.requests && id in n.requests
    && Forward(c.requests[id], n.requests[id].(lost := c.requests[id].lost))
    && (!c.requests[id].phase.Permitted? ==> n.requests[id].lost == c.requests[id].lost)
  }

  lemma MaskForward(c: Conn, changed: nat, count: nat, id: nat)
    requires id in c.requests
    ensures GoesUnseen(c, WriteSome(c, changed, count, true), id)
  {
    ForwardSame(c.requests[id]);
    hide Forward;
  }

  lemma AcquireForward(c: Conn, changed: nat, line: string, id: nat)
    requires id in c.requests
    ensures Goes(c, TryAcquire(c, changed, line), id)
  {
    GoesSame(c, id);
    hide Forward, BoundaryName, BoundaryReply;
  }

  lemma EnterForward(c: Conn, changed: nat, id: nat)
    requires id in c.requests
    ensures Goes(c, TryEnter(c, changed), id)
  {
    GoesSame(c, id);
    if In(c, changed, Locked) {
      var r := c.requests[changed];
      ForwardPhase(r, Writing);
      GoesPut(c, id, changed, r.(phase := Writing));
      ForwardPhase(r, Reported);
      GoesPut(c, id, changed, r.(complete := true, error := Some(NotStarted), phase := Reported));
    }
    hide Forward, Put;
  }

  lemma RecordForward(c: Conn, changed: nat, id: nat)
    requires id in c.requests && (In(c, changed, Unrecorded) ==> !c.requests[changed].delivery.Written?)
    ensures Goes(c, TryRecord(c, changed), id)
  {
    GoesSame(c, id);
    if In(c, changed, Unrecorded) {
      var r := c.requests[changed];
      ForwardRecorded(r);
      GoesPut(c, id, changed, Recorded(r));
    }
    hide Forward, Recorded;
  }

  /** A request changes its phase, then every pending one is failed. */
  lemma PhaseThenFail(c: Conn, changed: nat, phase: Phase, writer: Writer, id: nat)
    requires id in c.requests && changed in c.requests && !c.requests[changed].phase.Reported?
    requires (phase.Waiting? || phase.Poisoning?) && (id in c.pending ==> !c.requests[id].phase.Reported?)
    ensures var left := Put(c, changed, c.requests[changed].(phase := phase)).(writer := writer);
            Goes(c, left, id) && Goes(c, Fail(left.(closing := true)), id)
  {
    hide Forward, Fail, BeginShutdown, Goes;
    var r := c.requests[changed].(phase := phase);
    var closing := Put(c, changed, r).(writer := writer, closing := true);
    ForwardLeaves(c.requests[changed], phase);
    GoesPut(c, id, changed, r);
    GoesSwitched(c, Put(c, changed, r), id, writer);
    GoesFail(closing, id);
    GoesThen(c, closing, Fail(closing), id);
  }

  lemma GoesSwitched(c: Conn, n: Conn, id: nat, writer: Writer)
    requires Goes(c, n, id)
    ensures Goes(c, n.(writer := writer), id) && Goes(c, n.(writer := writer, closing := true), id)
  {}

  lemma GoesThen(c: Conn, m: Conn, n: Conn, id: nat)
    requires Goes(c, m, id) && Goes(m, n, id)
    requires var p, q := c.requests[id], m.requests[id];
             q == p || ((q.phase.Waiting? || q.phase.Poisoning?) && q.recorded == p.recorded)
    ensures Goes(c, n, id)
  {
    hide Forward;
    if m.requests[id] != c.requests[id] { ForwardTwice(c.requests[id], m.requests[id], n.requests[id]); }
  }

  lemma ForwardLeaves(p: Request, phase: Phase)
    requires !p.phase.Reported? && (phase.Waiting? || phase.Poisoning?)
    ensures Forward(p, p.(phase := phase))
  {}

  lemma WriterForward(c: Conn, a: Action, id: nat)
    requires Inv(c) && id in c.requests && WriterAction(a) && !a.DoWriteThenMaskFails?
    ensures Goes(c, Act(c, a), id)
  {
    hide Inv, Goes, TryAcquire, TryEnter, CheckOpen, WriteSome, TryRecord, Retry, FailWrite, Leave;
    PendingFacts(c, id);
    if a.id in c.requests { PendingFacts(c, a.id); }
    match a {
      case DoAcquire(changed, line) => AcquireForward(c, changed, line, id);
      case DoEnter(changed) => EnterForward(c, changed, id);
      case DoWrite(changed, count) => WriteForward(c, changed, count, id);
      case DoRecord(changed) => RecordForward(c, changed, id);
      case DoLeave(changed) => LeavesForward(c, changed, id);
      case DoCheckOpen(changed) => PhasesForward(c, changed, id);
      case DoRetry(changed) => PhasesForward(c, changed, id);
      case DoWriteError(changed) => PhasesForward(c, changed, id);
    }
  }

  lemma LeavesForward(c: Conn, changed: nat, id: nat)
    requires id in c.requests && (id in c.pending ==> !c.requests[id].phase.Reported?)
    ensures Goes(c, Leave(c, changed), id)
  {
    GoesSame(c, id);
    hide Goes, Fail;
    if changed in c.requests && HoldsLock(c.requests[changed].phase) {
      PhaseThenFail(c, changed, Waiting, Free, id);
      PhaseThenFail(c, changed, Poisoning, Free, id);
    }
  }

  lemma RepliesForward(c: Conn, b: Block, id: nat)
    requires id in c.requests && Goes(c, Accept(c, b), id)
    ensures Goes(c, ServerReplies(c, b), id) && Goes(c, ServerEnds(c, b), id)
  {
    GoesSame(c, id);
    hide Accept, CanReply, CanEnd, Said, Forward;
  }

  lemma BlockForward(c: Conn, a: Action, id: nat)
    requires Inv(c) && id in c.requests && BlockAction(a)
    ensures Goes(c, Act(c, a), id)
  {
    hide Inv, Accept, ServerReplies, ServerEnds, GuardFlags, Goes;
    AcceptIsForward(c, id, a.block);
    RepliesForward(c, a.block, id);
    GoesSame(c, id);
  }

  lemma ExpireForward(c: Conn, changed: nat, id: nat)
    requires id in c.requests && (id in c.pending ==> !c.requests[id].phase.Reported?)
    ensures Goes(c, Expire(c, changed), id)
  {
    GoesSame(c, id);
    hide Goes, Fail;
    if In(c, changed, Waiting) {
      var n := Put(c, changed, c.requests[changed].(phase := Poisoning));
      PhaseThenFail(c, changed, Poisoning, c.writer, id);
      assert n.(writer := c.writer) == n;
    }
  }

  lemma PoisonForward(c: Conn, changed: nat, id: nat)
    requires id in c.requests
    ensures Goes(c, Poison(c, changed), id)
  {
    GoesSame(c, id);
    if In(c, changed, Poisoning) {
      ForwardLeaves(c.requests[changed], Waiting);
      GoesPut(c, id, changed, c.requests[changed].(phase := Waiting));
    }
    hide Forward;
  }

  lemma ReportForward(c: Conn, changed: nat, id: nat)
    requires id in c.requests
    ensures Goes(c, TryReport(c, changed), id)
  {
    GoesSame(c, id);
    if In(c, changed, Waiting) { GoesPut(c, id, changed, Report(c.requests[changed])); }
    hide Forward, Report;
  }

  lemma OtherForward(c: Conn, a: Action, id: nat)
    requires Inv(c) && id in c.requests && !WriterAction(a) && !BlockAction(a)
    ensures Goes(c, Act(c, a), id)
  {
    PendingFacts(c, id);
    hide Inv;
    GoesSame(c, id);
    GoesFail(c, id);
    hide Forward, Fail, BeginShutdown, Expire, Poison, TryReport;
    if a.DoDeadline? { ExpireForward(c, a.id, id); }
    if a.DoPoison? { PoisonForward(c, a.id, id); }
    if a.DoReport? { ReportForward(c, a.id, id); }
  }

  lemma ActForward(c: Conn, a: Action, id: nat)
    requires Inv(c) && id in c.requests && !a.DoWriteThenMaskFails?
    ensures Goes(c, Act(c, a), id)
  {
    hide Inv, Goes, Act;
    if WriterAction(a) {
      WriterForward(c, a, id);
    } else if BlockAction(a) {
      BlockForward(c, a, id);
    } else {
      OtherForward(c, a, id);
    }
  }

  /** Every action moves every request forward. */
  lemma EveryActForward(c: Conn, a: Action, id: nat)
    requires Inv(c) && id in c.requests
    ensures GoesUnseen(c, Act(c, a), id)
  {
    if a.DoWriteThenMaskFails? {
      MaskForward(c, a.id, a.count, id);
    } else {
      ActForward(c, a, id);
      hide Act, Inv;
    }
  }

  /** Over any run the delivery status only advances and a reported result is final. */
  lemma {:induction false} StatusOnlyAdvances(c: Conn, actions: seq<Action>, id: nat)
    requires Inv(c) && id in c.requests
    ensures var n := ActAll(c, actions);
            && id in n.requests && n.requests[id].frame == c.requests[id].frame
            && Rank(c.requests[id].delivery) <= Rank(n.requests[id].delivery)
            && c.requests[id].written <= n.requests[id].written
            && (c.requests[id].phase.Reported? ==> n.requests[id] == c.requests[id])
    decreases |actions|
  {
    if actions != [] {
      hide Act, Inv;
      ActKeepsInv(c, actions[0]);
      EveryActForward(c, actions[0], id);
      StatusOnlyAdvances(Act(c, actions[0]), actions[1..], id);
    }
  }

  // -------------------------------------------------------------- the pipe

  /** The whole frames of the given requests, one after another. */
  function Frames(requests: map<nat, Request>, ids: seq<nat>): string {
    if ids == [] then ""
    else Frames(requests, ids[..|ids| - 1]) + if Last(ids) in requests then requests[Last(ids)].frame else ""
  }

  lemma {:induction false} SentIsFrames(requests: map<nat, Request>, ids: seq<nat>)
    requires forall i :: 0 <= i < |ids| ==> ids[i] in requests && requests[ids[i]].written == |requests[ids[i]].frame|
    ensures Sent(requests, ids) == Frames(requests, ids)
    decreases |ids|
  {
    if ids != [] {
      SentIsFrames(requests, ids[..|ids| - 1]);
      var r := requests[Last(ids)];
      assert r.frame[..r.written] == r.frame;
    }
  }

  /** Whole frames of distinct requests, then a part of the last one, then at most the shutdown newline. */
  ghost predicate WholeFramesFirst(c: Conn) {
    var newline := if c.newline then "\n" else "";
    if c.order == [] then c.wire == newline
    else
      && Distinct(c.order) && Last(c.order) in c.requests
      && var r := c.requests[Last(c.order)];
         && r.written <= |r.frame|
         && c.wire == Frames(c.requests, c.order[..|c.order| - 1]) + r.frame[..r.written] + newline
         && (c.newline && 0 < r.written < |r.frame| ==> r.recorded == 0 && r.lost)
  }

  lemma InvIsWholeFramesFirst(c: Conn)
    requires Inv(c)
    ensures WholeFramesFirst(c)
  {
    if c.order != [] {
      var front := c.order[..|c.order| - 1];
      assert RequestInv(c, Last(c.order));
      SentIsFrames(c.requests, front);
    }
  }

  lemma PipeHoldsWholeFrames(seed: Seed, actions: seq<Action>)
    ensures WholeFramesFirst(ActAll(Opened(seed), actions))
  {
    OpenedIsInv(seed);
    ActAllKeepsInv(Opened(seed), actions);
    hide Inv, ActAll;
    InvIsWholeFramesFirst(ActAll(Opened(seed), actions));
  }

  // Most actions leave the pipe, the entry order, the boundary counter and the set of requests alone.

  ghost predicate SameNames(c: Conn, n: Conn) {
    n.seed == c.seed && n.nextBoundary == c.nextBoundary && forall id :: id in n.requests <==> id in c.requests
  }

  ghost predicate SamePipe(c: Conn, n: Conn) {
    SameNames(c, n) && n.order == c.order && n.wire == c.wire && n.newline == c.newline && (n.inputOpen ==> c.inputOpen)
  }

  lemma FlagPipe(c: Conn, n: Conn)
    requires n.requests == c.requests && n.seed == c.seed && n.nextBoundary == c.nextBoundary
    requires n.order == c.order && n.wire == c.wire && n.newline == c.newline && (n.inputOpen ==> c.inputOpen)
    ensures SamePipe(c, n)
  {}

  lemma PutPipe(c: Conn, id: nat, r: Request)
    requires id in c.requests
    ensures SamePipe(c, Put(c, id, r))
  {}

  lemma FailPipe(c: Conn)
    ensures SamePipe(c, Fail(c)) && SamePipe(c, BeginShutdown(c))
  {}

  lemma AnswerPipe(c: Conn, b: Block)
    ensures SamePipe(c, AcceptAnswer(c, b))
  {
    hide Put, Fail, IsBoundary;
    FailPipe(c);
    if c.pending != [] && c.pending[0] in c.requests {
      var id, r := c.pending[0], c.requests[c.pending[0]];
      PutPipe(c, id, r.(delivery := Replied, complete := true));
      PutPipe(c, id, r.(delivery := Replied, blocks := r.blocks + [b]));
    }
  }

  lemma StartupPipe(c: Conn)
    ensures SamePipe(c, c) && SamePipe(c, Fail(c)) && SamePipe(c, Fail(c.(startupSeen := true)))
    ensures SamePipe(c, c.(startupSeen := true, ready := true))
  {
    FailPipe(c);
    FailPipe(c.(startupSeen := true));
    hide Fail;
  }

  lemma BlockPipe(c: Conn, b: Block)
    ensures SamePipe(c, Accept(c, b))
  {
    hide AcceptAnswer, Fail, GuardFlags, SamePipe;
    StartupPipe(c);
    AnswerPipe(c, b);
  }

  lemma PhaseThenFailPipe(c: Conn, id: nat, phase: Phase, writer: Writer)
    requires id in c.requests
    ensures var left := Put(c, id, c.requests[id].(phase := phase)).(writer := writer);
            SamePipe(c, left) && SamePipe(c, Fail(left.(closing := true)))
  {
    var left := Put(c, id, c.requests[id].(phase := phase)).(writer := writer);
    PutPipe(c, id, c.requests[id].(phase := phase));
    FailPipe(left.(closing := true));
    hide Fail, Put;
  }

  lemma LeavePipe(c: Conn, id: nat)
    ensures SamePipe(c, Leave(c, id))
  {
    SamePipeRefl(c);
    hide Fail, SamePipe;
    if id in c.requests {
      PhaseThenFailPipe(c, id, Waiting, Free);
      PhaseThenFailPipe(c, id, Poisoning, Free);
    }
  }

  lemma PhasePipe(c: Conn, id: nat)
    ensures SamePipe(c, CheckOpen(c, id)) && SamePipe(c, Retry(c, id)) && SamePipe(c, FailWrite(c, id))
  {
    if id in c.requests {
      var r := c.requests[id];
      PutPipe(c, id, r.(phase := WriteFailed));
      PutPipe(c, id, r.(phase := Permitted));
      PutPipe(c, id, r.(phase := Writing));
    }
    hide Put, SamePipe;
    assert SamePipe(c, c) by { SamePipeRefl(c); }
  }

  lemma SamePipeRefl(c: Conn)
    ensures SamePipe(c, c)
  {}

  lemma RecordPipe(c: Conn, id: nat)
    ensures SamePipe(c, TryRecord(c, id))
  {
    hide Put, Recorded;
    if id in c.requests {
      PutPipe(c, id, Recorded(c.requests[id]));
    }
  }

  lemma WaitingPipe(c: Conn, id: nat)
    ensures SamePipe(c, Expire(c, id)) && SamePipe(c, TryReport(c, id))
  {
    SamePipeRefl(c);
    hide Fail, Report, SamePipe, Put;
    if id in c.requests {
      PutPipe(c, id, Report(c.requests[id]));
      var n := Put(c, id, c.requests[id].(phase := Poisoning));
      PhaseThenFailPipe(c, id, Poisoning, n.writer);
      assert n.(writer := n.writer) == n;
    }
  }

  lemma PoisonPipe(c: Conn, id: nat)
    ensures SamePipe(c, Poison(c, id))
  {
    if In(c, id, Poisoning) && c.writer.Free? {
      PutPipe(c, id, c.requests[id].(phase := Waiting));
      hide Put;
    } else {
      SamePipeRefl(c);
      hide SamePipe;
    }
  }

  lemma RepliesPipe(c: Conn, b: Block)
    ensures SamePipe(c, ServerReplies(c, b)) && SamePipe(c, ServerEnds(c, b))
  {
    hide Accept, CanReply, CanEnd, Said, SamePipe;
    BlockPipe(c, b);
    SamePipeRefl(c);
    if CanReply(c, b) { HistoryPipe(c, Accept(c, b), ServerReplies(c, b)); }
    if CanEnd(c, b) { HistoryPipe(c, Accept(c, b), ServerEnds(c, b)); }
  }

  lemma HistoryPipe(c: Conn, m: Conn, n: Conn)
    requires SamePipe(c, m) && n == m.(sent := n.sent, answered := n.answered)
    ensures SamePipe(c, n)
  {}

  lemma BlockActionPipe(c: Conn, a: Action)
    requires BlockAction(a)
    ensures SamePipe(c, Act(c, a))
  {
    hide Accept, ServerReplies, ServerEnds, GuardFlags, SamePipe;
    BlockPipe(c, a.block);
    RepliesPipe(c, a.block);
    SamePipeRefl(c);
  }

  lemma RefusedPipe(c: Conn, id: nat)
    requires In(c, id, Locked) && (c.fatal || !c.ready || c.closing)
    ensures SamePipe(c, TryEnter(c, id))
  {
    var n := Put(c, id, c.requests[id].(complete := true, error := Some(NotStarted), phase := Reported));
    PutPipe(c, id, n.requests[id]);
    assert SamePipe(c, n.(writer := Free));
    hide SamePipe;
  }

  lemma EnteredNames(c: Conn, id: nat)
    requires In(c, id, Locked) && !(c.fatal || !c.ready || c.closing)
    ensures SameNames(c, TryEnter(c, id))
  {
    var n := Put(c, id, c.requests[id].(phase := Writing));
    PutPipe(c, id, n.requests[id]);
    assert SameNames(c, n.(pending := c.pending + [id], order := c.order + [id]));
    hide SameNames;
  }

  lemma EnterNames(c: Conn, id: nat)
    ensures SameNames(c, TryEnter(c, id))
    ensures c.closing ==> SamePipe(c, TryEnter(c, id))
  {
    SamePipeRefl(c);
    if In(c, id, Locked) {
      hide TryEnter, SameNames;
      if c.fatal || !c.ready || c.closing { RefusedPipe(c, id); } else { EnteredNames(c, id); }
    }
  }

  lemma WriteNames(c: Conn, id: nat, count: nat, lost: bool)
    ensures SameNames(c, WriteSome(c, id, count, lost)) && WriteSome(c, id, count, lost).order == c.order
    ensures !In(c, id, Permitted) ==> WriteSome(c, id, count, lost) == c
  {
    if CanWrite(c, id, count) { PutPipe(c, id, Wrote(c.requests[id], count, lost)); }
    hide Put, Wrote, Accepted;
  }

  lemma WriterNames(c: Conn, a: Action)
    requires WriterAction(a) && !a.DoAcquire?
    ensures SameNames(c, Act(c, a))
    ensures c.closing && !In(c, a.id, Permitted) ==> SamePipe(c, Act(c, a))
  {
    hide TryEnter, CheckOpen, WriteSome, TryRecord, Retry, FailWrite, Leave;
    match a {
      case DoEnter(id) => EnterNames(c, id);
      case DoWrite(id, count) => WriteNames(c, id, count, false);
      case DoWriteThenMaskFails(id, count) => WriteNames(c, id, count, true);
      case DoRecord(id) => RecordPipe(c, id);
      case DoLeave(id) => LeavePipe(c, id);
      case DoCheckOpen(id) => PhasePipe(c, id);
      case DoRetry(id) => PhasePipe(c, id);
      case DoWriteError(id) => PhasePipe(c, id);
    }
  }

  lemma EndReadingPipe(c: Conn)
    ensures SamePipe(c, EndReading(c))
  {}

  lemma CloseInputPipe(c: Conn)
    ensures SamePipe(c, CloseInput(c))
  {}

  lemma LockPipe(c: Conn)
    ensures SamePipe(c, LockForShutdown(c))
  {}

  lemma FinishPipe(c: Conn)
    ensures SamePipe(c, FinishShutdown(c))
  {
    if c.writer.HeldByShutdown? {
      FlagPipe(c, c.(writer := Free, inputOpen := false));
      hide SamePipe;
    } else {
      FlagPipe(c, c);
      hide SamePipe;
    }
  }

  lemma NewlinePipe(c: Conn)
    ensures SameNames(c, SendNewline(c)) && OnlyNewline(c, SendNewline(c))
  {}

  lemma OtherNames(c: Conn, a: Action)
    requires !WriterAction(a) && !BlockAction(a)
    ensures SameNames(c, Act(c, a)) && OnlyNewline(c, Act(c, a))
  {
    FailPipe(c);
    EndReadingPipe(c);
    CloseInputPipe(c);
    LockPipe(c);
    FinishPipe(c);
    NewlinePipe(c);
    hide Fail, BeginShutdown, Expire, Poison, TryReport, EndReading, CloseInput;
    hide LockForShutdown, FinishShutdown, SendNewline, SameNames;
    if a.DoDeadline? || a.DoReport? { WaitingPipe(c, a.id); }
    if a.DoPoison? { PoisonPipe(c, a.id); }
  }

  /** A new request, and a new boundary, appear only when the write lock is taken for it. */
  lemma NamesKept(c: Conn, a: Action)
    requires !a.DoAcquire?
    ensures SameNames(c, Act(c, a))
  {
    hide Act;
    if WriterAction(a) {
      WriterNames(c, a);
    } else if BlockAction(a) {
      BlockActionPipe(c, a);
    } else {
      OtherNames(c, a);
    }
  }

  /** The last request left the writer with its frame incomplete. */
  ghost predicate Abandoned(c: Conn) {
    && c.order != [] && Last(c.order) in c.requests
    && c.requests[Last(c.order)].written < |c.requests[Last(c.order)].frame|
    && !HoldsLock(c.requests[Last(c.order)].phase)
  }

  /** The line of a torn frame can still be ended: the flag does not say that the frame is torn. */
  predicate MayEndLine(c: Conn) { !c.partial && c.inputOpen && !c.newline }

  lemma AbandonedFacts(c: Conn)
    requires Inv(c) && Abandoned(c)
    ensures c.closing && (c.partial <==> c.requests[Last(c.order)].recorded > 0)
    ensures c.writer.Held? ==> In(c, c.writer.id, Locked)
    ensures forall id :: !In(c, id, Permitted)
  {
    LastIn(c);
    assert RequestInv(c, Last(c.order));
    if c.writer.Held? { assert RequestInv(c, c.writer.id); }
    forall id ensures !In(c, id, Permitted) { assert RequestInv(c, id); }
  }

  lemma AbandonedStep(c: Conn, a: Action)
    requires Inv(c) && Abandoned(c)
    ensures var n := Act(c, a);
            && Abandoned(n) && n.order == c.order && n.partial == c.partial && OnlyNewline(c, n)
  {
    var n := Act(c, a);
    AbandonedFacts(c);
    EveryActForward(c, a, Last(c.order));
    ActKeepsInv(c, a);
    AbandonedWire(c, a);
    hide Act, Inv;
    AbandonedFacts(n);
  }

  /** What a closing connection without a permitted writer can still put on the pipe. */
  ghost predicate OnlyNewline(c: Conn, n: Conn) {
    && n.order == c.order && (n.inputOpen ==> c.inputOpen)
    && ((n.wire == c.wire && n.newline == c.newline) || (MayEndLine(c) && n.newline && n.wire == c.wire + "\n"))
  }

  lemma AbandonedWire(c: Conn, a: Action)
    requires c.closing && (forall id :: !In(c, id, Permitted))
    ensures OnlyNewline(c, Act(c, a))
  {
    if a.DoAcquire? {
      AcquireWire(c, a.id, a.line);
    } else if WriterAction(a) {
      assert !In(c, a.id, Permitted);
      WriterNames(c, a);
    } else if BlockAction(a) {
      BlockActionPipe(c, a);
    } else {
      OtherNames(c, a);
    }
    hide Act;
  }

  lemma AcquireWire(c: Conn, id: nat, line: string)
    ensures OnlyNewline(c, TryAcquire(c, id, line))
  {
    if c.writer.Free? && id !in c.requests {
      assert OnlyNewline(c, Acquire(c, id, line)) by { hide BoundaryName, BoundaryReply; }
      hide OnlyNewline;
    }
  }

  /** After a torn frame nothing is written, except the newline that shutdown sends when the flag allows it. */
  lemma {:induction false} NothingFollowsTornFrame(c: Conn, actions: seq<Action>)
    requires Inv(c) && Abandoned(c)
    ensures var n := ActAll(c, actions); n.wire == c.wire || (MayEndLine(c) && n.wire == c.wire + "\n")
    decreases |actions|
  {
    if actions != [] {
      AbandonedStep(c, actions[0]);
      ActKeepsInv(c, actions[0]);
      hide Act, Inv;
      NothingFollowsTornFrame(Act(c, actions[0]), actions[1..]);
    }
  }

  lemma {:induction false} ActAllSnoc(c: Conn, actions: seq<Action>, a: Action)
    ensures ActAll(c, actions + [a]) == Act(ActAll(c, actions), a)
    decreases |actions|
  {
    hide Act;
    var all := actions + [a];
    if actions == [] {
      assert all[0] == a && all[1..] == [];
      assert ActAll(Act(c, a), []) == Act(c, a);
    } else {
      assert all[0] == actions[0] && all[1..] == actions[1..] + [a];
      ActAllSnoc(Act(c, actions[0]), actions[1..], a);
    }
  }

  /** A request that was refused gives the write lock back. */
  lemma LockIsGivenBack(c: Conn) returns (actions: seq<Action>)
    requires Inv(c) && Abandoned(c) && MayEndLine(c) && !c.writer.HeldByShutdown?
    ensures var n := ActAll(c, actions); n.writer.Free? && MayEndLine(n) && n.wire == c.wire
  {
    AbandonedFacts(c);
    hide Inv, Abandoned;
    assert ActAll(c, []) == c;
    actions := [];
    if c.writer.Held? {
      RefusedLeavesLock(c);
      hide ActAll, TryEnter;
      actions := Then(c, [], DoEnter(c.writer.id));
    }
  }

  /** The steps by which shutdown takes the write lock. */
  lemma ShutdownTakesLock(c: Conn) returns (actions: seq<Action>)
    requires Inv(c) && Abandoned(c) && MayEndLine(c)
    ensures var n := ActAll(c, actions); n.writer.HeldByShutdown? && MayEndLine(n) && n.wire == c.wire
  {
    if c.writer.HeldByShutdown? {
      actions := [];
    } else {
      hide Inv, Abandoned, ActAll, BeginShutdown, Act;
      actions := LockIsGivenBack(c);
      BeginsShutdown(ActAll(c, actions));
      ShutdownActs(ActAll(c, actions));
      actions := Then(c, actions, DoBeginShutdown);
      ShutdownActs(ActAll(c, actions));
      actions := Then(c, actions, DoLockForShutdown);
    }
  }

  lemma RefusedLeavesLock(c: Conn)
    requires c.closing && c.writer.Held? && In(c, c.writer.id, Locked)
    ensures var n := TryEnter(c, c.writer.id);
            n.writer.Free? && n.wire == c.wire && n.partial == c.partial && n.inputOpen == c.inputOpen
              && n.newline == c.newline
  {}

  lemma BeginsShutdown(c: Conn)
    ensures var n := BeginShutdown(c);
            && n.shuttingDown && n.writer == c.writer && n.wire == c.wire
            && n.partial == c.partial && n.inputOpen == c.inputOpen && n.newline == c.newline
  {}

  lemma LineCanBeEnded(c: Conn) returns (actions: seq<Action>)
    requires Inv(c) && Abandoned(c) && MayEndLine(c)
    ensures ActAll(c, actions).wire == c.wire + "\n"
  {
    hide Inv, Abandoned, ActAll;
    actions := ShutdownTakesLock(c);
    ActAllSnoc(c, actions, DoNewline);
    actions := actions + [DoNewline];
  }

  /**
   * Over every run: once a request has left its frame torn, the pipe's contents are final, except for one
   * newline, which some continuation adds exactly when the input is open, none was sent and the flag does
   * not mark the frame as torn. The flag misses a torn frame exactly when its first write went unreported.
   */
  lemma TornFrameEndsTheWire(seed: Seed, before: seq<Action>)
    requires Abandoned(ActAll(Opened(seed), before))
    ensures var c := ActAll(Opened(seed), before);
            && (forall after :: ActAll(c, after).wire == c.wire || ActAll(c, after).wire == c.wire + "\n")
            && ((exists after :: ActAll(c, after).wire != c.wire) <==> MayEndLine(c))
            && (!c.partial <==> c.requests[Last(c.order)].recorded == 0)
  {
    var c := ActAll(Opened(seed), before);
    OpenedIsInv(seed);
    ActAllKeepsInv(Opened(seed), before);
    hide Inv;
    AbandonedFacts(c);
    hide ActAll, Abandoned;
    forall after
      ensures ActAll(c, after).wire == c.wire || (MayEndLine(c) && ActAll(c, after).wire == c.wire + "\n")
    {
      NothingFollowsTornFrame(c, after);
    }
    if MayEndLine(c) {
      var after := LineCanBeEnded(c);
      assert |ActAll(c, after).wire| == |c.wire| + 1;
    }
  }

  // ------------------------------------------------- what a status tells

  /** What a finished request's error status says about its bytes on the pipe. */
  ghost predicate StatusTellsProgress(r: Request) {
    r.phase.Reported? && r.error.Some? ==>
      match r.error.value
      case NotStarted => r.recorded == 0 && (r.written == 0 <==> !r.lost)
      case Indeterminate => 0 < r.recorded <= r.written && (r.recorded == r.written <==> !r.lost)
      case Written => r.written == |r.frame|
      case Replied => true
  }

  lemma InvTellsProgress(c: Conn, id: nat)
    requires Inv(c) && id in c.requests
    ensures StatusTellsProgress(c.requests[id])
  {
    hide OrderInv, TailInv;
    assert RequestInv(c, id);
  }

  lemma ReportedStatusIsTrue(seed: Seed, actions: seq<Action>, id: nat)
    requires id in ActAll(Opened(seed), actions).requests
    ensures StatusTellsProgress(ActAll(Opened(seed), actions).requests[id])
  {
    hide Inv, ActAll;
    OpenedIsInv(seed);
    ActAllKeepsInv(Opened(seed), actions);
    InvTellsProgress(ActAll(Opened(seed), actions), id);
  }

  /** A write of this request is accepted by the pipe while its writer is told of a failure. */
  predicate LosesTrack(c: Conn, a: Action, id: nat) {
    a.DoWriteThenMaskFails? && a.id == id && CanWrite(c, id, a.count)
  }

  /** Somewhere in the run, restoring the mask fails after one of this request's writes. */
  predicate MaskFails(c: Conn, actions: seq<Action>, id: nat)
    decreases |actions|
  {
    actions != [] && (LosesTrack(c, actions[0], id) || MaskFails(Act(c, actions[0]), actions[1..], id))
  }

  lemma LostStep(c: Conn, a: Action, id: nat)
    requires Inv(c)
    ensures var n := Act(c, a);
            id in n.requests ==>
              (n.requests[id].lost <==> (id in c.requests && c.requests[id].lost) || LosesTrack(c, a, id))
  {
    if a.DoWriteThenMaskFails? {
      hide Inv;
    } else if id in c.requests {
      hide Act, Inv;
      ActForward(c, a, id);
    } else if !a.DoAcquire? {
      hide Act, Inv;
      NamesKept(c, a);
    } else {
      hide Inv, BoundaryName, BoundaryReply;
    }
  }

  lemma {:induction false} LostOnlyByMask(c: Conn, actions: seq<Action>, id: nat)
    requires Inv(c)
    ensures var n := ActAll(c, actions);
            && (MaskFails(c, actions, id) ==> id in n.requests)
            && (id in n.requests ==>
                  (n.requests[id].lost <==> (id in c.requests && c.requests[id].lost) || MaskFails(c, actions, id)))
    decreases |actions|
  {
    if actions != [] {
      var a := actions[0];
      var n := Act(c, a);
      ActKeepsInv(c, a);
      LostStep(c, a, id);
      if id in c.requests {
        EveryActForward(c, a, id);
        hide Inv, Act;
        StatusOnlyAdvances(n, actions[1..], id);
      }
      hide Act, Inv;
      LostOnlyByMask(n, actions[1..], id);
    }
  }

  function Without(order: seq<nat>, id: nat): (r: seq<nat>)
    ensures id !in r && forall x :: x in r <==> x in order && x != id
  {
    if order == [] then []
    else
      var rest := Without(order[..|order| - 1], id);
      if Last(order) == id then rest else rest + [Last(order)]
  }

  lemma {:induction false} SentWithout(requests: map<nat, Request>, order: seq<nat>, id: nat)
    requires id in requests ==> requests[id].written == 0
    ensures Sent(requests, order) == Sent(requests, Without(order, id))
    decreases |order|
  {
    if order != [] {
      var front, last := order[..|order| - 1], Last(order);
      SentWithout(requests, front, id);
      if last != id {
        var kept := Without(front, id) + [last];
        assert Last(kept) == last && kept[..|kept| - 1] == Without(front, id);
      }
    }
  }

  /** The pipe, then or later, is what it would be had the request never been made. */
  ghost predicate LeftNoTrace(c: Conn, id: nat) {
    && id in c.requests && c.requests[id].written == 0
    && c.wire == Sent(c.requests, Without(c.order, id)) + if c.newline then "\n" else ""
  }

  /**
   * A request reported as not started leaves no trace on the pipe, then or later, exactly when restoring the
   * signal mask never failed after one of its own writes: then sending its commands again through another
   * client cannot run them twice.
   */
  lemma NotStartedIsSafeToResend(seed: Seed, before: seq<Action>, after: seq<Action>, id: nat)
    requires In(ActAll(Opened(seed), before), id, Reported)
    requires ActAll(Opened(seed), before).requests[id].error == Some(NotStarted)
    ensures LeftNoTrace(ActAll(ActAll(Opened(seed), before), after), id) <==> !MaskFails(Opened(seed), before, id)
  {
    var c := ActAll(Opened(seed), before);
    OpenedIsInv(seed);
    ActAllKeepsInv(Opened(seed), before);
    LostOnlyByMask(Opened(seed), before, id);
    ReportedStatusIsTrue(seed, before, id);
    StatusOnlyAdvances(c, after, id);
    var n := ActAll(c, after);
    ActAllKeepsInv(c, after);
    if n.requests[id].written == 0 { SentWithout(n.requests, n.order, id); }
    WireIsSent(n);
    hide Inv, ActAll, Sent, Without, MaskFails;
  }

  lemma WireIsSent(c: Conn)
    requires Inv(c)
    ensures c.wire == Sent(c.requests, c.order) + if c.newline then "\n" else ""
  {}

  // ---------------------------------------------------- boundaries over a run

  ghost predicate Numbered(c: Conn, r: Request) {
    && r.number < c.nextBoundary && r.lineLength <= |r.frame|
    && r.frame[r.lineLength..] == BoundaryName(c.seed, r.number) + "\n"
    && r.boundary == BoundaryReply(BoundaryName(c.seed, r.number))
  }

  ghost predicate AllNumbered(c: Conn) { forall id :: id in c.requests ==> Numbered(c, c.requests[id]) }

  ghost predicate DifferentNumbers(c: Conn) {
    forall x, y :: x in c.requests && y in c.requests && x != y ==> c.requests[x].number != c.requests[y].number
  }

  ghost predicate NumbersInv(c: Conn) { AllNumbered(c) && DifferentNumbers(c) }

  lemma NumberedNext(c: Conn, r: Request)
    requires Numbered(c, r)
    ensures Numbered(c.(nextBoundary := c.nextBoundary + 1), r)
  {}

  lemma AcquiredNumber(c: Conn, id: nat, line: string)
    ensures Numbered(c.(nextBoundary := c.nextBoundary + 1), Acquire(c, id, line).requests[id])
  {
    var name := BoundaryName(c.seed, c.nextBoundary);
    assert (line + name + "\n")[|line|..] == name + "\n";
    hide BoundaryName, BoundaryReply;
  }

  lemma SameNumbered(c: Conn, n: Conn, r: Request)
    requires Numbered(c, r) && n.seed == c.seed && n.nextBoundary == c.nextBoundary
    ensures Numbered(n, r)
  {}

  lemma AcquireNumbers(c: Conn, id: nat, line: string)
    requires NumbersInv(c) && id !in c.requests
    ensures NumbersInv(Acquire(c, id, line))
  {
    AcquireKeepsOthers(c, id, line);
    AcquireNumbered(c, id, line);
    hide Acquire;
    AcquireDiffers(c, Acquire(c, id, line), id);
    hide AllNumbered, DifferentNumbers;
  }

  lemma AcquireDiffers(c: Conn, n: Conn, id: nat)
    requires NumbersInv(c) && id in n.requests && n.requests[id].number == c.nextBoundary
    requires forall other :: other in n.requests && other != id ==>
             other in c.requests && n.requests[other] == c.requests[other]
    ensures DifferentNumbers(n)
  {
    forall other | other in c.requests ensures c.requests[other].number < c.nextBoundary {
      assert Numbered(c, c.requests[other]);
    }
    hide Numbered, AllNumbered;
  }

  lemma AcquireNumbered(c: Conn, id: nat, line: string)
    requires AllNumbered(c) && id !in c.requests
    ensures AllNumbered(Acquire(c, id, line))
  {
    hide Numbered, Acquire;
    var n := Acquire(c, id, line);
    AcquireKeepsOthers(c, id, line);
    AcquiredNumber(c, id, line);
    forall other | other in n.requests ensures Numbered(n, n.requests[other]) {
      if other != id { NumberedNext(c, c.requests[other]); }
      SameNumbered(c.(nextBoundary := c.nextBoundary + 1), n, n.requests[other]);
    }
  }

  lemma AcquireKeepsOthers(c: Conn, id: nat, line: string)
    ensures var n := Acquire(c, id, line);
            && id in n.requests && n.requests[id].number == c.nextBoundary && n.seed == c.seed
            && n.nextBoundary == c.nextBoundary + 1
            && forall other :: other != id ==>
                 (other in n.requests <==> other in c.requests)
                   && (other in c.requests ==> n.requests[other] == c.requests[other])
  {
    hide BoundaryName, BoundaryReply;
  }

  lemma ActNumbers(c: Conn, a: Action)
    requires Inv(c) && NumbersInv(c)
    ensures NumbersInv(Act(c, a))
  {
    if a.DoAcquire? {
      hide Acquire, Inv;
      if c.writer.Free? && a.id !in c.requests { AcquireNumbers(c, a.id, a.line); }
    } else {
      NamesKept(c, a);
      hide Act;
      var n := Act(c, a);
      forall id | id in c.requests ensures GoesUnseen(c, n, id) { EveryActForward(c, a, id); }
      hide Inv;
      NumbersFollow(c, n);
    }
  }

  lemma NumbersFollow(c: Conn, n: Conn)
    requires NumbersInv(c) && SameNames(c, n) && forall id :: id in c.requests ==> GoesUnseen(c, n, id)
    ensures NumbersInv(n)
  {
    forall id | id in n.requests ensures Numbered(n, n.requests[id]) && n.requests[id].number == c.requests[id].number {
      assert GoesUnseen(c, n, id);
      assert Numbered(c, c.requests[id]);
    }
  }

  lemma {:induction false} ActAllNumbers(c: Conn, actions: seq<Action>)
    requires Inv(c) && NumbersInv(c)
    ensures NumbersInv(ActAll(c, actions))
    decreases |actions|
  {
    if actions != [] {
      hide Act, Inv, NumbersInv;
      ActKeepsInv(c, actions[0]);
      ActNumbers(c, actions[0]);
      ActAllNumbers(Act(c, actions[0]), actions[1..]);
    }
  }

  lemma OpenedNumbers(seed: Seed)
    ensures NumbersInv(Opened(seed))
  {}

  /** Over every run, two requests wait for different boundaries while the 64-bit counter has not wrapped. */
  lemma RequestsHaveOwnBoundaries(seed: Seed, actions: seq<Action>, x: nat, y: nat)
    requires var c := ActAll(Opened(seed), actions);
             x in c.requests && y in c.requests && x != y && c.nextBoundary <= Power16(16)
    ensures var c := ActAll(Opened(seed), actions); c.requests[x].boundary != c.requests[y].boundary
  {
    hide ActAll, Inv, NumbersInv;
    OpenedIsInv(seed);
    OpenedNumbers(seed);
    ActAllNumbers(Opened(seed), actions);
    OwnBoundaries(ActAll(Opened(seed), actions), x, y);
  }

  lemma OwnBoundaries(c: Conn, x: nat, y: nat)
    requires NumbersInv(c) && x in c.requests && y in c.requests && x != y && c.nextBoundary <= Power16(16)
    ensures c.requests[x].boundary != c.requests[y].boundary
  {
    hide BoundaryName, BoundaryReply, Power16;
    assert Numbered(c, c.requests[x]) && Numbered(c, c.requests[y]);
    BoundariesDiffer(c.seed, c.requests[x].number, c.requests[y].number);
  }

  // ---------------------------------------- where the mask restore breaks the promise

  function StartBlock(): Block { Control.Block(0, 0, Control.End, "1 1 0", "", "", false, 0) }

  lemma StartFlags()
    ensures GuardFlags(StartBlock()) == Some(0)
  {
    var s := "1 1 0";
    assert s[4] == '0' && s[3] == ' ' && s[..4][3] == ' ' && LastIndex(s[..4], ' ') == 3;
    assert LastIndex(s, ' ') == 3 && s[4..] == "0";
    assert Control.DigitsValue("0") == 0;
  }

  function Frame(seed: Seed, line: string): string { line + BoundaryName(seed, 0) + "\n" }

  /** The state in which the first request, for `line`, may write. */
  function Ready(seed: Seed, line: string): Conn {
    Opened(seed).(
    nextBoundary := 1, startupSeen := true, ready := true, writer := Held(0), pending := [0], order := [0],
    requests := map[0 := Request(
                      Frame(seed, line), |line|, 0, BoundaryReply(BoundaryName(seed, 0)),
                      0, 0, false, NotStarted, false, None, [], Permitted)])
  }

  lemma ActNothing(c: Conn)
    ensures ActAll(c, []) == c
  {}

  lemma ReadyReached(seed: Seed, line: string) returns (actions: seq<Action>)
    ensures ActAll(Opened(seed), actions) == Ready(seed, line)
  {
    hide BoundaryName, BoundaryReply, GuardFlags, ActAll;
    StartFlags();
    var start := DoServerStarts(StartBlock());
    ActAllSnoc(Opened(seed), [], start);
    ActAllSnoc(Opened(seed), [] + [start], DoAcquire(0, line));
    ActAllSnoc(Opened(seed), [] + [start] + [DoAcquire(0, line)], DoEnter(0));
    ActAllSnoc(Opened(seed), [] + [start] + [DoAcquire(0, line)] + [DoEnter(0)], DoCheckOpen(0));
    actions := [] + [start] + [DoAcquire(0, line)] + [DoEnter(0)] + [DoCheckOpen(0)];
    ActNothing(Opened(seed));
    var c := Opened(seed).(startupSeen := true, ready := true);
    assert Act(Opened(seed), start) == c;
    var e := Act(Act(c, DoAcquire(0, line)), DoEnter(0));
    assert e.pending == [0] && e.order == [0];
    assert Act(e, DoCheckOpen(0)) == Ready(seed, line);
  }

  // The steps after an unreported first write, each from what the one before leaves.

  ghost predicate Unseen(c: Conn, text: string) {
    && c.wire == text && 0 in c.requests && c.requests[0].written == |text| && c.requests[0].delivery.NotStarted?
    && MayEndLine(c)
  }

  lemma WriteGoesUnseen(seed: Seed, line: string, count: nat)
    requires 0 < count < |Frame(seed, line)|
    ensures var c := WriteSome(Ready(seed, line), 0, count, true);
            && Unseen(c, Frame(seed, line)[..count]) && In(c, 0, WriteFailed)
            && !c.closing && c.pending == [0] && c.requests[0].error.None?
  {
    hide BoundaryName, BoundaryReply, Frame;
    assert "" + Frame(seed, line)[0..count] == Frame(seed, line)[..count];
  }

  lemma LeavesUnseen(c: Conn, text: string)
    requires Unseen(c, text) && In(c, 0, WriteFailed) && !c.closing && c.pending == [0] && c.requests[0].error.None?
    ensures var n := Leave(c, 0);
            Unseen(n, text) && In(n, 0, Poisoning) && n.writer.Free? && n.requests[0].complete
              && n.requests[0].error.Some?
  {}

  lemma ShutdownUnseen(c: Conn, text: string)
    requires Unseen(c, text) && In(c, 0, Poisoning) && c.writer.Free? && c.requests[0].complete
             && c.requests[0].error.Some?
    ensures var n := LockForShutdown(BeginShutdown(c));
            && Unseen(n, text) && In(n, 0, Poisoning) && n.writer.HeldByShutdown?
            && n.requests[0].complete && n.requests[0].error.Some?
  {
    var b := BeginShutdown(c);
    assert Unseen(b, text) && In(b, 0, Poisoning) && b.writer.Free? && b.shuttingDown;
    assert b.requests[0].complete && b.requests[0].error.Some?;
    hide BeginShutdown;
  }

  /** The line is ended, and the request has yet to be reported. */
  ghost predicate Ended(c: Conn, text: string) {
    && c.wire == text + "\n" && 0 in c.requests && c.requests[0].written == |text| && c.requests[0].delivery.NotStarted?
    && c.requests[0].complete && c.requests[0].error.Some?
  }

  lemma NewlineEnds(c: Conn, text: string)
    requires Unseen(c, text) && In(c, 0, Poisoning) && c.writer.HeldByShutdown?
    requires c.requests[0].complete && c.requests[0].error.Some?
    ensures var n := FinishShutdown(SendNewline(c)); Ended(n, text) && In(n, 0, Poisoning) && n.writer.Free?
  {}

  lemma ReportsNotStarted(c: Conn, text: string)
    requires Ended(c, text) && In(c, 0, Poisoning) && c.writer.Free?
    ensures var n := TryReport(Poison(c, 0), 0);
            Ended(n, text) && In(n, 0, Reported) && n.requests[0].error == Some(NotStarted)
  {
    var p := Poison(c, 0);
    assert Ended(p, text) && In(p, 0, Waiting);
    hide Poison;
  }

  /**
   * The promises fail when the mask restore does: whatever the request line, and wherever its first write is cut,
   * there is a run in which shutdown comes between the failing writer and its closing of the input, ends the torn
   * line with a newline, and the request is then reported as not started.
   */
  lemma MaskFailureSendsUnreportedBytes(seed: Seed, line: string, count: nat) returns (actions: seq<Action>)
    requires 0 < count < |Frame(seed, line)|
    ensures var c := ActAll(Opened(seed), actions);
            && c.wire == Frame(seed, line)[..count] + "\n"
            && In(c, 0, Reported) && c.requests[0].error == Some(NotStarted) && c.requests[0].written == count
  {
    hide ActAll, Frame, Unseen, Ended;
    actions := PoisonedUnseen(seed, line, count);
    var text := Frame(seed, line)[..count];
    actions := EndedByShutdown(Opened(seed), actions, text);
    actions := ReportedAfter(Opened(seed), actions, text);
    assert Ended(ActAll(Opened(seed), actions), text);
    EndedWire(ActAll(Opened(seed), actions), text);
  }

  lemma EndedWire(c: Conn, text: string)
    requires Ended(c, text)
    ensures c.wire == text + "\n" && c.requests[0].written == |text|
  {}

  ghost predicate UnseenPoisoning(c: Conn, text: string) {
    Unseen(c, text) && In(c, 0, Poisoning) && c.requests[0].complete && c.requests[0].error.Some?
  }

  lemma PoisonedUnseen(seed: Seed, line: string, count: nat) returns (actions: seq<Action>)
    requires 0 < count < |Frame(seed, line)|
    ensures var c := ActAll(Opened(seed), actions); UnseenPoisoning(c, Frame(seed, line)[..count]) && c.writer.Free?
  {
    hide ActAll, Ready, Frame, WriteSome, Leave, Unseen;
    actions := ReadyReached(seed, line);
    WriteGoesUnseen(seed, line, count);
    actions := Then(Opened(seed), actions, DoWriteThenMaskFails(0, count));
    LeavesUnseen(ActAll(Opened(seed), actions), Frame(seed, line)[..count]);
    actions := Then(Opened(seed), actions, DoLeave(0));
  }

  lemma EndedByShutdown(c: Conn, before: seq<Action>, text: string) returns (actions: seq<Action>)
    requires UnseenPoisoning(ActAll(c, before), text) && ActAll(c, before).writer.Free?
    ensures var n := ActAll(c, actions); Ended(n, text) && In(n, 0, Poisoning) && n.writer.Free?
  {
    hide ActAll, SendNewline, FinishShutdown, Unseen, Ended, Act;
    actions := LockedByShutdown(c, before, text);
    NewlineEnds(ActAll(c, actions), text);
    NewlineActs(ActAll(c, actions));
    actions := Then(c, actions, DoNewline);
    NewlineActs(ActAll(c, actions));
    actions := Then(c, actions, DoFinishShutdown);
  }

  lemma ShutdownActs(c: Conn)
    ensures Act(c, DoBeginShutdown) == BeginShutdown(c) && Act(c, DoLockForShutdown) == LockForShutdown(c)
  {
    hide BeginShutdown, LockForShutdown;
  }

  lemma NewlineActs(c: Conn)
    ensures Act(c, DoNewline) == SendNewline(c) && Act(c, DoFinishShutdown) == FinishShutdown(c)
  {
    hide SendNewline, FinishShutdown;
  }

  lemma LockedByShutdown(c: Conn, before: seq<Action>, text: string) returns (actions: seq<Action>)
    requires UnseenPoisoning(ActAll(c, before), text) && ActAll(c, before).writer.Free?
    ensures var n := ActAll(c, actions); UnseenPoisoning(n, text) && n.writer.HeldByShutdown?
  {
    hide ActAll, BeginShutdown, LockForShutdown, Unseen, Act;
    ShutdownUnseen(ActAll(c, before), text);
    ShutdownActs(ActAll(c, before));
    actions := Then(c, before, DoBeginShutdown);
    ShutdownActs(ActAll(c, actions));
    actions := Then(c, actions, DoLockForShutdown);
  }

  lemma ReportedAfter(c: Conn, before: seq<Action>, text: string) returns (actions: seq<Action>)
    requires var n := ActAll(c, before); Ended(n, text) && In(n, 0, Poisoning) && n.writer.Free?
    ensures var n := ActAll(c, actions); Ended(n, text) && In(n, 0, Reported) && n.requests[0].error == Some(NotStarted)
  {
    hide ActAll, Poison, TryReport, Ended;
    ReportsNotStarted(ActAll(c, before), text);
    actions := Then(c, before, DoPoison(0));
    actions := Then(c, actions, DoReport(0));
  }

  lemma Then(c: Conn, actions: seq<Action>, a: Action) returns (more: seq<Action>)
    ensures ActAll(c, more) == Act(ActAll(c, actions), a)
  {
    more := actions + [a];
    ActAllSnoc(c, actions, a);
  }
}
