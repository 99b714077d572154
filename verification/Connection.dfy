/**
 * The control connection: request frames written to the client's pipe under a write lock,
 * replies attributed to the oldest pending request, and the delivery status each request reports.
 * Every mutex section, pipe write and atomic store is one action; any thread may act next.
 */
module Connection {
  import opened Prelude
  import opened Boundary
  import Control = ControlParser

  type Block = Control.Block

  datatype Delivery = NotStarted | Indeterminate | Written | Replied

  function Rank(d: Delivery): nat {
    match d case NotStarted => 0 case Indeterminate => 1 case Written => 2 case Replied => 3
  }

  /** Locked to WriteFailed hold the write lock; Poisoning has failed the connection and must still close the input. */
  datatype Phase = Locked | Writing | Permitted | Unrecorded | WriteFailed | Poisoning | Waiting | Reported

  predicate HoldsLock(p: Phase) { !p.Poisoning? && !p.Waiting? && !p.Reported? }

  /** `written` bytes are on the pipe, of which the writer knows of `recorded`; `lost`: it was told of a failure. */
  datatype Request = Request(
    frame: string, lineLength: nat, number: nat, boundary: string,
    written: nat, recorded: nat, lost: bool, delivery: Delivery, complete: bool,
    error: Option<Delivery>, blocks: seq<Block>, phase: Phase)

  datatype Writer = Free | Held(id: nat) | HeldByShutdown

  /** `order`, `sent` and `answered` record history: the entry order, and what the server has said. */
  datatype Conn = Conn(
    seed: Seed, nextBoundary: nat,
    requests: map<nat, Request>, pending: seq<nat>, writer: Writer, wire: string,
    startupSeen: bool, ready: bool, closing: bool, fatal: bool,
    inputOpen: bool, partial: bool, shuttingDown: bool, newline: bool,
    order: seq<nat>, sent: map<nat, seq<Block>>, answered: nat)

  function Opened(seed: Seed): Conn {
    Conn(seed, 0, map[], [], Free, "", false, false, false, false, true, false, false, false, [], map[], 0)
  }

  // ----------------------------------------------------- critical sections

  function Put(c: Conn, id: nat, r: Request): Conn { c.(requests := c.requests[id := r]) }

  function FailedRequest(r: Request): Request {
    r.(complete := true, error := if r.error.None? then Some(r.delivery) else r.error)
  }

  function FailEach(requests: map<nat, Request>, ids: seq<nat>): map<nat, Request> {
    map id | id in requests :: if id in ids then FailedRequest(requests[id]) else requests[id]
  }

  /** fail_locked: the first failure stays, every pending request completes with it. */
  function Fail(c: Conn): Conn { c.(fatal := true, requests := FailEach(c.requests, c.pending), pending := []) }

  function Accept(c: Conn, b: Block): Conn {
    var flags := GuardFlags(b);
    if flags.None? then Fail(c)
    else if !c.startupSeen then
      if flags.value != 0 || !b.terminal.End? then Fail(c.(startupSeen := true))
      else c.(startupSeen := true, ready := true)
    else if flags.value == 0 then c
    else if flags.value != 1 then Fail(c)
    else AcceptAnswer(c, b)
  }

  /** A block the server sent for a request: it belongs to the oldest pending one. */
  function AcceptAnswer(c: Conn, b: Block): Conn {
    if c.pending == [] then if !c.closing && !c.fatal then Fail(c) else c
    else if c.pending[0] !in c.requests then c
    else
      var id, r := c.pending[0], c.requests[c.pending[0]];
      if IsBoundary(b, r.boundary) then
        Put(c, id, r.(delivery := Replied, complete := true)).(pending := c.pending[1..])
      else Put(c, id, r.(delivery := Replied, blocks := r.blocks + [b]))
  }

  /** Takes the write lock and the next boundary for a request line. */
  function Acquire(c: Conn, id: nat, line: string): Conn {
    var name := BoundaryName(c.seed, c.nextBoundary);
    var r := Request(
      line + name + "\n", |line|, c.nextBoundary, BoundaryReply(name), 0, 0, false, NotStarted, false, None, [],
        Locked);
    Put(c, id, r).(nextBoundary := c.nextBoundary + 1, writer := Held(id))
  }

  function Enter(c: Conn, id: nat, r: Request): Conn {
    if c.fatal || !c.ready || c.closing then
      Put(c, id, r.(complete := true, error := Some(NotStarted), phase := Reported)).(writer := Free)
    else Put(c, id, r.(phase := Writing)).(pending := c.pending + [id], order := c.order + [id])
  }

  function Accepted(r: Request, n: nat): string
    requires r.written + n <= |r.frame|
  {
    r.frame[r.written..r.written + n]
  }

  /** The status store and partial-frame flag that follow a write. */
  function Advanced(r: Request): Delivery {
    if r.delivery.Replied? then Replied else if r.written != |r.frame| then Indeterminate else Written
  }

  function Recorded(r: Request): Request { r.(delivery := Advanced(r), recorded := r.written, phase := Writing) }

  function Record(c: Conn, id: nat, r: Request): Conn {
    Put(c, id, Recorded(r)).(partial := r.written != |r.frame|)
  }

  function LeaveWriter(c: Conn, id: nat, r: Request, phase: Phase): Conn {
    Put(c, id, r.(phase := phase)).(writer := Free)
  }

  /** The first to close the connection fails it, and owes the closing of its input. */
  function LeaveFailed(c: Conn, id: nat, r: Request): Conn {
    if c.closing then LeaveWriter(c, id, r, Waiting) else Fail(LeaveWriter(c, id, r, Poisoning).(closing := true))
  }

  function ShutDownEach(requests: map<nat, Request>, ids: seq<nat>): map<nat, Request> {
    map id | id in requests ::
      if id in ids
      then
        requests[id].(
        complete := true, error := if requests[id].error.None? then Some(Indeterminate) else requests[id].error)
      else requests[id]
  }

  function BeginShutdown(c: Conn): Conn {
    c.(closing := true, shuttingDown := true, requests := ShutDownEach(c.requests, c.pending), pending := [])
  }

  /** The final result carries the delivery status as it stands, not as it stood when the failure struck. */
  function Report(r: Request): Request {
    r.(phase := Reported, error := if r.error.Some? then Some(r.delivery) else None)
  }

  datatype Action =
    // execute()
    | DoAcquire(id: nat, line: string) | DoEnter(id: nat)
    | DoCheckOpen(id: nat) | DoWrite(id: nat, count: nat) | DoWriteThenMaskFails(id: nat, count: nat)
    | DoRecord(id: nat) | DoRetry(id: nat) | DoWriteError(id: nat) | DoLeave(id: nat)
    | DoDeadline(id: nat) | DoPoison(id: nat) | DoReport(id: nat)
    // reader
    | DoBlock(block: Block) | DoReaderFails | DoReaderEnds | DoCloseInput
    // reader, fed by a server that answers requests in order
    | DoServerStarts(block: Block) | DoServerNoise(block: Block) | DoServerReplies(block: Block)
      | DoServerEnds(block: Block)
    // shutdown()
    | DoBeginShutdown | DoLockForShutdown | DoNewline | DoFinishShutdown

  predicate In(c: Conn, id: nat, p: Phase) { id in c.requests && c.requests[id].phase == p }

  /** The request the server is answering: the first it has not ended yet. */
  predicate Answering(c: Conn) { c.answered < |c.order| && c.order[c.answered] in c.requests }

  function Said(c: Conn, id: nat): seq<Block> { if id in c.sent then c.sent[id] else [] }

  // One function per action; an action whose turn it is not changes nothing.

  function TryAcquire(c: Conn, id: nat, line: string): Conn {
    if c.writer.Free? && id !in c.requests then Acquire(c, id, line) else c
  }

  function TryEnter(c: Conn, id: nat): Conn {
    if In(c, id, Locked) then Enter(c, id, c.requests[id]) else c
  }

  predicate Unfinished(c: Conn, id: nat) { id in c.requests && c.requests[id].written < |c.requests[id].frame| }

  function CheckOpen(c: Conn, id: nat): Conn {
    if In(c, id, Writing) && Unfinished(c, id)
    then Put(c, id, c.requests[id].(phase := if c.closing || c.fatal then WriteFailed else Permitted)) else c
  }

  predicate CanWrite(c: Conn, id: nat, count: nat) {
    In(c, id, Permitted) && c.inputOpen && count > 0 && c.requests[id].written + count <= |c.requests[id].frame|
  }

  function Wrote(r: Request, count: nat, lost: bool): Request {
    r.(written := r.written + count, lost := r.lost || lost, phase := if lost then WriteFailed else Unrecorded)
  }

  /** The pipe accepts some bytes; the writer may be told of a failure all the same. */
  function WriteSome(c: Conn, id: nat, count: nat, lost: bool): Conn {
    if CanWrite(c, id, count)
    then Put(c, id, Wrote(c.requests[id], count, lost)).(wire := c.wire + Accepted(c.requests[id], count)) else c
  }

  function TryRecord(c: Conn, id: nat): Conn {
    if In(c, id, Unrecorded) then Record(c, id, c.requests[id]) else c
  }

  function Retry(c: Conn, id: nat): Conn {
    if In(c, id, Permitted) then Put(c, id, c.requests[id].(phase := Writing)) else c
  }

  function FailWrite(c: Conn, id: nat): Conn {
    if (In(c, id, Writing) && Unfinished(c, id)) || In(c, id, Permitted)
    then Put(c, id, c.requests[id].(phase := WriteFailed)) else c
  }

  function Leave(c: Conn, id: nat): Conn {
    if In(c, id, WriteFailed) then LeaveFailed(c, id, c.requests[id])
    else if In(c, id, Writing) && !Unfinished(c, id) then LeaveWriter(c, id, c.requests[id], Waiting)
    else c
  }

  function Expire(c: Conn, id: nat): Conn {
    if In(c, id, Waiting) && !c.requests[id].complete
    then Fail(Put(c, id, c.requests[id].(phase := Poisoning)).(closing := true)) else c
  }

  /** A poisoning request closes the input under the write lock before it goes on to report. */
  function Poison(c: Conn, id: nat): Conn {
    if In(c, id, Poisoning) && c.writer.Free?
    then Put(c, id, c.requests[id].(phase := Waiting)).(inputOpen := false) else c
  }

  function TryReport(c: Conn, id: nat): Conn {
    if In(c, id, Waiting) && c.requests[id].complete then Put(c, id, Report(c.requests[id])) else c
  }

  function EndReading(c: Conn): Conn { if c.fatal then c.(closing := true) else c }

  function CloseInput(c: Conn): Conn { if c.writer.Free? && c.closing then c.(inputOpen := false) else c }

  function ServerStarts(c: Conn, b: Block): Conn { if c.startupSeen then c else Accept(c, b) }

  function ServerNoise(c: Conn, b: Block): Conn {
    if c.startupSeen && GuardFlags(b) == Some(0) then Accept(c, b) else c
  }

  predicate CanReply(c: Conn, b: Block) {
    && Answering(c) && GuardFlags(b) == Some(1)
    && !IsBoundary(b, c.requests[c.order[c.answered]].boundary)
    && c.requests[c.order[c.answered]].lineLength <= c.requests[c.order[c.answered]].written
  }

  function ServerReplies(c: Conn, b: Block): Conn {
    if CanReply(c, b)
    then Accept(c, b).(sent := c.sent[c.order[c.answered] := Said(c, c.order[c.answered]) + [b]]) else c
  }

  predicate CanEnd(c: Conn, b: Block) {
    && Answering(c) && GuardFlags(b) == Some(1)
    && IsBoundary(b, c.requests[c.order[c.answered]].boundary)
    && !Unfinished(c, c.order[c.answered])
  }

  function ServerEnds(c: Conn, b: Block): Conn {
    if CanEnd(c, b) then Accept(c, b).(answered := c.answered + 1) else c
  }

  function LockForShutdown(c: Conn): Conn {
    if c.shuttingDown && c.writer.Free? then c.(writer := HeldByShutdown) else c
  }

  function SendNewline(c: Conn): Conn {
    if c.writer.HeldByShutdown? && c.inputOpen && !c.partial && !c.newline
    then c.(wire := c.wire + "\n", newline := true) else c
  }

  function FinishShutdown(c: Conn): Conn {
    if c.writer.HeldByShutdown? then c.(writer := Free, inputOpen := false) else c
  }

  function Act(c: Conn, a: Action): Conn {
    match a
    case DoAcquire(id, line) => TryAcquire(c, id, line)
    case DoEnter(id) => TryEnter(c, id)
    case DoCheckOpen(id) => CheckOpen(c, id)
    case DoWrite(id, count) => WriteSome(c, id, count, false)
    case DoWriteThenMaskFails(id, count) => WriteSome(c, id, count, true)
    case DoRecord(id) => TryRecord(c, id)
    case DoRetry(id) => Retry(c, id)
    case DoWriteError(id) => FailWrite(c, id)
    case DoLeave(id) => Leave(c, id)
    case DoDeadline(id) => Expire(c, id)
    case DoPoison(id) => Poison(c, id)
    case DoReport(id) => TryReport(c, id)
    case DoBlock(b) => Accept(c, b)
    case DoReaderFails => Fail(c)
    case DoReaderEnds => EndReading(c)
    case DoCloseInput => CloseInput(c)
    case DoServerStarts(b) => ServerStarts(c, b)
    case DoServerNoise(b) => ServerNoise(c, b)
    case DoServerReplies(b) => ServerReplies(c, b)
    case DoServerEnds(b) => ServerEnds(c, b)
    case DoBeginShutdown => BeginShutdown(c)
    case DoLockForShutdown => LockForShutdown(c)
    case DoNewline => SendNewline(c)
    case DoFinishShutdown => FinishShutdown(c)
  }

  function ActAll(c: Conn, actions: seq<Action>): Conn
    decreases |actions|
  {
    if actions == [] then c else ActAll(Act(c, actions[0]), actions[1..])
  }

  // ------------------------------------------------------------- the pipe

  function Last(order: seq<nat>): nat
    requires order != []
  {
    order[|order| - 1]
  }

  /** What the requests have put on the pipe, in entry order. */
  function Sent(requests: map<nat, Request>, order: seq<nat>): string {
    if order == [] then ""
    else
      Sent(requests, order[..|order| - 1]) +
      if Last(order) in requests && requests[Last(order)].written <= |requests[Last(order)].frame|
      then requests[Last(order)].frame[..requests[Last(order)].written] else ""
  }

  /** How a request stands in the connection. */
  datatype Standing = Standing(writer: bool, entered: bool, last: bool, pending: bool, closing: bool)

  /** The status a writer stores for what it has recorded. */
  function StatusOf(recorded: nat, size: nat): Delivery {
    if recorded == 0 then NotStarted else if recorded < size then Indeterminate else Written
  }

  /** What holds of each request by itself. */
  ghost predicate RequestOk(r: Request, k: Standing) {
    && r.recorded <= r.written <= |r.frame|
    && (r.delivery.Replied? || r.delivery == StatusOf(r.recorded, |r.frame|))
    && (HoldsLock(r.phase) <==> k.writer)
    && (!k.entered ==> (r.phase.Locked? || r.phase.Reported?) && r.written == 0)
    && (k.entered ==> !r.phase.Locked? && (r.complete <==> !k.pending))
    && (HoldsLock(r.phase) && !r.phase.Locked? ==> k.last)
    && (r.recorded < r.written <==> r.lost || r.phase.Unrecorded?)
    && (r.phase.Permitted? ==> r.written < |r.frame|)
    && (r.lost ==> r.phase.WriteFailed? || (!HoldsLock(r.phase) && k.closing))
    && (r.phase.Locked? ==> !r.complete && r.error.None?)
    && (r.phase.Poisoning? ==> r.complete && k.closing)
    && (k.entered && r.written < |r.frame| && !HoldsLock(r.phase) ==> k.closing)
    && (r.phase.Reported? ==>
          r.complete && (r.error.Some? ==> r.error.value == if k.entered then r.delivery else NotStarted))
  }

  ghost function StandingOf(c: Conn, id: nat): Standing {
    Standing(c.writer == Held(id), id in c.order, c.order != [] && id == Last(c.order), id in c.pending, c.closing)
  }

  ghost predicate RequestInv(c: Conn, id: nat) {
    id in c.requests ==> RequestOk(c.requests[id], StandingOf(c, id))
  }

  lemma Untouched(c: Conn, n: Conn, id: nat)
    requires RequestInv(c, id) && (id in n.requests ==> id in c.requests && n.requests[id] == c.requests[id])
    requires n.writer == Held(id) <==> c.writer == Held(id)
    requires id in n.order <==> id in c.order
    requires (n.order != [] && id == Last(n.order)) <==> (c.order != [] && id == Last(c.order))
    requires id in n.pending <==> id in c.pending
    requires n.closing == c.closing
    ensures RequestInv(n, id)
  {
    hide RequestOk;
  }

  lemma OkWhenClosing(r: Request, k: Standing)
    requires RequestOk(r, k)
    ensures RequestOk(r, k.(closing := true))
  {}

  /** A pending request that is failed or shut down is in order as a completed one. */
  lemma OkWhenCleared(r: Request, k: Standing, error: Delivery, closing: bool)
    requires RequestOk(r, k) && k.entered && k.pending && (k.closing ==> closing)
    ensures RequestOk(r.(complete := true, error := if r.error.None? then Some(error) else r.error),
                      k.(pending := false, closing := closing))
  {}

  lemma OkWhenWritten(r: Request, k: Standing, count: nat, lost: bool)
    requires RequestOk(r, k) && r.phase.Permitted? && count > 0 && r.written + count <= |r.frame|
    ensures RequestOk(Wrote(r, count, lost), k)
  {}

  lemma OkWhenRecorded(r: Request, k: Standing)
    requires RequestOk(r, k) && r.phase.Unrecorded?
    ensures RequestOk(Recorded(r), k)
  {}

  /** A request outside the writer, or one that leaves it, waits or poisons. */
  lemma OkWhenSwitched(r: Request, k: Standing, phase: Phase)
    requires RequestOk(r, k) && k.entered && (r.phase.WriteFailed? || !HoldsLock(r.phase)) && !r.phase.Reported?
    requires r.phase.WriteFailed? ==> k.closing
    requires phase.Waiting? || (phase.Poisoning? && r.complete && k.closing)
    ensures RequestOk(r.(phase := phase), k.(writer := false))
  {}

  lemma OkWhenRefused(r: Request, k: Standing)
    requires RequestOk(r, k) && r.phase.Locked?
    ensures RequestOk(r.(complete := true, error := Some(NotStarted), phase := Reported), k.(writer := false))
  {}

  lemma OkWhenReported(r: Request, k: Standing)
    requires RequestOk(r, k) && k.entered && r.phase.Waiting? && r.complete
    ensures RequestOk(Report(r), k)
  {}

  lemma OkWhenReplied(r: Request, k: Standing, b: Block)
    requires RequestOk(r, k) && k.entered && k.pending
    ensures RequestOk(r.(delivery := Replied, complete := true), k.(pending := false))
    ensures RequestOk(r.(delivery := Replied, blocks := r.blocks + [b]), k)
  {}

  ghost predicate OrderInv(c: Conn) {
    && (c.writer.Held? ==> c.writer.id in c.requests)
    && (forall i :: 0 <= i < |c.order| ==> c.order[i] in c.requests)
    && (forall i, j :: 0 <= i < j < |c.order| ==> c.order[i] != c.order[j])
    && (forall i, j :: 0 <= i < j < |c.pending| ==> c.pending[i] != c.pending[j])
    && (forall i :: 0 <= i < |c.pending| ==> c.pending[i] in c.order)
    && (forall i :: 0 <= i < |c.order| - 1 ==>
          c.requests[c.order[i]].written == |c.requests[c.order[i]].frame| && !c.requests[c.order[i]].lost)
    && (c.closing || c.fatal ==> c.pending == [])
    && (c.shuttingDown || !c.inputOpen || c.newline ==> c.closing)
    && (c.writer.HeldByShutdown? ==> c.shuttingDown)
    && (c.newline ==> c.writer.HeldByShutdown? || !c.inputOpen)
  }

  /** The last request that entered: only it can be incomplete, and only its bytes can still grow. */
  ghost predicate TailInv(c: Conn) {
    && (c.order == [] ==> !c.partial)
    && (c.order != [] && Last(c.order) in c.requests ==>
          var r := c.requests[Last(c.order)];
          && (c.partial <==> 0 < r.recorded < |r.frame|)
          && (c.newline ==> !HoldsLock(r.phase) && !c.partial))
    && c.wire == Sent(c.requests, c.order) + (if c.newline then "\n" else "")
  }

  ghost predicate Inv(c: Conn) {
    && (forall id :: RequestInv(c, id))
    && OrderInv(c) && TailInv(c)
  }

  /** Requests that keep their frame and their progress keep their share of the pipe. */
  lemma {:induction false} SentSame(x: map<nat, Request>, y: map<nat, Request>, order: seq<nat>)
    requires forall i :: 0 <= i < |order| ==>
               order[i] in x && order[i] in y && x[order[i]].frame == y[order[i]].frame
                 && x[order[i]].written == y[order[i]].written
    ensures Sent(x, order) == Sent(y, order)
    decreases |order|
  {
    if order != [] { SentSame(x, y, order[..|order| - 1]); }
  }

  lemma SentGrows(c: Conn, id: nat, next: Request, count: nat)
    requires Inv(c) && c.order != [] && id == Last(c.order) && id in c.requests
    requires next.frame == c.requests[id].frame && next.written == c.requests[id].written + count <= |next.frame|
    ensures Sent(c.requests[id := next], c.order) == Sent(c.requests, c.order) + Accepted(c.requests[id], count)
  {
    hide TailInv, RequestOk, Sent;
    var front := c.order[..|c.order| - 1];
    forall i | 0 <= i < |front| ensures front[i] != id && front[i] in c.requests {
      assert front[i] == c.order[i];
    }
    SentSame(c.requests, c.requests[id := next], front);
    var r := c.requests[id];
    SentLast(c.requests, c.order);
    SentLast(c.requests[id := next], c.order);
    assert next.frame[..next.written] == r.frame[..r.written] + Accepted(r, count);
  }

  lemma SentLast(requests: map<nat, Request>, order: seq<nat>)
    requires order != [] && Last(order) in requests && requests[Last(order)].written <= |requests[Last(order)].frame|
    ensures Sent(requests, order) ==
            Sent(requests, order[..|order| - 1]) + requests[Last(order)].frame[..requests[Last(order)].written]
  {}

  // Every action either leaves all progress alone, or is one of Enter, Write and its failing form.

  ghost predicate SameProgress(c: Conn, n: Conn) {
    && n.order == c.order
    && forall i :: 0 <= i < |c.order| ==>
         && c.order[i] in c.requests && c.order[i] in n.requests
         && n.requests[c.order[i]].frame == c.requests[c.order[i]].frame
         && n.requests[c.order[i]].written == c.requests[c.order[i]].written
         && n.requests[c.order[i]].recorded == c.requests[c.order[i]].recorded
         && n.requests[c.order[i]].lost == c.requests[c.order[i]].lost
  }

  /** The pending list only loses requests, all of them or the oldest, and flags stay consistent. */
  ghost predicate FlagsKept(c: Conn, n: Conn) {
    && (n.writer.Held? ==> n.writer.id in n.requests)
    && (n.pending == c.pending || n.pending == [] || (c.pending != [] && n.pending == c.pending[1..]))
    && (n.closing || n.fatal ==> n.pending == [])
    && (n.shuttingDown || !n.inputOpen || n.newline ==> n.closing)
    && (n.writer.HeldByShutdown? ==> n.shuttingDown)
    && (n.newline ==> n.writer.HeldByShutdown? || !n.inputOpen)
  }

  lemma OrderKept(c: Conn, n: Conn)
    requires OrderInv(c) && SameProgress(c, n) && FlagsKept(c, n)
    ensures OrderInv(n)
  {}

  lemma TailKept(c: Conn, n: Conn)
    requires TailInv(c) && SameProgress(c, n)
    requires n.partial == c.partial && n.wire == c.wire && n.newline == c.newline
    requires c.order != [] ==>
               (n.newline ==> !HoldsLock(n.requests[Last(c.order)].phase))
    ensures TailInv(n)
  {
    SentSame(c.requests, n.requests, c.order);
  }

  ghost predicate SameFrames(c: Conn, n: Conn) {
    && n.order == c.order && n.partial == c.partial && n.wire == c.wire && n.newline == c.newline
    && forall id :: id in c.requests ==>
         && id in n.requests && n.requests[id].frame == c.requests[id].frame
         && n.requests[id].written == c.requests[id].written && n.requests[id].recorded == c.requests[id].recorded
         && n.requests[id].lost == c.requests[id].lost
  }

  lemma KeptAll(c: Conn, n: Conn)
    requires Inv(c) && SameFrames(c, n) && FlagsKept(c, n)
    requires forall id :: RequestInv(n, id)
    requires c.order != [] ==>
               && Last(c.order) in c.requests
               && (n.newline ==> !HoldsLock(n.requests[Last(c.order)].phase))
    ensures Inv(n)
  {
    hide TailInv, RequestInv;
    assert SameProgress(c, n);
    hide OrderInv;
    OrderKept(c, n);
    TailKept(c, n);
  }

  /** What the other invariants say about the pending list, the flags and the last request. */
  lemma Basics(c: Conn)
    requires Inv(c)
    ensures FlagsKept(c, c)
    ensures forall id :: id in c.pending ==> id in c.order && id in c.requests
    ensures forall id :: id in c.order ==> id in c.requests
    ensures c.order != [] ==> Last(c.order) in c.requests && Last(c.order) in c.order
    ensures c.order != [] && c.newline ==> !HoldsLock(c.requests[Last(c.order)].phase)
    ensures c.pending != [] ==> c.pending[0] !in c.pending[1..]
  {
    hide RequestOk;
  }

  /** The lock holder that has entered is the last of the order, and no newline was sent. */
  lemma HolderIsLast(c: Conn, id: nat)
    requires Inv(c) && id in c.requests && HoldsLock(c.requests[id].phase) && !c.requests[id].phase.Locked?
    ensures c.writer == Held(id) && c.order != [] && id == Last(c.order) && id in c.order && !c.newline
  {
    hide OrderInv, TailInv;
    assert RequestInv(c, id);
    Basics(c);
  }

  lemma AcquireKeepsInv(c: Conn, id: nat, line: string)
    requires Inv(c) && c.writer.Free? && id !in c.requests
    ensures Inv(Acquire(c, id, line))
  {
    hide TailInv, OrderInv;
    var n := Acquire(c, id, line);
    Basics(c);
    assert RequestInv(n, id);
    hide RequestOk;
    forall other ensures RequestInv(n, other) {
      if other != id { Untouched(c, n, other); }
    }
    hide RequestInv;
    KeptAll(c, n);
  }

  lemma LockedHolds(c: Conn, id: nat)
    requires Inv(c) && In(c, id, Locked)
    ensures c.writer == Held(id) && id !in c.order && RequestOk(c.requests[id], StandingOf(c, id))
  {
    hide TailInv, OrderInv;
    assert RequestInv(c, id);
  }

  lemma RefuseKeepsInv(c: Conn, id: nat)
    requires Inv(c) && In(c, id, Locked) && (c.fatal || !c.ready || c.closing)
    ensures Inv(Enter(c, id, c.requests[id]))
  {
    hide TailInv, OrderInv, RequestOk;
    var r := c.requests[id];
    LockedHolds(c, id);
    OkWhenRefused(r, StandingOf(c, id));
    PutKeepsInv(c, id, r.(complete := true, error := Some(NotStarted), phase := Reported), Free);
  }

  lemma EnterKeepsInv(c: Conn, id: nat)
    requires Inv(c) && In(c, id, Locked) && !c.fatal && c.ready && !c.closing
    ensures Inv(Enter(c, id, c.requests[id]))
  {
    hide TailInv, OrderInv;
    var n := Enter(c, id, c.requests[id]);
    EnterOrder(c, id);
    EnterTail(c, id);
    Basics(c);
    assert RequestInv(c, id);
    forall other ensures RequestInv(n, other) {
      assert RequestInv(c, other);
    }
  }

  lemma LastIn(c: Conn)
    requires OrderInv(c) && c.order != []
    ensures Last(c.order) in c.requests && Last(c.order) in c.order
  {}

  /** A request enters only behind whole frames. */
  lemma EnterOrder(c: Conn, id: nat)
    requires Inv(c) && In(c, id, Locked) && !c.fatal && c.ready && !c.closing
    ensures OrderInv(Enter(c, id, c.requests[id]))
  {
    hide TailInv;
    assert RequestInv(c, id);
    if c.order != [] { LastIn(c); assert RequestInv(c, Last(c.order)); }
    forall i | 0 <= i < |c.pending| ensures c.pending[i] != id { assert c.pending[i] in c.order; }
    hide RequestInv;
  }

  lemma EnterTail(c: Conn, id: nat)
    requires Inv(c) && In(c, id, Locked) && !c.fatal && c.ready && !c.closing
    ensures TailInv(Enter(c, id, c.requests[id]))
  {
    var n := Enter(c, id, c.requests[id]);
    assert RequestInv(c, id);
    if c.order != [] { LastIn(c); assert RequestInv(c, Last(c.order)); }
    hide RequestInv;
    SentSame(c.requests, n.requests, c.order);
    assert n.order[..|n.order| - 1] == c.order;
    assert c.requests[id].frame[..0] == "";
  }

  /** A writer's steps that move no byte. */
  lemma PhaseKeepsInv(c: Conn, id: nat, phase: Phase)
    requires Inv(c) && (In(c, id, Writing) || In(c, id, Permitted))
    requires phase.Writing? || phase.WriteFailed?
             || (phase.Permitted? && c.requests[id].written < |c.requests[id].frame|)
    ensures Inv(Put(c, id, c.requests[id].(phase := phase)))
  {
    hide TailInv, OrderInv;
    HolderIsLast(c, id);
    assert RequestInv(c, id);
    PutKeepsInv(c, id, c.requests[id].(phase := phase), c.writer);
  }

  /** One request changes its record but not its progress. */
  ghost predicate Replaces(c: Conn, id: nat, r: Request) {
    && id in c.requests
    && r.frame == c.requests[id].frame && r.written == c.requests[id].written
    && r.recorded == c.requests[id].recorded && r.lost == c.requests[id].lost
    && (c.newline && id in c.order ==> HoldsLock(r.phase) == HoldsLock(c.requests[id].phase))
  }

  lemma PutFrames(c: Conn, id: nat, r: Request, writer: Writer)
    requires Replaces(c, id, r)
    ensures var n := Put(c, id, r).(writer := writer); SameFrames(c, n)
  {}

  lemma PutFlags(c: Conn, id: nat, r: Request, writer: Writer)
    requires FlagsKept(c, c) && id in c.requests
    requires writer == c.writer || (writer.Free? && c.writer == Held(id))
    ensures var n := Put(c, id, r).(writer := writer); FlagsKept(c, n)
  {}

  lemma PutRequests(c: Conn, id: nat, r: Request, writer: Writer)
    requires Inv(c) && Replaces(c, id, r)
    requires writer == c.writer || (writer.Free? && c.writer == Held(id))
    requires RequestOk(r, StandingOf(c.(writer := writer), id))
    ensures var n := Put(c, id, r).(writer := writer); forall other :: RequestInv(n, other)
  {
    hide TailInv, OrderInv, RequestOk;
    var n := Put(c, id, r).(writer := writer);
    assert StandingOf(n, id) == StandingOf(c.(writer := writer), id);
    forall other ensures RequestInv(n, other) {
      if other != id { Untouched(c, n, other); }
    }
  }

  lemma PutKeepsInv(c: Conn, id: nat, r: Request, writer: Writer)
    requires Inv(c) && Replaces(c, id, r)
    requires writer == c.writer || (writer.Free? && c.writer == Held(id))
    requires RequestOk(r, StandingOf(c.(writer := writer), id))
    ensures Inv(Put(c, id, r).(writer := writer))
  {
    PutFrames(c, id, r, writer);
    PutRequests(c, id, r, writer);
    Basics(c);
    PutFlags(c, id, r, writer);
    hide TailInv, OrderInv, RequestInv, RequestOk, SameFrames, FlagsKept, StandingOf;
    KeptAll(c, Put(c, id, r).(writer := writer));
  }

  /** Bytes accepted by the pipe extend the last frame, whether or not the writer learns of it. */
  lemma WriteKeepsInv(c: Conn, id: nat, count: nat, lost: bool)
    requires Inv(c) && In(c, id, Permitted) && c.inputOpen && count > 0
    requires c.requests[id].written + count <= |c.requests[id].frame|
    ensures var r := c.requests[id];
            var next := Wrote(r, count, lost);
            Inv(Put(c, id, next).(wire := c.wire + Accepted(r, count)))
  {
    HolderIsLast(c, id);
    var r := c.requests[id];
    var next := Wrote(r, count, lost);
    WriteTail(c, id, next, count);
    WriteOrder(c, id, next, c.wire + Accepted(r, count));
    WriteRequests(c, id, count, lost);
    hide TailInv, OrderInv, RequestInv;
  }

  lemma WriteRequests(c: Conn, id: nat, count: nat, lost: bool)
    requires Inv(c) && In(c, id, Permitted) && count > 0
    requires c.requests[id].written + count <= |c.requests[id].frame|
    ensures var r := c.requests[id];
            var next := Wrote(r, count, lost);
            var n := Put(c, id, next).(wire := c.wire + Accepted(r, count));
            forall other :: RequestInv(n, other)
  {
    hide TailInv, OrderInv;
    var r := c.requests[id];
    var next := Wrote(r, count, lost);
    var n := Put(c, id, next).(wire := c.wire + Accepted(r, count));
    assert RequestInv(c, id);
    hide RequestOk;
    OkWhenWritten(r, StandingOf(c, id), count, lost);
    assert StandingOf(n, id) == StandingOf(c, id);
    forall other ensures RequestInv(n, other) {
      if other != id { Untouched(c, n, other); }
    }
  }

  lemma WriteTail(c: Conn, id: nat, next: Request, count: nat)
    requires Inv(c) && c.order != [] && id == Last(c.order) && id in c.requests && !c.newline
    requires next.frame == c.requests[id].frame && next.written == c.requests[id].written + count <= |next.frame|
    requires next.recorded == c.requests[id].recorded
    ensures TailInv(Put(c, id, next).(wire := c.wire + Accepted(c.requests[id], count)))
  {
    hide RequestInv, OrderInv, Sent, Accepted;
    SentGrows(c, id, next, count);
  }

  lemma WriteOrder(c: Conn, id: nat, next: Request, wire: string)
    requires OrderInv(c) && c.order != [] && id == Last(c.order) && id in c.requests
    ensures OrderInv(Put(c, id, next).(wire := wire))
  {}

  lemma RecordKeepsInv(c: Conn, id: nat)
    requires Inv(c) && In(c, id, Unrecorded)
    ensures Inv(Record(c, id, c.requests[id]))
  {
    hide TailInv, OrderInv, RequestInv;
    HolderIsLast(c, id);
    var r := c.requests[id];
    var next := Recorded(r);
    RecordTail(c, id);
    WriteOrder(c, id, next, c.wire);
    PartialKeepsOrder(Put(c, id, next), r.written != |r.frame|);
    RecordRequests(c, id);
  }

  lemma RecordTail(c: Conn, id: nat)
    requires Inv(c) && In(c, id, Unrecorded)
    ensures TailInv(Record(c, id, c.requests[id]))
  {
    HolderIsLast(c, id);
    Basics(c);
    assert RequestInv(c, id);
    hide OrderInv;
    SentSame(c.requests, Record(c, id, c.requests[id]).requests, c.order);
  }

  lemma RecordRequests(c: Conn, id: nat)
    requires Inv(c) && In(c, id, Unrecorded)
    ensures var n := Record(c, id, c.requests[id]); forall other :: RequestInv(n, other)
  {
    hide TailInv, OrderInv, RequestOk;
    var n := Record(c, id, c.requests[id]);
    assert RequestInv(c, id);
    OkWhenRecorded(c.requests[id], StandingOf(c, id));
    assert StandingOf(n, id) == StandingOf(c, id);
    forall other ensures RequestInv(n, other) {
      if other != id { Untouched(c, n, other); }
    }
  }

  lemma PartialKeepsOrder(c: Conn, partial: bool)
    requires OrderInv(c)
    ensures OrderInv(c.(partial := partial))
  {}

  lemma LeaveWriterKeepsInv(c: Conn, id: nat)
    requires Inv(c) && In(c, id, Writing) && c.requests[id].written == |c.requests[id].frame|
    ensures Inv(LeaveWriter(c, id, c.requests[id], Waiting))
  {
    hide TailInv, OrderInv;
    HolderIsLast(c, id);
    assert RequestInv(c, id);
    PutKeepsInv(c, id, c.requests[id].(phase := Waiting), Free);
  }

  function Completed(r: Request, error: Delivery): Request {
    r.(complete := true, error := if r.error.None? then Some(error) else r.error)
  }

  /** Every pending request is completed, by a failure or by a shutdown, and nothing else moves. */
  ghost predicate Cleared(c: Conn, n: Conn) {
    && n.order == c.order && n.partial == c.partial && n.wire == c.wire && n.newline == c.newline
    && n.writer == c.writer && n.inputOpen == c.inputOpen && n.pending == []
    && (c.closing ==> n.closing) && (c.shuttingDown ==> n.shuttingDown) && (n.shuttingDown ==> n.closing)
    && n.requests.Keys == c.requests.Keys
    && forall id :: id in c.requests ==>
         if id in c.pending
         then n.requests[id] == Completed(c.requests[id], c.requests[id].delivery)
              || n.requests[id] == Completed(c.requests[id], Indeterminate)
         else n.requests[id] == c.requests[id]
  }

  lemma FailClears(c: Conn, closing: bool, startupSeen: bool)
    requires Inv(c) && (c.closing ==> closing)
    ensures Cleared(c, Fail(c.(closing := closing, startupSeen := startupSeen)))
  {
    Basics(c);
    hide TailInv, OrderInv, RequestInv;
  }

  lemma ShutdownClears(c: Conn)
    requires Inv(c)
    ensures Cleared(c, BeginShutdown(c))
  {}

  lemma ClearedKeepsInv(c: Conn, n: Conn)
    requires Inv(c) && Cleared(c, n)
    ensures Inv(n)
  {
    hide TailInv, OrderInv, RequestOk;
    Basics(c);
    forall other ensures RequestInv(n, other) {
      if other in c.requests { ClearedOk(c, n, other); }
    }
    hide RequestInv;
    assert SameFrames(c, n) && FlagsKept(c, n);
    KeptAll(c, n);
  }

  lemma ClearedOk(c: Conn, n: Conn, id: nat)
    requires id in c.requests && RequestInv(c, id) && (id in c.pending ==> id in c.order) && Cleared(c, n)
    ensures RequestInv(n, id)
  {
    hide RequestOk;
    var r, k := c.requests[id], StandingOf(c, id);
    if id in c.pending {
      OkWhenCleared(r, k, r.delivery, n.closing);
      OkWhenCleared(r, k, Indeterminate, n.closing);
    } else {
      OkWhenClosing(r, k);
    }
  }

  /** A writer that failed leaves with the connection closing. */
  lemma LeaveFailedKeepsInv(c: Conn, id: nat)
    requires Inv(c) && In(c, id, WriteFailed)
    ensures Inv(LeaveFailed(c, id, c.requests[id]))
  {
    if c.closing {
      LeaveClosing(c, id, Waiting);
      hide Inv;
    } else {
      FailBefore(c, id, c.requests[id].(phase := Poisoning), Free);
      var failed := Fail(c.(closing := true));
      FailsKeepInv(c);
      HolderIsLast(c, id);
      Basics(failed);
      hide Inv;
      FailedIsComplete(c, id);
      LeaveClosing(failed, id, Poisoning);
    }
  }

  /** A change of phase and the failing of all pending requests may be done in either order. */
  lemma FailBefore(c: Conn, id: nat, r: Request, writer: Writer)
    requires id in c.requests && r == c.requests[id].(phase := r.phase)
    ensures var failed := Fail(c.(closing := true));
            && id in failed.requests && failed.requests[id].phase == c.requests[id].phase
            && Fail(Put(c, id, r).(writer := writer, closing := true))
               == Put(failed, id, failed.requests[id].(phase := r.phase)).(writer := writer)
  {
    hide FailEach;
    FailEachPhase(c.requests, c.pending, id, r);
  }

  lemma FailEachPhase(requests: map<nat, Request>, ids: seq<nat>, id: nat, r: Request)
    requires id in requests && r == requests[id].(phase := r.phase)
    ensures var failed := FailEach(requests, ids);
            && id in failed && failed[id].phase == requests[id].phase
            && FailEach(requests[id := r], ids) == failed[id := failed[id].(phase := r.phase)]
  {}

  lemma FailedIsComplete(c: Conn, id: nat)
    requires Inv(c) && id in c.order
    ensures id in Fail(c.(closing := true)).requests && Fail(c.(closing := true)).requests[id].complete
  {
    Basics(c);
    assert RequestInv(c, id);
    hide OrderInv, TailInv;
  }

  lemma LeaveClosing(c: Conn, id: nat, phase: Phase)
    requires Inv(c) && In(c, id, WriteFailed) && c.closing && (phase.Waiting? || phase.Poisoning?)
    requires phase.Poisoning? ==> c.requests[id].complete
    ensures Inv(LeaveWriter(c, id, c.requests[id], phase))
  {
    hide TailInv, OrderInv, RequestOk;
    HolderIsLast(c, id);
    assert RequestInv(c, id);
    OkWhenSwitched(c.requests[id], StandingOf(c, id), phase);
    PutKeepsInv(c, id, c.requests[id].(phase := phase), Free);
  }

  /** A waiting request whose deadline passes fails the connection. */
  lemma ExpireKeepsInv(c: Conn, id: nat)
    requires Inv(c) && In(c, id, Waiting) && !c.requests[id].complete
    ensures Inv(Fail(Put(c, id, c.requests[id].(phase := Poisoning)).(closing := true)))
  {
    var failed := Fail(c.(closing := true));
    FailBefore(c, id, c.requests[id].(phase := Poisoning), c.writer);
    FailsKeepInv(c);
    EnteredWhenWaiting(c, id);
    FailedIsComplete(c, id);
    SwitchPhase(failed, id, Poisoning);
    hide Inv, Fail;
  }

  lemma EnteredWhenWaiting(c: Conn, id: nat)
    requires Inv(c) && id in c.requests && (c.requests[id].phase.Waiting? || c.requests[id].phase.Poisoning?)
    ensures id in c.order
  {
    assert RequestInv(c, id);
    hide OrderInv, TailInv;
  }

  lemma OutsideWriter(c: Conn, id: nat)
    requires RequestInv(c, id) && id in c.requests && !HoldsLock(c.requests[id].phase)
    ensures !StandingOf(c, id).writer && StandingOf(c, id) == StandingOf(c, id).(writer := false)
  {}

  /** A request outside the writer moves between waiting and poisoning. */
  lemma SwitchPhase(c: Conn, id: nat, phase: Phase)
    requires Inv(c) && id in c.requests && (c.requests[id].phase.Waiting? || c.requests[id].phase.Poisoning?)
    requires phase.Waiting? || (phase.Poisoning? && c.requests[id].complete && c.closing)
    ensures Inv(Put(c, id, c.requests[id].(phase := phase)))
  {
    hide TailInv, OrderInv, RequestOk;
    EnteredWhenWaiting(c, id);
    assert RequestInv(c, id);
    OutsideWriter(c, id);
    OkWhenSwitched(c.requests[id], StandingOf(c, id), phase);
    PutKeepsInv(c, id, c.requests[id].(phase := phase), c.writer);
  }

  lemma PoisonKeepsInv(c: Conn, id: nat)
    requires Inv(c)
    ensures Inv(Poison(c, id))
  {
    if In(c, id, Poisoning) && c.writer.Free? {
      SwitchPhase(c, id, Waiting);
      PoisonCloses(c, id);
      var n := Put(c, id, c.requests[id].(phase := Waiting));
      Basics(n);
      hide Inv;
      SwitchKeepsInv(n, Free, true, false);
    }
  }

  lemma PoisonCloses(c: Conn, id: nat)
    requires Inv(c) && In(c, id, Poisoning)
    ensures c.closing && c.pending == []
  {
    assert RequestInv(c, id);
  }

  lemma ReportKeepsInv(c: Conn, id: nat)
    requires Inv(c) && In(c, id, Waiting) && c.requests[id].complete
    ensures Inv(Put(c, id, Report(c.requests[id])))
  {
    hide TailInv, OrderInv, RequestOk;
    EnteredWhenWaiting(c, id);
    assert RequestInv(c, id);
    OkWhenReported(c.requests[id], StandingOf(c, id));
    PutKeepsInv(c, id, Report(c.requests[id]), c.writer);
  }

  /** A reply block for the oldest pending request. */
  lemma ReplyKeepsInv(c: Conn, b: Block)
    requires Inv(c) && c.pending != [] && c.pending[0] in c.requests
    ensures var id, r := c.pending[0], c.requests[c.pending[0]];
            Inv(Put(c, id, r.(delivery := Replied, blocks := r.blocks + [b])))
  {
    Basics(c);
    var id, r := c.pending[0], c.requests[c.pending[0]];
    assert RequestInv(c, id);
    OkWhenReplied(r, StandingOf(c, id), b);
    hide TailInv, OrderInv, RequestOk;
    PutKeepsInv(c, id, r.(delivery := Replied, blocks := r.blocks + [b]), c.writer);
  }

  /** The boundary that completes the oldest pending request. */
  lemma BoundaryKeepsInv(c: Conn)
    requires Inv(c) && c.pending != [] && c.pending[0] in c.requests
    ensures var id, r := c.pending[0], c.requests[c.pending[0]];
            Inv(Put(c, id, r.(delivery := Replied, complete := true)).(pending := c.pending[1..]))
  {
    var id, r := c.pending[0], c.requests[c.pending[0]];
    var n := Put(c, id, r.(delivery := Replied, complete := true)).(pending := c.pending[1..]);
    Basics(c);
    BoundaryRequests(c);
    hide TailInv, OrderInv, RequestInv;
    assert SameFrames(c, n) && FlagsKept(c, n);
    KeptAll(c, n);
  }

  lemma BoundaryRequests(c: Conn)
    requires Inv(c) && c.pending != [] && c.pending[0] in c.requests
    ensures var id, r := c.pending[0], c.requests[c.pending[0]];
            var n := Put(c, id, r.(delivery := Replied, complete := true)).(pending := c.pending[1..]);
            forall other :: RequestInv(n, other)
  {
    hide TailInv, OrderInv, RequestOk;
    Basics(c);
    var id, r := c.pending[0], c.requests[c.pending[0]];
    var n := Put(c, id, r.(delivery := Replied, complete := true)).(pending := c.pending[1..]);
    assert RequestInv(c, id);
    OkWhenReplied(r, StandingOf(c, id), Control.Block(0, 0, Control.End, "", "", "", false, 0));
    assert StandingOf(n, id) == StandingOf(c, id).(pending := false);
    forall other ensures RequestInv(n, other) {
      if other != id { Untouched(c, n, other); }
    }
  }

  lemma FlagKeepsInv(c: Conn, n: Conn)
    requires Inv(c) && n.requests == c.requests && n.order == c.order && FlagsKept(c, n)
    requires n.pending == c.pending && n.partial == c.partial && n.wire == c.wire && n.newline == c.newline
    requires c.closing ==> n.closing
    requires n.writer == c.writer || (!n.writer.Held? && !c.writer.Held?)
    ensures Inv(n)
  {
    hide TailInv, OrderInv, RequestOk;
    Basics(c);
    forall other ensures RequestInv(n, other) {
      assert RequestInv(c, other);
      if other in c.requests { OkWhenClosing(c.requests[other], StandingOf(c, other)); }
    }
    hide RequestInv;
    KeptAll(c, n);
  }

  lemma NewlineKeepsInv(c: Conn)
    requires Inv(c) && c.writer.HeldByShutdown? && c.inputOpen && !c.partial && !c.newline
    ensures Inv(c.(wire := c.wire + "\n", newline := true))
  {
    var n := c.(wire := c.wire + "\n", newline := true);
    Basics(c);
    if c.order != [] { assert RequestInv(c, Last(c.order)); }
    assert TailInv(n);
    hide TailInv, RequestOk;
    forall other ensures RequestInv(n, other) {
      assert RequestInv(c, other) && StandingOf(n, other) == StandingOf(c, other);
    }
  }

  lemma FailKeepsInv(c: Conn, closing: bool, startupSeen: bool)
    requires Inv(c) && (c.closing ==> closing)
    ensures Inv(Fail(c.(closing := closing, startupSeen := startupSeen)))
  {
    FailClears(c, closing, startupSeen);
    hide Inv, Fail;
    ClearedKeepsInv(c, Fail(c.(closing := closing, startupSeen := startupSeen)));
  }

  lemma FailsKeepInv(c: Conn)
    requires Inv(c)
    ensures Inv(Fail(c)) && Inv(Fail(c.(startupSeen := true))) && Inv(Fail(c.(closing := true)))
  {
    hide Inv, Fail;
    assert c == c.(closing := c.closing, startupSeen := c.startupSeen);
    FailKeepsInv(c, c.closing, c.startupSeen);
    FailKeepsInv(c, c.closing, true);
    FailKeepsInv(c, true, c.startupSeen);
  }

  lemma StartupKeepsInv(c: Conn)
    requires Inv(c)
    ensures Inv(c.(startupSeen := true, ready := true))
  {
    Basics(c);
    hide Inv;
    FlagKeepsInv(c, c.(startupSeen := true, ready := true));
  }

  lemma AcceptKeepsInv(c: Conn, b: Block)
    requires Inv(c)
    ensures Inv(Accept(c, b))
  {
    hide Inv, Fail, GuardFlags, AcceptAnswer;
    FailsKeepInv(c);
    StartupKeepsInv(c);
    AnswerKeepsInv(c, b);
  }

  lemma AnswerKeepsInv(c: Conn, b: Block)
    requires Inv(c)
    ensures Inv(AcceptAnswer(c, b))
  {
    FailsKeepInv(c);
    hide Inv, Fail, IsBoundary, Put;
    if c.pending != [] && c.pending[0] in c.requests {
      ReplyKeepsInv(c, b);
      BoundaryKeepsInv(c);
    }
  }

  lemma HistoryKeepsInv(c: Conn, sent: map<nat, seq<Block>>, answered: nat)
    requires Inv(c)
    ensures Inv(c.(sent := sent, answered := answered))
  {
    hide TailInv, OrderInv, RequestInv;
    Basics(c);
    FlagKeepsInv(c, c.(sent := sent, answered := answered));
  }

  lemma SwitchKeepsInv(c: Conn, writer: Writer, closing: bool, inputOpen: bool)
    requires Inv(c) && (c.closing ==> closing) && (closing ==> c.pending == []) && (!inputOpen ==> closing)
    requires writer == c.writer || (!writer.Held? && !c.writer.Held?)
    requires writer.HeldByShutdown? ==> c.shuttingDown
    requires c.newline ==> writer.HeldByShutdown? || !inputOpen
    ensures Inv(c.(writer := writer, closing := closing, inputOpen := inputOpen))
  {
    Basics(c);
    hide Inv;
    FlagKeepsInv(c, c.(writer := writer, closing := closing, inputOpen := inputOpen));
  }

  lemma ShutdownKeepsInv(c: Conn)
    requires Inv(c)
    ensures Inv(BeginShutdown(c))
  {
    ShutdownClears(c);
    hide Inv, BeginShutdown;
    ClearedKeepsInv(c, BeginShutdown(c));
  }

  predicate WriterAction(a: Action) {
    a.DoAcquire? || a.DoEnter? || a.DoCheckOpen? || a.DoWrite? || a.DoWriteThenMaskFails? || a.DoRecord? || a.DoRetry?
      || a.DoWriteError? || a.DoLeave?
  }

  predicate BlockAction(a: Action) {
    a.DoBlock? || a.DoServerStarts? || a.DoServerNoise? || a.DoServerReplies? || a.DoServerEnds?
  }

  lemma TryAcquireKeepsInv(c: Conn, id: nat, line: string)
    requires Inv(c)
    ensures Inv(TryAcquire(c, id, line))
  {
    hide Inv, Acquire;
    if c.writer.Free? && id !in c.requests { AcquireKeepsInv(c, id, line); }
  }

  lemma TryEnterKeepsInv(c: Conn, id: nat)
    requires Inv(c)
    ensures Inv(TryEnter(c, id))
  {
    hide Inv, Enter;
    if In(c, id, Locked) {
      if c.fatal || !c.ready || c.closing { RefuseKeepsInv(c, id); } else { EnterKeepsInv(c, id); }
    }
  }

  lemma PhasesKeepInv(c: Conn, id: nat)
    requires Inv(c)
    ensures Inv(CheckOpen(c, id)) && Inv(Retry(c, id)) && Inv(FailWrite(c, id))
  {
    hide Inv, Put;
    if In(c, id, Writing) || In(c, id, Permitted) {
      PhaseKeepsInv(c, id, Writing);
      PhaseKeepsInv(c, id, WriteFailed);
      if Unfinished(c, id) { PhaseKeepsInv(c, id, Permitted); }
    }
  }

  lemma WriteSomeKeepsInv(c: Conn, id: nat, count: nat, lost: bool)
    requires Inv(c)
    ensures Inv(WriteSome(c, id, count, lost))
  {
    hide Inv, Put, Accepted;
    if CanWrite(c, id, count) { WriteKeepsInv(c, id, count, lost); }
  }

  lemma TryRecordKeepsInv(c: Conn, id: nat)
    requires Inv(c)
    ensures Inv(TryRecord(c, id))
  {
    hide Inv, Record;
    if In(c, id, Unrecorded) { RecordKeepsInv(c, id); }
  }

  lemma LeaveKeepsInv(c: Conn, id: nat)
    requires Inv(c)
    ensures Inv(Leave(c, id))
  {
    if In(c, id, WriteFailed) {
      LeaveFailedKeepsInv(c, id);
    } else if In(c, id, Writing) && !Unfinished(c, id) {
      assert RequestInv(c, id);
      LeaveWriterKeepsInv(c, id);
    }
    hide Inv, LeaveFailed, LeaveWriter;
  }

  /** The writer's own actions. */
  lemma WriterKeepsInv(c: Conn, a: Action)
    requires Inv(c) && WriterAction(a)
    ensures Inv(Act(c, a))
  {
    hide Inv, TryAcquire, TryEnter, CheckOpen, WriteSome, TryRecord, Retry, FailWrite, Leave;
    match a {
      case DoAcquire(id, line) => TryAcquireKeepsInv(c, id, line);
      case DoEnter(id) => TryEnterKeepsInv(c, id);
      case DoWrite(id, count) => WriteSomeKeepsInv(c, id, count, false);
      case DoWriteThenMaskFails(id, count) => WriteSomeKeepsInv(c, id, count, true);
      case DoRecord(id) => TryRecordKeepsInv(c, id);
      case DoLeave(id) => LeaveKeepsInv(c, id);
      case DoCheckOpen(id) => PhasesKeepInv(c, id);
      case DoRetry(id) => PhasesKeepInv(c, id);
      case DoWriteError(id) => PhasesKeepInv(c, id);
    }
  }

  lemma RepliesKeepInv(c: Conn, b: Block)
    requires Inv(c)
    ensures Inv(ServerReplies(c, b)) && Inv(ServerEnds(c, b))
  {
    hide Inv, Accept, GuardFlags, IsBoundary, Said, Unfinished;
    AcceptKeepsInv(c, b);
    var n := Accept(c, b);
    if CanReply(c, b) {
      HistoryKeepsInv(n, c.sent[c.order[c.answered] := Said(c, c.order[c.answered]) + [b]], n.answered);
    }
    HistoryKeepsInv(n, n.sent, c.answered + 1);
  }

  /** The reader's actions on a block, whoever sent it. */
  lemma BlockKeepsInv(c: Conn, a: Action)
    requires Inv(c) && BlockAction(a)
    ensures Inv(Act(c, a))
  {
    hide Inv, Accept, GuardFlags, ServerReplies, ServerEnds;
    AcceptKeepsInv(c, a.block);
    RepliesKeepInv(c, a.block);
  }

  lemma SwitchesKeepInv(c: Conn)
    requires Inv(c)
    ensures Inv(EndReading(c)) && Inv(CloseInput(c)) && Inv(LockForShutdown(c)) && Inv(FinishShutdown(c))
  {
    Basics(c);
    hide Inv;
    if c.fatal { SwitchKeepsInv(c, c.writer, true, c.inputOpen); }
    if c.writer.Free? && c.closing { SwitchKeepsInv(c, c.writer, true, false); }
    if c.shuttingDown && c.writer.Free? { SwitchKeepsInv(c, HeldByShutdown, c.closing, c.inputOpen); }
    if c.writer.HeldByShutdown? { SwitchKeepsInv(c, Free, c.closing, false); }
  }

  lemma WaitingKeepsInv(c: Conn, id: nat)
    requires Inv(c)
    ensures Inv(Expire(c, id)) && Inv(TryReport(c, id))
  {
    hide Inv, Fail, Report, Put;
    if In(c, id, Waiting) {
      if c.requests[id].complete { ReportKeepsInv(c, id); } else { ExpireKeepsInv(c, id); }
    }
  }

  /** The waiting request, the reader's end and shutdown. */
  lemma OthersKeepInv(c: Conn, a: Action)
    requires Inv(c) && !WriterAction(a) && !BlockAction(a)
    ensures Inv(Act(c, a))
  {
    hide Inv, Fail, Expire, Poison, TryReport, BeginShutdown, EndReading, CloseInput, LockForShutdown, FinishShutdown;
    FailsKeepInv(c);
    SwitchesKeepInv(c);
    ShutdownKeepsInv(c);
    if a.DoDeadline? || a.DoReport? { WaitingKeepsInv(c, a.id); }
    if a.DoPoison? { PoisonKeepsInv(c, a.id); }
    if c.writer.HeldByShutdown? && c.inputOpen && !c.partial && !c.newline { NewlineKeepsInv(c); }
  }

  lemma ActKeepsInv(c: Conn, a: Action)
    requires Inv(c)
    ensures Inv(Act(c, a))
  {
    hide Act, Inv;
    if WriterAction(a) {
      WriterKeepsInv(c, a);
    } else if BlockAction(a) {
      BlockKeepsInv(c, a);
    } else {
      OthersKeepInv(c, a);
    }
  }

  lemma {:induction false} ActAllKeepsInv(c: Conn, actions: seq<Action>)
    requires Inv(c)
    ensures Inv(ActAll(c, actions))
    decreases |actions|
  {
    if actions != [] {
      hide Act, Inv;
      ActKeepsInv(c, actions[0]);
      ActAllKeepsInv(Act(c, actions[0]), actions[1..]);
    }
  }

  lemma OpenedIsInv(seed: Seed)
    ensures Inv(Opened(seed))
  {}
}
