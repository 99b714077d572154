/** The connection's shared state and the critical sections its threads run on it. */
module ConnectionState {
  import opened Prelude
  import opened Boundary
  import opened Connection

  class State {
    const seed: Seed
    var nextBoundary: nat
    var requests: map<nat, Request>
    var pending: seq<nat>
    var writer: Writer
    var wire: string
    var startupSeen: bool
    var ready: bool
    var closing: bool
    var fatal: bool
    var inputOpen: bool
    var partial: bool
    var shuttingDown: bool
    var newline: bool
    ghost var order: seq<nat>
    ghost var sent: map<nat, seq<Block>>
    ghost var answered: nat

    ghost function View(): Conn
      reads this
    {
      Conn(seed, nextBoundary, requests, pending, writer, wire, startupSeen, ready, closing, fatal,
           inputOpen, partial, shuttingDown, newline, order, sent, answered)
    }

    constructor (seed: Seed)
      ensures View() == Opened(seed)
    {
      this.seed := seed;
      nextBoundary, requests, pending, writer, wire := 0, map[], [], Free, "";
      startupSeen, ready, closing, fatal := false, false, false, false;
      inputOpen, partial, shuttingDown, newline := true, false, false, false;
      order, sent, answered := [], map[], 0;
    }

    /** The first failure stays; every pending request completes with its own delivery status. */
    method FailLocked()
      modifies this`fatal, this`requests, this`pending
      ensures View() == Fail(old(View()))
    {
      hide FailEach;
      var ids := pending;
      fatal := true;
      FailEachPrefix(requests, ids);
      for i := 0 to |ids|
        modifies this`requests
        invariant requests == FailEach(old(requests), ids[..i])
      {
        FailEachSnoc(old(requests), ids, i);
        var id := ids[i];
        if id in requests {
          var r := requests[id];
          if r.error.None? { r := r.(error := Some(r.delivery)); }
          requests := requests[id := r.(complete := true)];
        }
      }
      assert ids[..|ids|] == ids;
      pending := [];
    }

    /** One block from the reader. */
    method AcceptBlock(block: Block)
      modifies this
      ensures View() == Accept(old(View()), block)
    {
      var flags := GuardFlags(block);
      hide GuardFlags;
      if flags.None? {
        FailLocked();
        return;
      }
      if !startupSeen {
        startupSeen := true;
        if flags.value != 0 || !block.terminal.End? {
          FailLocked();
          return;
        }
        ready := true;
        return;
      }
      if flags.value == 0 { return; }
      if flags.value != 1 {
        FailLocked();
        return;
      }
      AcceptAnswerLocked(block);
    }

    method AcceptAnswerLocked(block: Block)
      modifies this
      ensures View() == AcceptAnswer(old(View()), block)
    {
      if pending == [] {
        if !closing && !fatal { FailLocked(); }
        return;
      }
      var id := pending[0];
      if id !in requests { return; }
      if IsBoundary(block, requests[id].boundary) {
        requests := requests[id := requests[id].(delivery := Replied, complete := true)];
        pending := pending[1..];
        return;
      }
      requests := requests[id := requests[id].(delivery := Replied)];
      requests := requests[id := requests[id].(blocks := requests[id].blocks + [block])];
    }

    /** The state-lock section of a request that holds the write lock. */
    method EnterRequest(id: nat) returns (admitted: bool)
      requires id in requests && requests[id].phase.Locked?
      modifies this`writer, this`requests, this`pending, this`order
      ensures View() == TryEnter(old(View()), id)
      ensures admitted <==> old(!fatal && ready && !closing)
    {
      hide Enter;
      var r := requests[id];
      EnterIs(View(), id, r);
      if fatal || !ready || closing {
        requests, writer := requests[id := r.(complete := true, error := Some(NotStarted), phase := Reported)], Free;
        return false;
      }
      pending, order := pending + [id], order + [id];
      requests := requests[id := r.(phase := Writing)];
      return true;
    }

    /** What follows a write that the pipe accepted: the partial-frame flag, then a store that never undoes a reply. */
    method RecordProgress(id: nat)
      requires id in requests && requests[id].phase.Unrecorded?
      modifies this`partial, this`requests
      ensures View() == TryRecord(old(View()), id)
    {
      hide Recorded;
      var r := requests[id];
      partial := r.written != |r.frame|;
      var delivery := if r.delivery == Replied then Replied else if partial then Indeterminate else Written;
      RecordedIs(r, delivery);
      requests := requests[id := r.(delivery := delivery, recorded := r.written, phase := Writing)];
    }

    /** The end of a failed write: the first to close the connection fails it and owes the closing of its input. */
    method LeaveAfterFailure(id: nat) returns (poisoned: bool)
      requires id in requests && requests[id].phase.WriteFailed?
      modifies this`writer, this`closing, this`fatal, this`requests, this`pending
      ensures View() == Leave(old(View()), id)
      ensures poisoned <==> !old(closing)
    {
      hide Fail, LeaveWriter;
      poisoned := !closing;
      if poisoned {
        ReleaseWriter(id, Poisoning);
        closing := true;
        FailLocked();
      } else {
        ReleaseWriter(id, Waiting);
      }
    }

    method ReleaseWriter(id: nat, phase: Phase)
      requires id in requests
      modifies this`writer, this`requests
      ensures View() == LeaveWriter(old(View()), id, old(requests[id]), phase)
    {
      requests := requests[id := requests[id].(phase := phase)];
      writer := Free;
    }

    /** The deadline of a waiting request. */
    method FailAfterDeadline(id: nat)
      requires id in requests && requests[id].phase.Waiting? && !requests[id].complete
      modifies this`closing, this`fatal, this`requests, this`pending
      ensures View() == Expire(old(View()), id)
    {
      hide Fail;
      requests := requests[id := requests[id].(phase := Poisoning)];
      closing := true;
      assert View() == Put(old(View()), id, requests[id]).(closing := true);
      FailLocked();
      hide Put;
    }

    /** What a request that failed the connection does before it reports. */
    method PoisonInput(id: nat)
      requires id in requests && requests[id].phase.Poisoning? && writer.Free?
      modifies this`inputOpen, this`requests
      ensures View() == Poison(old(View()), id)
    {
      inputOpen := false;
      requests := requests[id := requests[id].(phase := Waiting)];
      assert View() == Put(old(View()), id, requests[id]).(inputOpen := false);
      hide Put;
    }

    method RequestShutdown()
      modifies this`closing, this`shuttingDown, this`requests, this`pending
      ensures View() == BeginShutdown(old(View()))
    {
      hide ShutDownEach;
      closing, shuttingDown := true, true;
      var ids := pending;
      ShutDownEachPrefix(requests, ids);
      for i := 0 to |ids|
        modifies this`requests
        invariant requests == ShutDownEach(old(requests), ids[..i])
      {
        ShutDownEachSnoc(old(requests), ids, i);
        var id := ids[i];
        if id in requests {
          var r := requests[id];
          if r.error.None? { r := r.(error := Some(Indeterminate)); }
          requests := requests[id := r.(complete := true)];
        }
      }
      assert ids[..|ids|] == ids;
      pending := [];
    }
  }

  lemma RecordedIs(r: Request, delivery: Delivery)
    requires delivery ==
             if r.delivery.Replied? then Replied else if r.written != |r.frame| then Indeterminate else Written
    ensures Recorded(r) == r.(delivery := delivery, recorded := r.written, phase := Writing)
  {}

  lemma EnterIs(c: Conn, id: nat, r: Request)
    ensures Enter(c, id, r) ==
            if c.fatal || !c.ready || c.closing
            then c.(requests := c.requests[id := r.(complete := true, error := Some(NotStarted), phase := Reported)],
                 writer := Free)
            else c.(requests := c.requests[id := r.(phase := Writing)], pending := c.pending + [id],
                 order := c.order + [id])
  {}

  lemma FailEachPrefix(requests: map<nat, Request>, ids: seq<nat>)
    ensures FailEach(requests, ids[..0]) == requests
  {}

  lemma FailEachSnoc(requests: map<nat, Request>, ids: seq<nat>, i: nat)
    requires i < |ids|
    ensures var before := FailEach(requests, ids[..i]);
            FailEach(requests, ids[..i + 1]) ==
              if ids[i] in before then before[ids[i] := FailedRequest(before[ids[i]])] else before
  {
    assert ids[..i + 1] == ids[..i] + [ids[i]];
  }

  lemma ShutDownEachPrefix(requests: map<nat, Request>, ids: seq<nat>)
    ensures ShutDownEach(requests, ids[..0]) == requests
  {}

  lemma ShutDownEachSnoc(requests: map<nat, Request>, ids: seq<nat>, i: nat)
    requires i < |ids|
    ensures var before := ShutDownEach(requests, ids[..i]);
            ShutDownEach(requests, ids[..i + 1]) ==
              if ids[i] in before then before[ids[i] := Completed(before[ids[i]], Indeterminate)] else before
  {
    assert ids[..i + 1] == ids[..i] + [ids[i]];
  }
}
