/**
 * The completion queue: a ready list threaded through a map of records, against a FIFO of
 * (token, generation) entries.
 */
module CompletionQueue {
  import opened Prelude

  type Token = nat
  type Callback = nat

  // ------------------------------------------------------ the FIFO it refines

  datatype Entry = Entry(token: Token, generation: nat)

  datatype Fifo = Fifo(
    ready: seq<Entry>, records: map<Token, Callback>,
    lastGeneration: nat, nextToken: Token, closed: bool, finished: bool)

  const EMPTY := Fifo([], map[], 0, 1, false, false)

  predicate IsReady(ready: seq<Entry>, t: Token) {
    exists i :: 0 <= i < |ready| && ready[i].token == t
  }

  function Without(ready: seq<Entry>, t: Token): seq<Entry> {
    if ready == [] then []
    else if ready[0].token == t then Without(ready[1..], t)
    else [ready[0]] + Without(ready[1..], t)
  }

  ghost predicate Increasing(ready: seq<Entry>) {
    forall i, j :: 0 <= i < j < |ready| ==> ready[i].generation < ready[j].generation
  }

  ghost predicate TokensDistinct(ready: seq<Entry>) {
    forall i, j :: 0 <= i < j < |ready| ==> ready[i].token != ready[j].token
  }

  ghost predicate WellFormed(f: Fifo) {
    && TokensDistinct(f.ready) && Increasing(f.ready)
    && (forall e :: e in f.ready ==> e.token in f.records && e.generation <= f.lastGeneration)
    && (f.closed ==> f.records == map[])
  }

  function Link(f: Fifo, t: Token): Fifo {
    f.(ready := f.ready + [Entry(t, f.lastGeneration + 1)], lastGeneration := f.lastGeneration + 1)
  }

  function Enqueue(f: Fifo, t: Token): (Fifo, bool) {
    if f.closed || t !in f.records || IsReady(f.ready, t) then (f, false) else (Link(f, t), true)
  }

  function Detach(f: Fifo, t: Token): Fifo {
    f.(ready := Without(f.ready, t), records := f.records - {t})
  }

  function Register(f: Fifo, t: Token, c: Callback): (Fifo, bool) {
    if f.closed || t in f.records then (f, false) else (f.(records := f.records[t := c]), true)
  }

  function PushReady(f: Fifo, c: Callback): (Fifo, bool) {
    if f.closed then (f, false)
    else
      var g := f.(nextToken := f.nextToken + 1);
      if f.nextToken in f.records then (g, false)
      else (Link(g.(records := f.records[f.nextToken := c]), f.nextToken), true)
  }

  function Claim(f: Fifo): Fifo
    requires f.ready != []
  {
    f.(ready := f.ready[1..], records := f.records - {f.ready[0].token})
  }

  function Close(f: Fifo): Fifo {
    if f.closed then f else f.(ready := [], records := map[], closed := true)
  }

  /** What callbacks and other threads may do to the queue between two critical sections. */
  datatype Op =
    | DoNextToken | DoRegister(token: Token, callback: Callback) | DoEnqueue(token: Token)
    | DoPush(callback: Callback) | DoDetach(token: Token) | DoFinish | DoClose

  function Apply(f: Fifo, op: Op): Fifo {
    match op
    case DoNextToken => f.(nextToken := f.nextToken + 1)
    case DoRegister(t, c) => Register(f, t, c).0
    case DoEnqueue(t) => Enqueue(f, t).0
    case DoPush(c) => PushReady(f, c).0
    case DoDetach(t) => Detach(f, t)
    case DoFinish => f.(finished := true)
    case DoClose => Close(f)
  }

  function ApplyAll(f: Fifo, ops: seq<Op>): Fifo
    decreases |ops|
  {
    if ops == [] then f else ApplyAll(Apply(f, ops[0]), ops[1..])
  }

  /** Removing an element is what Without does to a list of distinct tokens. */
  lemma {:induction false} WithoutAt(ready: seq<Entry>, k: nat)
    requires TokensDistinct(ready) && k < |ready|
    ensures Without(ready, ready[k].token) == ready[..k] + ready[k + 1..]
    decreases |ready|
  {
    var t := ready[k].token;
    if k == 0 {
      WithoutAbsent(ready[1..], t);
    } else {
      WithoutAt(ready[1..], k - 1);
      assert ready[1..][..k - 1] == ready[1..k] && ready[1..][k..] == ready[k + 1..];
      assert [ready[0]] + ready[1..k] == ready[..k];
    }
  }

  lemma {:induction false} WithoutAbsent(ready: seq<Entry>, t: Token)
    requires forall i :: 0 <= i < |ready| ==> ready[i].token != t
    ensures Without(ready, t) == ready
    decreases |ready|
  {
    if ready != [] { WithoutAbsent(ready[1..], t); }
  }

  lemma {:induction false} WithoutMembers(ready: seq<Entry>, t: Token)
    ensures forall e :: e in Without(ready, t) <==> e in ready && e.token != t
    decreases |ready|
  {
    if ready != [] { WithoutMembers(ready[1..], t); }
  }

  lemma WithoutKeepsOrder(ready: seq<Entry>, t: Token)
    requires TokensDistinct(ready) && Increasing(ready)
    ensures TokensDistinct(Without(ready, t)) && Increasing(Without(ready, t))
  {
    hide Without;
    if IsReady(ready, t) {
      var k :| 0 <= k < |ready| && ready[k].token == t;
      WithoutAt(ready, k);
    } else {
      WithoutAbsent(ready, t);
    }
  }

  /** Every operation keeps distinct tokens in strictly increasing generation order. */
  lemma ApplyWellFormed(f: Fifo, op: Op)
    requires WellFormed(f)
    ensures WellFormed(Apply(f, op))
  {
    hide Detach, Enqueue, PushReady;
    match op {
      case DoDetach(t) => DetachWellFormed(f, t);
      case DoEnqueue(t) => EnqueueWellFormed(f, t);
      case DoPush(c) => PushWellFormed(f, c);
      case _ =>
    }
  }

  lemma DetachWellFormed(f: Fifo, t: Token)
    requires WellFormed(f)
    ensures WellFormed(Detach(f, t))
  {
    WithoutKeepsOrder(f.ready, t);
    WithoutMembers(f.ready, t);
  }

  lemma EnqueueWellFormed(f: Fifo, t: Token)
    requires WellFormed(f)
    ensures WellFormed(Enqueue(f, t).0)
  {
    hide WellFormed, Link, IsReady;
    if !f.closed && t in f.records && !IsReady(f.ready, t) { LinkWellFormed(f, t); }
  }

  lemma LinkWellFormed(f: Fifo, t: Token)
    requires WellFormed(f) && t in f.records && !IsReady(f.ready, t)
    ensures WellFormed(Link(f, t))
  {
    hide IsReady, TokensDistinct, Increasing;
    NotReady(f.ready, t);
    LinkedLast(f.ready, Entry(t, f.lastGeneration + 1));
  }

  lemma NotReady(ready: seq<Entry>, t: Token)
    ensures IsReady(ready, t) <==> exists e :: e in ready && e.token == t
  {
    if IsReady(ready, t) {
      var i :| 0 <= i < |ready| && ready[i].token == t;
      assert ready[i] in ready;
    }
  }

  lemma LinkedLast(ready: seq<Entry>, last: Entry)
    requires TokensDistinct(ready) && Increasing(ready)
    requires forall e :: e in ready ==> e.token != last.token && e.generation < last.generation
    ensures TokensDistinct(ready + [last]) && Increasing(ready + [last])
  {}

  lemma PushWellFormed(f: Fifo, c: Callback)
    requires WellFormed(f)
    ensures WellFormed(PushReady(f, c).0)
  {
    hide Link, IsReady, TokensDistinct, Increasing;
    NotReady(f.ready, f.nextToken);
    var g := f.(nextToken := f.nextToken + 1);
    if !f.closed && f.nextToken !in f.records {
      LinkWellFormed(g.(records := f.records[f.nextToken := c]), f.nextToken);
    }
  }

  lemma {:induction false} ApplyAllWellFormed(f: Fifo, ops: seq<Op>)
    requires WellFormed(f)
    ensures WellFormed(ApplyAll(f, ops))
    decreases |ops|
  {
    if ops != [] {
      ApplyWellFormed(f, ops[0]);
      ApplyAllWellFormed(Apply(f, ops[0]), ops[1..]);
    }
  }

  /** Anything that can happen to the queue: an operation, or a dispatcher that claims or discards the oldest record. */
  datatype Step = Operate(op: Op) | TakeOldest

  function TakeStep(f: Fifo, step: Step): Fifo {
    if step.Operate? then Apply(f, step.op) else if f.ready == [] then f else Claim(f)
  }

  function TakeSteps(f: Fifo, steps: seq<Step>): Fifo
    decreases |steps|
  {
    if steps == [] then f else TakeSteps(TakeStep(f, steps[0]), steps[1..])
  }

  lemma ClaimWellFormed(f: Fifo)
    requires WellFormed(f) && f.ready != []
    ensures WellFormed(Claim(f))
  {
    var head, rest := f.ready[0], f.ready[1..];
    assert forall i :: 0 <= i < |rest| ==> rest[i] == f.ready[i + 1];
    RestKeepsOrder(f.ready);
    hide Increasing;
    forall e | e in rest ensures e.token != head.token && e in f.ready {
      var i :| 0 <= i < |rest| && rest[i] == e;
      assert f.ready[i + 1] == e;
    }
    hide TokensDistinct;
  }

  lemma RestKeepsOrder(ready: seq<Entry>)
    requires ready != [] && TokensDistinct(ready) && Increasing(ready)
    ensures TokensDistinct(ready[1..]) && Increasing(ready[1..])
  {}

  /** Over every run of operations, claims and discards the queue stays in order. */
  lemma {:induction false} TakeStepsWellFormed(f: Fifo, steps: seq<Step>)
    requires WellFormed(f)
    ensures WellFormed(TakeSteps(f, steps))
    decreases |steps|
  {
    if steps != [] {
      hide WellFormed, Apply, Claim;
      var step := steps[0];
      if step.Operate? { ApplyWellFormed(f, step.op); } else if f.ready != [] { ClaimWellFormed(f); }
      TakeStepsWellFormed(TakeStep(f, step), steps[1..]);
    }
  }

  // ------------------------------------------------------- one dispatch pass

  function Gap(env: seq<seq<Op>>): seq<Op> { if env == [] then [] else env[0] }

  function LaterGaps(env: seq<seq<Op>>): seq<seq<Op>> { if env == [] then [] else env[1..] }

  /**
   * The claiming loop: before each critical section whatever `env` says happens, and the head
   * is claimed while it is no younger than the cutoff. Returns the entries run, in order.
   */
  function RunLoop(f: Fifo, cutoff: nat, budget: nat, env: seq<seq<Op>>): (Fifo, seq<Entry>)
    decreases budget
  {
    if budget == 0 then (f, [])
    else
      var g := ApplyAll(f, Gap(env));
      if g.ready == [] || g.ready[0].generation > cutoff then (g, [])
      else
        var (last, ran) := RunLoop(Claim(g), cutoff, budget - 1, LaterGaps(env));
        (last, [g.ready[0]] + ran)
  }

  /** One turn of the loop, for a caller that has run `ran` so far. */
  lemma RunLoopStep(f: Fifo, cutoff: nat, budget: nat, env: seq<seq<Op>>, ran: seq<Entry>)
    requires budget > 0
    ensures var g, whole := ApplyAll(f, Gap(env)), RunLoop(f, cutoff, budget, env);
            if g.ready == [] || g.ready[0].generation > cutoff then whole == (g, []) && ran + whole.1 == ran
            else
              var rest := RunLoop(Claim(g), cutoff, budget - 1, LaterGaps(env));
              whole.0 == rest.0 && ran + whole.1 == ran + [g.ready[0]] + rest.1
  {
    hide ApplyAll, Claim;
  }

  lemma RunLoopEnds(f: Fifo, cutoff: nat, env: seq<seq<Op>>, ran: seq<Entry>)
    ensures RunLoop(f, cutoff, 0, env) == (f, []) && ran + [] == ran
  {}

  /** How many entries are no younger than the cutoff. */
  function OldCount(ready: seq<Entry>, cutoff: nat): nat {
    if ready == [] then 0
    else (if ready[0].generation <= cutoff then 1 else 0) + OldCount(ready[1..], cutoff)
  }

  lemma {:induction false} OldCountAppend(ready: seq<Entry>, e: Entry, cutoff: nat)
    requires e.generation > cutoff
    ensures OldCount(ready + [e], cutoff) == OldCount(ready, cutoff)
    decreases |ready|
  {
    if ready != [] {
      assert (ready + [e])[1..] == ready[1..] + [e];
      OldCountAppend(ready[1..], e, cutoff);
    }
  }

  lemma {:induction false} OldCountWithout(ready: seq<Entry>, t: Token, cutoff: nat)
    ensures OldCount(Without(ready, t), cutoff) <= OldCount(ready, cutoff)
    decreases |ready|
  {
    if ready != [] {
      OldCountWithout(ready[1..], t, cutoff);
      if ready[0].token != t {
        assert ([ready[0]] + Without(ready[1..], t))[1..] == Without(ready[1..], t);
      }
    }
  }

  lemma {:induction false} OldCountBound(ready: seq<Entry>, cutoff: nat)
    ensures OldCount(ready, cutoff) <= |ready|
    ensures OldCount(ready, cutoff) == 0 ==> forall e :: e in ready ==> e.generation > cutoff
    decreases |ready|
  {
    if ready != [] { OldCountBound(ready[1..], cutoff); }
  }

  /** Interference links only younger entries and can only take older ones away. */
  lemma ApplyAges(f: Fifo, op: Op, cutoff: nat)
    requires cutoff <= f.lastGeneration
    ensures cutoff <= Apply(f, op).lastGeneration
    ensures OldCount(Apply(f, op).ready, cutoff) <= OldCount(f.ready, cutoff)
    ensures forall e :: e in Apply(f, op).ready && e.generation <= cutoff ==> e in f.ready
    ensures forall e :: e in f.ready && op != DoDetach(e.token) && !op.DoClose? ==> e in Apply(f, op).ready
  {
    OldCountAppend(f.ready, Entry(match op case DoEnqueue(t) => t case _ => f.nextToken, f.lastGeneration + 1), cutoff);
    match op {
      case DoDetach(t) =>
        OldCountWithout(f.ready, t, cutoff);
        WithoutMembers(f.ready, t);
      case _ =>
    }
  }

  /** No operation of `ops` takes token t away. */
  ghost predicate Spares(ops: seq<Op>, t: Token) {
    forall i :: 0 <= i < |ops| ==> ops[i] != DoDetach(t) && !ops[i].DoClose?
  }

  /** Between f and g only younger entries were linked, and only by `ops` were any taken. */
  ghost predicate Survives(f: Fifo, ops: seq<Op>, g: Fifo, cutoff: nat) {
    && (forall e :: e in g.ready && e.generation <= cutoff ==> e in f.ready)
    && (forall e :: e in f.ready && Spares(ops, e.token) ==> e in g.ready)
  }

  lemma {:induction false} ApplyAllAges(f: Fifo, ops: seq<Op>, cutoff: nat)
    requires cutoff <= f.lastGeneration
    ensures cutoff <= ApplyAll(f, ops).lastGeneration
    ensures OldCount(ApplyAll(f, ops).ready, cutoff) <= OldCount(f.ready, cutoff)
    ensures Survives(f, ops, ApplyAll(f, ops), cutoff)
    decreases |ops|
  {
    if ops != [] {
      ApplyAges(f, ops[0], cutoff);
      ApplyAllAges(Apply(f, ops[0]), ops[1..], cutoff);
      forall e | e in f.ready && Spares(ops, e.token)
        ensures e in ApplyAll(f, ops).ready
      {
        assert ops[0] != DoDetach(e.token) && !ops[0].DoClose?;
        assert Spares(ops[1..], e.token);
      }
    }
  }

  ghost predicate SparesAlways(env: seq<seq<Op>>, t: Token) {
    forall i :: 0 <= i < |env| ==> Spares(env[i], t)
  }

  /** What a pass run with enough budget leaves behind and what it ran. */
  ghost predicate Settled(f: Fifo, cutoff: nat, env: seq<seq<Op>>, last: Fifo, ran: seq<Entry>) {
    && WellFormed(last)
    && (forall e :: e in last.ready ==> e.generation > cutoff)
    && (forall e :: e in ran ==> e in f.ready && e.generation <= cutoff)
    && Increasing(ran)
    && (forall e :: e in f.ready && e.generation <= cutoff && SparesAlways(env, e.token) ==> e in ran)
  }

  lemma {:induction false} RunLoopSettles(f: Fifo, cutoff: nat, budget: nat, env: seq<seq<Op>>)
    requires WellFormed(f) && cutoff <= f.lastGeneration && OldCount(f.ready, cutoff) <= budget
    ensures Settled(f, cutoff, env, RunLoop(f, cutoff, budget, env).0, RunLoop(f, cutoff, budget, env).1)
    decreases budget
  {
    hide WellFormed, Settled, OldCount, Survives, ApplyAll;
    if budget == 0 {
      PassExhausted(f, cutoff, env);
    } else {
      var g := ApplyAll(f, Gap(env));
      ApplyAllWellFormed(f, Gap(env));
      ApplyAllAges(f, Gap(env), cutoff);
      if g.ready == [] || g.ready[0].generation > cutoff {
        PassStops(f, cutoff, env, g);
      } else {
        ClaimAges(g, cutoff);
        RunLoopSettles(Claim(g), cutoff, budget - 1, LaterGaps(env));
        var (last, ran) := RunLoop(Claim(g), cutoff, budget - 1, LaterGaps(env));
        PassExtends(f, cutoff, env, g, last, ran);
      }
    }
  }

  lemma PassExhausted(f: Fifo, cutoff: nat, env: seq<seq<Op>>)
    requires WellFormed(f) && OldCount(f.ready, cutoff) == 0
    ensures Settled(f, cutoff, env, f, [])
  {
    OldCountBound(f.ready, cutoff);
  }

  lemma ClaimAges(g: Fifo, cutoff: nat)
    requires WellFormed(g) && g.ready != [] && g.ready[0].generation <= cutoff
    ensures WellFormed(Claim(g)) && OldCount(Claim(g).ready, cutoff) + 1 == OldCount(g.ready, cutoff)
  {}

  lemma PassStops(f: Fifo, cutoff: nat, env: seq<seq<Op>>, g: Fifo)
    requires WellFormed(g) && (g.ready == [] || g.ready[0].generation > cutoff)
    requires Survives(f, Gap(env), g, cutoff)
    ensures Settled(f, cutoff, env, g, [])
  {}

  lemma HeadRunsFirst(ready: seq<Entry>, ran: seq<Entry>)
    requires ready != [] && Increasing(ready) && Increasing(ran) && forall e :: e in ran ==> e in ready[1..]
    ensures Increasing([ready[0]] + ran)
  {
    var all := [ready[0]] + ran;
    forall i, j | 0 <= i < j < |all| ensures all[i].generation < all[j].generation {
      if i == 0 { assert ran[j - 1] in ready[1..]; }
    }
  }

  lemma PassExtends(f: Fifo, cutoff: nat, env: seq<seq<Op>>, g: Fifo, last: Fifo, ran: seq<Entry>)
    requires WellFormed(g) && g.ready != [] && g.ready[0].generation <= cutoff
    requires Survives(f, Gap(env), g, cutoff)
    requires Settled(Claim(g), cutoff, LaterGaps(env), last, ran)
    ensures Settled(f, cutoff, env, last, [g.ready[0]] + ran)
  {
    var all := [g.ready[0]] + ran;
    HeadRunsFirst(g.ready, ran);
    forall e | e in f.ready && e.generation <= cutoff && SparesAlways(env, e.token) ensures e in all {
      assert e in g.ready;
      assert SparesAlways(LaterGaps(env), e.token);
      assert e == g.ready[0] || e in g.ready[1..];
    }
  }

  /**
   * A dispatch pass over the records ready when it starts: whatever callbacks and other threads
   * do meanwhile, no record linked before the pass is left ready, none linked after its start is
   * run, nothing is run twice, the order is the linking order, and a record nobody took away is run.
   */
  lemma RunReadySettles(f: Fifo, env: seq<seq<Op>>)
    requires WellFormed(f)
    ensures var (last, ran) := RunLoop(f, f.lastGeneration, |f.ready|, env);
            Settled(f, f.lastGeneration, env, last, ran) && TokensDistinct(ran)
  {
    OldCountBound(f.ready, f.lastGeneration);
    RunLoopSettles(f, f.lastGeneration, |f.ready|, env);
    var (last, ran) := RunLoop(f, f.lastGeneration, |f.ready|, env);
    forall i, j | 0 <= i < j < |ran| ensures ran[i].token != ran[j].token {
      assert ran[i] in f.ready && ran[j] in f.ready && ran[i] != ran[j];
    }
  }

  /** Undisturbed, a pass runs exactly the ready list in order and leaves nothing. */
  lemma {:induction false} UndisturbedPass(f: Fifo, cutoff: nat)
    requires forall e :: e in f.ready ==> e.generation <= cutoff
    ensures RunLoop(f, cutoff, |f.ready|, []).1 == f.ready
    ensures RunLoop(f, cutoff, |f.ready|, []).0.ready == []
    decreases |f.ready|
  {
    if f.ready != [] {
      assert f.ready == [f.ready[0]] + f.ready[1..];
      UndisturbedPass(Claim(f), cutoff);
    }
  }

  function DiscardAll(f: Fifo): Fifo
    decreases |f.ready|
  {
    if f.ready == [] then f else DiscardAll(Claim(f))
  }

  function TokensOf(ready: seq<Entry>): set<Token> { set e | e in ready :: e.token }

  /** Discarding drops exactly the ready records. */
  lemma {:induction false} DiscardAllDropsReady(f: Fifo)
    ensures DiscardAll(f) == f.(ready := [], records := f.records - TokensOf(f.ready))
    decreases |f.ready|
  {
    if f.ready == [] {
      assert f.records - TokensOf(f.ready) == f.records;
    } else {
      DiscardAllDropsReady(Claim(f));
      assert TokensOf(f.ready) == {f.ready[0].token} + TokensOf(f.ready[1..]);
    }
  }

  // ----------------------------------------------- the list inside the records

  datatype Record = Record(
    callback: Callback, enqueued: bool, generation: nat,
    previous: Option<Token>, next: Option<Token>)

  type Records = map<Token, Record>

  function Before(ready: seq<Entry>, i: nat): Option<Token>
    requires i <= |ready|
  {
    if i == 0 then None else Some(ready[i - 1].token)
  }

  function After(ready: seq<Entry>, i: nat): Option<Token>
    requires i < |ready|
  {
    if i + 1 == |ready| then None else Some(ready[i + 1].token)
  }

  ghost predicate NodeAt(records: Records, ready: seq<Entry>, i: nat)
    requires i < |ready|
  {
    var t := ready[i].token;
    && t in records && records[t].enqueued
    && records[t].generation == ready[i].generation
    && records[t].previous == Before(ready, i)
    && records[t].next == After(ready, i)
  }

  ghost predicate Unlinked(r: Record) { !r.enqueued && r.previous.None? && r.next.None? }

  /** The links of the enqueued records spell out `ready`; all other records are unlinked. */
  ghost predicate Linked(records: Records, ready: seq<Entry>) {
    && TokensDistinct(ready)
    && (forall i :: 0 <= i < |ready| ==> NodeAt(records, ready, i))
    && (forall t :: t in records && !IsReady(ready, t) ==> Unlinked(records[t]))
  }

  function Callbacks(records: Records): map<Token, Callback> {
    map t | t in records :: records[t].callback
  }

  lemma ReadyMember(ready: seq<Entry>, i: nat)
    requires i < |ready|
    ensures IsReady(ready, ready[i].token)
  {}

  lemma ReadyAppend(ready: seq<Entry>, e: Entry, u: Token)
    ensures IsReady(ready + [e], u) <==> IsReady(ready, u) || e.token == u
  {
    var longer := ready + [e];
    assert longer[|ready|] == e;
    assert forall i :: 0 <= i < |ready| ==> longer[i] == ready[i];
  }

  lemma ReadyRemove(ready: seq<Entry>, k: nat, u: Token)
    requires TokensDistinct(ready) && k < |ready|
    ensures IsReady(ready[..k] + ready[k + 1..], u) <==> IsReady(ready, u) && u != ready[k].token
  {
    var shorter := ready[..k] + ready[k + 1..];
    if IsReady(shorter, u) {
      var i :| 0 <= i < |shorter| && shorter[i].token == u;
      assert shorter[i] == ready[if i < k then i else i + 1];
    } else if u != ready[k].token {
      forall i | 0 <= i < |ready| ensures ready[i].token != u {
        if i < k { assert shorter[i] == ready[i]; }
        if i > k { assert shorter[i - 1] == ready[i]; }
      }
    }
  }

  /** The records after appending token t to the list. */
  function LinkLast(records: Records, tail: Option<Token>, t: Token, generation: nat): Records
    requires t in records && (tail.Some? ==> tail.value in records && tail.value != t)
  {
    var linked := records[t := records[t].(enqueued := true, generation := generation, previous := tail)];
    if tail.Some? then linked[tail.value := linked[tail.value].(next := Some(t))] else linked
  }

  lemma LinkLastLinked(records: Records, ready: seq<Entry>, t: Token, generation: nat)
    requires Linked(records, ready) && t in records && !IsReady(ready, t)
    ensures Before(ready, |ready|).Some? ==>
            Before(ready, |ready|).value in records && Before(ready, |ready|).value != t
    ensures var linked := LinkLast(records, Before(ready, |ready|), t, generation);
            && Linked(linked, ready + [Entry(t, generation)])
            && linked.Keys == records.Keys && Callbacks(linked) == Callbacks(records)
  {
    var tail := Before(ready, |ready|);
    if ready != [] { assert NodeAt(records, ready, |ready| - 1); }
    var linked := LinkLast(records, tail, t, generation);
    var longer := ready + [Entry(t, generation)];
    forall i | 0 <= i < |longer| ensures NodeAt(linked, longer, i) {
      if i < |ready| { assert NodeAt(records, ready, i); }
    }
    forall u | u in linked && !IsReady(longer, u) ensures Unlinked(linked[u]) {
      ReadyAppend(ready, Entry(t, generation), u);
      if ready != [] { ReadyMember(ready, |ready| - 1); }
    }
  }

  /** The records after taking token t out of the list: its neighbours are joined. */
  function UnlinkOne(records: Records, t: Token): Records
    requires t in records
    requires records[t].previous.Some? ==> records[t].previous.value in records
    requires records[t].next.Some? ==> records[t].next.value in records
  {
    var r := records[t];
    var a := if r.previous.Some?
             then records[r.previous.value := records[r.previous.value].(next := r.next)] else records;
    var b := if r.next.Some?
             then a[r.next.value := a[r.next.value].(previous := r.previous)] else a;
    b[t := b[t].(enqueued := false, previous := None, next := None)]
  }

  /** The list knows the neighbours of its k-th element. */
  lemma Neighbours(records: Records, ready: seq<Entry>, k: nat)
    requires Linked(records, ready) && k < |ready|
    ensures var t := ready[k].token;
            && t in records && records[t].enqueued
            && records[t].previous == Before(ready, k) && records[t].next == After(ready, k)
            && (k > 0 ==> ready[k - 1].token in records && ready[k - 1].token != t)
            && (k + 1 < |ready| ==> ready[k + 1].token in records && ready[k + 1].token != t)
            && (0 < k && k + 1 < |ready| ==> ready[k - 1].token != ready[k + 1].token)
  {
    assert NodeAt(records, ready, k);
    if k > 0 { assert NodeAt(records, ready, k - 1); }
    if k + 1 < |ready| { assert NodeAt(records, ready, k + 1); }
  }

  lemma UnlinkOneNodes(records: Records, ready: seq<Entry>, k: nat)
    requires Linked(records, ready) && k < |ready|
    requires ready[k].token in records
    requires records[ready[k].token].previous == Before(ready, k) && records[ready[k].token].next == After(ready, k)
    requires k > 0 ==> ready[k - 1].token in records
    requires k + 1 < |ready| ==> ready[k + 1].token in records
    ensures var shorter := ready[..k] + ready[k + 1..];
            forall i :: 0 <= i < |shorter| ==> NodeAt(UnlinkOne(records, ready[k].token), shorter, i)
  {
    var t := ready[k].token;
    var unlinked := UnlinkOne(records, t);
    var shorter := ready[..k] + ready[k + 1..];
    forall i | 0 <= i < |shorter| ensures NodeAt(unlinked, shorter, i) {
      var j := if i < k then i else i + 1;
      assert shorter[i] == ready[j] && NodeAt(records, ready, j);
    }
  }

  lemma UnlinkOneLinked(records: Records, ready: seq<Entry>, k: nat)
    requires Linked(records, ready) && k < |ready|
    ensures var t := ready[k].token;
            && t in records && records[t].enqueued
            && records[t].previous == Before(ready, k) && records[t].next == After(ready, k)
            && (records[t].previous.Some? ==> records[t].previous.value in records)
            && (records[t].next.Some? ==> records[t].next.value in records)
            && Linked(UnlinkOne(records, t), ready[..k] + ready[k + 1..])
            && Callbacks(UnlinkOne(records, t)) == Callbacks(records)
            && !UnlinkOne(records, t)[t].enqueued
  {
    Neighbours(records, ready, k);
    UnlinkOneNodes(records, ready, k);
    hide NodeAt;
    var t := ready[k].token;
    var unlinked := UnlinkOne(records, t);
    var shorter := ready[..k] + ready[k + 1..];
    forall u | u in unlinked && !IsReady(shorter, u) ensures Unlinked(unlinked[u]) {
      ReadyRemove(ready, k, u);
      if k > 0 { assert shorter[k - 1].token == ready[k - 1].token; }
      if k + 1 < |ready| { assert shorter[k].token == ready[k + 1].token; }
    }
  }

  lemma DropRecord(records: Records, ready: seq<Entry>, t: Token)
    requires Linked(records, ready) && t in records && !IsReady(ready, t)
    ensures Linked(records - {t}, ready) && Callbacks(records - {t}) == Callbacks(records) - {t}
  {
    forall i | 0 <= i < |ready| ensures NodeAt(records - {t}, ready, i) {
      assert NodeAt(records, ready, i);
    }
  }

  lemma AddRecord(records: Records, ready: seq<Entry>, t: Token, c: Callback)
    requires Linked(records, ready) && t !in records
    ensures var added := records[t := Record(c, false, 0, None, None)];
            Linked(added, ready) && Callbacks(added) == Callbacks(records)[t := c]
  {
    var added := records[t := Record(c, false, 0, None, None)];
    forall i | 0 <= i < |ready| ensures NodeAt(added, ready, i) {
      assert NodeAt(records, ready, i);
    }
  }

  /** The linked fields of the queue represent the FIFO f. */
  ghost predicate Represents(records: Records, head: Option<Token>, tail: Option<Token>, count: nat, f: Fifo) {
    && WellFormed(f)
    && Linked(records, f.ready)
    && Callbacks(records) == f.records
    && head == First(f.ready)
    && tail == Last(f.ready)
    && count == |f.ready|
  }

  /** What the fields say about the FIFO they represent. */
  lemma ReprFacts(records: Records, head: Option<Token>, tail: Option<Token>, count: nat, f: Fifo)
    requires Represents(records, head, tail, count, f)
    ensures WellFormed(f) && records.Keys == f.records.Keys
    ensures forall t :: t in records ==> records[t].callback == f.records[t]
    ensures forall t :: t in records ==> (records[t].enqueued <==> IsReady(f.ready, t))
    ensures head.None? <==> f.ready == []
    ensures count == |f.ready|
    ensures f.ready != [] ==>
              && head == Some(f.ready[0].token) && head.value in records
              && records[head.value].enqueued && records[head.value].generation == f.ready[0].generation
  {
    assert Callbacks(records).Keys == records.Keys;
    forall t | t in records && IsReady(f.ready, t) ensures records[t].enqueued {
      var i :| 0 <= i < |f.ready| && f.ready[i].token == t;
      assert NodeAt(records, f.ready, i);
    }
    if f.ready != [] { assert NodeAt(records, f.ready, 0); }
  }

  lemma ReprLink(records: Records, head: Option<Token>, tail: Option<Token>, count: nat, f: Fifo, t: Token)
    requires Represents(records, head, tail, count, f) && t in records && !records[t].enqueued
    ensures tail.Some? ==> tail.value in records && tail.value != t
    ensures Represents(LinkLast(records, tail, t, f.lastGeneration + 1),
                       if tail.None? then Some(t) else head, Some(t), count + 1, Link(f, t))
  {
    hide Linked, LinkLast, Callbacks, WellFormed, IsReady;
    ReprFacts(records, head, tail, count, f);
    LinkLastLinked(records, f.ready, t, f.lastGeneration + 1);
    LinkWellFormed(f, t);
  }

  function First(ready: seq<Entry>): Option<Token> { if ready == [] then None else Some(ready[0].token) }

  function Last(ready: seq<Entry>): Option<Token> { Before(ready, |ready|) }

  /** How the ends of the list move when its k-th element goes. */
  lemma EndsAfterUnlink(ready: seq<Entry>, k: nat)
    requires k < |ready|
    ensures var shorter := ready[..k] + ready[k + 1..];
            && First(shorter) == (if Before(ready, k).None? then After(ready, k) else First(ready))
            && Last(shorter) == (if After(ready, k).None? then Before(ready, k) else Last(ready))
            && |shorter| == |ready| - 1
  {}

  /** The queue's fields after unlinking t represent the FIFO without t. */
  ghost predicate UnlinkRepresents(records: Records, head: Option<Token>, tail: Option<Token>, count: nat, f: Fifo,
                                   t: Token) {
    && count > 0 && t in records
    && (records[t].previous.Some? ==> records[t].previous.value in records)
    && (records[t].next.Some? ==> records[t].next.value in records)
    && !UnlinkOne(records, t)[t].enqueued
    && Represents(UnlinkOne(records, t), if records[t].previous.None? then records[t].next else head,
                  if records[t].next.None? then records[t].previous else tail, count - 1,
                  f.(ready := Without(f.ready, t)))
  }

  lemma ReprUnlink(records: Records, head: Option<Token>, tail: Option<Token>, count: nat, f: Fifo, t: Token)
    requires Represents(records, head, tail, count, f) && t in records && records[t].enqueued
    ensures UnlinkRepresents(records, head, tail, count, f, t)
  {
    ReprFacts(records, head, tail, count, f);
    var k :| 0 <= k < |f.ready| && f.ready[k].token == t;
    ReprUnlinkAt(records, head, tail, count, f, k);
  }

  lemma ReprUnlinkAt(records: Records, head: Option<Token>, tail: Option<Token>, count: nat, f: Fifo, k: nat)
    requires Represents(records, head, tail, count, f) && k < |f.ready|
    ensures UnlinkRepresents(records, head, tail, count, f, f.ready[k].token)
  {
    hide Linked, UnlinkOne, Callbacks, WellFormed, Without, TokensDistinct;
    WellFormedDistinct(f);
    UnlinkOneLinked(records, f.ready, k);
    WithoutAt(f.ready, k);
    WithoutWellFormed(f, f.ready[k].token);
    EndsAfterUnlink(f.ready, k);
  }

  lemma WithoutWellFormed(f: Fifo, t: Token)
    requires WellFormed(f)
    ensures WellFormed(f.(ready := Without(f.ready, t)))
  {
    WithoutKeepsOrder(f.ready, t);
    WithoutMembers(f.ready, t);
  }

  lemma WellFormedDistinct(f: Fifo)
    requires WellFormed(f)
    ensures TokensDistinct(f.ready)
  {}

  lemma ReprDrop(records: Records, head: Option<Token>, tail: Option<Token>, count: nat, f: Fifo, t: Token)
    requires Represents(records, head, tail, count, f) && (t in records ==> !records[t].enqueued)
    ensures Without(f.ready, t) == f.ready
    ensures Represents(records - {t}, head, tail, count, Detach(f, t))
  {
    hide Linked, Callbacks, Without, WellFormed;
    ReprNotReady(records, head, tail, count, f, t);
    WithoutAbsent(f.ready, t);
    ApplyWellFormed(f, DoDetach(t));
    if t in records {
      DropRecord(records, f.ready, t);
    } else {
      assert records - {t} == records && f.records - {t} == f.records;
    }
  }

  lemma ReprNotReady(records: Records, head: Option<Token>, tail: Option<Token>, count: nat, f: Fifo, t: Token)
    requires Represents(records, head, tail, count, f) && (t in records ==> !records[t].enqueued)
    ensures WellFormed(f) && !IsReady(f.ready, t) && records.Keys == f.records.Keys
  {
    ReprFacts(records, head, tail, count, f);
  }

  lemma ReprAdd(records: Records, head: Option<Token>, tail: Option<Token>, count: nat, f: Fifo, t: Token, c: Callback)
    requires Represents(records, head, tail, count, f) && t !in records && !f.closed
    ensures Represents(records[t := Record(c, false, 0, None, None)], head, tail, count,
                       f.(records := f.records[t := c]))
  {
    AddRecord(records, f.ready, t, c);
  }

  /** Token and end-of-life fields are no part of the links. */
  lemma ReprFrame(records: Records, head: Option<Token>, tail: Option<Token>, count: nat, f: Fifo, t: Token,
                  finished: bool)
    requires Represents(records, head, tail, count, f)
    ensures Represents(records, head, tail, count, f.(nextToken := t, finished := finished))
  {}

  lemma ReprClosed(f: Fifo)
    ensures Represents(map[], None, None, 0, f.(ready := [], records := map[], closed := true))
  {}

  /** Claiming is detaching the head. */
  lemma ClaimIsDetach(f: Fifo)
    requires WellFormed(f) && f.ready != []
    ensures Claim(f) == Detach(f, f.ready[0].token)
  {
    WithoutAt(f.ready, 0);
    assert f.ready[..0] + f.ready[1..] == f.ready[1..];
  }

  class Queue {
    var records: Records
    var readyHead: Option<Token>
    var readyTail: Option<Token>
    var readyCount: nat
    var lastGeneration: nat
    var nextToken: Token
    var closed: bool
    var finished: bool
    var wakeArmed: bool
    var dispatching: bool
    ghost var model: Fifo

    /** The fields represent `model`, and the descriptor is armed exactly when a waiter would be released. */
    ghost predicate Valid()
      reads this
    {
      LinksValid() && wakeArmed == (readyCount != 0 || finished || closed)
    }

    ghost predicate LinksValid()
      reads this
    {
      && Represents(records, readyHead, readyTail, readyCount, model)
      && lastGeneration == model.lastGeneration && nextToken == model.nextToken
      && closed == model.closed && finished == model.finished
    }

    constructor ()
      ensures Valid() && model == EMPTY && !dispatching
    {
      records, readyHead, readyTail, readyCount := map[], None, None, 0;
      lastGeneration, nextToken, closed, finished := 0, 1, false, false;
      wakeArmed, dispatching := false, false;
      model := EMPTY;
    }

    method RefreshWake()
      modifies this`wakeArmed
      ensures wakeArmed == (readyCount != 0 || finished || closed)
    {
      var wanted := readyCount != 0 || finished || closed;
      if wanted && !wakeArmed {
        wakeArmed := true;
      } else if !wanted && wakeArmed {
        wakeArmed := false;
      }
    }

    method LinkReady(t: Token)
      requires LinksValid() && t in records && !records[t].enqueued
      modifies this
      ensures Valid() && model == Link(old(model), t) && dispatching == old(dispatching)
    {
      hide Represents;
      ReprLink(records, readyHead, readyTail, readyCount, model, t);
      lastGeneration := lastGeneration + 1;
      records := records[t := records[t].(enqueued := true, generation := lastGeneration, previous := readyTail)];
      if readyTail.Some? {
        var tail := readyTail.value;
        records := records[tail := records[tail].(next := Some(t))];
      } else {
        readyHead := Some(t);
      }
      readyTail := Some(t);
      readyCount := readyCount + 1;
      model := Link(model, t);
      RefreshWake();
    }

    /** Takes one enqueued record out of the list, wherever it stands. */
    method UnlinkReady(t: Token)
      requires LinksValid() && t in records && records[t].enqueued
      modifies this
      ensures Valid() && model == old(model).(ready := Without(old(model.ready), t))
      ensures t in records && !records[t].enqueued && dispatching == old(dispatching)
    {
      hide Represents, Without, WellFormed;
      ReprUnlink(records, readyHead, readyTail, readyCount, model, t);
      var record, updated := records[t], records;
      if record.previous.Some? {
        var previous := record.previous.value;
        updated := updated[previous := updated[previous].(next := record.next)];
      } else {
        readyHead := record.next;
      }
      if record.next.Some? {
        var next := record.next.value;
        updated := updated[next := updated[next].(previous := record.previous)];
      } else {
        readyTail := record.previous;
      }
      records := updated[t := updated[t].(enqueued := false, previous := None, next := None)];
      readyCount := readyCount - 1;
      model := model.(ready := Without(model.ready, t));
      RefreshWake();
    }

    method EnqueueToken(t: Token) returns (linked: bool)
      requires Valid()
      modifies this
      ensures Valid() && (model, linked) == Enqueue(old(model), t) && dispatching == old(dispatching)
    {
      hide Represents, IsReady;
      ReprFacts(records, readyHead, readyTail, readyCount, model);
      if closed || t !in records || records[t].enqueued { return false; }
      LinkReady(t);
      linked := true;
    }

    method DetachToken(t: Token)
      requires Valid()
      modifies this
      ensures Valid() && model == Detach(old(model), t) && dispatching == old(dispatching)
    {
      hide Represents, Without;
      ReprFacts(records, readyHead, readyTail, readyCount, model);
      if t !in records {
        ReprDrop(records, readyHead, readyTail, readyCount, model, t);
        assert model.records - {t} == model.records;
        return;
      }
      if records[t].enqueued { UnlinkReady(t); }
      ReprDrop(records, readyHead, readyTail, readyCount, model, t);
      records := records - {t};
      model := Detach(model, t);
    }

    method NextToken() returns (t: Token)
      requires Valid()
      modifies this`nextToken, this`model
      ensures Valid() && t == old(model).nextToken && model == Apply(old(model), DoNextToken)
    {
      hide Represents;
      ReprFrame(records, readyHead, readyTail, readyCount, model, nextToken + 1, finished);
      t := nextToken;
      nextToken := nextToken + 1;
      model := model.(nextToken := nextToken, finished := finished);
    }

    method RegisterRecord(t: Token, c: Callback) returns (registered: bool)
      requires Valid()
      modifies this`records, this`model
      ensures Valid() && (model, registered) == Register(old(model), t, c)
    {
      hide Represents;
      ReprFacts(records, readyHead, readyTail, readyCount, model);
      if closed || t in records { return false; }
      ReprAdd(records, readyHead, readyTail, readyCount, model, t, c);
      records := records[t := Record(c, false, 0, None, None)];
      model := model.(records := model.records[t := c]);
      registered := true;
    }

    method PushReadyRecord(c: Callback) returns (pushed: bool)
      requires Valid()
      modifies this
      ensures Valid() && (model, pushed) == PushReady(old(model), c) && dispatching == old(dispatching)
    {
      hide Represents;
      if closed { return false; }
      var t := NextToken();
      ReprFacts(records, readyHead, readyTail, readyCount, model);
      if t in records { return false; }
      ReprAdd(records, readyHead, readyTail, readyCount, model, t, c);
      records := records[t := Record(c, false, 0, None, None)];
      model := model.(records := model.records[t := c]);
      LinkReady(t);
      pushed := true;
    }

    /** Unlinks and extracts the head of the ready list. */
    method ClaimReady() returns (t: Token, c: Callback)
      requires Valid() && model.ready != []
      modifies this
      ensures Valid() && model == Claim(old(model)) && dispatching == old(dispatching)
      ensures t == old(model).ready[0].token && t in old(model).records && c == old(model).records[t]
    {
      hide Represents, Without, WellFormed;
      ReprFacts(records, readyHead, readyTail, readyCount, model);
      ClaimIsDetach(model);
      t := readyHead.value;
      c := records[t].callback;
      UnlinkReady(t);
      ReprDrop(records, readyHead, readyTail, readyCount, model, t);
      records := records - {t};
      model := Detach(model, t);
    }

    method CloseQueue()
      requires Valid()
      modifies this
      ensures Valid() && model == Close(old(model)) && dispatching == old(dispatching)
    {
      hide Represents;
      if closed { return; }
      ReprClosed(model);
      closed := true;
      readyHead, readyTail, readyCount := None, None, 0;
      RefreshWake();
      records := map[];
      model := Close(model);
    }

    method FinishQueue()
      requires Valid()
      modifies this
      ensures Valid() && model == Apply(old(model), DoFinish) && dispatching == old(dispatching)
    {
      hide Represents;
      ReprFrame(records, readyHead, readyTail, readyCount, model, nextToken, true);
      finished := true;
      model := model.(nextToken := nextToken, finished := true);
      RefreshWake();
    }

    method Interfere(ops: seq<Op>)
      requires Valid()
      modifies this
      ensures Valid() && model == ApplyAll(old(model), ops) && dispatching == old(dispatching)
    {
      hide Represents, Without, IsReady;
      var i := 0;
      assert ops[0..] == ops;
      while i < |ops|
        invariant 0 <= i <= |ops| && Valid() && dispatching == old(dispatching)
        invariant ApplyAll(old(model), ops) == ApplyAll(model, ops[i..])
      {
        assert ops[i..][1..] == ops[i + 1..];
        match ops[i] {
          case DoNextToken => var _ := NextToken();
          case DoRegister(t, c) => var _ := RegisterRecord(t, c);
          case DoEnqueue(t) => var _ := EnqueueToken(t);
          case DoPush(c) => var _ := PushReadyRecord(c);
          case DoDetach(t) => DetachToken(t);
          case DoFinish => FinishQueue();
          case DoClose => CloseQueue();
        }
        i := i + 1;
      }
    }

    /** One dispatch pass under interference; nothing happens when another pass owns the queue. */
    method RunReady(env: seq<seq<Op>>) returns (ran: seq<Entry>)
      requires Valid()
      modifies this
      ensures Valid() && dispatching == old(dispatching)
      ensures old(dispatching) ==> ran == [] && model == old(model)
      ensures !old(dispatching) ==>
                (model, ran) == RunLoop(old(model), old(model).lastGeneration, |old(model).ready|, env)
    {
      hide Represents, ApplyAll, RunLoop, WellFormed;
      ran := [];
      if dispatching { return; }
      dispatching := true;
      ReprFacts(records, readyHead, readyTail, readyCount, model);
      var count, cutoff := readyCount, lastGeneration;
      ghost var whole := RunLoop(model, cutoff, count, env);
      var gaps := env;
      var index := 0;
      assert [] + whole.1 == whole.1;
      while index < count
        invariant 0 <= index <= count && Valid() && dispatching
        invariant whole.0 == RunLoop(model, cutoff, count - index, gaps).0
        invariant whole.1 == ran + RunLoop(model, cutoff, count - index, gaps).1
      {
        RunLoopStep(model, cutoff, count - index, gaps, ran);
        Interfere(Gap(gaps));
        ReprFacts(records, readyHead, readyTail, readyCount, model);
        if readyCount == 0 || readyHead.None? || records[readyHead.value].generation > cutoff {
          dispatching := false;
          return;
        }
        ran := ran + [Entry(readyHead.value, records[readyHead.value].generation)];
        var _, _ := ClaimReady();
        gaps := LaterGaps(gaps);
        index := index + 1;
      }
      RunLoopEnds(model, cutoff, gaps, ran);
      dispatching := false;
    }

    /** Drops every ready record without running it. */
    method DiscardReady() returns (discarded: nat)
      requires Valid()
      modifies this
      ensures Valid() && dispatching == old(dispatching)
      ensures old(dispatching) ==> discarded == 0 && model == old(model)
      ensures !old(dispatching) ==> discarded == |old(model).ready| && model == DiscardAll(old(model))
    {
      hide Represents, WellFormed;
      ReprFacts(records, readyHead, readyTail, readyCount, model);
      discarded := 0;
      if dispatching { return; }
      while readyCount != 0
        invariant Valid() && !dispatching && readyCount == |model.ready|
        invariant discarded + |model.ready| == |old(model).ready|
        invariant DiscardAll(model) == DiscardAll(old(model))
        decreases readyCount
      {
        var _, _ := ClaimReady();
        ReprFacts(records, readyHead, readyTail, readyCount, model);
        discarded := discarded + 1;
      }
    }
  }
}
