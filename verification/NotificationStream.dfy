/**
 * One bounded log of notifications shared by independent cursors: eviction by count and bytes,
 * pruning of what every cursor has consumed, and a drop count for each cursor.
 */
module NotificationStream {

  datatype Entry = Entry(sequence: nat, body: string)

  datatype Cursor = Cursor(next: nat, dropped: nat, armed: bool)

  datatype Limits = Limits(count: nat, bytes: nat)

  datatype Stream = Stream(
    entries: seq<Entry>, bytes: nat, cursors: map<nat, Cursor>, nextSequence: nat, closed: bool)

  const EMPTY := Stream([], 0, map[], 0, false)

  function Size(entries: seq<Entry>): nat {
    if entries == [] then 0 else |entries[0].body| + Size(entries[1..])
  }

  predicate Accepts(limits: Limits, arriving: nat) { limits.count != 0 && arriving <= limits.bytes }

  predicate Crowded(limits: Limits, count: nat, bytes: nat, arriving: nat) {
    count >= limits.count || bytes + arriving > limits.bytes
  }

  /** The log after making room for `arriving` bytes. */
  function Evict(limits: Limits, entries: seq<Entry>, arriving: nat): seq<Entry> {
    if entries == [] || !Crowded(limits, |entries|, Size(entries), arriving) then entries
    else Evict(limits, entries[1..], arriving)
  }

  function Append(limits: Limits, entries: seq<Entry>, e: Entry): seq<Entry> {
    if Accepts(limits, |e.body|) then Evict(limits, entries, |e.body|) + [e] else entries
  }

  predicate Consumed(cursors: map<nat, Cursor>, sequence: nat) {
    forall id :: id in cursors ==> sequence < cursors[id].next
  }

  function Prune(entries: seq<Entry>, cursors: map<nat, Cursor>): seq<Entry> {
    if entries == [] || !Consumed(cursors, entries[0].sequence) then entries
    else Prune(entries[1..], cursors)
  }

  /** The bodies at or after a sequence number, in order. */
  function Collect(entries: seq<Entry>, next: nat): seq<string> {
    if entries == [] then []
    else (if entries[0].sequence < next then [] else [entries[0].body]) + Collect(entries[1..], next)
  }

  function Wants(closed: bool, next: nat, nextSequence: nat): bool { closed || next < nextSequence }

  function Swept(cursors: map<nat, Cursor>, closed: bool, nextSequence: nat): map<nat, Cursor> {
    map id | id in cursors ::
      if Wants(closed, cursors[id].next, nextSequence) then cursors[id].(armed := true) else cursors[id]
  }

  function Pruned(s: Stream, cursors: map<nat, Cursor>): Stream {
    var entries := Prune(s.entries, cursors);
    s.(entries := entries, bytes := Size(entries), cursors := cursors)
  }

  function Push(limits: Limits, s: Stream, body: string): Stream {
    var entries := Append(limits, s.entries, Entry(s.nextSequence, body));
    s.(entries := entries, bytes := Size(entries), nextSequence := s.nextSequence + 1,
       cursors := Swept(s.cursors, s.closed, s.nextSequence + 1))
  }

  function Close(s: Stream): Stream {
    if s.closed then s else s.(closed := true, cursors := Swept(s.cursors, true, s.nextSequence))
  }

  function StartOf(s: Stream, replay: bool): nat {
    if replay && s.entries != [] then s.entries[0].sequence else s.nextSequence
  }

  function Subscribe(s: Stream, id: nat, replay: bool): Stream {
    if id in s.cursors then s
    else
      var start := StartOf(s, replay);
      s.(cursors := s.cursors[id := Cursor(start, 0, Wants(s.closed, start, s.nextSequence))])
  }

  function Unsubscribe(s: Stream, id: nat): Stream { Pruned(s, s.cursors - {id}) }

  function Expire(s: Stream, id: nat): Stream { s.(cursors := s.cursors - {id}) }

  /** Issued and not yet accounted to the cursor: neither delivered nor recorded as dropped. */
  function Owed(s: Stream, id: nat): (r: int)
    requires id in s.cursors
  {
    s.nextSequence - s.cursors[id].next
  }

  /** The drop count as reported: stored drops, and gaps in what a take would return. */
  function Reported(s: Stream, id: nat): int
    requires id in s.cursors
  {
    s.cursors[id].dropped + Owed(s, id) - |Collect(s.entries, s.cursors[id].next)|
  }

  ghost predicate Ordered(entries: seq<Entry>, limit: nat) {
    && (forall i, j :: 0 <= i < j < |entries| ==> entries[i].sequence < entries[j].sequence)
    && (forall i :: 0 <= i < |entries| ==> entries[i].sequence < limit)
  }

  ghost predicate WithinLimits(limits: Limits, entries: seq<Entry>) {
    && |entries| <= limits.count && Size(entries) <= limits.bytes
  }

  ghost predicate Valid(limits: Limits, s: Stream) {
    && Ordered(s.entries, s.nextSequence) && WithinLimits(limits, s.entries)
    && s.bytes == Size(s.entries)
    && forall id :: id in s.cursors ==>
         && s.cursors[id].next <= s.nextSequence
         && s.cursors[id].armed == Wants(s.closed, s.cursors[id].next, s.nextSequence)
  }

  // ---------------------------------------------------- suffixes of the log

  /** Dropping from the front keeps order, and never grows count or bytes. */
  lemma {:induction false} SuffixFacts(entries: seq<Entry>, k: nat)
    requires k <= |entries|
    ensures Size(entries[k..]) <= Size(entries)
    decreases k
  {
    if k == 0 {
      assert entries[0..] == entries;
    } else {
      assert entries[1..][k - 1..] == entries[k..];
      SuffixFacts(entries[1..], k - 1);
    }
  }

  lemma {:induction false} SizeAppend(entries: seq<Entry>, e: Entry)
    ensures Size(entries + [e]) == Size(entries) + |e.body|
    decreases |entries|
  {
    if entries != [] {
      assert (entries + [e])[1..] == entries[1..] + [e];
      SizeAppend(entries[1..], e);
    }
  }

  /** How many entries eviction takes. */
  function Evicted(limits: Limits, entries: seq<Entry>, arriving: nat): (k: nat)
    ensures k <= |entries| && Evict(limits, entries, arriving) == entries[k..]
  {
    if entries == [] || !Crowded(limits, |entries|, Size(entries), arriving) then 0
    else
      var k := Evicted(limits, entries[1..], arriving);
      assert entries[1..][k..] == entries[k + 1..];
      k + 1
  }

  /** What eviction leaves has room. */
  lemma {:induction false} EvictMakesRoom(limits: Limits, entries: seq<Entry>, arriving: nat)
    requires Accepts(limits, arriving)
    ensures var left := Evict(limits, entries, arriving);
            |left| < limits.count && Size(left) + arriving <= limits.bytes
    decreases |entries|
  {
    if entries != [] && Crowded(limits, |entries|, Size(entries), arriving) {
      EvictMakesRoom(limits, entries[1..], arriving);
    }
  }

  function PrunedCount(entries: seq<Entry>, cursors: map<nat, Cursor>): (k: nat)
    ensures k <= |entries| && Prune(entries, cursors) == entries[k..]
    ensures forall i :: 0 <= i < k ==> Consumed(cursors, entries[i].sequence)
  {
    if entries == [] || !Consumed(cursors, entries[0].sequence) then 0
    else
      var k := PrunedCount(entries[1..], cursors);
      assert entries[1..][k..] == entries[k + 1..];
      k + 1
  }

  /** Entries a cursor has passed contribute nothing to what it collects. */
  lemma {:induction false} CollectSkips(entries: seq<Entry>, k: nat, next: nat)
    requires k <= |entries|
    requires forall i :: 0 <= i < k ==> entries[i].sequence < next
    ensures Collect(entries[k..], next) == Collect(entries, next)
    decreases k
  {
    if k == 0 {
      assert entries[0..] == entries;
    } else {
      assert entries[1..][k - 1..] == entries[k..];
      CollectSkips(entries[1..], k - 1, next);
      assert [] + Collect(entries[1..], next) == Collect(entries[1..], next);
    }
  }

  /**
   * Making room in a log and in one of its suffixes leaves the second a suffix of the first, and
   * takes from the first no entry beyond those the suffix lacks unless the suffix loses it too.
   */
  lemma {:induction false} EvictSuffix(limits: Limits, entries: seq<Entry>, k: nat, arriving: nat)
    returns (left: nat)
    requires k <= |entries|
    ensures left <= k && left <= |Evict(limits, entries, arriving)|
    ensures Evict(limits, entries[k..], arriving) == Evict(limits, entries, arriving)[left..]
    ensures left > 0 ==> left + Evicted(limits, entries, arriving) == k
    decreases |entries|
  {
    if entries == [] || !Crowded(limits, |entries|, Size(entries), arriving) {
      SuffixFacts(entries, k);
      left := k;
    } else if k == 0 {
      assert entries[0..] == entries;
      left := 0;
      var all := Evict(limits, entries, arriving);
      assert all[0..] == all;
    } else {
      assert entries[1..][k - 1..] == entries[k..];
      left := EvictSuffix(limits, entries[1..], k - 1, arriving);
    }
  }

  // -------------------------------------------------------------- whole runs

  function Take(s: Stream, id: nat): (Stream, seq<string>) {
    if id !in s.cursors then (s, [])
    else
      var got := Collect(s.entries, s.cursors[id].next);
      var dropped := Reported(s, id);
      var taken := Cursor(s.nextSequence, if dropped < 0 then 0 else dropped, s.closed);
      (Pruned(s, s.cursors[id := taken]), got)
  }

  datatype Op =
    | DoPush(body: string) | DoTake(id: nat) | DoSubscribe(id: nat, replay: bool)
    | DoUnsubscribe(id: nat) | DoExpire(id: nat) | DoClose

  function Apply(limits: Limits, s: Stream, op: Op): Stream {
    match op
    case DoPush(body) => Push(limits, s, body)
    case DoTake(id) => Take(s, id).0
    case DoSubscribe(id, replay) => Subscribe(s, id, replay)
    case DoUnsubscribe(id) => Unsubscribe(s, id)
    case DoExpire(id) => Expire(s, id)
    case DoClose => Close(s)
  }

  function ApplyAll(limits: Limits, s: Stream, ops: seq<Op>): Stream
    decreases |ops|
  {
    if ops == [] then s else ApplyAll(limits, Apply(limits, s, ops[0]), ops[1..])
  }

  /** Everything the takes of one cursor return, in order. */
  function Receipts(limits: Limits, s: Stream, ops: seq<Op>, id: nat): seq<string>
    decreases |ops|
  {
    if ops == [] then []
    else (if ops[0] == DoTake(id) then Take(s, id).1 else []) + Receipts(limits, Apply(limits, s, ops[0]), ops[1..], id)
  }

  /** No operation ends this cursor. */
  ghost predicate Keeps(ops: seq<Op>, id: nat) {
    forall i :: 0 <= i < |ops| ==> ops[i] != DoUnsubscribe(id) && ops[i] != DoExpire(id)
  }

  /** A cursor never collects more than it is owed, so its drop count is never negative. */
  lemma {:induction false} CollectAtMost(entries: seq<Entry>, next: nat, limit: nat)
    requires Ordered(entries, limit) && next <= limit
    ensures |Collect(entries, next)| <= limit - next
    ensures entries != [] && entries[0].sequence >= next ==> |Collect(entries, next)| <= limit - entries[0].sequence
    decreases |entries|
  {
    if entries != [] {
      var rest := entries[1..];
      assert Ordered(rest, limit);
      CollectAtMost(rest, next, limit);
    }
  }

  lemma ReportedNonNegative(limits: Limits, s: Stream, id: nat)
    requires Valid(limits, s) && id in s.cursors
    ensures Reported(s, id) >= s.cursors[id].dropped
  {
    CollectAtMost(s.entries, s.cursors[id].next, s.nextSequence);
  }

  lemma AppendValid(limits: Limits, entries: seq<Entry>, e: Entry)
    requires Ordered(entries, e.sequence) && WithinLimits(limits, entries)
    ensures var longer := Append(limits, entries, e);
            Ordered(longer, e.sequence + 1) && WithinLimits(limits, longer)
  {
    hide Size, Evict, Evicted, Accepts;
    if Accepts(limits, |e.body|) {
      EvictMakesRoom(limits, entries, |e.body|);
      var k := Evicted(limits, entries, |e.body|);
      SizeAppend(entries[k..], e);
      OrderedAppend(entries, k, e);
    }
  }

  lemma OrderedAppend(entries: seq<Entry>, k: nat, e: Entry)
    requires Ordered(entries, e.sequence) && k <= |entries|
    ensures Ordered(entries[k..] + [e], e.sequence + 1)
  {}

  lemma PushValid(limits: Limits, s: Stream, body: string)
    requires Valid(limits, s)
    ensures Valid(limits, Push(limits, s, body))
  {
    AppendValid(limits, s.entries, Entry(s.nextSequence, body));
    hide Append, Size, Ordered;
  }

  lemma PrunedValid(limits: Limits, s: Stream, cursors: map<nat, Cursor>)
    requires Valid(limits, s) && Valid(limits, s.(cursors := cursors))
    ensures Valid(limits, Pruned(s, cursors))
  {
    var k := PrunedCount(s.entries, cursors);
    SuffixFacts(s.entries, k);
  }

  /**
   * Log count and bytes stay within the bounds, the byte total is the sum of the sizes, and a
   * cursor's descriptor is armed exactly when it has something to collect or the stream is closed.
   */
  lemma ApplyValid(limits: Limits, s: Stream, op: Op)
    requires Valid(limits, s)
    ensures Valid(limits, Apply(limits, s, op))
  {
    match op {
      case DoPush(body) => PushValid(limits, s, body);
      case DoTake(id) =>
        if id in s.cursors {
          var dropped := Reported(s, id);
          PrunedValid(limits, s, s.cursors[id := Cursor(s.nextSequence, if dropped < 0 then 0 else dropped, s.closed)]);
        }
      case DoUnsubscribe(id) => PrunedValid(limits, s, s.cursors - {id});
      case _ =>
    }
  }

  lemma {:induction false} ApplyAllValid(limits: Limits, s: Stream, ops: seq<Op>)
    requires Valid(limits, s)
    ensures Valid(limits, ApplyAll(limits, s, ops))
    decreases |ops|
  {
    if ops != [] {
      ApplyValid(limits, s, ops[0]);
      ApplyAllValid(limits, Apply(limits, s, ops[0]), ops[1..]);
    }
  }

  /** What one operation does to a cursor it does not end. */
  lemma ApplyOnCursor(limits: Limits, s: Stream, op: Op, id: nat)
    requires Valid(limits, s) && id in s.cursors && op != DoUnsubscribe(id) && op != DoExpire(id)
    ensures var next := Apply(limits, s, op);
            && id in next.cursors
            && next.nextSequence == s.nextSequence + (if op.DoPush? then 1 else 0)
            && next.cursors[id].next == (if op == DoTake(id) then s.nextSequence else s.cursors[id].next)
            && next.cursors[id].dropped == (if op == DoTake(id) then Reported(s, id) else s.cursors[id].dropped)
  {
    ReportedNonNegative(limits, s, id);
  }

  /**
   * Conservation: over any run that keeps the cursor, what it was delivered, what is reported
   * dropped and what is retained for it add up to what it was owed and what was issued since.
   */
  lemma {:induction false} CursorConservation(limits: Limits, s: Stream, ops: seq<Op>, id: nat)
    requires Valid(limits, s) && id in s.cursors && Keeps(ops, id)
    ensures var last := ApplyAll(limits, s, ops);
            && id in last.cursors
            && |Receipts(limits, s, ops, id)| + Reported(last, id) + |Collect(last.entries, last.cursors[id].next)|
               == s.cursors[id].dropped + last.nextSequence - s.cursors[id].next
            && Reported(last, id) >= s.cursors[id].dropped
    decreases |ops|
  {
    if ops == [] {
      ReportedNonNegative(limits, s, id);
    } else {
      ApplyOnCursor(limits, s, ops[0], id);
      ApplyValid(limits, s, ops[0]);
      ReportedNonNegative(limits, s, id);
      CursorConservation(limits, Apply(limits, s, ops[0]), ops[1..], id);
    }
  }

  // ------------------------------------------------------- a log of one's own

  /** The same bounded log with a single cursor and no pruning. */
  datatype Solo = Solo(entries: seq<Entry>, next: nat, dropped: int, nextSequence: nat)

  function SoloPush(limits: Limits, u: Solo, body: string): Solo {
    u.(entries := Append(limits, u.entries, Entry(u.nextSequence, body)), nextSequence := u.nextSequence + 1)
  }

  function SoloDropped(u: Solo): int { u.dropped + u.nextSequence - u.next - |Collect(u.entries, u.next)| }

  function SoloTake(u: Solo): (Solo, seq<string>) {
    (u.(next := u.nextSequence, dropped := SoloDropped(u)), Collect(u.entries, u.next))
  }

  /** What the owner of the log does: the pushes, and its own takes. */
  datatype SoloOp = SoloDoPush(body: string) | SoloDoTake

  function Own(op: Op, id: nat): seq<SoloOp> {
    if op.DoPush? then [SoloDoPush(op.body)] else if op == DoTake(id) then [SoloDoTake] else []
  }

  function Project(ops: seq<Op>, id: nat): seq<SoloOp> {
    if ops == [] then [] else Own(ops[0], id) + Project(ops[1..], id)
  }

  function SoloApply(limits: Limits, u: Solo, op: SoloOp): Solo {
    match op case SoloDoPush(body) => SoloPush(limits, u, body) case SoloDoTake => SoloTake(u).0
  }

  function SoloRun(limits: Limits, u: Solo, ops: seq<SoloOp>): (Solo, seq<string>)
    decreases |ops|
  {
    if ops == [] then (u, [])
    else
      var (last, rest) := SoloRun(limits, SoloApply(limits, u, ops[0]), ops[1..]);
      (last, (if ops[0].SoloDoTake? then SoloTake(u).1 else []) + rest)
  }

  /** The shared log is the cursor's own log without k entries it has already passed. */
  ghost predicate Mirrors(s: Stream, id: nat, u: Solo, k: nat) {
    && id in s.cursors
    && s.nextSequence == u.nextSequence && s.cursors[id].next == u.next && s.cursors[id].dropped == u.dropped
    && k <= |u.entries| && s.entries == u.entries[k..]
    && forall i :: 0 <= i < k ==> u.entries[i].sequence < u.next
  }

  lemma MirrorsAgree(s: Stream, id: nat, u: Solo, k: nat)
    requires Mirrors(s, id, u, k)
    ensures Collect(s.entries, s.cursors[id].next) == Collect(u.entries, u.next)
    ensures Reported(s, id) == SoloDropped(u)
  {
    CollectSkips(u.entries, k, u.next);
  }

  lemma MirrorPush(limits: Limits, s: Stream, id: nat, u: Solo, k: nat, body: string) returns (left: nat)
    requires Mirrors(s, id, u, k)
    ensures Mirrors(Push(limits, s, body), id, SoloPush(limits, u, body), left)
  {
    var e := Entry(s.nextSequence, body);
    if Accepts(limits, |body|) {
      left := EvictSuffix(limits, u.entries, k, |body|);
      var cut := Evicted(limits, u.entries, |body|);
      var kept := Evict(limits, u.entries, |body|);
      assert kept[left..] + [e] == (kept + [e])[left..];
      forall i | 0 <= i < left ensures (kept + [e])[i].sequence < u.next {
        assert kept[i] == u.entries[cut + i];
      }
    } else {
      left := k;
    }
  }

  lemma MirrorPrune(s: Stream, id: nat, u: Solo, k: nat, cursors: map<nat, Cursor>) returns (left: nat)
    requires Mirrors(s.(cursors := cursors), id, u, k)
    ensures Mirrors(Pruned(s, cursors), id, u, left)
  {
    var cut := PrunedCount(s.entries, cursors);
    left := k + cut;
    assert u.entries[k..][cut..] == u.entries[left..];
    forall i | 0 <= i < left ensures u.entries[i].sequence < u.next {
      if i >= k {
        assert s.entries[i - k] == u.entries[i];
        assert Consumed(cursors, s.entries[i - k].sequence);
      }
    }
  }

  lemma MirrorTake(limits: Limits, s: Stream, id: nat, u: Solo, k: nat, taker: nat) returns (left: nat)
    requires Valid(limits, s) && Mirrors(s, id, u, k)
    ensures Mirrors(Take(s, taker).0, id, if taker == id then SoloTake(u).0 else u, left)
  {
    hide Valid, Pruned, Collect, Reported;
    left := k;
    MirrorsAgree(s, id, u, k);
    ReportedNonNegative(limits, s, id);
    if taker in s.cursors {
      var dropped := Reported(s, taker);
      var cursors := s.cursors[taker := Cursor(s.nextSequence, if dropped < 0 then 0 else dropped, s.closed)];
      left := MirrorPrune(s, id, if taker == id then SoloTake(u).0 else u, k, cursors);
    }
  }

  lemma MirrorStep(limits: Limits, s: Stream, id: nat, u: Solo, k: nat, op: Op) returns (left: nat)
    requires Valid(limits, s) && Mirrors(s, id, u, k) && op != DoUnsubscribe(id) && op != DoExpire(id)
    ensures Mirrors(Apply(limits, s, op), id, SoloRun(limits, u, Own(op, id)).0, left)
  {
    hide Push, Take, SoloTake, SoloPush, SoloRun, Own, Prune, Pruned, Valid;
    OwnOne(limits, u, op, id);
    left := k;
    match op {
      case DoPush(body) => left := MirrorPush(limits, s, id, u, k, body);
      case DoTake(taker) => left := MirrorTake(limits, s, id, u, k, taker);
      case DoUnsubscribe(other) => left := MirrorPrune(s, id, u, k, s.cursors - {other});
      case _ =>
    }
  }

  lemma OwnOne(limits: Limits, u: Solo, op: Op, id: nat)
    ensures SoloRun(limits, u, Own(op, id)) ==
            if op.DoPush? then (SoloPush(limits, u, op.body), [])
            else if op == DoTake(id) then SoloTake(u) else (u, [])
  {
    var none: seq<string> := [];
    assert none + none == none;
    assert SoloTake(u).1 + [] == SoloTake(u).1;
  }

  lemma {:induction false} SoloRunSplit(limits: Limits, u: Solo, x: seq<SoloOp>, y: seq<SoloOp>)
    ensures var first := SoloRun(limits, u, x);
            var rest := SoloRun(limits, first.0, y);
            SoloRun(limits, u, x + y) == (rest.0, first.1 + rest.1)
    decreases |x|
  {
    if x == [] {
      assert x + y == y;
      assert [] + SoloRun(limits, u, y).1 == SoloRun(limits, u, y).1;
    } else {
      assert (x + y)[1..] == x[1..] + y;
      SoloRunSplit(limits, SoloApply(limits, u, x[0]), x[1..], y);
      var head := if x[0].SoloDoTake? then SoloTake(u).1 else [];
      var first := SoloRun(limits, SoloApply(limits, u, x[0]), x[1..]);
      assert head + (first.1 + SoloRun(limits, first.0, y).1) == (head + first.1) + SoloRun(limits, first.0, y).1;
    }
  }

  /** A run keeps mirroring, and hands the cursor what its own log would hand it. */
  lemma {:induction false} MirrorRun(limits: Limits, s: Stream, id: nat, u: Solo, k: nat, ops: seq<Op>)
    requires Valid(limits, s) && Mirrors(s, id, u, k) && Keeps(ops, id)
    ensures var (own, got) := SoloRun(limits, u, Project(ops, id));
            && Receipts(limits, s, ops, id) == got
            && id in ApplyAll(limits, s, ops).cursors
            && Reported(ApplyAll(limits, s, ops), id) == SoloDropped(own)
    decreases |ops|
  {
    if ops == [] {
      MirrorsAgree(s, id, u, k);
    } else {
      var op := ops[0];
      var next := Apply(limits, s, op);
      var left := MirrorStep(limits, s, id, u, k, op);
      var own := SoloRun(limits, u, Own(op, id));
      ApplyValid(limits, s, op);
      MirrorRun(limits, next, id, own.0, left, ops[1..]);
      OwnOne(limits, u, op, id);
      MirrorsAgree(s, id, u, k);
      SoloRunSplit(limits, u, Own(op, id), Project(ops[1..], id));
    }
  }

  function SoloOf(s: Stream, id: nat): Solo
    requires id in s.cursors
  {
    Solo(s.entries, s.cursors[id].next, s.cursors[id].dropped, s.nextSequence)
  }

  /**
   * Consumers do not interfere: in every run, what a cursor is given and what it is told it lost
   * are what an unpruned log with the same bounds, its own pushes and its own takes would give.
   */
  lemma ConsumersDoNotInterfere(limits: Limits, s: Stream, id: nat, ops: seq<Op>)
    requires Valid(limits, s) && id in s.cursors && Keeps(ops, id)
    ensures var (own, got) := SoloRun(limits, SoloOf(s, id), Project(ops, id));
            && Receipts(limits, s, ops, id) == got
            && id in ApplyAll(limits, s, ops).cursors
            && Reported(ApplyAll(limits, s, ops), id) == SoloDropped(own)
  {
    assert s.entries[0..] == s.entries;
    MirrorRun(limits, s, id, SoloOf(s, id), 0, ops);
  }

  /** Two runs that agree on the pushes and on one cursor's takes agree on what it receives. */
  lemma OtherConsumersAreInvisible(limits: Limits, s: Stream, id: nat, ops: seq<Op>, others: seq<Op>)
    requires Valid(limits, s) && id in s.cursors && Keeps(ops, id) && Keeps(others, id)
    requires Project(ops, id) == Project(others, id)
    ensures Receipts(limits, s, ops, id) == Receipts(limits, s, others, id)
    ensures id in ApplyAll(limits, s, ops).cursors && id in ApplyAll(limits, s, others).cursors
    ensures Reported(ApplyAll(limits, s, ops), id) == Reported(ApplyAll(limits, s, others), id)
  {
    ConsumersDoNotInterfere(limits, s, id, ops);
    ConsumersDoNotInterfere(limits, s, id, others);
  }

  // -------------------------------------------------------------- the stream

  /** The gaps a walk over the log counts, starting from `expected`, with the tail gap. */
  lemma {:induction false} CollectStep(entries: seq<Entry>, next: nat, i: nat)
    requires i < |entries|
    ensures Collect(entries[..i + 1], next) ==
            Collect(entries[..i], next) + (if entries[i].sequence < next then [] else [entries[i].body])
    decreases i
  {
    if i == 0 {
      assert entries[..1] == [entries[0]] && [entries[0]][1..] == [];
    } else {
      assert entries[..i + 1][1..] == entries[1..][..i] && entries[..i][1..] == entries[1..][..i - 1];
      CollectStep(entries[1..], next, i - 1);
    }
  }

  class Log {
    const limits: Limits
    var entries: seq<Entry>
    var bytes: nat
    var cursors: map<nat, Cursor>
    var nextSequence: nat
    var closed: bool

    function View(): Stream
      reads this
    {
      Stream(entries, bytes, cursors, nextSequence, closed)
    }

    ghost predicate Ok()
      reads this
    {
      Valid(limits, View())
    }

    constructor (count: nat, maximum: nat)
      ensures Ok() && View() == EMPTY && limits == Limits(count, maximum)
    {
      limits := Limits(count, maximum);
      entries, bytes, cursors, nextSequence, closed := [], 0, map[], 0, false;
    }

    method SubscribeCursor(id: nat, replay: bool)
      requires Ok() && id !in cursors
      modifies this`cursors
      ensures Ok() && View() == Subscribe(old(View()), id, replay)
    {
      var start := if replay && entries != [] then entries[0].sequence else nextSequence;
      var cursor := Cursor(start, 0, false);
      if closed || cursor.next < nextSequence { cursor := cursor.(armed := true); }
      cursors := cursors[id := cursor];
    }

    /** Computes the least sequence a live cursor still needs, then drops everything before it. */
    method PruneConsumed()
      requires Ordered(entries, nextSequence) && bytes == Size(entries)
      modifies this`entries, this`bytes
      ensures View() == Pruned(old(View()), cursors)
    {
      var needed := nextSequence;
      var rest := cursors.Keys;
      while rest != {}
        invariant rest <= cursors.Keys && needed <= nextSequence
        invariant forall id :: id in cursors && id !in rest ==> needed <= cursors[id].next
        invariant needed == nextSequence || exists id :: id in cursors && cursors[id].next == needed
        decreases rest
      {
        var id :| id in rest;
        if cursors[id].next < needed { needed := cursors[id].next; }
        rest := rest - {id};
      }
      while entries != [] && entries[0].sequence < needed
        invariant Ordered(entries, nextSequence) && bytes == Size(entries)
        invariant Prune(entries, cursors) == Prune(old(entries), cursors)
        decreases |entries|
      {
        assert Consumed(cursors, entries[0].sequence);
        bytes := bytes - |entries[0].body|;
        entries := entries[1..];
      }
      if entries != [] {
        assert !Consumed(cursors, entries[0].sequence);
      }
    }

    method UnsubscribeCursor(id: nat)
      requires Ok()
      modifies this`cursors, this`entries, this`bytes
      ensures Ok() && View() == Unsubscribe(old(View()), id)
    {
      ApplyValid(limits, View(), DoUnsubscribe(id));
      cursors := cursors - {id};
      PruneConsumed();
    }

    method PushNotification(body: string)
      requires Ok()
      modifies this
      ensures Ok() && View() == Push(limits, old(View()), body)
    {
      hide Ordered;
      ApplyValid(limits, View(), DoPush(body));
      var sequence, arriving := nextSequence, |body|;
      nextSequence := nextSequence + 1;
      if limits.count != 0 && arriving <= limits.bytes {
        while entries != [] && (|entries| >= limits.count || bytes > limits.bytes - arriving)
          invariant bytes == Size(entries)
          invariant Evict(limits, entries, arriving) == Evict(limits, old(entries), arriving)
          invariant nextSequence == old(nextSequence) + 1 && cursors == old(cursors) && closed == old(closed)
          decreases |entries|
        {
          bytes := bytes - |entries[0].body|;
          entries := entries[1..];
        }
        SizeAppend(entries, Entry(sequence, body));
        entries := entries + [Entry(sequence, body)];
        bytes := bytes + arriving;
      }
      cursors := Swept(cursors, closed, nextSequence);
    }

    method CloseStream()
      requires Ok()
      modifies this`closed, this`cursors
      ensures Ok() && View() == Close(old(View()))
    {
      if closed { return; }
      closed := true;
      cursors := Swept(cursors, closed, nextSequence);
    }

    /** The drop count a caller is told, by walking the log and adding up the gaps. */
    method DroppedCount(id: nat) returns (dropped: nat)
      requires Ok()
      ensures dropped == if id in cursors then Reported(View(), id) else 0
    {
      if id !in cursors { return 0; }
      var _, gaps := Walk(cursors[id].next);
      dropped := cursors[id].dropped + gaps;
    }

    /** One pass over the log: what lies at or after `next`, and how many sequences are missing. */
    method Walk(next: nat) returns (held: seq<string>, gaps: nat)
      requires Ordered(entries, nextSequence) && next <= nextSequence
      ensures held == Collect(entries, next) && gaps + |held| == nextSequence - next
    {
      held, gaps := [], 0;
      var expected, i := next, 0;
      while i < |entries|
        invariant 0 <= i <= |entries| && next <= expected <= nextSequence
        invariant held == Collect(entries[..i], next) && gaps + |held| == expected - next
        invariant i < |entries| && entries[i].sequence < expected ==> expected == next
        invariant expected == next || (0 < i && expected == entries[i - 1].sequence + 1)
      {
        CollectStep(entries, next, i);
        if entries[i].sequence >= expected {
          gaps := gaps + (entries[i].sequence - expected);
          held := held + [entries[i].body];
          expected := entries[i].sequence + 1;
        }
        i := i + 1;
      }
      assert entries[..i] == entries;
      gaps := gaps + (nextSequence - expected);
    }

    method TakeNotifications(id: nat) returns (held: seq<string>)
      requires Ok()
      modifies this`cursors, this`entries, this`bytes
      ensures Ok() && (View(), held) == Take(old(View()), id)
      ensures id in old(cursors) ==> id in cursors && cursors[id].dropped == old(Reported(View(), id))
    {
      hide Ordered, Size, Collect, WithinLimits, Consumed, Prune;
      if id !in cursors { return []; }
      ApplyValid(limits, View(), DoTake(id));
      ReportedNonNegative(limits, View(), id);
      var gaps;
      held, gaps := Walk(cursors[id].next);
      var cursor := cursors[id].(dropped := cursors[id].dropped + gaps, next := nextSequence);
      if !closed { cursor := cursor.(armed := false); }
      cursors := cursors[id := cursor];
      PruneConsumed();
    }
  }
}
