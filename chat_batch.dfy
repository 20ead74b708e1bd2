/**
 * The chat view's batching engine, as values: a reentrancy counter and a buffer
 * of pending update items. Begin raises the counter (never below 1), commit
 * lowers it (never below 0) and, when it reaches 0, hands the whole buffer over
 * for replay and empties it. The class in module ChatView holds this state in
 * fields and is proved against the functions here.
 */
module ChatBatch {
  import opened Wrappers
  import opened ChatIdentity

  /**
   * One structural edit requested of the list. Indices are positions in the
   * store at the time the item is enqueued; later items in the same batch are
   * not renumbered.
   */
  datatype UpdateItem =
    | Insert(message: Message, at: int)
    | Update(message: Message, at: int)
    | Remove(at: int)
    | Move(at: int, to: int)

  /** The batching state: the reentrancy counter and the pending items in enqueue order. */
  datatype Batch = Batch(requiredCount: int, items: seq<UpdateItem>)

  /** The state of a view that has no batch open and nothing pending. */
  const Idle: Batch := Batch(0, [])

  function Max(a: int, b: int): int
  {
    if a >= b then a else b
  }

  /** Opening a batch: the counter goes up by one, and is at least 1 afterwards. */
  function Begin(b: Batch): (r: Batch)
    ensures r.requiredCount >= 1
    ensures b.requiredCount >= 0 ==> r.requiredCount == b.requiredCount + 1
    ensures b.requiredCount < 0 ==> r.requiredCount == 1
    ensures r.items == b.items
  {
    Batch(Max(b.requiredCount + 1, 1), b.items)
  }

  /** What a commit leaves behind, and the items it hands over for replay, if any. */
  datatype Committed = Committed(batch: Batch, drained: Option<seq<UpdateItem>>)

  /**
   * Closing a batch. A commit that leaves the counter above 0 is nested: it
   * drains nothing and the buffer keeps every pending item. A commit that
   * brings the counter to 0 (or finds it at 0 already) drains the buffer as it
   * stands, in enqueue order, and leaves it empty.
   */
  function Commit(b: Batch): (r: Committed)
    ensures r.batch.requiredCount >= 0
    ensures b.requiredCount > 1 ==> r == Committed(Batch(b.requiredCount - 1, b.items), None)
    ensures b.requiredCount <= 1 ==> r == Committed(Idle, Some(b.items))
  {
    var count := Max(b.requiredCount - 1, 0);
    if count != 0 then Committed(Batch(count, b.items), None)
    else Committed(Batch(count, []), Some(b.items))
  }

  /** Appending items to the buffer. */
  function Enqueue(b: Batch, ops: seq<UpdateItem>): Batch
  {
    Batch(b.requiredCount, b.items + ops)
  }

  /**
   * One public mutator call: begin, enqueue its items, commit. Called with no
   * batch open it drains what was pending followed by its own items; called
   * inside an open batch it only appends, and the counter is back where it was.
   */
  function Call(b: Batch, ops: seq<UpdateItem>): (r: Committed)
    ensures b.requiredCount <= 0 ==> r == Committed(Idle, Some(b.items + ops))
    ensures b.requiredCount > 0 ==> r == Committed(Batch(b.requiredCount, b.items + ops), None)
  {
    Commit(Enqueue(Begin(b), ops))
  }

  /** The items of a multi-insert: one insert per message, in order, all at the same index. */
  function InsertAll(messages: seq<Message>, at: int): (ops: seq<UpdateItem>)
    ensures |ops| == |messages|
    ensures forall i :: 0 <= i < |ops| ==> ops[i] == Insert(messages[i], at)
  {
    if messages == [] then [] else [Insert(messages[0], at)] + InsertAll(messages[1..], at)
  }

  /** The items of a multi-remove: one remove per index, in the order given, not renumbered. */
  function RemoveAll(indices: seq<int>): (ops: seq<UpdateItem>)
    ensures |ops| == |indices|
    ensures forall i :: 0 <= i < |ops| ==> ops[i] == Remove(indices[i])
  {
    if indices == [] then [] else [Remove(indices[0])] + RemoveAll(indices[1..])
  }

  // ---------------------------------------------------------------------------
  // Traces of begin, enqueue and commit calls

  datatype Event = BeginEvent | EnqueueEvent(ops: seq<UpdateItem>) | CommitEvent

  /** The state after a trace, and every drained sequence in the order the drains happened. */
  datatype Outcome = Outcome(batch: Batch, drains: seq<seq<UpdateItem>>)

  function Step(b: Batch, e: Event): Committed
  {
    match e
    case BeginEvent => Committed(Begin(b), None)
    case EnqueueEvent(ops) => Committed(Enqueue(b, ops), None)
    case CommitEvent => Commit(b)
  }

  function Run(b: Batch, events: seq<Event>): Outcome
    decreases |events|
  {
    if events == [] then Outcome(b, [])
    else
      var c := Step(b, events[0]);
      var rest := Run(c.batch, events[1..]);
      Outcome(rest.batch, (if c.drained.Some? then [c.drained.value] else []) + rest.drains)
  }

  /** Running two traces one after the other. */
  lemma {:induction false} RunAppend(b: Batch, xs: seq<Event>, ys: seq<Event>)
    ensures Run(b, xs + ys) ==
            var r := Run(b, xs); var s := Run(r.batch, ys); Outcome(s.batch, r.drains + s.drains)
    decreases |xs|
  {
    if xs == [] {
      assert xs + ys == ys;
    } else {
      var c := Step(b, xs[0]);
      var d: seq<seq<UpdateItem>> := if c.drained.Some? then [c.drained.value] else [];
      assert (xs + ys)[0] == xs[0];
      assert (xs + ys)[1..] == xs[1..] + ys;
      RunAppend(c.batch, xs[1..], ys);
      var r := Run(c.batch, xs[1..]);
      var s := Run(r.batch, ys);
      assert Run(b, xs) == Outcome(r.batch, d + r.drains);
      assert Run(b, xs + ys) == Outcome(s.batch, d + (r.drains + s.drains));
      assert d + (r.drains + s.drains) == (d + r.drains) + s.drains;
    }
  }

  /** Two traces that drain nothing, one after the other, drain nothing. */
  lemma RunQuiet(b: Batch, xs: seq<Event>, ys: seq<Event>, mid: Batch, end: Batch)
    requires Run(b, xs) == Outcome(mid, []) && Run(mid, ys) == Outcome(end, [])
    ensures Run(b, xs + ys) == Outcome(end, [])
  {
    RunAppend(b, xs, ys);
  }

  function Repeat(e: Event, n: nat): (r: seq<Event>)
    ensures |r| == n
    ensures forall i :: 0 <= i < n ==> r[i] == e
  {
    if n == 0 then [] else [e] + Repeat(e, n - 1)
  }

  function Enqueues(opss: seq<seq<UpdateItem>>): seq<Event>
  {
    if opss == [] then [] else [EnqueueEvent(opss[0])] + Enqueues(opss[1..])
  }

  function Concat(opss: seq<seq<UpdateItem>>): seq<UpdateItem>
  {
    if opss == [] then [] else opss[0] + Concat(opss[1..])
  }

  lemma {:induction false} RunBegins(b: Batch, n: nat)
    requires b.requiredCount >= 0
    ensures Run(b, Repeat(BeginEvent, n)) == Outcome(Batch(b.requiredCount + n, b.items), [])
    decreases n
  {
    if n > 0 {
      assert Repeat(BeginEvent, n)[1..] == Repeat(BeginEvent, n - 1);
      RunBegins(Begin(b), n - 1);
    }
  }

  lemma {:induction false} RunEnqueues(b: Batch, opss: seq<seq<UpdateItem>>)
    ensures Run(b, Enqueues(opss)) == Outcome(Batch(b.requiredCount, b.items + Concat(opss)), [])
    decreases |opss|
  {
    if opss != [] {
      var events := Enqueues(opss);
      var next := Enqueue(b, opss[0]);
      assert events[0] == EnqueueEvent(opss[0]) && events[1..] == Enqueues(opss[1..]);
      assert Step(b, events[0]) == Committed(next, None);
      RunEnqueues(next, opss[1..]);
      assert Run(b, events) == Run(next, events[1..]);
      assert next.items + Concat(opss[1..]) == b.items + Concat(opss);
    }
  }

  lemma {:induction false} RunCommits(b: Batch, k: nat)
    requires 1 <= b.requiredCount && k <= b.requiredCount
    ensures Run(b, Repeat(CommitEvent, k)) ==
            if k < b.requiredCount then Outcome(Batch(b.requiredCount - k, b.items), [])
            else Outcome(Idle, [b.items])
    decreases k
  {
    if k > 0 {
      assert Repeat(CommitEvent, k)[1..] == Repeat(CommitEvent, k - 1);
      if b.requiredCount > 1 {
        RunCommits(Commit(b).batch, k - 1);
      } else {
        assert Repeat(CommitEvent, k)[1..] == [];
      }
    }
  }

  /**
   * N begins, then any number of enqueues, then commits: no commit before the
   * N-th drains anything and the buffer keeps every item; the N-th commit
   * drains every enqueued item exactly once, in enqueue order, and leaves the
   * view idle.
   */
  lemma NestedBatch(n: nat, opss: seq<seq<UpdateItem>>, k: nat)
    requires 1 <= n && k <= n
    ensures Run(Idle, Repeat(BeginEvent, n) + Enqueues(opss) + Repeat(CommitEvent, k)) ==
            if k < n then Outcome(Batch(n - k, Concat(opss)), [])
            else Outcome(Idle, [Concat(opss)])
  {
    var begins, enqueues, commits := Repeat(BeginEvent, n), Enqueues(opss), Repeat(CommitEvent, k);
    var open := Batch(n, Concat(opss));
    RunBegins(Idle, n);
    assert Run(Idle, begins) == Outcome(Batch(n, []), []);
    RunEnqueues(Batch(n, []), opss);
    assert [] + Concat(opss) == Concat(opss);
    assert Run(Batch(n, []), enqueues) == Outcome(open, []);
    RunAppend(Idle, begins, enqueues);
    assert Run(Idle, begins + enqueues) == Outcome(open, []);
    RunAppend(Idle, begins + enqueues, commits);
    RunCommits(open, k);
  }

  /** A commit with no batch open still drains (possibly nothing) and leaves the counter at 0. */
  lemma UnbalancedCommit(b: Batch)
    requires b.requiredCount <= 0
    ensures Run(b, [CommitEvent]) == Outcome(Idle, [b.items])
  {
  }

  // ---------------------------------------------------------------------------
  // Well-bracketed work: mutator calls nested inside each other and inside outer batches

  /** Items enqueued directly, or a begin … commit pair around more work. */
  datatype Work = Enqueued(ops: seq<UpdateItem>) | Bracket(body: seq<Work>)

  function Events(w: Work): seq<Event>
    decreases w
  {
    match w
    case Enqueued(ops) => [EnqueueEvent(ops)]
    case Bracket(body) => [BeginEvent] + EventsAll(body) + [CommitEvent]
  }

  function EventsAll(ws: seq<Work>): seq<Event>
    decreases ws
  {
    if ws == [] then [] else Events(ws[0]) + EventsAll(ws[1..])
  }

  function Items(w: Work): seq<UpdateItem>
    decreases w
  {
    match w
    case Enqueued(ops) => ops
    case Bracket(body) => ItemsAll(body)
  }

  function ItemsAll(ws: seq<Work>): seq<UpdateItem>
    decreases ws
  {
    if ws == [] then [] else Items(ws[0]) + ItemsAll(ws[1..])
  }

  /** Inside an open batch, any well-bracketed work only appends its items and drains nothing. */
  lemma {:induction false} BusyWork(b: Batch, w: Work)
    requires b.requiredCount >= 1
    ensures Run(b, Events(w)) == Outcome(Batch(b.requiredCount, b.items + Items(w)), [])
    decreases w
  {
    match w
    case Enqueued(ops) =>
    case Bracket(body) =>
      var inner := Begin(b);
      var full := Batch(inner.requiredCount, b.items + ItemsAll(body));
      var end := Batch(b.requiredCount, full.items);
      assert Run(b, [BeginEvent]) == Outcome(inner, []);
      BusyWorkAll(inner, body);
      RunQuiet(b, [BeginEvent], EventsAll(body), inner, full);
      assert Run(full, [CommitEvent]) == Outcome(end, []);
      RunQuiet(b, [BeginEvent] + EventsAll(body), [CommitEvent], full, end);
  }

  lemma {:induction false} BusyWorkAll(b: Batch, ws: seq<Work>)
    requires b.requiredCount >= 1
    ensures Run(b, EventsAll(ws)) == Outcome(Batch(b.requiredCount, b.items + ItemsAll(ws)), [])
    decreases ws
  {
    if ws != [] {
      var mid := Batch(b.requiredCount, b.items + Items(ws[0]));
      var end := Batch(b.requiredCount, b.items + ItemsAll(ws));
      BusyWork(b, ws[0]);
      BusyWorkAll(mid, ws[1..]);
      assert mid.items + ItemsAll(ws[1..]) == end.items;
      RunQuiet(b, Events(ws[0]), EventsAll(ws[1..]), mid, end);
    }
  }

  /**
   * A balanced nest opened with no batch open: exactly one drain, at its final
   * commit, holding what was pending and then every item enqueued inside the
   * nest, each once and in enqueue order; afterwards the view is idle.
   */
  lemma IdleBracket(b: Batch, body: seq<Work>)
    requires b.requiredCount <= 0
    ensures Run(b, Events(Bracket(body))) == Outcome(Idle, [b.items + ItemsAll(body)])
  {
    RunAppend(b, [BeginEvent] + EventsAll(body), [CommitEvent]);
    RunAppend(b, [BeginEvent], EventsAll(body));
    BusyWorkAll(Begin(b), body);
  }
}
