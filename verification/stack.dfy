/**
 * The dispatcher: a FIFO list of stages, a cursor into it and a terminal
 * continuation `done`. Each call rewinds the cursor and runs a recursive step
 * that takes the stage under the cursor, advances the cursor, and calls the
 * stage with the step itself as `next`; past the last stage it calls `done`.
 */
module Pipeline {
  import opened Wrappers
  import opened Http
  import opened Middleware

  /** An entry of the array handed to the constructor: a callable stage, or anything else. */
  datatype Item = Callable(stage: Stage) | NotCallable

  /** The callable items, in their original order. */
  function Callables(items: seq<Item>): seq<Stage>
    decreases |items|
  {
    if items == [] then []
    else (if items[0].Callable? then [items[0].stage] else []) + Callables(items[1..])
  }

  /** Filtering distributes over concatenation, so the relative order of the kept items is preserved. */
  lemma {:induction false} CallablesAppend(a: seq<Item>, b: seq<Item>)
    ensures Callables(a + b) == Callables(a) + Callables(b)
    decreases |a|
  {
    if a == [] {
      assert a + b == b;
    } else {
      assert (a + b)[0] == a[0];
      assert (a + b)[1..] == a[1..] + b;
      CallablesAppend(a[1..], b);
    }
  }

  /** Exactly the callable items are kept. */
  lemma {:induction false} CallablesKeepExactly(items: seq<Item>, s: Stage)
    ensures s in Callables(items) <==> Callable(s) in items
    decreases |items|
  {
    if items != [] {
      CallablesKeepExactly(items[1..], s);
      assert items == [items[0]] + items[1..];
    }
  }

  /** What a run did, in order: a stage entered (by its index), or the terminal called. */
  datatype Event = StageCalled(index: nat) | TerminalCalled

  /** The result of a run and what it called. */
  datatype Trace = Trace(result: Result<Response, Error>, events: seq<Event>)

  /**
   * The step with the cursor at `k`: past the end, `done` settled against the
   * response; otherwise the stage at `k`, whose `next` is the step at `k + 1`.
   */
  function Run(stages: seq<Stage>, k: nat, done: Continuation, req: Request, resp: Response): Trace
    decreases |stages| - k
  {
    if k >= |stages| then
      Trace(Settle(done(req, resp), resp), [TerminalCalled])
    else
      match stages[k]
      case Delegate(edit) =>
        var down := Run(stages, k + 1, done, edit(req, resp).0, edit(req, resp).1);
        Trace(down.result, [StageCalled(k)] + down.events)
      case DelegateAndDrop(edit) =>
        var down := Run(stages, k + 1, done, edit(req, resp).0, edit(req, resp).1);
        Trace(if down.result.Failure? then down.result else Success(resp), [StageCalled(k)] + down.events)
      case Answer(reply) =>
        Trace(Success(reply(req, resp).GetOr(resp)), [StageCalled(k)])
      case Raise(raise) =>
        Trace(Failure(raise(req, resp)), [StageCalled(k)])
  }

  /** The step at `k + 1`, as the callable handed to the stage at `k`. */
  function Next(stages: seq<Stage>, k: nat, done: Continuation): Continuation {
    (q: Request, p: Response) => Lift(Run(stages, k + 1, done, q, p).result)
  }

  /**
   * Each step obeys the stage contract: its result is the stage framed with the
   * next step as `next`.
   */
  lemma RunFollowsContract(stages: seq<Stage>, k: nat, done: Continuation, req: Request, resp: Response)
    requires k < |stages|
    ensures Run(stages, k, done, req, resp).result == Frame(stages[k], req, resp, Next(stages, k, done))
  {
    var next := Next(stages, k, done);
    if Forwards(stages[k]) {
      var edit := stages[k].edit;
      var down := Run(stages, k + 1, done, edit(req, resp).0, edit(req, resp).1);
      assert next(edit(req, resp).0, edit(req, resp).1) == Lift(down.result);
    }
  }

  /** Regrouping a concatenation; stated once so the dispatcher's proof stays small. */
  lemma SeqAssoc<T>(a: seq<T>, b: seq<T>, c: seq<T>)
    ensures a + b + c == a + (b + c)
  {
  }

  /** How many stages a list of events entered. */
  function Entries(events: seq<Event>): nat
    decreases |events|
  {
    if events == [] then 0
    else (if events[0].StageCalled? then 1 else 0) + Entries(events[1..])
  }

  /** The events of one step: the stage's own entry, then (when it forwards) those of the next step. */
  lemma EventsOfStep(stages: seq<Stage>, k: nat, done: Continuation, req: Request, resp: Response)
    requires k < |stages|
    ensures var ev := Run(stages, k, done, req, resp).events;
      var down := if Forwards(stages[k]) then Run(stages, k + 1, done, stages[k].edit(req, resp).0, stages[k].edit(req, resp).1).events else [];
      ev == [StageCalled(k)] + down && Entries(ev) == 1 + Entries(down)
  {
    var ev := Run(stages, k, done, req, resp).events;
    assert ev[1..] == if Forwards(stages[k]) then Run(stages, k + 1, done, stages[k].edit(req, resp).0, stages[k].edit(req, resp).1).events else [];
  }

  /** Stages `k`, `k + 1`, …, `j - 1` entered in that order. */
  function Entered(k: nat, j: nat): seq<Event>
    decreases j - k
  {
    if k >= j then [] else [StageCalled(k)] + Entered(k + 1, j)
  }

  /** The pair as rewritten by the stages at `k`, …, `j - 1` in turn. */
  function Thread(stages: seq<Stage>, k: nat, j: nat, req: Request, resp: Response): (Request, Response)
    decreases j - k
  {
    if k >= j || k >= |stages| then (req, resp)
    else
      var (q, p) := EditOf(stages[k])(req, resp);
      Thread(stages, k + 1, j, q, p)
  }

  /**
   * Stages are entered in registration order starting at the cursor, one index
   * per event, each index within the list; the terminal, when called, is the
   * last event and comes only once every remaining stage has been entered.
   */
  lemma {:induction false} TraceShape(stages: seq<Stage>, k: nat, done: Continuation, req: Request, resp: Response)
    ensures var ev := Run(stages, k, done, req, resp).events;
      && |ev| > 0
      && (forall i :: 0 <= i < |ev| && ev[i].StageCalled? ==> ev[i].index == k + i && k + i < |stages|)
      && (forall i :: 0 <= i < |ev| && ev[i].TerminalCalled? ==> i == |ev| - 1 && k + i >= |stages|)
    decreases |stages| - k
  {
    if k < |stages| && Forwards(stages[k]) {
      var (q, p) := stages[k].edit(req, resp);
      TraceShape(stages, k + 1, done, q, p);
      var down := Run(stages, k + 1, done, q, p).events;
      var ev := Run(stages, k, done, req, resp).events;
      assert ev == [StageCalled(k)] + down;
      forall i | 0 < i < |ev|
        ensures ev[i] == down[i - 1]
      {
      }
    }
  }

  /** No stage is entered twice in one run, and the terminal is called at most once. */
  lemma AtMostOnce(stages: seq<Stage>, k: nat, done: Continuation, req: Request, resp: Response)
    ensures var ev := Run(stages, k, done, req, resp).events;
      forall i, j :: 0 <= i < j < |ev| ==> ev[i] != ev[j]
  {
    TraceShape(stages, k, done, req, resp);
  }

  /** The cursor ends one past the last stage entered. */
  lemma {:induction false} EntriesOfRun(stages: seq<Stage>, k: nat, done: Continuation, req: Request, resp: Response)
    ensures k + Entries(Run(stages, k, done, req, resp).events) <= if k <= |stages| then |stages| else k
    decreases |stages| - k
  {
    var ev := Run(stages, k, done, req, resp).events;
    if k >= |stages| {
      assert ev[1..] == [];
    } else {
      assert ev[1..] == (if Forwards(stages[k]) then Run(stages, k + 1, done, stages[k].edit(req, resp).0, stages[k].edit(req, resp).1).events else []);
      if Forwards(stages[k]) {
        var (q, p) := stages[k].edit(req, resp);
        EntriesOfRun(stages, k + 1, done, q, p);
      }
    }
  }

  /**
   * A stage that does not call `next` ends the run: when every stage before it
   * forwards, exactly the stages up to and including it are entered, no later
   * stage and not the terminal. When every stage before it delegates, what it
   * makes of the pair they rewrote is the result: its answer (or that pair's
   * response when it answers nothing), or its exception.
   */
  lemma {:induction false} NonForwardingStops(stages: seq<Stage>, k: nat, j: nat, done: Continuation, req: Request, resp: Response)
    requires k <= j < |stages|
    requires !Forwards(stages[j])
    requires forall i :: k <= i < j ==> Forwards(stages[i])
    ensures Run(stages, k, done, req, resp).events == Entered(k, j + 1)
    ensures (forall i :: k <= i < j ==> stages[i].Delegate?) ==>
      var (q, p) := Thread(stages, k, j, req, resp);
      Run(stages, k, done, req, resp).result ==
        match stages[j]
        case Answer(reply) => Success(reply(q, p).GetOr(p))
        case Raise(raise) => Failure(raise(q, p))
    decreases j - k
  {
    if k == j {
      assert Entered(k + 1, j + 1) == [];
    } else {
      var (q, p) := stages[k].edit(req, resp);
      NonForwardingStops(stages, k + 1, j, done, q, p);
    }
  }

  /**
   * With every stage from `k` on delegating, the result is what `done` makes of
   * the pair rewritten by each stage in order (or that pair's response if `done`
   * returns nothing).
   */
  lemma {:induction false} DelegatesReachTerminal(stages: seq<Stage>, k: nat, done: Continuation, req: Request, resp: Response)
    requires k <= |stages|
    requires forall i :: k <= i < |stages| ==> stages[i].Delegate?
    ensures var (q, p) := Thread(stages, k, |stages|, req, resp);
      Run(stages, k, done, req, resp).result == Settle(done(q, p), p)
    decreases |stages| - k
  {
    if k < |stages| {
      var (q, p) := stages[k].edit(req, resp);
      DelegatesReachTerminal(stages, k + 1, done, q, p);
    }
  }

  /**
   * With every stage from `k` on forwarding, every one is entered and then the
   * terminal is called; an exception from the terminal leaves the run unchanged.
   */
  lemma {:induction false} ForwardersReachTerminal(stages: seq<Stage>, k: nat, done: Continuation, req: Request, resp: Response)
    requires k <= |stages|
    requires forall i :: k <= i < |stages| ==> Forwards(stages[i])
    ensures Run(stages, k, done, req, resp).events == Entered(k, |stages|) + [TerminalCalled]
    ensures var (q, p) := Thread(stages, k, |stages|, req, resp);
      done(q, p).Failure? ==> Run(stages, k, done, req, resp).result == Failure(done(q, p).error)
    decreases |stages| - k
  {
    if k < |stages| {
      var (q, p) := stages[k].edit(req, resp);
      ForwardersReachTerminal(stages, k + 1, done, q, p);
      assert Entered(k, |stages|) + [TerminalCalled] == [StageCalled(k)] + (Entered(k + 1, |stages|) + [TerminalCalled]);
    }
  }

  /** The stage list of the repository's own test: headers 1 and 2 delegate, 3 drops, 4 delegates. */
  function StackTestStages(): seq<Stage> {
    [ Delegate((q: Request, p: Response) => (q, p.WithHeader("X-Header1", ["dummy"]))),
      Delegate((q: Request, p: Response) => (q, p.WithHeader("X-Header2", ["dummy"]))),
      DelegateAndDrop((q: Request, p: Response) => (q, p.WithHeader("X-Header3", ["dummy"]))),
      Delegate((q: Request, p: Response) => (q, p.WithHeader("X-Header4", ["dummy"]))) ]
  }

  /**
   * The third stage drops what stage four and the terminal produced, so the
   * result carries headers 1 and 2 and neither 3 nor 4, although all four
   * stages and the terminal ran.
   */
  lemma StackTestScenario(req: Request, resp: Response)
    requires !resp.HasHeader("X-Header3") && !resp.HasHeader("X-Header4")
    ensures var t := Run(StackTestStages(), 0, (q: Request, p: Response) => Success(Some(p)), req, resp);
      && t.result.Success?
      && t.result.value.HeaderLine("X-Header1") == "dummy"
      && t.result.value.HeaderLine("X-Header2") == "dummy"
      && !t.result.value.HasHeader("X-Header3")
      && !t.result.value.HasHeader("X-Header4")
      && t.events == [StageCalled(0), StageCalled(1), StageCalled(2), StageCalled(3), TerminalCalled]
  {
    StackTestRun(req, resp);
    var r1 := resp.WithHeader("X-Header1", ["dummy"]);
    NamesDiffer("X-Header1", "X-Header2", 8);
    NamesDiffer("X-Header3", "X-Header1", 8);
    NamesDiffer("X-Header3", "X-Header2", 8);
    NamesDiffer("X-Header4", "X-Header1", 8);
    NamesDiffer("X-Header4", "X-Header2", 8);
    WithField(resp.headers, "X-Header1", ["dummy"], "X-Header1");
    WithField(r1.headers, "X-Header2", ["dummy"], "X-Header1");
    WithField(r1.headers, "X-Header2", ["dummy"], "X-Header2");
    WithField(resp.headers, "X-Header1", ["dummy"], "X-Header3");
    WithField(r1.headers, "X-Header2", ["dummy"], "X-Header3");
    WithField(resp.headers, "X-Header1", ["dummy"], "X-Header4");
    WithField(r1.headers, "X-Header2", ["dummy"], "X-Header4");
  }

  /** The test's run, step by step: the third stage's result is the response the first two stages built. */
  lemma StackTestRun(req: Request, resp: Response)
    ensures Run(StackTestStages(), 0, (q: Request, p: Response) => Success(Some(p)), req, resp)
              == Trace(Success(resp.WithHeader("X-Header1", ["dummy"]).WithHeader("X-Header2", ["dummy"])),
                       [StageCalled(0), StageCalled(1), StageCalled(2), StageCalled(3), TerminalCalled])
  {
    var stages := StackTestStages();
    var done: Continuation := (q: Request, p: Response) => Success(Some(p));
    var r1 := resp.WithHeader("X-Header1", ["dummy"]);
    var r2 := r1.WithHeader("X-Header2", ["dummy"]);
    var r3 := r2.WithHeader("X-Header3", ["dummy"]);
    var r4 := r3.WithHeader("X-Header4", ["dummy"]);
    assert Run(stages, 4, done, req, r4) == Trace(Success(r4), [TerminalCalled]);
    assert Run(stages, 3, done, req, r3) == Trace(Success(r4), [StageCalled(3), TerminalCalled]);
    assert Run(stages, 2, done, req, r2) == Trace(Success(r2), [StageCalled(2), StageCalled(3), TerminalCalled]);
    assert Run(stages, 1, done, req, r1) == Trace(Success(r2), [StageCalled(1), StageCalled(2), StageCalled(3), TerminalCalled]);
  }

  /** Two names that differ in a character that is not a letter are different fields. */
  lemma NamesDiffer(a: string, b: string, i: nat)
    requires i < |a| && i < |b| && a[i] != b[i] && !('A' <= a[i] <= 'Z') && !('a' <= a[i] <= 'z')
    requires !('A' <= b[i] <= 'Z') && !('a' <= b[i] <= 'z')
    ensures !SameName(a, b) && !SameName(b, a)
  {
    assert Lower(a)[i] == a[i] && Lower(b)[i] == b[i];
  }

  /**
   * The stack: the stage list, the list's iteration cursor and the terminal
   * continuation of the current call, with a ghost log of every stage entered
   * and every terminal call.
   */
  class Stack {
    var stages: seq<Stage>
    var cursor: nat
    var done: Option<Continuation>
    ghost var log: seq<Event>

    /** The cursor is on a stage, or just past the last one (no current element). */
    ghost predicate Valid()
      reads this
    {
      cursor <= |stages|
    }

    /**
     * Keeps the callable items in their order. The list's iterator is not
     * rewound here, so it starts with no current element.
     */
    constructor (items: seq<Item>)
      ensures Valid()
      ensures stages == Callables(items)
      ensures cursor == |stages| && done == None && log == []
    {
      var list: seq<Stage> := [];
      var i := 0;
      while i < |items|
        invariant 0 <= i <= |items|
        invariant list == Callables(items[..i])
      {
        CallablesAppend(items[..i], [items[i]]);
        assert items[..i + 1] == items[..i] + [items[i]];
        if items[i].Callable? {
          list := list + [items[i].stage];
        }
        i := i + 1;
      }
      assert items[..i] == items;
      stages := list;
      cursor := |list|;
      done := None;
      log := [];
    }

    /** The dispatcher closure: one frame per stage, the terminal past the end. */
    method Dispatch(req: Request, resp: Response) returns (r: Result<Response, Error>)
      requires Valid() && done.Some?
      modifies this`cursor, this`log
      ensures Valid()
      ensures r == Run(stages, old(cursor), done.value, req, resp).result
      ensures log == old(log) + Run(stages, old(cursor), done.value, req, resp).events
      ensures cursor == old(cursor) + Entries(Run(stages, old(cursor), done.value, req, resp).events)
      decreases |stages| - cursor
    {
      if cursor == |stages| {
        // no stage remains: call the terminal and fall back to the response given
        log := log + [TerminalCalled];
        r := Settle(done.value(req, resp), resp);
        return;
      }
      var k := cursor;
      var layer := stages[k];
      ghost var before := log;
      cursor := cursor + 1;
      log := log + [StageCalled(k)];
      ghost var st, d := stages, done.value;
      EventsOfStep(st, k, d, req, resp);
      match layer {
        case Delegate(edit) =>
          var pair := edit(req, resp);
          var down := Dispatch(pair.0, pair.1);
          r := Settle(Lift(down), resp);
          SeqAssoc(before, [StageCalled(k)], Run(st, k + 1, d, pair.0, pair.1).events);
        case DelegateAndDrop(edit) =>
          var pair := edit(req, resp);
          var down := Dispatch(pair.0, pair.1);
          // the stage returns nothing, so its step settles to the response it was given
          r := Settle(if down.Failure? then Failure(down.error) else Success(None), resp);
          SeqAssoc(before, [StageCalled(k)], Run(st, k + 1, d, pair.0, pair.1).events);
        case Answer(reply) =>
          r := Settle(Success(reply(req, resp)), resp);
        case Raise(raise) =>
          r := Settle(Failure(raise(req, resp)), resp);
      }
    }

    /**
     * `__invoke`: rewind, record the terminal, dispatch. The result depends only
     * on the stage list and the arguments, never on an earlier call's cursor.
     */
    method Invoke(req: Request, resp: Response, next: Continuation) returns (r: Result<Response, Error>)
      requires Valid()
      modifies this`cursor, this`done, this`log
      ensures Valid() && done == Some(next)
      ensures r == Run(stages, 0, next, req, resp).result
      ensures log == old(log) + Run(stages, 0, next, req, resp).events
      ensures cursor == Entries(Run(stages, 0, next, req, resp).events)
      ensures |stages| == 0 ==> r == Settle(next(req, resp), resp)
    {
      cursor := 0;
      done := Some(next);
      // every frame settles to a response, so the outer fallback to the given response never applies
      r := Dispatch(req, resp);
    }
  }
}
