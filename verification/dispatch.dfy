/** The event dispatcher of the callback core: a reentrancy-guarded FIFO drain
    loop, the driver binding, and the per-cycle reconciliation of pending
    configuration options and actions that follows a wake-up. */
module Dispatch {
  import opened Base
  import opened Mado
  import Window

  /** A call the core makes on the window or the driver, in the order made. */
  datatype Call =
    | Processed(event: Event, ime: EditorState)  // Window.ProcessEvent, with the editor state it saw
    | StateUpdated                               // Window.UpdateState
    | Configured(opts: seq<WindowOption>)        // Driver.Configure
    | Performed(acts: Actions)                   // Driver.Perform

  /** The dispatcher: its window, the bound driver (None when unbound), the
      reentrancy flag, the queue of events waiting to be processed, and the
      trace of calls made so far. */
  datatype Callbacks = Callbacks(
    w: Window.State,
    d: Option<Driver>,
    busy: bool,
    waitEvents: seq<Event>,
    trace: seq<Call>)

  /** The invariant of every state between calls: events wait in the queue
      only while a drain is running. */
  predicate Valid(c: Callbacks)
  {
    !c.busy ==> c.waitEvents == []
  }

  const NoDriverMessage := "event while no driver active"

  // ---------------------------------------------------------------------
  // Runs of the drain loop

  /** One iteration of the drain loop: the event taken from the queue, the
      window state it was processed in, and what processing it amounted to. */
  datatype Delivery = Delivery(event: Event, before: Window.State, step: Window.Step)

  /** The window state after a run that started in `w0`. */
  function Final(w0: Window.State, run: seq<Delivery>): Window.State
  {
    if run == [] then w0 else run[|run| - 1].step.window
  }

  /** The run is what the window really does: each event is processed in the
      state the previous one left behind, starting from `w0`. */
  predicate Chained(ops: Window.Ops, d: Driver, w0: Window.State, run: seq<Delivery>)
    decreases |run|
  {
    run == [] ||
    (var prefix := run[..|run| - 1];
     var x := run[|run| - 1];
     && Chained(ops, d, w0, prefix)
     && x.before == Final(w0, prefix)
     && x.step == ops.process(x.before, d, x.event))
  }

  /** The events a run processed, in order. */
  function Events(run: seq<Delivery>): (es: seq<Event>)
    ensures |es| == |run|
    ensures forall i :: 0 <= i < |run| ==> es[i] == run[i].event
  {
    seq(|run|, i requires 0 <= i < |run| => run[i].event)
  }

  /** The events submitted from inside processing during a run, in call order. */
  function Submitted(run: seq<Delivery>): seq<Event>
    decreases |run|
  {
    if run == [] then [] else Submitted(run[..|run| - 1]) + run[|run| - 1].step.submitted
  }

  /** The `ProcessEvent` calls of a run, as trace entries. */
  function Processes(run: seq<Delivery>): (calls: seq<Call>)
    ensures |calls| == |run|
    ensures forall i :: 0 <= i < |run| ==> calls[i] == Processed(run[i].event, run[i].before.ime)
  {
    seq(|run|, i requires 0 <= i < |run| => Processed(run[i].event, run[i].before.ime))
  }

  /** The first delivery of a run is processed in the run's initial state. */
  lemma {:induction false} ChainedFirst(ops: Window.Ops, d: Driver, w0: Window.State, run: seq<Delivery>)
    requires run != [] && Chained(ops, d, w0, run)
    ensures run[0].before == w0
    decreases |run|
  {
    var prefix := run[..|run| - 1];
    if prefix != [] {
      ChainedFirst(ops, d, w0, prefix);
      assert run[0] == prefix[0];
    }
  }

  /** Nothing is submitted during a run whose steps submit nothing. */
  lemma {:induction false} NoSubmissions(run: seq<Delivery>)
    requires forall i :: 0 <= i < |run| ==> run[i].step.submitted == []
    ensures Submitted(run) == []
    decreases |run|
  {
    if run != [] {
      NoSubmissions(run[..|run| - 1]);
    }
  }

  /** A FIFO run in which the window submits nothing processes exactly the
      queue it started from, in order. */
  lemma {:induction false} SilentRun(run: seq<Delivery>, queue0: seq<Event>)
    requires forall i :: 0 <= i < |run| ==> run[i].step.submitted == []
    requires Events(run) == queue0 + Submitted(run)
    ensures Events(run) == queue0
  {
    NoSubmissions(run);
    assert queue0 + [] == queue0;
  }

  /** A window that never calls back into the core while processing. */
  ghost predicate Quiet(ops: Window.Ops)
  {
    forall w, d, e :: ops.process(w, d, e).submitted == []
  }

  /** In a real run of a quiet window no step submits anything. */
  lemma {:induction false} QuietRun(ops: Window.Ops, d: Driver, w0: Window.State, run: seq<Delivery>)
    requires Quiet(ops) && Chained(ops, d, w0, run)
    ensures forall i :: 0 <= i < |run| ==> run[i].step.submitted == []
    decreases |run|
  {
    if run != [] {
      var prefix := run[..|run| - 1];
      QuietRun(ops, d, w0, prefix);
      forall i | 0 <= i < |run|
        ensures run[i].step.submitted == []
      {
        if i < |prefix| {
          assert run[i] == prefix[i];
        }
      }
    }
  }

  /** A real FIFO run of a quiet window processes exactly the initial queue. */
  lemma QuietDrained(ops: Window.Ops, d: Driver, w0: Window.State, run: seq<Delivery>, queue0: seq<Event>)
    requires Quiet(ops) && Chained(ops, d, w0, run)
    requires Events(run) == queue0 + Submitted(run)
    ensures Events(run) == queue0
  {
    QuietRun(ops, d, w0, run);
    SilentRun(run, queue0);
  }

  /** A real delivery extends a real run. */
  lemma ChainedStep(ops: Window.Ops, d: Driver, w0: Window.State, run: seq<Delivery>, x: Delivery)
    requires Chained(ops, d, w0, run)
    requires x.before == Final(w0, run) && x.step == ops.process(x.before, d, x.event)
    ensures Chained(ops, d, w0, run + [x]) && Final(w0, run + [x]) == x.step.window
  {
    assert (run + [x])[..|run|] == run;
  }

  /** Taking the head of the queue and appending the submissions keeps the
      processed events and the queue together equal to the initial queue
      followed by all submissions. */
  lemma FifoStep(run: seq<Delivery>, queue: seq<Event>, queue0: seq<Event>, x: Delivery)
    requires Events(run) + queue == queue0 + Submitted(run)
    requires |queue| > 0 && x.event == queue[0]
    ensures |run| < |queue0| + |Submitted(run)|
    ensures Events(run + [x]) + (queue[1..] + x.step.submitted) == queue0 + Submitted(run + [x])
  {
    assert |Events(run) + queue| == |queue0 + Submitted(run)|;
    EventsSnoc(run, x);
    assert (run + [x])[..|run|] == run;
    SeqStep(Events(run), queue, queue0 + Submitted(run), x.step.submitted);
  }

  lemma EventsSnoc(run: seq<Delivery>, x: Delivery)
    ensures Events(run + [x]) == Events(run) + [x.event]
  {
  }

  /** Moving the head of a queue to the processed side and appending to both. */
  lemma SeqStep<T>(done: seq<T>, queue: seq<T>, total: seq<T>, more: seq<T>)
    requires done + queue == total && |queue| > 0
    ensures (done + [queue[0]]) + (queue[1..] + more) == total + more
  {
    assert [queue[0]] + queue[1..] == queue;
    calc {
      (done + [queue[0]]) + (queue[1..] + more);
      done + ([queue[0]] + queue[1..]) + more;
    }
  }

  /** A delivery made while the processed events are still fewer than those
      queued or submitted so far keeps every delivery after its submission. */
  lemma CausalStep(run: seq<Delivery>, queue0: seq<Event>, x: Delivery)
    requires forall i :: 0 <= i < |run| ==> i < |queue0| + |Submitted(run[..i])|
    requires |run| < |queue0| + |Submitted(run)|
    ensures forall i :: 0 <= i < |run + [x]| ==> i < |queue0| + |Submitted((run + [x])[..i])|
  {
    forall i | 0 <= i < |run + [x]|
      ensures i < |queue0| + |Submitted((run + [x])[..i])|
    {
      if i < |run| {
        assert (run + [x])[..i] == run[..i];
      } else {
        assert (run + [x])[..i] == run;
      }
    }
  }

  /** While events wait, what was processed is a proper prefix of the initial
      queue followed by all submissions. */
  lemma WaitingPrefix(run: seq<Delivery>, queue: seq<Event>, queue0: seq<Event>)
    requires Events(run) + queue == queue0 + Submitted(run)
    requires |queue| > 0
    ensures Events(run) < queue0 + Submitted(run)
  {
    assert (Events(run) + queue)[..|Events(run)|] == Events(run);
  }

  /** Draining `queue0` from `w0` does not finish within `fuel` deliveries:
      there is a real run of exactly `fuel` deliveries, each processing an
      event already queued or submitted, after which events still wait. */
  ghost predicate RunsOut(ops: Window.Ops, d: Driver, w0: Window.State, queue0: seq<Event>, fuel: nat)
  {
    exists run ::
      && |run| == fuel
      && Chained(ops, d, w0, run)
      && (forall i :: 0 <= i < |run| ==> i < |queue0| + |Submitted(run[..i])|)
      && Events(run) < queue0 + Submitted(run)
  }

  datatype DrainResult = Drained(handled: bool, run: seq<Delivery>, window: Window.State) | Exhausted

  /** The drain loop: take events from the front of the queue and process
      them until the queue is empty; events the window submits while
      processing join the back of the queue. `fuel` bounds the number of
      iterations. */
  method Drain(ops: Window.Ops, d: Driver, w0: Window.State, queue0: seq<Event>, fuel: nat)
    returns (r: DrainResult)
    ensures r.Drained? ==>
      // every processing call is real and sees the state its predecessor left
      && Chained(ops, d, w0, r.run)
      && r.window == Final(w0, r.run)
      // FIFO: the initial queue, then every submission in submission order
      && Events(r.run) == queue0 + Submitted(r.run)
      // an event is processed only after it has been submitted
      && (forall i :: 0 <= i < |r.run| ==> i < |queue0| + |Submitted(r.run[..i])|)
      // the answer is that of the last processed event
      && r.handled == (r.run != [] && r.run[|r.run| - 1].step.handled)
    ensures r.Drained? ==> |r.run| <= fuel
    ensures Quiet(ops) && |queue0| <= fuel ==> r.Drained?
    // giving up means `fuel` real deliveries were made and events still wait
    ensures r.Exhausted? ==> RunsOut(ops, d, w0, queue0, fuel)
  {
    var queue := queue0;
    var w := w0;
    var run: seq<Delivery> := [];
    var handled := false;
    var left: nat := fuel;
    while |queue| > 0
      invariant Chained(ops, d, w0, run) && w == Final(w0, run)
      invariant Events(run) + queue == queue0 + Submitted(run)
      invariant forall i :: 0 <= i < |run| ==> i < |queue0| + |Submitted(run[..i])|
      invariant handled == (run != [] && run[|run| - 1].step.handled)
      invariant left + |run| == fuel
      invariant Quiet(ops) ==> |run| + |queue| == |queue0|
      decreases left
    {
      if left == 0 {
        WaitingPrefix(run, queue, queue0);
        return Exhausted;
      }
      var e := queue[0];
      var s := ops.process(w, d, e);
      var x := Delivery(e, w, s);
      ChainedStep(ops, d, w0, run, x);
      FifoStep(run, queue, queue0, x);
      CausalStep(run, queue0, x);
      run := run + [x];
      queue := queue[1..] + s.submitted;
      w := s.window;
      handled := s.handled;
      left := left - 1;
    }
    return Drained(handled, run, w);
  }

  // ---------------------------------------------------------------------
  // Post-drain reconciliation

  /** Applies options one after the other, first option first, to a
      configuration. */
  function FoldOptions(apply: (WindowOption, Config) -> Config, opts: seq<WindowOption>, cnf: Config): (r: Config)
    ensures opts == [] ==> r == cnf
    // the last option acts on what all the earlier ones produced
    ensures opts != [] ==> r == apply(opts[|opts| - 1], FoldOptions(apply, opts[..|opts| - 1], cnf))
    decreases |opts|
  {
    if opts == [] then cnf
    else
      assert |opts| > 1 ==> opts[..|opts| - 1][1..] == opts[1..][..|opts| - 2];
      FoldOptions(apply, opts[1..], apply(opts[0], cnf))
  }

  /** Folding a concatenation folds the second part over the first's result. */
  lemma {:induction false} FoldAppend(apply: (WindowOption, Config) -> Config, a: seq<WindowOption>, b: seq<WindowOption>, cnf: Config)
    ensures FoldOptions(apply, a + b, cnf) == FoldOptions(apply, b, FoldOptions(apply, a, cnf))
    decreases |a|
  {
    if a == [] {
      assert a + b == b;
    } else {
      assert (a + b)[1..] == a[1..] + b;
      FoldAppend(apply, a[1..], b, apply(a[0], cnf));
    }
  }

  /** Left-to-right order: the last option is applied to the result of all
      the earlier ones. */
  lemma FoldSnoc(apply: (WindowOption, Config) -> Config, opts: seq<WindowOption>, o: WindowOption, cnf: Config)
    ensures FoldOptions(apply, opts + [o], cnf) == apply(o, FoldOptions(apply, opts, cnf))
  {
    FoldAppend(apply, opts, [o], cnf);
    assert [o][1..] == [];
  }

  /** The decoration height sent to the driver: zero when decorations are off. */
  function DecoHeight(enabled: bool, height: int): int
  {
    if enabled then height else 0
  }

  /** Receives a pending options batch, if any: folds it over a configuration
      seeded with the current decoration flag, writes the folded flag back and
      hands the options, with the derived decoration height appended, to the
      driver. */
  function ApplyOptions(ops: Window.Ops, c: Callbacks): (r: Callbacks)
    ensures r.d == c.d && r.busy == c.busy && r.waitEvents == c.waitEvents
    ensures c.w.options.None? ==> r == c
    ensures c.w.options.Some? ==>
      var opts := c.w.options.value;
      var enabled := FoldOptions(ops.apply, opts, SeedConfig(c.w.decorations.enabled)).decorated;
      // the slot is consumed and only the decoration flag changes otherwise
      && r.w == c.w.(options := None, decorations := c.w.decorations.(enabled := enabled))
      // exactly one Configure call, with the options and one height option last
      && |r.trace| == |c.trace| + 1 && r.trace[..|c.trace|] == c.trace
      && r.trace[|c.trace|].Configured?
      && |r.trace[|c.trace|].opts| == |opts| + 1
      && r.trace[|c.trace|].opts[..|opts|] == opts
      && r.trace[|c.trace|].opts[|opts|] == DecoHeightOpt(if enabled then c.w.decorations.height else 0)
  {
    match c.w.options
    case None => c
    case Some(opts) =>
      var cnf := FoldOptions(ops.apply, opts, SeedConfig(c.w.decorations.enabled));
      var deco := c.w.decorations.(enabled := cnf.decorated);
      var sent := opts + [DecoHeightOpt(DecoHeight(deco.enabled, deco.height))];
      assert sent[..|opts|] == opts;
      c.(w := c.w.(options := None, decorations := deco), trace := c.trace + [Configured(sent)])
  }

  /** Receives a pending actions batch, if any, and hands it to the driver. */
  function ApplyActions(c: Callbacks): (r: Callbacks)
    ensures r.d == c.d && r.busy == c.busy && r.waitEvents == c.waitEvents
    ensures c.w.actions.None? ==> r == c
    ensures c.w.actions.Some? ==>
      && r.w == c.w.(actions := None)
      && r.trace == c.trace + [Performed(c.w.actions.value)]
  {
    match c.w.actions
    case None => c
    case Some(acts) => c.(w := c.w.(actions := None), trace := c.trace + [Performed(acts)])
  }

  /** What follows a top-level drain: nothing at all once teardown is
      signalled; otherwise the window's state update, and, only when the
      triggering event is a wake-up, the pending options and then the pending
      actions. */
  function Reconcile(ops: Window.Ops, c: Callbacks, d: Driver, trigger: Event): (r: Callbacks)
    ensures r.d == c.d && r.busy == c.busy && r.waitEvents == c.waitEvents
    ensures c.trace <= r.trace
    ensures c.w.destroy ==> r == c
    // the state update is the first call after the drain
    ensures !c.w.destroy ==> |r.trace| > |c.trace| && r.trace[|c.trace|] == StateUpdated
    // without a wake-up, nothing but the state update happens
    ensures !c.w.destroy && !trigger.WakeupEvent? ==>
      r == c.(w := ops.updateState(c.w, d), trace := c.trace + [StateUpdated])
    // after a wake-up: one Configure iff options were pending, then one
    // Perform iff actions were pending, both read after the state update
    ensures !c.w.destroy && trigger.WakeupEvent? ==>
      var u := ops.updateState(c.w, d);
      && |r.trace| == |c.trace| + 1 + (if u.options.Some? then 1 else 0) + (if u.actions.Some? then 1 else 0)
      && (u.options.Some? ==> r.trace[|c.trace| + 1].Configured?)
      && (u.actions.Some? ==> r.trace[|r.trace| - 1] == Performed(u.actions.value))
      && r.w.options.None? && r.w.actions.None?
    ensures !c.w.destroy && trigger.WakeupEvent? ==>
      r == ApplyActions(ApplyOptions(ops, c.(w := ops.updateState(c.w, d), trace := c.trace + [StateUpdated])))
  {
    if c.w.destroy then c
    else
      var u := c.(w := ops.updateState(c.w, d), trace := c.trace + [StateUpdated]);
      if trigger.WakeupEvent? then ApplyActions(ApplyOptions(ops, u)) else u
  }

  // ---------------------------------------------------------------------
  // Event

  /** The result of `Event`: the `handled` answer, the dispatcher afterwards,
      and the deliveries this call performed (empty for a nested call). */
  datatype Dispatched = Dispatched(handled: bool, next: Callbacks, run: seq<Delivery>)

  /** The drain contract of a top-level `Event` call: the deliveries are real
      and FIFO over the queue with `e` appended, no event is processed before
      it was queued or submitted, the answer is the last
      delivery's, and the dispatcher ends idle with the reconciliation applied
      to the drained window. */
  predicate TopLevel(ops: Window.Ops, c: Callbacks, e: Event, x: Dispatched)
    requires c.d.Some?
  {
    && x.run != []
    && Chained(ops, c.d.value, c.w, x.run)
    && Events(x.run) == c.waitEvents + [e] + Submitted(x.run)
    && (forall i :: 0 <= i < |x.run| ==> i < |c.waitEvents| + 1 + |Submitted(x.run[..i])|)
    && x.handled == x.run[|x.run| - 1].step.handled
    && x.next == Reconcile(ops, Callbacks(Final(c.w, x.run), c.d, false, [], c.trace + Processes(x.run)), c.d.value, e)
  }

  /** Submits `e`. Without a driver this panics before touching the queue.
      While a drain is running it only appends `e` and answers true.
      Otherwise it drains the queue, then reconciles. */
  method Event(ops: Window.Ops, c: Callbacks, e: Event, fuel: nat) returns (r: Outcome<Dispatched>)
    ensures c.d.None? <==> r.Panic?
    ensures c.d.None? ==> r == Panic(NoDriverMessage)
    ensures c.d.Some? && c.busy ==> r == Ok(Dispatched(true, c.(waitEvents := c.waitEvents + [e]), []))
    ensures c.d.Some? && !c.busy && r.Ok? ==> TopLevel(ops, c, e, r.value)
    ensures r.Ok? ==>
      && Valid(r.value.next)
      && r.value.next.d == c.d
      && r.value.next.busy == c.busy
      && c.trace <= r.value.next.trace
    // on an idle dispatcher, `e` is the first event processed, in the
    // window state the call started from
    ensures Valid(c) && !c.busy && r.Ok? ==>
      && |r.value.next.trace| > |c.trace|
      && r.value.next.trace[|c.trace|] == Processed(e, c.w.ime)
    // fuel only bounds runaway resubmission
    ensures Quiet(ops) && c.d.Some? && |c.waitEvents| < fuel ==> r.Ok?
    // running out means a top-level drain made `fuel` real deliveries and
    // events still waited
    ensures r.OutOfFuel? ==> c.d.Some? && !c.busy && RunsOut(ops, c.d.value, c.w, c.waitEvents + [e], fuel)
    // a window that submits nothing sees exactly the queue and then `e`
    ensures Quiet(ops) && c.d.Some? && !c.busy && r.Ok? ==> Events(r.value.run) == c.waitEvents + [e]
  {
    if c.d.None? {
      return Panic(NoDriverMessage);
    }
    var d := c.d.value;
    var queued := c.waitEvents + [e];
    if c.busy {
      return Ok(Dispatched(true, c.(waitEvents := queued), []));
    }
    var dr := Drain(ops, d, c.w, queued, fuel);
    if dr.Exhausted? {
      return OutOfFuel;
    }
    var drained := Callbacks(dr.window, c.d, false, [], c.trace + Processes(dr.run));
    var next := Reconcile(ops, drained, d, e);
    assert |dr.run| > 0 by {
      assert |Events(dr.run)| >= |queued|;
    }
    assert (c.trace + Processes(dr.run))[|c.trace|] == Processed(dr.run[0].event, dr.run[0].before.ime);
    assert dr.run[0].before == c.w by {
      ChainedFirst(ops, d, c.w, dr.run);
    }
    assert next.trace[|c.trace|] == (c.trace + Processes(dr.run))[|c.trace|];
    if Quiet(ops) {
      QuietDrained(ops, d, c.w, dr.run, queued);
    }
    return Ok(Dispatched(dr.handled, next, dr.run));
  }

  /** Binds (or, with None, unbinds) the driver and hands the window the
      driver's wake-up function, or nil when unbinding. */
  function SetDriver(c: Callbacks, d: Option<Driver>): (r: Callbacks)
    ensures r.d == d
    ensures r.w.wakeup == Some(d)
    ensures r.w.(wakeup := c.w.wakeup) == c.w
    ensures r.busy == c.busy && r.waitEvents == c.waitEvents && r.trace == c.trace
  {
    c.(d := d, w := c.w.(wakeup := Some(d)))
  }
}
