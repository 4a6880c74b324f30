/**
 The asynchronous audit logger (AsyncLoggerAdapter in src/baldur/audit/audit_integration.py):
 a bounded queue filled by any number of producers and emptied by a batching worker, by
 concurrent manual flushes and, at shutdown, by the worker's drain.

 The interleaving model gives every thread a program counter and a local batch. Each log
 call has its own event identity. A callback may fail, in which case its batch counts as
 handed over: nothing is retried. A worker crash is not modelled.
 */
module AsyncLogger {

  type Event = nat

  // ---------------------------------------------------------------------------
  // Threads and steps
  // ---------------------------------------------------------------------------

  /** Where a thread goes after handing a batch over. */
  datatype After = ToLoop | ToDrain | ToExit

  datatype Pc =
    | LoopTest            // worker: about to test the running flag
    | Take                // worker: about to wait for an event
    | Decide              // worker: about to decide whether to flush
    | Hand(after: After)  // about to hand the batch to the callback
    | DrainTest           // about to test whether the queue is empty
    | DrainPop            // saw a non-empty queue, about to take without waiting
    | Exited

  datatype Role = Worker | Flusher | Immediate

  datatype Thread = Thread(role: Role, pc: Pc, batch: seq<Event>)

  /** A batch given to the callback: by whom, from where, and whether the callback failed. */
  datatype Delivery = Delivery(events: seq<Event>, role: Role, from: Pc, failed: bool)

  /**
   The queue and settings, the threads, and the record: identities used so far, log calls by
   outcome, batches delivered, events discarded for want of a callback, and the order in
   which queued events were handed over.
   */
  datatype State = State(
    queue: seq<Event>, maxSize: int, batchSize: int, running: bool, callback: bool, threads: seq<Thread>,
    next: Event, accepted: seq<Event>, rejected: seq<Event>, immediate: seq<Event>,
    deliveries: seq<Delivery>, discarded: seq<Event>, handed: seq<Event>)

  datatype Step =
    | Log(isImmediate: bool)
    | Configure(batchSize: int)
    | Start
    | Stop
    | FlushNow
    | Advance(thread: nat, elapsed: bool, fails: bool)

  function Initial(maxSize: int, batchSize: int, callback: bool): State {
    State([], maxSize, batchSize, false, callback, [], 0, [], [], [], [], [], [])
  }

  /** A queue created with a size of zero or less is unbounded. */
  predicate Full(s: State) {
    s.maxSize > 0 && |s.queue| >= s.maxSize
  }

  /** A CRITICAL or WARNING event gets a thread of its own. */
  function LogImmediate(s: State): State {
    s.(next := s.next + 1, immediate := s.immediate + [s.next],
       threads := s.threads + [Thread(Immediate, Hand(ToExit), [s.next])])
  }

  function LogRejected(s: State): State {
    s.(next := s.next + 1, rejected := s.rejected + [s.next])
  }

  function LogQueued(s: State): State {
    s.(next := s.next + 1, accepted := s.accepted + [s.next], queue := s.queue + [s.next])
  }

  function LogEvent(s: State, isImmediate: bool): State {
    if isImmediate then LogImmediate(s) else if Full(s) then LogRejected(s) else LogQueued(s)
  }

  /** Hand a batch over: to the callback when there is one, and otherwise to nobody. */
  function HandOver(s: State, th: Thread, fails: bool): State {
    if th.batch == [] then s
    else
      var r := if th.role.Immediate? then s else s.(handed := s.handed + th.batch);
      if s.callback
      then r.(deliveries := s.deliveries + [Delivery(th.batch, th.role, th.pc, fails)])
      else r.(discarded := s.discarded + th.batch)
  }

  function AfterHand(after: After): Pc {
    match after
    case ToLoop => LoopTest
    case ToDrain => DrainTest
    case ToExit => Exited
  }

  /** The drain is over: hand over what was collected, if anything, and leave. */
  function DrainEnd(th: Thread): Thread {
    th.(pc := if th.batch != [] then Hand(ToExit) else Exited)
  }

  /** The state and the thread itself after its step. */
  function Stepped(s: State, th: Thread, elapsed: bool, fails: bool): (State, Thread) {
    match th.pc
    case LoopTest =>
      (s, th.(pc := if s.running then Take else if th.batch != [] then Hand(ToDrain) else DrainTest))
    case Take =>
      if s.queue != []
      then (s.(queue := s.queue[1..]), th.(pc := Decide, batch := th.batch + [s.queue[0]]))
      else (s, th.(pc := Decide))
    case Decide =>
      (s, th.(pc := if |th.batch| >= s.batchSize || (th.batch != [] && elapsed) then Hand(ToLoop) else LoopTest))
    case Hand(after) => (HandOver(s, th, fails), th.(pc := AfterHand(after), batch := []))
    case DrainTest => if s.queue == [] then (s, DrainEnd(th)) else (s, th.(pc := DrainPop))
    case DrainPop =>
      if s.queue == [] then (s, DrainEnd(th))
      else (s.(queue := s.queue[1..]), th.(pc := DrainTest, batch := th.batch + [s.queue[0]]))
    case Exited => (s, th)
  }

  function Next(s: State, step: Step): State {
    match step
    case Log(isImmediate) => LogEvent(s, isImmediate)
    case Configure(batchSize) => s.(callback := true, batchSize := batchSize)
    case Start =>
      if s.running then s
      else s.(running := true, threads := s.threads + [Thread(Worker, LoopTest, [])])
    case Stop => s.(running := false)
    case FlushNow => s.(threads := s.threads + [Thread(Flusher, DrainTest, [])])
    case Advance(t, elapsed, fails) =>
      if t < |s.threads| then
        var (r, th) := Stepped(s, s.threads[t], elapsed, fails);
        r.(threads := s.threads[t := th])
      else s
  }

  function Run(s: State, steps: seq<Step>): State {
    if steps == [] then s else Next(Run(s, steps[..|steps| - 1]), steps[|steps| - 1])
  }

  // ---------------------------------------------------------------------------
  // Conservation
  // ---------------------------------------------------------------------------

  /** How often `e` occurs in a list of events. */
  ghost function Count(events: seq<Event>, e: Event): nat {
    if events == [] then 0
    else Count(events[..|events| - 1], e) + if events[|events| - 1] == e then 1 else 0
  }

  ghost function HeldCount(threads: seq<Thread>, e: Event): nat {
    if threads == [] then 0
    else HeldCount(threads[..|threads| - 1], e) + Count(threads[|threads| - 1].batch, e)
  }

  ghost function DeliveredCount(deliveries: seq<Delivery>, e: Event): nat {
    if deliveries == [] then 0
    else DeliveredCount(deliveries[..|deliveries| - 1], e) + Count(deliveries[|deliveries| - 1].events, e)
  }

  /** Every place an event can be: the queue, a thread's batch, a delivered batch, the discards. */
  ghost function PlacesCount(s: State, e: Event): nat {
    Count(s.queue, e) + HeldCount(s.threads, e) + DeliveredCount(s.deliveries, e) + Count(s.discarded, e)
  }

  /** How many log calls with this identity returned True. */
  ghost function TakenCount(s: State, e: Event): nat {
    Count(s.accepted, e) + Count(s.immediate, e)
  }

  /** An event taken is in exactly one place, a rejected one in none, and no identity is reused. */
  ghost predicate EventOk(s: State, e: Event) {
    && PlacesCount(s, e) == TakenCount(s, e)
    && TakenCount(s, e) + Count(s.rejected, e) <= 1
    && (e >= s.next ==> TakenCount(s, e) + Count(s.rejected, e) == 0)
  }

  ghost predicate Conserved(s: State) {
    forall e :: EventOk(s, e)
  }

  lemma {:induction false} HeldUpdate(threads: seq<Thread>, t: nat, th: Thread, e: Event)
    requires t < |threads|
    ensures HeldCount(threads[t := th], e) + Count(threads[t].batch, e) == HeldCount(threads, e) + Count(th.batch, e)
  {
    var rest := threads[..|threads| - 1];
    if t < |threads| - 1 {
      HeldUpdate(rest, t, th, e);
      assert threads[t := th][..|threads| - 1] == rest[t := th];
    } else {
      assert threads[t := th][..|threads| - 1] == rest;
    }
  }

  lemma HeldAppend(threads: seq<Thread>, th: Thread, e: Event)
    ensures HeldCount(threads + [th], e) == HeldCount(threads, e) + Count(th.batch, e)
  {
    assert (threads + [th])[..|threads + [th]| - 1] == threads;
  }

  lemma DeliveredAppend(deliveries: seq<Delivery>, d: Delivery, e: Event)
    ensures DeliveredCount(deliveries + [d], e) == DeliveredCount(deliveries, e) + Count(d.events, e)
  {
    assert (deliveries + [d])[..|deliveries + [d]| - 1] == deliveries;
  }

  lemma CountAppend(events: seq<Event>, x: Event, e: Event)
    ensures Count(events + [x], e) == Count(events, e) + if x == e then 1 else 0
  {
    assert (events + [x])[..|events + [x]| - 1] == events;
  }

  lemma {:induction false} CountConcat(a: seq<Event>, b: seq<Event>, e: Event)
    ensures Count(a + b, e) == Count(a, e) + Count(b, e)
  {
    if b == [] {
      assert a + b == a;
    } else {
      var rest, x := b[..|b| - 1], b[|b| - 1];
      CountConcat(a, rest, e);
      CountAppend(a + rest, x, e);
      assert a + b == a + rest + [x];
    }
  }

  /** Taking the head of the queue into a batch keeps the event's count. */
  lemma TakeConserves(queue: seq<Event>, batch: seq<Event>, e: Event)
    requires queue != []
    ensures Count(queue[1..], e) + Count(batch + [queue[0]], e) == Count(queue, e) + Count(batch, e)
  {
    assert queue == [queue[0]] + queue[1..];
    CountConcat([queue[0]], queue[1..], e);
    CountAppend(batch, queue[0], e);
    CountAppend([], queue[0], e);
    assert [] + [queue[0]] == [queue[0]];
  }

  /** Everything but the threads, for one event, plus the batch of one thread. */
  ghost function WithBatch(s: State, batch: seq<Event>, e: Event): nat {
    Count(s.queue, e) + Count(batch, e) + DeliveredCount(s.deliveries, e) + Count(s.discarded, e)
  }

  lemma HandConserves(s: State, th: Thread, fails: bool, e: Event)
    ensures WithBatch(HandOver(s, th, fails), [], e) == WithBatch(s, th.batch, e)
  {
    var r := HandOver(s, th, fails);
    assert Count([], e) == 0 && r.queue == s.queue;
    if th.batch != [] && s.callback {
      DeliveredAppend(s.deliveries, Delivery(th.batch, th.role, th.pc, fails), e);
      assert r.discarded == s.discarded;
      assert DeliveredCount(r.deliveries, e) == DeliveredCount(s.deliveries, e) + Count(th.batch, e);
    } else if th.batch != [] {
      CountConcat(s.discarded, th.batch, e);
      assert r.deliveries == s.deliveries;
      assert Count(r.discarded, e) == Count(s.discarded, e) + Count(th.batch, e);
    }
  }

  /** What a thread's step leaves alone. */
  ghost predicate SameLogs(s: State, r: State) {
    && r.threads == s.threads && r.accepted == s.accepted && r.immediate == s.immediate
    && r.rejected == s.rejected && r.next == s.next
  }

  /** A thread's step moves events between its batch, the queue and the record, losing none. */
  lemma SteppedConserves(s: State, th: Thread, elapsed: bool, fails: bool, e: Event)
    ensures var (r, after) := Stepped(s, th, elapsed, fails);
            WithBatch(r, after.batch, e) == WithBatch(s, th.batch, e) && SameLogs(s, r)
  {
    var (r, after) := Stepped(s, th, elapsed, fails);
    if th.pc.Hand? {
      HandConserves(s, th, fails, e);
      assert r == HandOver(s, th, fails) && after.batch == [];
    } else if (th.pc.Take? || th.pc.DrainPop?) && s.queue != [] {
      TakeConserves(s.queue, th.batch, e);
      assert r.queue == s.queue[1..] && after.batch == th.batch + [s.queue[0]];
      assert r.deliveries == s.deliveries && r.discarded == s.discarded;
    } else {
      assert after.batch == th.batch && r.queue == s.queue;
      assert r.deliveries == s.deliveries && r.discarded == s.discarded;
    }
  }

  lemma ImmediateConserves(s: State, e: Event)
    requires EventOk(s, e) && EventOk(s, s.next)
    ensures EventOk(LogImmediate(s), e)
  {
    HeldAppend(s.threads, Thread(Immediate, Hand(ToExit), [s.next]), e);
    CountAppend([], s.next, e);
    assert [] + [s.next] == [s.next];
    CountAppend(s.immediate, s.next, e);
  }

  lemma RejectedConserves(s: State, e: Event)
    requires EventOk(s, e) && EventOk(s, s.next)
    ensures EventOk(LogRejected(s), e)
  {
    CountAppend(s.rejected, s.next, e);
  }

  lemma QueuedConserves(s: State, e: Event)
    requires EventOk(s, e) && EventOk(s, s.next)
    ensures EventOk(LogQueued(s), e)
  {
    CountAppend(s.accepted, s.next, e);
    CountAppend(s.queue, s.next, e);
    var r, d := LogQueued(s), if s.next == e then 1 else 0;
    assert PlacesCount(r, e) == PlacesCount(s, e) + d;
    assert TakenCount(r, e) == TakenCount(s, e) + d;
  }

  lemma AdvanceConserves(s: State, t: nat, elapsed: bool, fails: bool, e: Event)
    requires EventOk(s, e) && t < |s.threads|
    ensures EventOk(Next(s, Advance(t, elapsed, fails)), e)
  {
    SteppedConserves(s, s.threads[t], elapsed, fails, e);
    var (r, th) := Stepped(s, s.threads[t], elapsed, fails);
    HeldUpdate(s.threads, t, th, e);
    assert PlacesCount(r.(threads := s.threads[t := th]), e) == PlacesCount(s, e);
  }

  lemma SpawnConserves(s: State, running: bool, th: Thread, e: Event)
    requires EventOk(s, e) && th.batch == []
    ensures EventOk(s.(running := running, threads := s.threads + [th]), e)
  {
    var r := s.(running := running, threads := s.threads + [th]);
    HeldAppend(s.threads, th, e);
    assert PlacesCount(r, e) == PlacesCount(s, e) && TakenCount(r, e) == TakenCount(s, e);
  }

  lemma NextConserves(s: State, step: Step, e: Event)
    requires Conserved(s)
    ensures EventOk(Next(s, step), e)
  {
    assert EventOk(s, e);
    match step {
      case Log(isImmediate) =>
        assert EventOk(s, s.next);
        if isImmediate {
          ImmediateConserves(s, e);
        } else if Full(s) {
          RejectedConserves(s, e);
        } else {
          QueuedConserves(s, e);
        }
      case Start => SpawnConserves(s, true, Thread(Worker, LoopTest, []), e);
      case FlushNow => SpawnConserves(s, s.running, Thread(Flusher, DrainTest, []), e);
      case Advance(t, elapsed, fails) =>
        if t < |s.threads| {
          AdvanceConserves(s, t, elapsed, fails, e);
        }
      case _ =>
    }
  }

  /**
   No event is lost or duplicated: over every interleaving of producers, workers, manual
   flushes and configuration, each event whose log call returned True is in exactly one
   place, and a rejected event is in none.
   */
  lemma {:induction false} RunsConserve(maxSize: int, batchSize: int, callback: bool, steps: seq<Step>)
    ensures Conserved(Run(Initial(maxSize, batchSize, callback), steps))
  {
    var s0 := Initial(maxSize, batchSize, callback);
    if steps != [] {
      RunsConserve(maxSize, batchSize, callback, steps[..|steps| - 1]);
      forall e ensures EventOk(Run(s0, steps), e) {
        NextConserves(Run(s0, steps[..|steps| - 1]), steps[|steps| - 1], e);
      }
    }
  }

  /** What one step does to the settings, and what it may do to the queue and the deliveries. */
  lemma NextControls(s: State, step: Step)
    ensures var n := Next(s, step);
            && n.maxSize == s.maxSize
            && n.batchSize == (if step.Configure? then step.batchSize else s.batchSize)
            && (n.callback <==> s.callback || step.Configure?)
            && (n.running <==> step.Start? || (s.running && !step.Stop?))
            && (step != Log(false) ==> |n.queue| <= |s.queue|)
            && (!s.callback ==> n.deliveries == s.deliveries)
  {
  }

  /** A queue with a positive size never holds more, and refuses an event exactly when it holds as many. */
  lemma {:induction false} QueueBounded(maxSize: int, batchSize: int, callback: bool, steps: seq<Step>)
    requires maxSize > 0
    ensures var s := Run(Initial(maxSize, batchSize, callback), steps);
            && s.maxSize == maxSize && |s.queue| <= maxSize
            && (Next(s, Log(false)).rejected != s.rejected <==> |s.queue| == maxSize)
            && (Next(s, Log(false)).accepted != s.accepted <==> |s.queue| < maxSize)
  {
    if steps != [] {
      QueueBounded(maxSize, batchSize, callback, steps[..|steps| - 1]);
      NextControls(Run(Initial(maxSize, batchSize, callback), steps[..|steps| - 1]), steps[|steps| - 1]);
    }
  }

  /** The batch size in force: the last one configured. */
  ghost function LastBatchSize(initial: int, steps: seq<Step>): int {
    if steps == [] then initial
    else if steps[|steps| - 1].Configure? then steps[|steps| - 1].batchSize
    else LastBatchSize(initial, steps[..|steps| - 1])
  }

  /** Whether the last of the starts and stops was a start. */
  ghost predicate LastStarted(steps: seq<Step>) {
    steps != [] && (steps[|steps| - 1].Start? || (!steps[|steps| - 1].Stop? && LastStarted(steps[..|steps| - 1])))
  }

  ghost predicate EverConfigured(steps: seq<Step>) {
    steps != [] && (steps[|steps| - 1].Configure? || EverConfigured(steps[..|steps| - 1]))
  }

  /** What is configured, started and stopped is in force from then on. */
  lemma {:induction false} ControlsInForce(maxSize: int, batchSize: int, callback: bool, steps: seq<Step>)
    ensures var s := Run(Initial(maxSize, batchSize, callback), steps);
            && s.batchSize == LastBatchSize(batchSize, steps) && (s.running <==> LastStarted(steps))
            && (s.callback <==> callback || EverConfigured(steps))
  {
    if steps != [] {
      ControlsInForce(maxSize, batchSize, callback, steps[..|steps| - 1]);
      NextControls(Run(Initial(maxSize, batchSize, callback), steps[..|steps| - 1]), steps[|steps| - 1]);
    }
  }

  /** Without a callback nothing is ever delivered. */
  lemma {:induction false} NoCallbackNoDelivery(maxSize: int, batchSize: int, steps: seq<Step>)
    requires forall k | 0 <= k < |steps| :: !steps[k].Configure?
    ensures var s := Run(Initial(maxSize, batchSize, false), steps); !s.callback && s.deliveries == []
  {
    if steps != [] {
      NoCallbackNoDelivery(maxSize, batchSize, steps[..|steps| - 1]);
      NextControls(Run(Initial(maxSize, batchSize, false), steps[..|steps| - 1]), steps[|steps| - 1]);
    }
  }

  // ---------------------------------------------------------------------------
  // Batch sizes
  // ---------------------------------------------------------------------------

  ghost predicate BatchOk(b: int, th: Thread) {
    match th.pc
    case LoopTest => |th.batch| < b
    case Take => |th.batch| < b
    case Decide => |th.batch| <= b
    case Hand(after) => after == ToLoop ==> 1 <= |th.batch| <= b
    case _ => true
  }

  ghost predicate LoopOk(b: int, deliveries: seq<Delivery>) {
    forall i | 0 <= i < |deliveries| :: deliveries[i].from == Hand(ToLoop) ==> 1 <= |deliveries[i].events| <= b
  }

  ghost predicate BatchInv(b: int, s: State) {
    s.batchSize == b && LoopOk(b, s.deliveries) && forall t | 0 <= t < |s.threads| :: BatchOk(b, s.threads[t])
  }

  lemma HandKeepsLoop(b: int, s: State, th: Thread, fails: bool)
    requires LoopOk(b, s.deliveries) && BatchOk(b, th)
    ensures var r := HandOver(s, th, fails);
            LoopOk(b, r.deliveries) && r.batchSize == s.batchSize && r.threads == s.threads
  {}

  lemma SteppedKeepsBatches(b: int, s: State, th: Thread, elapsed: bool, fails: bool)
    requires b >= 1 && s.batchSize == b && LoopOk(b, s.deliveries) && BatchOk(b, th)
    ensures var (r, after) := Stepped(s, th, elapsed, fails);
            BatchOk(b, after) && LoopOk(b, r.deliveries) && r.batchSize == b && r.threads == s.threads
  {
    var (r, after) := Stepped(s, th, elapsed, fails);
    if th.pc.Hand? {
      HandKeepsLoop(b, s, th, fails);
      assert r == HandOver(s, th, fails) && after.batch == [];
    } else {
      assert r.deliveries == s.deliveries;
    }
  }

  lemma NextKeepsBatches(b: int, s: State, step: Step)
    requires b >= 1 && BatchInv(b, s) && (step.Configure? ==> step.batchSize == b)
    ensures BatchInv(b, Next(s, step))
  {
    var n := Next(s, step);
    if step.Advance? {
      if step.thread < |s.threads| {
        SteppedKeepsBatches(b, s, s.threads[step.thread], step.elapsed, step.fails);
      }
    } else {
      assert n.deliveries == s.deliveries;
    }
  }

  /** With a fixed positive batch size, the running loop hands over between one and that many events. */
  lemma {:induction false} LoopBatchesBounded(maxSize: int, b: int, callback: bool, steps: seq<Step>)
    requires b >= 1 && forall i | 0 <= i < |steps| && steps[i].Configure? :: steps[i].batchSize == b
    ensures BatchInv(b, Run(Initial(maxSize, b, callback), steps))
  {
    if steps != [] {
      LoopBatchesBounded(maxSize, b, callback, steps[..|steps| - 1]);
      NextKeepsBatches(b, Run(Initial(maxSize, b, callback), steps[..|steps| - 1]), steps[|steps| - 1]);
    }
  }

  /**
   One undisturbed pass of a worker in the interleaving model is one pass of the adapter's loop:
   at most one event is taken, and the batch is handed over exactly when it has reached the batch
   size or, not being empty, the interval has passed.
   */
  lemma PassAsInLoop(s: State, th: Thread, elapsed: bool, fails: bool)
    requires s.running && th == Thread(Worker, LoopTest, th.batch)
    ensures var grown := th.batch + s.queue[..if s.queue == [] then 0 else 1];
            var (s1, t1) := Stepped(s, th, elapsed, fails);
            var (s2, t2) := Stepped(s1, t1, elapsed, fails);
            var (s3, t3) := Stepped(s2, t2, elapsed, fails);
            && grown + s3.queue == th.batch + s.queue && t3.batch == grown
            && (t3.pc == Hand(ToLoop) <==> |grown| >= s.batchSize || (grown != [] && elapsed))
            && (t3.pc == Hand(ToLoop) || t3.pc == LoopTest)
  {
    assert s.queue != [] ==> s.queue == [s.queue[0]] + s.queue[1..];
  }

  /** Thread `t` has taken what was queued, handed it over at once behind what it held, and left. */
  ghost predicate Drained(s: State, t: nat, r: State)
    requires t < |s.threads|
  {
    var all := s.threads[t].batch + s.queue;
    && r.queue == [] && t < |r.threads| && r.threads[t] == Thread(Flusher, Exited, [])
    && r.handed == s.handed + all
    && (s.callback && all != [] ==> r.deliveries == s.deliveries + [Delivery(all, Flusher, Hand(ToExit), false)])
    && (!s.callback ==> r.discarded == s.discarded + all && r.deliveries == s.deliveries)
  }

  ghost predicate Draining(s: State, t: nat) {
    t < |s.threads| && s.threads[t].role == Flusher && s.threads[t].pc == DrainTest
  }

  /** One turn of the drain loop takes the oldest event. */
  lemma DrainTurn(s: State, t: nat)
    requires Draining(s, t) && s.queue != []
    ensures var step := Advance(t, false, false);
            Next(Next(s, step), step) ==
            s.(queue := s.queue[1..],
               threads := s.threads[t := s.threads[t].(batch := s.threads[t].batch + [s.queue[0]])])
  {
    var step := Advance(t, false, false);
    assert Next(s, step).threads[t] == s.threads[t].(pc := DrainPop);
    assert s.threads[t := s.threads[t].(pc := DrainPop)][t := s.threads[t].(batch := s.threads[t].batch + [s.queue[0]])]
           == s.threads[t := s.threads[t].(batch := s.threads[t].batch + [s.queue[0]])];
  }

  lemma DrainEnds(s: State, t: nat)
    requires Draining(s, t) && s.queue == []
    ensures var step := Advance(t, false, false);
            Drained(s, t, if s.threads[t].batch == [] then Next(s, step) else Next(Next(s, step), step))
  {
    assert s.threads[t].batch + s.queue == s.threads[t].batch;
  }

  lemma DrainedThrough(s: State, t: nat, u: State, r: State)
    requires Draining(s, t) && s.queue != [] && Draining(u, t) && Drained(u, t, r)
    requires u.queue == s.queue[1..] && u.threads[t].batch == s.threads[t].batch + [s.queue[0]]
    requires u.handed == s.handed && u.deliveries == s.deliveries && u.discarded == s.discarded
    requires u.callback == s.callback
    ensures Drained(s, t, r)
  {
    assert s.queue == [s.queue[0]] + s.queue[1..];
    assert u.threads[t].batch + u.queue == s.threads[t].batch + s.queue;
  }

  lemma RunTwo(s: State, a: Step, b: Step)
    ensures Run(s, [a]) == Next(s, a) && Run(s, [a] + [b]) == Next(Next(s, a), b)
  {
    assert ([a] + [b])[..1] == [a];
  }

  lemma {:induction false} DrainsAlone(s: State, t: nat) returns (steps: seq<Step>)
    requires Draining(s, t)
    ensures forall k | 0 <= k < |steps| :: steps[k].Advance? && steps[k].thread == t
    ensures Drained(s, t, Run(s, steps))
    decreases |s.queue|
  {
    var step := Advance(t, false, false);
    RunTwo(s, step, step);
    if s.queue == [] {
      DrainEnds(s, t);
      steps := if s.threads[t].batch == [] then [step] else [step] + [step];
    } else {
      var u := Next(Next(s, step), step);
      DrainTurn(s, t);
      var rest := DrainsAlone(u, t);
      steps := [step] + [step] + rest;
      RunConcat(s, [step] + [step], rest);
      DrainedThrough(s, t, u, Run(u, rest));
    }
  }

  /** A manual flush that nothing disturbs hands the whole queue over as one batch. */
  lemma FlushNowAlone(s: State) returns (steps: seq<Step>)
    ensures forall k | 0 <= k < |steps| :: steps[k].Advance? && steps[k].thread == |s.threads|
    ensures var r := Run(Next(s, FlushNow), steps);
            && r.queue == [] && r.handed == s.handed + s.queue
            && (s.callback && s.queue != [] ==>
                  r.deliveries == s.deliveries + [Delivery(s.queue, Flusher, Hand(ToExit), false)])
            && (!s.callback ==> r.discarded == s.discarded + s.queue)
  {
    steps := DrainsAlone(Next(s, FlushNow), |s.threads|);
    assert [] + s.queue == s.queue;
  }

  // ---------------------------------------------------------------------------
  // Order and shutdown
  // ---------------------------------------------------------------------------

  /** The queued events delivered, in the order of delivery. */
  ghost function DeliveredInOrder(deliveries: seq<Delivery>): seq<Event> {
    if deliveries == [] then []
    else
      var d := deliveries[|deliveries| - 1];
      DeliveredInOrder(deliveries[..|deliveries| - 1]) + if d.role.Immediate? then [] else d.events
  }

  /** With a callback from the start, everything handed over is delivered, in the same order. */
  ghost predicate CallbackInv(s: State) {
    s.callback && s.discarded == [] && DeliveredInOrder(s.deliveries) == s.handed
  }

  lemma OrderAppend(deliveries: seq<Delivery>, d: Delivery)
    ensures DeliveredInOrder(deliveries + [d]) ==
            DeliveredInOrder(deliveries) + if d.role.Immediate? then [] else d.events
  {
    assert (deliveries + [d])[..|deliveries + [d]| - 1] == deliveries;
  }

  lemma HandKeepsCallback(s: State, th: Thread, fails: bool)
    requires CallbackInv(s)
    ensures CallbackInv(HandOver(s, th, fails))
  {
    if th.batch != [] {
      var r, d := HandOver(s, th, fails), Delivery(th.batch, th.role, th.pc, fails);
      OrderAppend(s.deliveries, d);
      assert r.deliveries == s.deliveries + [d] && r.callback && r.discarded == [];
      assert r.handed == s.handed + if th.role.Immediate? then [] else th.batch;
    }
  }

  ghost predicate SameRecord(s: State, r: State) {
    r.callback == s.callback && r.deliveries == s.deliveries && r.discarded == s.discarded && r.handed == s.handed
  }

  lemma SteppedKeepsCallback(s: State, th: Thread, elapsed: bool, fails: bool)
    requires CallbackInv(s)
    ensures CallbackInv(Stepped(s, th, elapsed, fails).0)
  {
    var r := Stepped(s, th, elapsed, fails).0;
    if th.pc.Hand? {
      HandKeepsCallback(s, th, fails);
      assert r == HandOver(s, th, fails);
    } else {
      assert SameRecord(s, r);
    }
  }

  lemma NextKeepsCallback(s: State, step: Step)
    requires CallbackInv(s)
    ensures CallbackInv(Next(s, step))
  {
    if step.Advance? {
      if step.thread < |s.threads| {
        SteppedKeepsCallback(s, s.threads[step.thread], step.elapsed, step.fails);
        assert SameRecord(Stepped(s, s.threads[step.thread], step.elapsed, step.fails).0, Next(s, step));
      }
    } else if !step.Configure? {
      assert SameRecord(s, Next(s, step));
    }
  }

  ghost predicate EndOk(th: Thread) {
    && (th.pc.Exited? ==> th.batch == [])
    && (th.role.Immediate? ==> th.pc == Hand(ToExit) || th.pc.Exited?)
  }

  ghost predicate EndInv(s: State) {
    forall t | 0 <= t < |s.threads| :: EndOk(s.threads[t])
  }

  lemma NextKeepsEnd(s: State, step: Step)
    requires EndInv(s)
    ensures EndInv(Next(s, step))
  {
    if step.Advance? && step.thread < |s.threads| {
      assert EndOk(s.threads[step.thread]);
    }
  }

  /** A thread that takes from the queue and has not left yet. */
  predicate Live(th: Thread) {
    !th.role.Immediate? && !th.pc.Exited?
  }

  ghost predicate NobodyLive(s: State) {
    forall t | 0 <= t < |s.threads| :: !Live(s.threads[t])
  }

  /** At most one thread takes from the queue, and nothing has overtaken anything. */
  ghost predicate OrderInv(s: State) {
    && (forall t, u | 0 <= t < |s.threads| && 0 <= u < |s.threads| && Live(s.threads[t]) && Live(s.threads[u]) :: t == u)
    && (NobodyLive(s) ==> s.handed + s.queue == s.accepted)
    && (forall t | 0 <= t < |s.threads| && Live(s.threads[t]) :: s.handed + s.threads[t].batch + s.queue == s.accepted)
  }

  /** The step does not add a second consumer. */
  ghost predicate AddsNoConsumer(s: State, step: Step) {
    !step.FlushNow? && (step.Start? ==> s.running || NobodyLive(s))
  }

  /** A consumer's step shifts events along the line from queue to batch to hand-over. */
  lemma SteppedKeepsLine(s: State, th: Thread, elapsed: bool, fails: bool)
    requires !th.role.Immediate?
    ensures var (r, after) := Stepped(s, th, elapsed, fails);
            r.handed + after.batch + r.queue == s.handed + th.batch + s.queue && r.accepted == s.accepted
  {
    var (r, after) := Stepped(s, th, elapsed, fails);
    if th.pc.Hand? {
      assert r.handed == s.handed + th.batch && after.batch == [] && r.queue == s.queue;
    } else if (th.pc.Take? || th.pc.DrainPop?) && s.queue != [] {
      assert r.handed == s.handed && after.batch == th.batch + [s.queue[0]] && r.queue == s.queue[1..];
      assert s.queue == [s.queue[0]] + s.queue[1..];
    } else {
      assert r.handed == s.handed && after.batch == th.batch && r.queue == s.queue;
    }
  }

  /** Replacing the only live thread, or a thread that is not live by another such, keeps the order. */
  lemma ReplaceKeepsOrder(s: State, r: State, t: nat, after: Thread)
    requires OrderInv(s) && t < |s.threads| && r.threads == s.threads[t := after] && r.accepted == s.accepted
    requires Live(s.threads[t]) ==>
               r.handed + after.batch + r.queue == s.accepted && (!Live(after) ==> after.batch == [])
    requires !Live(s.threads[t]) ==> !Live(after) && r.handed == s.handed && r.queue == s.queue
    ensures OrderInv(r)
  {
    assert forall u | 0 <= u < |s.threads| && u != t :: r.threads[u] == s.threads[u];
    if Live(s.threads[t]) {
      assert !Live(after) ==> r.handed + after.batch == r.handed;
      assert NobodyLive(r) ==> !Live(r.threads[t]);
    } else {
      assert NobodyLive(r) ==> NobodyLive(s);
    }
  }

  lemma AdvanceKeepsOrder(s: State, t: nat, elapsed: bool, fails: bool)
    requires OrderInv(s) && EndInv(s) && t < |s.threads|
    ensures OrderInv(Next(s, Advance(t, elapsed, fails)))
  {
    var th := s.threads[t];
    var (r, after) := Stepped(s, th, elapsed, fails);
    assert EndOk(th);
    if Live(th) {
      SteppedKeepsLine(s, th, elapsed, fails);
    }
    ReplaceKeepsOrder(s, r.(threads := s.threads[t := after]), t, after);
  }

  lemma LogKeepsOrder(s: State, isImmediate: bool)
    requires OrderInv(s)
    ensures OrderInv(LogEvent(s, isImmediate))
  {
    var n := LogEvent(s, isImmediate);
    assert forall t | 0 <= t < |s.threads| :: n.threads[t] == s.threads[t];
    assert NobodyLive(n) <==> NobodyLive(s);
    if !isImmediate && !Full(s) {
      forall t | 0 <= t < |s.threads| && Live(s.threads[t])
        ensures n.handed + n.threads[t].batch + n.queue == n.accepted
      {
        assert n.handed + n.threads[t].batch + n.queue == (s.handed + s.threads[t].batch + s.queue) + [s.next];
      }
      assert n.handed + n.queue == (s.handed + s.queue) + [s.next];
    }
  }

  lemma NextKeepsOrder(s: State, step: Step)
    requires OrderInv(s) && EndInv(s) && AddsNoConsumer(s, step)
    ensures OrderInv(Next(s, step))
  {
    match step {
      case Log(isImmediate) => LogKeepsOrder(s, isImmediate);
      case Start =>
        if !s.running {
          assert s.handed + [] + s.queue == s.handed + s.queue;
          assert Live(Next(s, step).threads[|s.threads|]);
        }
      case Advance(t, elapsed, fails) =>
        if t < |s.threads| {
          AdvanceKeepsOrder(s, t, elapsed, fails);
        }
      case Configure(_) => assert NobodyLive(Next(s, step)) <==> NobodyLive(s);
      case Stop => assert NobodyLive(Next(s, step)) <==> NobodyLive(s);
      case FlushNow =>
    }
  }

  /** No step of the run adds a second consumer. */
  ghost predicate SoleConsumer(s: State, steps: seq<Step>) {
    steps != [] ==>
      && SoleConsumer(s, steps[..|steps| - 1])
      && AddsNoConsumer(Run(s, steps[..|steps| - 1]), steps[|steps| - 1])
  }

  lemma {:induction false} RunsKeepEnd(maxSize: int, batchSize: int, callback: bool, steps: seq<Step>)
    ensures EndInv(Run(Initial(maxSize, batchSize, callback), steps))
    ensures callback ==> CallbackInv(Run(Initial(maxSize, batchSize, callback), steps))
  {
    if steps != [] {
      var s := Run(Initial(maxSize, batchSize, callback), steps[..|steps| - 1]);
      RunsKeepEnd(maxSize, batchSize, callback, steps[..|steps| - 1]);
      NextKeepsEnd(s, steps[|steps| - 1]);
      if callback {
        NextKeepsCallback(s, steps[|steps| - 1]);
      }
    }
  }

  /** While one worker at a time is the only consumer, events are handed over in the order they were logged. */
  lemma {:induction false} SoleWorkerKeepsOrder(maxSize: int, batchSize: int, callback: bool, steps: seq<Step>)
    requires SoleConsumer(Initial(maxSize, batchSize, callback), steps)
    ensures OrderInv(Run(Initial(maxSize, batchSize, callback), steps))
  {
    if steps != [] {
      SoleWorkerKeepsOrder(maxSize, batchSize, callback, steps[..|steps| - 1]);
      RunsKeepEnd(maxSize, batchSize, callback, steps[..|steps| - 1]);
      NextKeepsOrder(Run(Initial(maxSize, batchSize, callback), steps[..|steps| - 1]), steps[|steps| - 1]);
    }
  }

  lemma {:induction false} NothingHeld(threads: seq<Thread>, e: Event)
    requires forall t | 0 <= t < |threads| :: threads[t].batch == []
    ensures HeldCount(threads, e) == 0
  {
    if threads != [] {
      NothingHeld(threads[..|threads| - 1], e);
    }
  }

  /** In the running loop, which the worker leaves only when it finds the running flag down. */
  predicate InLoop(pc: Pc) {
    pc in {LoopTest, Take, Decide, Hand(ToLoop)}
  }

  /** The thread will look at the queue again before it leaves. */
  predicate Looks(pc: Pc) {
    InLoop(pc) || pc in {Hand(ToDrain), DrainTest, DrainPop}
  }

  ghost predicate Watched(s: State) {
    exists t | 0 <= t < |s.threads| :: Looks(s.threads[t].pc)
  }

  /** A running logger has a worker in its loop. */
  ghost predicate LoopInv(s: State) {
    s.running ==> exists t | 0 <= t < |s.threads| :: InLoop(s.threads[t].pc)
  }

  /** Whatever is queued will be looked at. */
  ghost predicate Owed(s: State) {
    s.queue == [] || Watched(s)
  }

  ghost predicate AllLeft(s: State) {
    forall t | 0 <= t < |s.threads| :: s.threads[t].pc.Exited?
  }

  lemma NextKeepsLoop(s: State, step: Step)
    requires LoopInv(s)
    ensures LoopInv(Next(s, step))
  {
    var n := Next(s, step);
    if n.running {
      if s.running {
        var t :| 0 <= t < |s.threads| && InLoop(s.threads[t].pc);
        assert InLoop(n.threads[t].pc);
      } else {
        assert InLoop(n.threads[|s.threads|].pc);
      }
    }
  }

  lemma {:induction false} RunsKeepLoop(maxSize: int, batchSize: int, callback: bool, steps: seq<Step>)
    ensures LoopInv(Run(Initial(maxSize, batchSize, callback), steps))
  {
    if steps != [] {
      RunsKeepLoop(maxSize, batchSize, callback, steps[..|steps| - 1]);
      NextKeepsLoop(Run(Initial(maxSize, batchSize, callback), steps[..|steps| - 1]), steps[|steps| - 1]);
    }
  }

  /** Only an event queued when nobody looks any more breaks the debt. */
  lemma NextKeepsOwed(s: State, step: Step)
    requires Owed(s) && (step == Log(false) ==> Watched(s))
    ensures Owed(Next(s, step))
  {
    var n := Next(s, step);
    if n.queue != [] {
      var t :| 0 <= t < |s.threads| && Looks(s.threads[t].pc);
      assert Looks(n.threads[t].pc);
    }
  }

  /** Every event queued during the steps is queued while some thread will still look. */
  ghost predicate QueuedInTime(s: State, steps: seq<Step>) {
    forall k | 0 <= k < |steps| && steps[k] == Log(false) :: Watched(Run(s, steps[..k]))
  }

  lemma {:induction false} OwedAlong(s: State, steps: seq<Step>)
    requires Owed(s) && QueuedInTime(s, steps)
    ensures Owed(Run(s, steps))
    decreases |steps|
  {
    if steps != [] {
      var n := |steps| - 1;
      assert forall k | 0 <= k <= n :: steps[..n][..k] == steps[..k];
      OwedAlong(s, steps[..n]);
      NextKeepsOwed(Run(s, steps[..n]), steps[n]);
    }
  }

  lemma {:induction false} RunConcat(s: State, a: seq<Step>, b: seq<Step>)
    ensures Run(s, a + b) == Run(Run(s, a), b)
    decreases |b|
  {
    if b == [] {
      assert a + b == a;
    } else {
      assert (a + b)[..|a + b| - 1] == a + b[..|b| - 1];
      RunConcat(s, a, b[..|b| - 1]);
    }
  }

  /** While the logger runs, a log call is always in time. */
  lemma RunningIsWatched(maxSize: int, batchSize: int, callback: bool, steps: seq<Step>)
    ensures var s := Run(Initial(maxSize, batchSize, callback), steps); s.running ==> Watched(s)
  {
    RunsKeepLoop(maxSize, batchSize, callback, steps);
    var s := Run(Initial(maxSize, batchSize, callback), steps);
    if s.running {
      var t :| 0 <= t < |s.threads| && InLoop(s.threads[t].pc);
      assert Looks(s.threads[t].pc);
    }
  }

  /**
   A logger that was running at some moment, after any further steps (stop among them) in
   which no event is queued once nobody will look any more: when every thread has left, the
   logger is stopped and the queue is empty. With a callback from the start, each event taken
   was delivered exactly once; and if one worker at a time was the only consumer, the queued
   events were delivered in the order of their log calls.
   */
  lemma ShutdownDeliversAll(maxSize: int, batchSize: int, callback: bool, before: seq<Step>, after: seq<Step>)
    requires var s := Run(Initial(maxSize, batchSize, callback), before); s.running && QueuedInTime(s, after)
    requires AllLeft(Run(Initial(maxSize, batchSize, callback), before + after))
    ensures var s := Run(Initial(maxSize, batchSize, callback), before + after);
            !s.running && s.queue == []
    ensures callback ==>
              var s := Run(Initial(maxSize, batchSize, callback), before + after);
              && s.discarded == []
              && (forall e :: DeliveredCount(s.deliveries, e) == TakenCount(s, e) <= 1)
              && (SoleConsumer(Initial(maxSize, batchSize, callback), before + after) ==>
                    DeliveredInOrder(s.deliveries) == s.accepted)
  {
    var s0 := Initial(maxSize, batchSize, callback);
    RunConcat(s0, before, after);
    RunningIsWatched(maxSize, batchSize, callback, before);
    OwedAlong(Run(s0, before), after);
    RunsKeepLoop(maxSize, batchSize, callback, before + after);
    if callback {
      EverythingDelivered(maxSize, batchSize, before + after);
    }
  }

  lemma EverythingDelivered(maxSize: int, batchSize: int, steps: seq<Step>)
    requires var s := Run(Initial(maxSize, batchSize, true), steps); AllLeft(s) && s.queue == []
    ensures var s := Run(Initial(maxSize, batchSize, true), steps);
            && s.discarded == []
            && (forall e :: DeliveredCount(s.deliveries, e) == TakenCount(s, e) <= 1)
            && (SoleConsumer(Initial(maxSize, batchSize, true), steps) ==>
                  DeliveredInOrder(s.deliveries) == s.accepted)
  {
    var s := Run(Initial(maxSize, batchSize, true), steps);
    RunsKeepEnd(maxSize, batchSize, true, steps);
    RunsConserve(maxSize, batchSize, true, steps);
    assert forall t | 0 <= t < |s.threads| :: EndOk(s.threads[t]);
    forall e ensures DeliveredCount(s.deliveries, e) == TakenCount(s, e) <= 1 {
      assert EventOk(s, e);
      NothingHeld(s.threads, e);
    }
    if SoleConsumer(Initial(maxSize, batchSize, true), steps) {
      SoleWorkerKeepsOrder(maxSize, batchSize, true, steps);
      assert NobodyLive(s);
      assert s.handed + [] == s.handed;
    }
  }

  /** Stop in any reachable running state and queue nothing more: that is in time. */
  lemma StopDeliversAll(maxSize: int, batchSize: int, before: seq<Step>, after: seq<Step>)
    requires Run(Initial(maxSize, batchSize, true), before).running && Log(false) !in after
    requires AllLeft(Run(Initial(maxSize, batchSize, true), before + ([Stop] + after)))
    ensures var s := Run(Initial(maxSize, batchSize, true), before + ([Stop] + after));
            s.queue == [] && s.discarded == [] && forall e :: DeliveredCount(s.deliveries, e) == TakenCount(s, e) <= 1
  {
    var steps := [Stop] + after;
    assert forall k | 0 <= k < |steps| :: steps[k] != Log(false);
    ShutdownDeliversAll(maxSize, batchSize, true, before, steps);
  }

  /** The premise is needed: an event queued when every thread has left stays queued until a start or a flush. */
  lemma {:induction false} LateEventStays(s: State, steps: seq<Step>)
    requires AllLeft(s) && !s.running && !Full(s)
    requires forall k | 0 <= k < |steps| :: steps[k].Advance? || steps[k].Configure? || steps[k].Stop?
    ensures var r := Run(Next(s, Log(false)), steps);
            AllLeft(r) && !r.running && s.next in r.accepted && s.next in r.queue
    decreases |steps|
  {
    if steps != [] {
      LateEventStays(s, steps[..|steps| - 1]);
    }
  }

  // ---------------------------------------------------------------------------
  // Shutdown terminates
  // ---------------------------------------------------------------------------

  /** How far a thread is from leaving once the running flag is down, not counting queued events. */
  function Distance(pc: Pc): nat {
    match pc
    case Take => 8
    case Decide => 7
    case Hand(after) => (match after case ToLoop => 6 case ToDrain => 4 case ToExit => 1)
    case LoopTest => 5
    case DrainTest => 3
    case DrainPop => 2
    case Exited => 0
  }

  ghost function TotalDistance(threads: seq<Thread>): nat {
    if threads == [] then 0
    else TotalDistance(threads[..|threads| - 1]) + Distance(threads[|threads| - 1].pc)
  }

  lemma {:induction false} DistanceUpdate(threads: seq<Thread>, t: nat, th: Thread)
    requires t < |threads|
    ensures TotalDistance(threads[t := th]) + Distance(threads[t].pc) == TotalDistance(threads) + Distance(th.pc)
  {
    var rest := threads[..|threads| - 1];
    if t < |threads| - 1 {
      DistanceUpdate(rest, t, th);
      assert threads[t := th][..|threads| - 1] == rest[t := th];
    } else {
      assert threads[t := th][..|threads| - 1] == rest;
    }
  }

  /** Every step advances a thread that has not left. */
  ghost predicate OnlyAdvances(s: State, steps: seq<Step>)
    decreases |steps|
  {
    steps != [] ==>
      && steps[0].Advance? && steps[0].thread < |s.threads| && !s.threads[steps[0].thread].pc.Exited?
      && OnlyAdvances(Next(s, steps[0]), steps[1..])
  }

  lemma AdvanceApproachesEnd(s: State, step: Step)
    requires !s.running && step.Advance? && step.thread < |s.threads| && !s.threads[step.thread].pc.Exited?
    ensures var n := Next(s, step);
            !n.running && TotalDistance(n.threads) + 2 * |n.queue| < TotalDistance(s.threads) + 2 * |s.queue|
  {
    var th := s.threads[step.thread];
    var (r, after) := Stepped(s, th, step.elapsed, step.fails);
    DistanceUpdate(s.threads, step.thread, after);
    assert !r.running && Distance(after.pc) + 2 * |r.queue| < Distance(th.pc) + 2 * |s.queue|;
  }

  /** Once stopped, with no further calls, the threads leave after a bounded number of steps. */
  lemma {:induction false} ShutdownTerminates(s: State, steps: seq<Step>)
    requires !s.running && OnlyAdvances(s, steps)
    ensures |steps| <= TotalDistance(s.threads) + 2 * |s.queue|
    decreases |steps|
  {
    if steps != [] {
      AdvanceApproachesEnd(s, steps[0]);
      ShutdownTerminates(Next(s, steps[0]), steps[1..]);
    }
  }

  lemma {:induction false} RunFirst(s: State, steps: seq<Step>)
    requires steps != []
    ensures Run(s, steps) == Run(Next(s, steps[0]), steps[1..])
  {
    assert steps == [steps[0]] + steps[1..];
    RunConcat(s, [steps[0]], steps[1..]);
    assert Run(s, [steps[0]]) == Next(s, steps[0]);
  }

  /** Once stopped, advancing the threads that have not left lets all of them leave. */
  lemma {:induction false} StoppedComesToRest(s: State) returns (steps: seq<Step>)
    requires !s.running
    ensures OnlyAdvances(s, steps) && AllLeft(Run(s, steps))
    ensures forall k | 0 <= k < |steps| :: steps[k].Advance?
    decreases TotalDistance(s.threads) + 2 * |s.queue|
  {
    if AllLeft(s) {
      steps := [];
    } else {
      var t :| 0 <= t < |s.threads| && !s.threads[t].pc.Exited?;
      var step := Advance(t, false, false);
      AdvanceApproachesEnd(s, step);
      var rest := StoppedComesToRest(Next(s, step));
      steps := [step] + rest;
      assert steps[1..] == rest;
      RunFirst(s, steps);
    }
  }

  // ---------------------------------------------------------------------------
  // The adapter, undisturbed
  // ---------------------------------------------------------------------------

  /** The adapter's own loops as one thread runs them when no other thread takes from the queue. */
  class AsyncLoggerAdapter {
    const maxSize: int
    var batchSize: int
    var callback: bool
    var queue: seq<Event>
    ghost var delivered: seq<seq<Event>>
    ghost var discarded: seq<Event>

    constructor (maxSize: int, batchSize: int, callback: bool)
      ensures this.maxSize == maxSize && this.batchSize == batchSize && this.callback == callback
      ensures queue == [] && delivered == [] && discarded == []
    {
      this.maxSize, this.batchSize, this.callback := maxSize, batchSize, callback;
      queue, delivered, discarded := [], [], [];
    }

    /** Queue an event without waiting; a full queue drops it. */
    method LogBatched(e: Event) returns (queued: bool)
      modifies this`queue
      ensures queued <==> maxSize <= 0 || |old(queue)| < maxSize
      ensures queue == if queued then old(queue) + [e] else old(queue)
    {
      queued := maxSize <= 0 || |queue| < maxSize;
      if queued {
        queue := queue + [e];
      }
    }

    /** One batch leaves: to the callback if there is one, and otherwise it is dropped. */
    twostate predicate HandedOver(events: seq<Event>)
      reads this
    {
      && delivered == old(delivered) + (if events != [] && callback then [events] else [])
      && discarded == old(discarded) + if callback then [] else events
    }

    method FlushBatch(events: seq<Event>)
      modifies this`delivered, this`discarded
      ensures HandedOver(events)
    {
      if !callback || events == [] {
        discarded := discarded + events;
        return;
      }
      delivered := delivered + [events];
    }

    /** Take everything that is queued, in order. */
    method Drain() returns (batch: seq<Event>)
      modifies this`queue
      ensures batch == old(queue) && queue == []
    {
      batch := [];
      while queue != []
        invariant batch + queue == old(queue)
        decreases |queue|
      {
        batch := batch + [queue[0]];
        queue := queue[1..];
      }
    }

    method FlushNow() returns (count: nat)
      modifies this`queue, this`delivered, this`discarded
      ensures count == |old(queue)| && queue == [] && HandedOver(old(queue))
    {
      var batch := Drain();
      if batch != [] {
        FlushBatch(batch);
      }
      count := |batch|;
    }

    /** One pass of the worker loop; `elapsed` says that the flush interval has passed. */
    method WorkerPass(batch: seq<Event>, elapsed: bool) returns (rest: seq<Event>)
      modifies this`queue, this`delivered, this`discarded
      ensures var grown := batch + old(queue)[..if old(queue) == [] then 0 else 1];
              && grown + queue == batch + old(queue)
              && if |grown| >= batchSize || (grown != [] && elapsed)
                 then rest == [] && HandedOver(grown)
                 else rest == grown && delivered == old(delivered) && discarded == old(discarded)
    {
      rest := batch;
      if queue != [] {
        rest := rest + [queue[0]];
        queue := queue[1..];
      }
      assert rest == batch + old(queue)[..if old(queue) == [] then 0 else 1];
      if |rest| >= batchSize || (rest != [] && elapsed) {
        FlushBatch(rest);
        rest := [];
      }
    }

    /** After the loop: the unsent batch first, then what is still queued. */
    method WorkerTail(batch: seq<Event>)
      modifies this`queue, this`delivered, this`discarded
      ensures queue == []
      ensures callback ==>
                && discarded == old(discarded)
                && delivered == old(delivered) + (if batch != [] then [batch] else [])
                                + if old(queue) != [] then [old(queue)] else []
      ensures !callback ==> delivered == old(delivered) && discarded == old(discarded) + batch + old(queue)
    {
      if batch != [] {
        FlushBatch(batch);
      }
      var remaining := Drain();
      if remaining != [] {
        FlushBatch(remaining);
      }
    }
  }
}
