/**
 Load shedding for cascade events (src/baldur/audit/cascade_load_shedding.py).

 The decision policy, the class that applies it, and an interleaving model of several
 callers: the rate check reads the window before the lock is taken, so a caller may
 decide on a count that is already out of date. Time is a parameter; the clock may
 stand still but does not run backwards.
 */
module LoadShedding {
  import opened Wrappers

  datatype Priority = Low | Medium | High | Critical

  function Rank(p: Priority): nat {
    match p
    case Low => 0
    case Medium => 1
    case High => 2
    case Critical => 3
  }

  /** An unmapped trigger type has MEDIUM priority. */
  function PriorityForTrigger(trigger: string): Priority {
    if trigger in ["EMERGENCY_LEVEL_CHANGED", "MANUAL_INTERVENTION", "MANUAL_ACTIVATION",
                   "CIRCUIT_BREAKER_OPENED"] then Critical
    else if trigger in ["CANARY_ROLLBACK", "GOVERNANCE_MODE_CHANGED", "ERROR_BUDGET_EXHAUSTED"] then High
    else if trigger in ["METRICS_UPDATED", "HEALTH_CHECK"] then Low
    else Medium
  }

  /** The trigger types the source maps to a priority, one by one. */
  lemma MappedTriggers()
    ensures PriorityForTrigger("EMERGENCY_LEVEL_CHANGED") == Critical
    ensures PriorityForTrigger("MANUAL_INTERVENTION") == Critical
    ensures PriorityForTrigger("MANUAL_ACTIVATION") == Critical
    ensures PriorityForTrigger("CIRCUIT_BREAKER_OPENED") == Critical
    ensures PriorityForTrigger("CANARY_ROLLBACK") == High
    ensures PriorityForTrigger("GOVERNANCE_MODE_CHANGED") == High
    ensures PriorityForTrigger("ERROR_BUDGET_EXHAUSTED") == High
    ensures PriorityForTrigger("BUDGET_MULTIPLIER_APPLIED") == Medium
    ensures PriorityForTrigger("CIRCUIT_BREAKER_HALF_OPENED") == Medium
    ensures PriorityForTrigger("CIRCUIT_BREAKER_CLOSED") == Medium
    ensures PriorityForTrigger("METRICS_UPDATED") == Low
    ensures PriorityForTrigger("HEALTH_CHECK") == Low
  {
  }

  /** The priority a decision uses: LOW has the value 0, so an explicit LOW counts as not given. */
  function Effective(priority: Option<Priority>, trigger: string): Priority {
    match priority
    case None => PriorityForTrigger(trigger)
    case Some(p) => if Rank(p) == 0 then PriorityForTrigger(trigger) else p
  }

  datatype Config = Config(enabled: bool, warning: real, critical: real, maxEvents: int, fallback: bool)

  datatype Reason = Disabled | AlwaysAccepted | BufferCritical | BufferWarning | RateExceeded | AcceptedNormally

  datatype Decision = Decision(accepted: bool, priority: Priority, ratio: real, reason: Reason, useFallback: bool)

  function Ratio(size: int, capacity: int): real {
    size as real / (if capacity < 1 then 1 else capacity) as real
  }

  // ---------------------------------------------------------------------------
  // The policy
  // ---------------------------------------------------------------------------

  function Drop(cfg: Config, p: Priority, ratio: real, reason: Reason): Decision {
    Decision(false, p, ratio, reason, cfg.fallback)
  }

  /** The decision taken under the lock, given what the rate check said before it. */
  function Decide(cfg: Config, p: Priority, ratio: real, rateExceeded: bool): Decision {
    if p == Critical then Decision(true, p, ratio, AlwaysAccepted, ratio >= cfg.critical)
    else if ratio >= cfg.critical && Rank(p) <= Rank(Medium) then Drop(cfg, p, ratio, BufferCritical)
    else if ratio < cfg.critical && ratio >= cfg.warning && Rank(p) <= Rank(Low) then Drop(cfg, p, ratio, BufferWarning)
    else if rateExceeded && Rank(p) <= Rank(Low) then Drop(cfg, p, ratio, RateExceeded)
    else Decision(true, p, ratio, AcceptedNormally, false)
  }

  datatype Level = NormalLevel | WarningLevel | CriticalLevel

  /** The status announced for a buffer ratio. */
  function StatusLevel(cfg: Config, ratio: real): Level {
    if ratio >= cfg.critical then CriticalLevel
    else if ratio >= cfg.warning then WarningLevel
    else NormalLevel
  }

  /** The announced shedding level: nothing, LOW only, or MEDIUM and below. */
  function Sheds(level: Level, p: Priority): bool {
    match level
    case NormalLevel => false
    case WarningLevel => p == Low
    case CriticalLevel => Rank(p) <= Rank(Medium)
  }

  /** A decision rejects exactly what the announced level sheds, plus LOW over the rate limit. */
  lemma DecisionMatchesStatus(cfg: Config, p: Priority, ratio: real, rateExceeded: bool)
    ensures Decide(cfg, p, ratio, rateExceeded).accepted <==>
            !Sheds(StatusLevel(cfg, ratio), p) && !(p == Low && rateExceeded)
    ensures Decide(cfg, p, ratio, rateExceeded).reason in {BufferCritical, BufferWarning} <==>
            Sheds(StatusLevel(cfg, ratio), p)
    ensures Rank(p) >= Rank(High) ==> Decide(cfg, p, ratio, rateExceeded).accepted
  {}

  /** A higher priority, a lower ratio or a quieter window never turns acceptance into rejection. */
  lemma AcceptanceMonotone(cfg: Config, p: Priority, q: Priority, ratio: real, less: real, rate: bool, quieter: bool)
    requires Rank(p) <= Rank(q) && less <= ratio && (quieter ==> rate)
    requires Decide(cfg, p, ratio, rate).accepted
    ensures Decide(cfg, q, less, quieter).accepted
  {}

  // ---------------------------------------------------------------------------
  // Counters and the rate window
  // ---------------------------------------------------------------------------

  datatype Tally = Tally(low: nat, medium: nat, high: nat, critical: nat)
  {
    function Total(): nat {
      low + medium + high + critical
    }

    function Bump(p: Priority): Tally {
      match p
      case Low => this.(low := low + 1)
      case Medium => this.(medium := medium + 1)
      case High => this.(high := high + 1)
      case Critical => this.(critical := critical + 1)
    }
  }

  const NO_DROPS := Tally(0, 0, 0, 0)

  datatype Metrics = Metrics(accepted: nat, dropped: nat, fallback: nat, droppedBy: Tally)

  const NO_METRICS := Metrics(0, 0, 0, NO_DROPS)

  function CountDrop(m: Metrics, p: Priority): Metrics {
    m.(dropped := m.dropped + 1, droppedBy := m.droppedBy.Bump(p))
  }

  function CountDecision(m: Metrics, d: Decision): Metrics {
    if d.accepted then m.(accepted := m.accepted + 1) else CountDrop(m, d.priority)
  }

  /** Number of timestamps later than `from`. */
  function CountAfter(events: seq<real>, from: real): nat {
    if events == [] then 0 else (if events[0] > from then 1 else 0) + CountAfter(events[1..], from)
  }

  /** Front-trim: drop the leading timestamps at or before `cutoff`. */
  function Trim(events: seq<real>, cutoff: real): seq<real> {
    if events != [] && events[0] <= cutoff then Trim(events[1..], cutoff) else events
  }

  function Record(events: seq<real>, now: real, window: real): seq<real> {
    Trim(events + [now], now - window)
  }

  /** The window after a decision: only an ordinary acceptance is recorded. */
  function RecordDecision(events: seq<real>, d: Decision, now: real, window: real): seq<real> {
    if d.reason == AcceptedNormally then Record(events, now, window) else events
  }

  lemma {:induction false} CountAppend(events: seq<real>, x: real, from: real)
    ensures CountAfter(events + [x], from) == CountAfter(events, from) + if x > from then 1 else 0
  {
    if events == [] {
      assert [x][1..] == [];
    } else {
      assert (events + [x])[1..] == events[1..] + [x];
      CountAppend(events[1..], x, from);
    }
  }

  lemma {:induction false} CountTrim(events: seq<real>, cutoff: real, from: real)
    requires cutoff <= from
    ensures CountAfter(Trim(events, cutoff), from) == CountAfter(events, from)
  {
    if events != [] && events[0] <= cutoff {
      CountTrim(events[1..], cutoff, from);
    }
  }

  lemma {:induction false} CountRecord(events: seq<real>, now: real, window: real, from: real)
    requires now - window <= from
    ensures CountAfter(Record(events, now, window), from) == CountAfter(events, from) + if now > from then 1 else 0
  {
    CountTrim(events + [now], now - window, from);
    CountAppend(events, now, from);
  }

  lemma {:induction false} CountAntitone(events: seq<real>, from: real, later: real)
    requires from <= later
    ensures CountAfter(events, later) <= CountAfter(events, from)
  {
    if events != [] {
      CountAntitone(events[1..], from, later);
    }
  }

  /** Recording keeps the series within the window: nothing at or before its start is retained. */
  lemma {:induction false} TrimBounds(events: seq<real>, cutoff: real)
    requires forall i, j | 0 <= i < j < |events| :: events[i] <= events[j]
    ensures forall i | 0 <= i < |Trim(events, cutoff)| :: Trim(events, cutoff)[i] > cutoff
  {
    if events != [] && events[0] <= cutoff {
      TrimBounds(events[1..], cutoff);
    }
  }

  // ---------------------------------------------------------------------------
  // What a decision must be
  // ---------------------------------------------------------------------------

  /** The priority asked for; LOW and absent both mean the trigger's own. */
  ghost predicate UsesPriority(p: Priority, priority: Option<Priority>, trigger: string) {
    && (priority.Some? && priority.value != Low ==> p == priority.value)
    && (priority.None? || priority == Some(Low) ==> p == PriorityForTrigger(trigger))
  }

  /** CRITICAL and HIGH pass; MEDIUM below the critical threshold; LOW below both and while the window has room. */
  ghost predicate MayPass(cfg: Config, p: Priority, ratio: real, counted: nat) {
    match p
    case Critical => true
    case High => true
    case Medium => ratio < cfg.critical
    case Low => ratio < cfg.critical && ratio < cfg.warning && counted < cfg.maxEvents
  }

  /** The reason names the first condition that decided. */
  ghost predicate ReasonFits(cfg: Config, d: Decision) {
    match d.reason
    case Disabled => false
    case AlwaysAccepted => d.accepted && d.priority == Critical
    case BufferCritical => !d.accepted && d.ratio >= cfg.critical
    case BufferWarning => !d.accepted && d.priority == Low && cfg.warning <= d.ratio < cfg.critical
    case RateExceeded => !d.accepted && d.priority == Low && d.ratio < cfg.critical && d.ratio < cfg.warning
    case AcceptedNormally => d.accepted && d.priority != Critical
  }

  ghost predicate RightDecision(cfg: Config, d: Decision, trigger: string, size: int, capacity: int,
                                priority: Option<Priority>, counted: nat)
  {
    && UsesPriority(d.priority, priority, trigger)
    && d.ratio * (if capacity >= 1 then capacity as real else 1.0) == size as real
    && (d.accepted <==> MayPass(cfg, d.priority, d.ratio, counted))
    && ReasonFits(cfg, d)
    && (d.useFallback <==> if d.accepted then d.priority == Critical && d.ratio >= cfg.critical else cfg.fallback)
  }

  function Of(t: Tally, p: Priority): nat {
    match p
    case Low => t.low
    case Medium => t.medium
    case High => t.high
    case Critical => t.critical
  }

  /** One drop more, in total and under its own priority alone. */
  ghost predicate OneMoreDrop(before: Metrics, after: Metrics, p: Priority) {
    && after.dropped == before.dropped + 1 && after.accepted == before.accepted && after.fallback == before.fallback
    && forall q :: Of(after.droppedBy, q) == Of(before.droppedBy, q) + if q == p then 1 else 0
  }

  lemma RatioTimesCapacity(size: int, capacity: int)
    ensures Ratio(size, capacity) * (if capacity >= 1 then capacity as real else 1.0) == size as real
  {
  }

  lemma DecidesRight(cfg: Config, trigger: string, size: int, capacity: int, priority: Option<Priority>, counted: nat)
    ensures RightDecision(cfg, Decide(cfg, Effective(priority, trigger), Ratio(size, capacity),
                                      counted >= cfg.maxEvents), trigger, size, capacity, priority, counted)
  {
    RatioTimesCapacity(size, capacity);
  }

  // ---------------------------------------------------------------------------
  // The manager
  // ---------------------------------------------------------------------------

  class CascadeLoadShedding {
    const config: Config
    const window: real
    var metrics: Metrics
    var events: seq<real>

    constructor (config: Config, window: real)
      ensures this.config == config && this.window == window && metrics == NO_METRICS && events == []
    {
      this.config := config;
      this.window := window;
      metrics := NO_METRICS;
      events := [];
    }

    /** Reads the window without the lock. */
    method CheckRateLimit(now: real) returns (exceeded: bool)
      ensures exceeded <==> CountAfter(events, now - window) >= config.maxEvents
    {
      var count := 0;
      for i := 0 to |events|
        invariant count + CountAfter(events[i..], now - window) == CountAfter(events, now - window)
      {
        if events[i] > now - window {
          count := count + 1;
        }
        assert events[i..][1..] == events[i + 1..];
      }
      exceeded := count >= config.maxEvents;
    }

    /** Appends the timestamp and trims the front of the series. */
    method RecordEventTime(now: real)
      modifies this`events
      ensures events == Record(old(events), now, window)
    {
      events := events + [now];
      while events != [] && events[0] <= now - window
        invariant Trim(events, now - window) == Record(old(events), now, window)
        decreases |events|
      {
        events := events[1..];
      }
    }

    /** The section under the lock. */
    method DecideLocked(p: Priority, ratio: real, rateExceeded: bool, now: real) returns (d: Decision)
      modifies this
      ensures d == Decide(config, p, ratio, rateExceeded)
      ensures metrics == CountDecision(old(metrics), d)
      ensures events == RecordDecision(old(events), d, now, window)
    {
      if p == Critical {
        metrics := metrics.(accepted := metrics.accepted + 1);
        return Decision(true, p, ratio, AlwaysAccepted, ratio >= config.critical);
      }
      if ratio >= config.critical {
        if Rank(p) <= Rank(Medium) {
          d := DropEvent(p, ratio, BufferCritical);
          return;
        }
      } else if ratio >= config.warning && Rank(p) <= Rank(Low) {
        d := DropEvent(p, ratio, BufferWarning);
        return;
      }
      if rateExceeded && Rank(p) <= Rank(Low) {
        d := DropEvent(p, ratio, RateExceeded);
        return;
      }
      metrics := metrics.(accepted := metrics.accepted + 1);
      RecordEventTime(now);
      d := Decision(true, p, ratio, AcceptedNormally, false);
    }

    method DropEvent(p: Priority, ratio: real, reason: Reason) returns (d: Decision)
      modifies this`metrics
      ensures d == Drop(config, p, ratio, reason) && metrics == CountDrop(old(metrics), p)
    {
      metrics := metrics.(dropped := metrics.dropped + 1, droppedBy := metrics.droppedBy.Bump(p));
      d := Decision(false, p, ratio, reason, config.fallback);
    }

    /** One undisturbed call: check, then decide. A disabled manager accepts and records nothing. */
    method ShouldAccept(trigger: string, size: int, capacity: int, priority: Option<Priority>, now: real)
      returns (d: Decision)
      modifies this
      ensures !config.enabled ==> d == Decision(true, Medium, 0.0, Disabled, false)
                                  && metrics == old(metrics) && events == old(events)
      ensures config.enabled ==>
                && d == Decide(config, Effective(priority, trigger), Ratio(size, capacity),
                               CountAfter(old(events), now - window) >= config.maxEvents)
                && metrics == CountDecision(old(metrics), d)
                && events == RecordDecision(old(events), d, now, window)
      ensures config.enabled ==>
                && RightDecision(config, d, trigger, size, capacity, priority, CountAfter(old(events), now - window))
                && (d.accepted ==> metrics == old(metrics).(accepted := old(metrics).accepted + 1))
                && (!d.accepted ==> OneMoreDrop(old(metrics), metrics, d.priority))
                && (d.accepted && d.priority != Critical ==> events == Trim(old(events) + [now], now - window))
                && (!d.accepted || d.priority == Critical ==> events == old(events))
    {
      DecidesRight(config, trigger, size, capacity, priority, CountAfter(events, now - window));
      if !config.enabled {
        return Decision(true, Medium, 0.0, Disabled, false);
      }
      var p := Effective(priority, trigger);
      var ratio := Ratio(size, capacity);
      var rateExceeded := CheckRateLimit(now);
      d := DecideLocked(p, ratio, rateExceeded, now);
    }

    method RecordDropped(trigger: string, priority: Option<Priority>)
      modifies this`metrics
      ensures metrics == CountDrop(old(metrics), Effective(priority, trigger))
      ensures exists p :: UsesPriority(p, priority, trigger) && OneMoreDrop(old(metrics), metrics, p)
    {
      var p := Effective(priority, trigger);
      metrics := metrics.(dropped := metrics.dropped + 1, droppedBy := metrics.droppedBy.Bump(p));
      assert UsesPriority(p, priority, trigger) && OneMoreDrop(old(metrics), metrics, p);
    }

    method ResetMetrics()
      modifies this
      ensures metrics == NO_METRICS && events == []
    {
      metrics := NO_METRICS;
      events := [];
    }
  }

  // ---------------------------------------------------------------------------
  // Interleaved callers
  // ---------------------------------------------------------------------------

  /** A caller slot: outside, or between its rate check and the lock. */
  datatype Caller = Idle | Checked(priority: Priority, ratio: real, rateExceeded: bool)

  /**
   The shared state, the caller slots, and what has happened since the last reset: the
   times of accepted LOW events, the decisions taken and the drops recorded by hand. `past`
   keeps the LOW events of the epochs that resets have ended.
   */
  datatype State = State(now: real, metrics: Metrics, events: seq<real>, callers: seq<Caller>,
                         lowAccepted: seq<real>, decisions: nat, recorded: Tally, past: seq<Epoch>)

  /** The LOW events accepted between two resets, and the time of the second. */
  datatype Epoch = Epoch(low: seq<real>, end: real)

  datatype Step =
    | Wait(until: real)
    | Enter(caller: nat, trigger: string, size: int, capacity: int, priority: Option<Priority>)
    | Lock(caller: nat)
    | DropByHand(trigger: string, priority: Option<Priority>)
    | Fallback
    | Reset

  function Outside(k: nat): (callers: seq<Caller>)
    ensures |callers| == k
  {
    if k == 0 then [] else Outside(k - 1) + [Idle]
  }

  function Initial(k: nat, now: real): State {
    State(now, NO_METRICS, [], Outside(k), [], 0, NO_DROPS, [])
  }

  /** One step; a step that is not possible in the state changes nothing. */
  function Next(cfg: Config, window: real, s: State, step: Step): State {
    match step
    case Wait(until) =>
      if s.now <= until then s.(now := until) else s
    case Enter(i, trigger, size, capacity, priority) =>
      if i < |s.callers| && s.callers[i].Idle? then
        var exceeded := CountAfter(s.events, s.now - window) >= cfg.maxEvents;
        s.(callers := s.callers[i := Checked(Effective(priority, trigger), Ratio(size, capacity), exceeded)])
      else s
    case Lock(i) =>
      if i < |s.callers| && s.callers[i].Checked? then Locked(cfg, window, s, i) else s
    case DropByHand(trigger, priority) =>
      var p := Effective(priority, trigger);
      s.(metrics := CountDrop(s.metrics, p), recorded := s.recorded.Bump(p))
    case Fallback =>
      s.(metrics := s.metrics.(fallback := s.metrics.fallback + 1))
    case Reset =>
      s.(metrics := NO_METRICS, events := [], lowAccepted := [], decisions := 0, recorded := NO_DROPS,
         past := s.past + [Epoch(s.lowAccepted, s.now)])
  }

  function Locked(cfg: Config, window: real, s: State, i: nat): State
    requires i < |s.callers| && s.callers[i].Checked?
  {
    var c := s.callers[i];
    var d := Decide(cfg, c.priority, c.ratio, c.rateExceeded);
    s.(metrics := CountDecision(s.metrics, d),
       events := RecordDecision(s.events, d, s.now, window),
       callers := s.callers[i := Idle],
       lowAccepted := if d.accepted && c.priority == Low then s.lowAccepted + [s.now] else s.lowAccepted,
       decisions := s.decisions + 1)
  }

  function Run(cfg: Config, window: real, s: State, steps: seq<Step>): State {
    if steps == [] then s else Next(cfg, window, Run(cfg, window, s, steps[..|steps| - 1]), steps[|steps| - 1])
  }

  /** Callers whose check found room: each may still add one LOW event. */
  ghost function Pending(callers: seq<Caller>): nat {
    if callers == [] then 0
    else Pending(callers[..|callers| - 1]) + Admits(callers[|callers| - 1])
  }

  ghost function Admits(c: Caller): nat {
    if c.Checked? && !c.rateExceeded then 1 else 0
  }

  lemma {:induction false} PendingUpdate(callers: seq<Caller>, i: nat, c: Caller)
    requires i < |callers|
    ensures Pending(callers[i := c]) + Admits(callers[i]) == Pending(callers) + Admits(c)
    ensures Pending(callers) <= |callers|
  {
    var rest, last := callers[..|callers| - 1], callers[|callers| - 1];
    if i == |callers| - 1 {
      assert callers[i := c][..i] == rest;
      PendingAtMost(callers);
    } else {
      PendingUpdate(rest, i, c);
      assert callers[i := c][..|callers| - 1] == rest[i := c];
    }
  }

  lemma {:induction false} PendingAtMost(callers: seq<Caller>)
    ensures Pending(callers) <= |callers|
  {
    if callers != [] {
      PendingAtMost(callers[..|callers| - 1]);
    }
  }

  /** Of the given times, those in the window that ends at `t`. */
  ghost function Within(times: seq<real>, window: real, t: real): int {
    CountAfter(times, t - window) - CountAfter(times, t)
  }

  ghost predicate EveryWindowHolds(times: seq<real>, window: real, bound: int) {
    forall t :: Within(times, window, t) <= bound
  }

  /** From `start` on, every counted time is also in the rate window's series. */
  ghost predicate Covered(times: seq<real>, events: seq<real>, start: real) {
    forall from | start <= from :: CountAfter(times, from) <= CountAfter(events, from)
  }

  /** The most LOW events a window may hold with `k` callers. */
  ghost function RateBound(cfg: Config, k: nat): int {
    if cfg.maxEvents >= 1 then cfg.maxEvents + k - 1 else 0
  }

  ghost predicate RateInv(cfg: Config, window: real, s: State) {
    && Covered(s.lowAccepted, s.events, s.now - window)
    && CountAfter(s.lowAccepted, s.now - window) + Pending(s.callers) <= RateBound(cfg, |s.callers|)
    && EveryWindowHolds(s.lowAccepted, window, RateBound(cfg, |s.callers|))
  }

  function Handled(m: Metrics): nat {
    m.accepted + m.dropped
  }

  function Accounted(decisions: nat, recorded: Tally): nat {
    decisions + recorded.Total()
  }

  /** The counters account for the decisions and for the drops recorded by hand. */
  ghost predicate Balanced(m: Metrics, decisions: nat, recorded: Tally) {
    && m.dropped == m.droppedBy.Total()
    && Handled(m) == Accounted(decisions, recorded)
    && m.droppedBy.high == recorded.high
    && m.droppedBy.critical == recorded.critical
  }

  ghost predicate CountInv(s: State) {
    Balanced(s.metrics, s.decisions, s.recorded)
  }

  lemma EnterKeepsRate(cfg: Config, window: real, s: State, i: nat, c: Caller)
    requires RateInv(cfg, window, s) && i < |s.callers| && s.callers[i].Idle? && c.Checked?
    requires c.rateExceeded <==> CountAfter(s.events, s.now - window) >= cfg.maxEvents
    ensures RateInv(cfg, window, s.(callers := s.callers[i := c]))
  {
    PendingUpdate(s.callers, i, c);
    PendingAtMost(s.callers[i := c]);
  }

  lemma RecordKeepsCover(times: seq<real>, events: seq<real>, now: real, window: real)
    requires Covered(times, events, now - window)
    ensures Covered(times, Record(events, now, window), now - window)
    ensures Covered(times + [now], Record(events, now, window), now - window)
  {
    forall from | now - window <= from
      ensures CountAfter(times, from) <= CountAfter(Record(events, now, window), from)
      ensures CountAfter(times + [now], from) <= CountAfter(Record(events, now, window), from)
    {
      CountRecord(events, now, window, from);
      CountAppend(times, now, from);
    }
  }

  lemma AppendKeepsWindows(times: seq<real>, now: real, window: real, bound: int)
    requires EveryWindowHolds(times, window, bound)
    requires CountAfter(times + [now], now - window) <= bound
    ensures EveryWindowHolds(times + [now], window, bound)
  {
    forall t ensures Within(times + [now], window, t) <= bound {
      assert Within(times, window, t) <= bound;
      CountAppend(times, now, t - window);
      CountAppend(times, now, t);
      if now <= t {
        CountAntitone(times + [now], now - window, t - window);
      }
    }
  }

  lemma LockKeepsRate(cfg: Config, window: real, s: State, i: nat)
    requires RateInv(cfg, window, s) && window > 0.0 && i < |s.callers| && s.callers[i].Checked?
    ensures RateInv(cfg, window, Locked(cfg, window, s, i))
  {
    var c, bound := s.callers[i], RateBound(cfg, |s.callers|);
    PendingUpdate(s.callers, i, Idle);
    RecordKeepsCover(s.lowAccepted, s.events, s.now, window);
    CountAppend(s.lowAccepted, s.now, s.now - window);
    if Decide(cfg, c.priority, c.ratio, c.rateExceeded).accepted && c.priority == Low {
      AppendKeepsWindows(s.lowAccepted, s.now, window, bound);
    }
  }

  lemma StepKeepsRate(cfg: Config, window: real, s: State, step: Step)
    requires RateInv(cfg, window, s) && window > 0.0
    ensures RateInv(cfg, window, Next(cfg, window, s, step))
  {
    var t := Next(cfg, window, s, step);
    match step {
      case Wait(until) =>
        if s.now <= until {
          CountAntitone(s.lowAccepted, s.now - window, until - window);
        }
      case Enter(i, trigger, size, capacity, priority) =>
        if i < |s.callers| && s.callers[i].Idle? {
          EnterKeepsRate(cfg, window, s, i, t.callers[i]);
        }
      case Lock(i) =>
        if i < |s.callers| && s.callers[i].Checked? {
          LockKeepsRate(cfg, window, s, i);
        }
      case Reset =>
        PendingAtMost(s.callers);
      case _ =>
    }
  }

  /** A decision adds one to the accepted or to the dropped count, and never drops HIGH or CRITICAL. */
  lemma DecisionCounted(cfg: Config, m: Metrics, p: Priority, ratio: real, rateExceeded: bool)
    ensures var d := Decide(cfg, p, ratio, rateExceeded);
            var n := CountDecision(m, d);
            && Handled(n) == Handled(m) + 1
            && n.dropped - n.droppedBy.Total() == m.dropped - m.droppedBy.Total()
            && n.droppedBy.high == m.droppedBy.high && n.droppedBy.critical == m.droppedBy.critical
  {}

  lemma DecisionKeepsBalance(cfg: Config, m: Metrics, decisions: nat, recorded: Tally, c: Caller)
    requires Balanced(m, decisions, recorded) && c.Checked?
    ensures Balanced(CountDecision(m, Decide(cfg, c.priority, c.ratio, c.rateExceeded)), decisions + 1, recorded)
  {
    DecisionCounted(cfg, m, c.priority, c.ratio, c.rateExceeded);
  }

  lemma BumpCounts(tally: Tally, p: Priority)
    ensures tally.Bump(p).Total() == tally.Total() + 1
  {
  }

  lemma DropKeepsBalance(m: Metrics, decisions: nat, recorded: Tally, p: Priority)
    ensures Balanced(m, decisions, recorded) ==> Balanced(CountDrop(m, p), decisions, recorded.Bump(p))
  {
    BumpCounts(m.droppedBy, p);
    BumpCounts(recorded, p);
  }

  lemma FallbackKeepsBalance(m: Metrics, decisions: nat, recorded: Tally, fallback: nat)
    ensures Balanced(m, decisions, recorded) ==> Balanced(m.(fallback := fallback), decisions, recorded)
  {
  }

  lemma LockKeepsCounts(cfg: Config, window: real, s: State, i: nat)
    requires CountInv(s)
    ensures CountInv(Next(cfg, window, s, Lock(i)))
  {
    if i < |s.callers| && s.callers[i].Checked? {
      DecisionKeepsBalance(cfg, s.metrics, s.decisions, s.recorded, s.callers[i]);
    }
  }

  lemma ResetBalances(cfg: Config, window: real, s: State)
    ensures CountInv(Next(cfg, window, s, Reset))
  {
  }

  lemma StepKeepsCounts(cfg: Config, window: real, s: State, step: Step)
    requires CountInv(s)
    ensures CountInv(Next(cfg, window, s, step))
  {
    match step {
      case Lock(i) => LockKeepsCounts(cfg, window, s, i);
      case DropByHand(trigger, priority) =>
        DropKeepsBalance(s.metrics, s.decisions, s.recorded, Effective(priority, trigger));
      case Fallback => FallbackKeepsBalance(s.metrics, s.decisions, s.recorded, s.metrics.fallback + 1);
      case Reset => ResetBalances(cfg, window, s);
      case Wait(_) =>
      case Enter(_, _, _, _, _) =>
    }
  }

  lemma {:induction false} NobodyPending(k: nat)
    ensures Pending(Outside(k)) == 0
  {
    if k > 0 {
      NobodyPending(k - 1);
      assert Outside(k)[..k - 1] == Outside(k - 1);
    }
  }

  // ---------------------------------------------------------------------------
  // Windows that resets fall into
  // ---------------------------------------------------------------------------

  /** The LOW events of all epochs in the window that ends at `t`. */
  ghost function AllWithin(past: seq<Epoch>, current: seq<real>, window: real, t: real): int {
    Within(current, window, t) +
    if past == [] then 0 else AllWithin(past[..|past| - 1], past[|past| - 1].low, window, t)
  }

  /** How many resets fall into the window that ends at `t`. */
  ghost function ResetsWithin(past: seq<Epoch>, window: real, t: real): nat {
    if past == [] then 0
    else ResetsWithin(past[..|past| - 1], window, t) + if t - window < past[|past| - 1].end <= t then 1 else 0
  }

  ghost predicate AllUpTo(times: seq<real>, x: real) {
    forall i | 0 <= i < |times| :: times[i] <= x
  }

  ghost predicate AllFrom(times: seq<real>, x: real) {
    forall i | 0 <= i < |times| :: x <= times[i]
  }

  /** Epochs follow one another in time, and no window holds more of one epoch than the bound. */
  ghost predicate Tidy(past: seq<Epoch>, current: seq<real>, window: real, bound: int) {
    && EveryWindowHolds(current, window, bound)
    && (past != [] ==>
          var last := past[|past| - 1];
          && AllUpTo(last.low, last.end) && AllFrom(current, last.end)
          && (|past| >= 2 ==> past[|past| - 2].end <= last.end)
          && Tidy(past[..|past| - 1], last.low, window, bound))
  }

  lemma {:induction false} CountUpTo(times: seq<real>, x: real, from: real)
    requires AllUpTo(times, x) && x <= from
    ensures CountAfter(times, from) == 0
  {
    if times != [] {
      CountUpTo(times[1..], x, from);
    }
  }

  lemma {:induction false} CountFrom(times: seq<real>, x: real, from: real)
    requires AllFrom(times, x) && from < x
    ensures CountAfter(times, from) == |times|
  {
    if times != [] {
      CountFrom(times[1..], x, from);
    }
  }

  /** Epochs that ended before the window contribute nothing. */
  lemma {:induction false} PastIsOut(past: seq<Epoch>, current: seq<real>, end: real, window: real, t: real, bound: int)
    requires Tidy(past, current, window, bound) && AllUpTo(current, end) && end <= t - window && window > 0.0
    requires past != [] ==> past[|past| - 1].end <= end
    ensures AllWithin(past, current, window, t) == 0
  {
    CountUpTo(current, end, t - window);
    CountUpTo(current, end, t);
    if past != [] {
      var last := past[|past| - 1];
      PastIsOut(past[..|past| - 1], last.low, last.end, window, t, bound);
    }
  }

  lemma Distribute(bound: int, n: int)
    ensures bound * (1 + (n + 1)) == bound * (1 + n) + bound
  {
  }

  /** A window holds no more than the bound once, and once more for each reset in it. */
  lemma {:induction false} WindowAcrossResets(past: seq<Epoch>, current: seq<real>, window: real, t: real, bound: int)
    requires Tidy(past, current, window, bound) && window > 0.0 && bound >= 0
    ensures AllWithin(past, current, window, t) <= bound * (1 + ResetsWithin(past, window, t))
  {
    assert Within(current, window, t) <= bound;
    if past != [] {
      var earlier, last := past[..|past| - 1], past[|past| - 1];
      var n := ResetsWithin(earlier, window, t);
      if last.end <= t - window {
        PastIsOut(earlier, last.low, last.end, window, t, bound);
        NonNegative(bound, n);
      } else {
        WindowAcrossResets(earlier, last.low, window, t, bound);
        if last.end <= t {
          Distribute(bound, n);
        } else {
          CountFrom(current, last.end, t - window);
          CountFrom(current, last.end, t);
        }
      }
    }
  }

  lemma NonNegative(bound: int, n: nat)
    requires bound >= 0
    ensures bound <= bound * (1 + n)
  {
  }

  ghost predicate EpochInv(cfg: Config, window: real, s: State) {
    && Tidy(s.past, s.lowAccepted, window, RateBound(cfg, |s.callers|))
    && AllUpTo(s.lowAccepted, s.now) && (s.past != [] ==> s.past[|s.past| - 1].end <= s.now)
  }

  lemma StepKeepsEpochs(cfg: Config, window: real, s: State, step: Step)
    requires EpochInv(cfg, window, s) && RateInv(cfg, window, Next(cfg, window, s, step))
    ensures EpochInv(cfg, window, Next(cfg, window, s, step))
  {
    var t := Next(cfg, window, s, step);
    if step.Reset? {
      assert t.past[..|t.past| - 1] == s.past;
    } else {
      assert t.past == s.past;
    }
  }

  /** What holds in every reachable state with `k` caller slots. */
  ghost predicate Promises(cfg: Config, window: real, k: nat, s: State) {
    |s.callers| == k && RateInv(cfg, window, s) && CountInv(s) && EpochInv(cfg, window, s)
  }

  lemma InitialKeepsRate(cfg: Config, window: real, k: nat, now: real)
    requires k >= 1
    ensures RateInv(cfg, window, Initial(k, now))
  {
    NobodyPending(k);
    assert EveryWindowHolds([], window, RateBound(cfg, k));
  }

  lemma InitialBalances(k: nat, now: real)
    ensures CountInv(Initial(k, now))
  {
  }

  lemma InitialKeepsPromises(cfg: Config, window: real, k: nat, now: real)
    requires k >= 1
    ensures Promises(cfg, window, k, Initial(k, now))
  {
    InitialKeepsRate(cfg, window, k, now);
    InitialBalances(k, now);
  }

  lemma StepKeepsPromises(cfg: Config, window: real, k: nat, s: State, step: Step)
    requires window > 0.0 && Promises(cfg, window, k, s)
    ensures Promises(cfg, window, k, Next(cfg, window, s, step))
  {
    StepKeepsRate(cfg, window, s, step);
    StepKeepsCounts(cfg, window, s, step);
    StepKeepsEpochs(cfg, window, s, step);
  }

  /**
   Over every interleaving of at least one caller: no window holds more LOW events than the
   configured rate plus one for each further caller, and the counters account for every
   decision and every drop recorded by hand since the last reset.
   */
  lemma {:induction false} RunsKeepPromises(cfg: Config, window: real, k: nat, now: real, steps: seq<Step>)
    requires k >= 1 && window > 0.0
    ensures Promises(cfg, window, k, Run(cfg, window, Initial(k, now), steps))
  {
    if steps == [] {
      InitialKeepsPromises(cfg, window, k, now);
    } else {
      var before := steps[..|steps| - 1];
      RunsKeepPromises(cfg, window, k, now, before);
      StepKeepsPromises(cfg, window, k, Run(cfg, window, Initial(k, now), before), steps[|steps| - 1]);
    }
  }

  /** The window that ends at `t` holds at most the bound, and as much again for each reset in it. */
  ghost predicate WindowBounded(cfg: Config, window: real, k: nat, s: State, t: real) {
    AllWithin(s.past, s.lowAccepted, window, t) <= RateBound(cfg, k) * (1 + ResetsWithin(s.past, window, t))
  }

  lemma PromisesBoundWindows(cfg: Config, window: real, k: nat, s: State, t: real)
    requires k >= 1 && window > 0.0 && Promises(cfg, window, k, s)
    ensures WindowBounded(cfg, window, k, s, t)
  {
    WindowAcrossResets(s.past, s.lowAccepted, window, t, RateBound(cfg, k));
  }

  /** Over every interleaving and for every window, whatever resets fall into it. */
  lemma ResetsRaiseTheBound(cfg: Config, window: real, k: nat, now: real, steps: seq<Step>, t: real)
    requires k >= 1 && window > 0.0
    ensures WindowBounded(cfg, window, k, Run(cfg, window, Initial(k, now), steps), t)
  {
    RunsKeepPromises(cfg, window, k, now, steps);
    PromisesBoundWindows(cfg, window, k, Run(cfg, window, Initial(k, now), steps), t);
  }

  // ---------------------------------------------------------------------------
  // The bound is reached
  // ---------------------------------------------------------------------------

  const LOW_CALL := Checked(Low, 0.0, false)

  /** At time `now`, `low` LOW events are in the window and `recorded` timestamps fill it. */
  ghost predicate Filled(window: real, s: State, now: real, low: nat, recorded: nat) {
    && s.now == now
    && CountAfter(s.events, now - window) == recorded
    && CountAfter(s.lowAccepted, now - window) == low && CountAfter(s.lowAccepted, now) == 0
  }

  function LowEnter(i: nat): Step {
    Enter(i, "HEALTH_CHECK", 0, 1, None)
  }

  lemma LowEnters(cfg: Config, window: real, s: State, now: real, i: nat, low: nat, recorded: nat)
    requires Filled(window, s, now, low, recorded) && i < |s.callers| && s.callers[i].Idle?
    requires recorded < cfg.maxEvents
    ensures Next(cfg, window, s, LowEnter(i)) == s.(callers := s.callers[i := LOW_CALL])
  {
    assert Ratio(0, 1) == 0.0;
    assert "HEALTH_CHECK"[0] == 'H';
  }

  lemma LowLocks(cfg: Config, window: real, s: State, now: real, i: nat, low: nat, recorded: nat)
    requires window > 0.0 && cfg.warning > 0.0 && cfg.critical > 0.0
    requires Filled(window, s, now, low, recorded) && i < |s.callers| && s.callers[i] == LOW_CALL
    ensures Next(cfg, window, s, Lock(i)).callers == s.callers[i := Idle]
    ensures Filled(window, Next(cfg, window, s, Lock(i)), now, low + 1, recorded + 1)
  {
    CountRecord(s.events, now, window, now - window);
    CountAppend(s.lowAccepted, now, now - window);
    CountAppend(s.lowAccepted, now, now);
  }

  lemma RunAppend(cfg: Config, window: real, s: State, steps: seq<Step>, step: Step)
    ensures Run(cfg, window, s, steps + [step]) == Next(cfg, window, Run(cfg, window, s, steps), step)
  {
    assert (steps + [step])[..|steps + [step]| - 1] == steps;
  }

  lemma {:induction false} ServeOneByOne(cfg: Config, window: real, k: nat, now: real, n: nat) returns (steps: seq<Step>)
    requires k >= 1 && window > 0.0 && cfg.warning > 0.0 && cfg.critical > 0.0 && n < cfg.maxEvents
    ensures var s := Run(cfg, window, Initial(k, now), steps);
            Filled(window, s, now, n, n) && |s.callers| == k && forall i | 0 <= i < k :: s.callers[i] == Idle
  {
    if n == 0 {
      steps := [];
      AllIdle(k);
    } else {
      var before := ServeOneByOne(cfg, window, k, now, n - 1);
      var s := Run(cfg, window, Initial(k, now), before);
      LowEnters(cfg, window, s, now, 0, n - 1, n - 1);
      RunAppend(cfg, window, Initial(k, now), before, LowEnter(0));
      var entered := s.(callers := s.callers[0 := LOW_CALL]);
      LowLocks(cfg, window, entered, now, 0, n - 1, n - 1);
      steps := before + [LowEnter(0)] + [Lock(0)];
      RunAppend(cfg, window, Initial(k, now), before + [LowEnter(0)], Lock(0));
    }
  }

  lemma {:induction false} AllIdle(k: nat)
    ensures forall i | 0 <= i < k :: Outside(k)[i] == Idle
  {
    if k > 0 {
      AllIdle(k - 1);
    }
  }

  lemma {:induction false} AllEnter(cfg: Config, window: real, k: nat, now: real, j: nat) returns (steps: seq<Step>)
    requires j <= k && k >= 1 && window > 0.0 && cfg.warning > 0.0 && cfg.critical > 0.0 && cfg.maxEvents >= 1
    ensures var s := Run(cfg, window, Initial(k, now), steps);
            && Filled(window, s, now, cfg.maxEvents - 1, cfg.maxEvents - 1) && |s.callers| == k
            && forall i | 0 <= i < k :: s.callers[i] == if i < j then LOW_CALL else Idle
  {
    if j == 0 {
      steps := ServeOneByOne(cfg, window, k, now, cfg.maxEvents - 1);
    } else {
      var before := AllEnter(cfg, window, k, now, j - 1);
      var s := Run(cfg, window, Initial(k, now), before);
      LowEnters(cfg, window, s, now, j - 1, cfg.maxEvents - 1, cfg.maxEvents - 1);
      steps := before + [LowEnter(j - 1)];
      RunAppend(cfg, window, Initial(k, now), before, LowEnter(j - 1));
    }
  }

  lemma {:induction false} AllLock(cfg: Config, window: real, k: nat, now: real, j: nat) returns (steps: seq<Step>)
    requires j <= k && k >= 1 && window > 0.0 && cfg.warning > 0.0 && cfg.critical > 0.0 && cfg.maxEvents >= 1
    ensures var s := Run(cfg, window, Initial(k, now), steps);
            && Filled(window, s, now, cfg.maxEvents - 1 + j, cfg.maxEvents - 1 + j) && |s.callers| == k
            && forall i | 0 <= i < k :: s.callers[i] == if i < j then Idle else LOW_CALL
  {
    if j == 0 {
      steps := AllEnter(cfg, window, k, now, k);
    } else {
      var before := AllLock(cfg, window, k, now, j - 1);
      var s := Run(cfg, window, Initial(k, now), before);
      LowLocks(cfg, window, s, now, j - 1, cfg.maxEvents - 2 + j, cfg.maxEvents - 2 + j);
      steps := before + [Lock(j - 1)];
      RunAppend(cfg, window, Initial(k, now), before, Lock(j - 1));
    }
  }

  /** With positive thresholds some interleaving of `k` callers fills a window up to the bound. */
  lemma RateBoundReached(cfg: Config, window: real, k: nat, now: real) returns (steps: seq<Step>)
    requires k >= 1 && window > 0.0 && cfg.warning > 0.0 && cfg.critical > 0.0 && cfg.maxEvents >= 1
    ensures Within(Run(cfg, window, Initial(k, now), steps).lowAccepted, window, now) == RateBound(cfg, k)
  {
    steps := AllLock(cfg, window, k, now, k);
  }
}
