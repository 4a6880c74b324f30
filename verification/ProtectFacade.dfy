/**
 Composer construction behind protect() (src/baldur/protect_facade.py): how the arguments of a
 call resolve against the settings, the chain that is assembled, and the two process-wide
 caches, circuit-breaker policies by name and composers by (name, timeout, profile).

 The composer cache key leaves the retry configuration out. Policies are modelled by what
 identifies them; what they do when a call runs is not part of this model.
 */
module ProtectFacade {
  import opened Wrappers

  datatype RetryConfig = RetryConfig(domain: string, enableDlq: bool, knobs: nat)

  /** A retry stage the caller built; only a tenacity bridge can be carried over to async. */
  datatype BuiltPolicy = BuiltPolicy(id: nat, tenacity: bool)

  datatype RetryArg = RetryUnset | RetryFlag(on: bool) | RetryGiven(cfg: RetryConfig) | RetryBuilt(policy: BuiltPolicy)

  /** An explicit `None` switches the timeout off; leaving it out consults the settings. */
  datatype TimeoutArg = TimeoutUnset | TimeoutGiven(seconds: Option<real>)

  datatype Settings = Settings(enabled: bool, defaultRetry: bool, defaultDlq: bool, defaultCircuitBreaker: bool,
                               defaultTimeout: Option<real>, retryFor: string -> RetryConfig)

  /** The arguments that shape the chain; `stage` is the idempotency guard-and-hook pair, if any. */
  datatype Call = Call(name: string, fallback: Option<nat>, dlq: Option<bool>, retry: RetryArg,
                       circuitBreaker: Option<bool>, timeout: TimeoutArg, stage: Option<nat>)

  /** The resolved inputs of the composer builders. */
  datatype Plan = Plan(name: string, fallback: Option<nat>, dlq: bool, retryCfg: Option<RetryConfig>,
                       retryPolicy: Option<BuiltPolicy>, circuitBreaker: bool, timeout: Option<real>,
                       settingsDerived: bool, stage: Option<nat>)

  // ---------------------------------------------------------------------------
  // Resolution
  // ---------------------------------------------------------------------------

  datatype RetryStageInputs = RetryStageInputs(cfg: Option<RetryConfig>, policy: Option<BuiltPolicy>, derived: bool)

  function WithDlq(cfg: RetryConfig, dlq: bool): RetryConfig {
    if dlq && !cfg.enableDlq then cfg.(enableDlq := true) else cfg
  }

  function ResolveRetry(settings: Settings, retry: RetryArg, dlq: bool, domain: string): RetryStageInputs {
    var r := if retry.RetryUnset? then RetryFlag(settings.defaultRetry) else retry;
    match r
    case RetryBuilt(policy) => RetryStageInputs(None, Some(policy), false)
    case RetryGiven(cfg) => RetryStageInputs(Some(WithDlq(cfg, dlq)), None, false)
    case RetryFlag(on) =>
      if on then RetryStageInputs(Some(WithDlq(settings.retryFor(domain), dlq)), None, true)
      else RetryStageInputs(None, None, false)
    case RetryUnset => RetryStageInputs(None, None, false)
  }

  function Resolve(settings: Settings, call: Call): Plan {
    var dlq := if call.dlq.Some? then call.dlq.value else settings.defaultDlq;
    var cb := if call.circuitBreaker.Some? then call.circuitBreaker.value else settings.defaultCircuitBreaker;
    var timeout := if call.timeout.TimeoutGiven? then call.timeout.seconds else settings.defaultTimeout;
    var retry := ResolveRetry(settings, call.retry, dlq, call.name);
    Plan(call.name, call.fallback, dlq, retry.cfg, retry.policy, cb, timeout, retry.derived, call.stage)
  }

  /** The call with every argument it leaves out filled in from the settings. */
  function Filled(settings: Settings, call: Call): Call {
    call.(dlq := Some(if call.dlq.Some? then call.dlq.value else settings.defaultDlq),
          circuitBreaker := Some(if call.circuitBreaker.Some? then call.circuitBreaker.value
                                 else settings.defaultCircuitBreaker),
          timeout := if call.timeout.TimeoutGiven? then call.timeout else TimeoutGiven(settings.defaultTimeout),
          retry := if call.retry.RetryUnset? then RetryFlag(settings.defaultRetry) else call.retry)
  }

  /**
   Settings matter only where the call is silent, apart from the retry configurations they
   hand out: the filled-in call resolves the same way under any others with the same ones.
   */
  lemma DefaultsFillIn(settings: Settings, other: Settings, call: Call)
    requires other.retryFor == settings.retryFor
    ensures Resolve(settings, call) == Resolve(other, Filled(settings, call))
  {
  }

  /** What the builders may rely on: one retry stage at most, and dead-lettering reaches into a configuration. */
  lemma RetryInputs(settings: Settings, call: Call)
    ensures var p := Resolve(settings, call);
            && !(p.retryCfg.Some? && p.retryPolicy.Some?)
            && (p.settingsDerived ==> p.retryCfg == Some(WithDlq(settings.retryFor(call.name), p.dlq)))
            && (p.retryCfg.Some? && !p.settingsDerived ==>
                  call.retry.RetryGiven? && p.retryCfg.value == WithDlq(call.retry.cfg, p.dlq))
            && (p.dlq && p.retryCfg.Some? ==> p.retryCfg.value.enableDlq)
            && (p.retryPolicy.Some? <==> call.retry.RetryBuilt?)
  {
  }

  // ---------------------------------------------------------------------------
  // The chain
  // ---------------------------------------------------------------------------

  datatype CbPolicy = CbPolicy(name: string, id: nat)

  datatype Stage =
    | FallbackStage(fn: nat)
    | CbStage(cb: CbPolicy)
    | TimeoutStage(seconds: real)
    | RetryStage(cfg: RetryConfig)
    | BuiltStage(policy: BuiltPolicy)

  datatype Composer = Composer(isAsync: bool, guards: seq<nat>, hooks: seq<nat>, stages: seq<Stage>,
                               sinks: nat, capturesOpenCircuit: bool, captureName: Option<string>)

  const EMPTY_COMPOSER := Composer(false, [], [], [], 0, false, None)

  function Add(c: Composer, s: Stage): Composer {
    c.(stages := c.stages + [s])
  }

  /** What `dlq` means: the sink, open-circuit capture, and failure capture under the name. */
  function AttachDlq(c: Composer, name: string): Composer {
    c.(sinks := c.sinks + 1, capturesOpenCircuit := true, captureName := Some(name))
  }

  function FallbackPart(plan: Plan): seq<Stage> {
    if plan.fallback.Some? then [FallbackStage(plan.fallback.value)] else []
  }

  function CbPart(plan: Plan, cb: CbPolicy): seq<Stage> {
    if plan.circuitBreaker then [CbStage(cb)] else []
  }

  function TimeoutPart(plan: Plan): seq<Stage> {
    if plan.timeout.Some? then [TimeoutStage(plan.timeout.value)] else []
  }

  function RetryPart(plan: Plan): seq<Stage> {
    if plan.retryPolicy.Some? then [BuiltStage(plan.retryPolicy.value)]
    else if plan.retryCfg.Some? then [RetryStage(plan.retryCfg.value)] else []
  }

  /** The stages a plan asks for, outermost first. */
  function Stages(plan: Plan, cb: CbPolicy): seq<Stage> {
    FallbackPart(plan) + CbPart(plan, cb) + TimeoutPart(plan) + RetryPart(plan)
  }

  /** What per-call construction builds for a plan, around the given breaker policy. */
  function Assemble(plan: Plan, cb: CbPolicy): Composer {
    var marks := if plan.stage.Some? then [plan.stage.value] else [];
    var c := Composer(false, marks, marks, Stages(plan, cb), 0, false, None);
    if plan.dlq then AttachDlq(c, plan.name) else c
  }

  /** Fallback outermost, then the breaker, then the timeout, then the retry stage. */
  function Layer(s: Stage): nat {
    match s
    case FallbackStage(_) => 0
    case CbStage(_) => 1
    case TimeoutStage(_) => 2
    case RetryStage(_) => 3
    case BuiltStage(_) => 3
  }

  ghost predicate Layered(stages: seq<Stage>) {
    forall i, j | 0 <= i < j < |stages| :: Layer(stages[i]) < Layer(stages[j])
  }

  /** The stage is one the plan asks for. */
  predicate Wanted(plan: Plan, cb: CbPolicy, s: Stage) {
    match s
    case FallbackStage(fn) => plan.fallback == Some(fn)
    case CbStage(policy) => plan.circuitBreaker && policy == cb
    case TimeoutStage(seconds) => plan.timeout == Some(seconds)
    case BuiltStage(policy) => plan.retryPolicy == Some(policy)
    case RetryStage(cfg) => plan.retryPolicy.None? && plan.retryCfg == Some(cfg)
  }

  lemma HeadOnce(a: seq<Stage>)
    requires Layered(a) && a != []
    ensures a[0] !in a[1..] && forall s :: s in a <==> s == a[0] || s in a[1..]
  {
    assert a == [a[0]] + a[1..];
  }

  lemma {:induction false} LayeredUnique(a: seq<Stage>, b: seq<Stage>)
    requires Layered(a) && Layered(b) && forall s :: s in a <==> s in b
    ensures a == b
    decreases |a|
  {
    if b != [] {
      assert b[0] in a;
    }
    if a != [] {
      assert a[0] in b;
      assert a[0] == b[0];
      HeadOnce(a);
      HeadOnce(b);
      LayeredUnique(a[1..], b[1..]);
    }
  }

  ghost predicate Within(stages: seq<Stage>, lo: nat, hi: nat) {
    Layered(stages) && forall i | 0 <= i < |stages| :: lo <= Layer(stages[i]) < hi
  }

  lemma LayeredConcat(a: seq<Stage>, b: seq<Stage>, mid: nat, hi: nat)
    requires Within(a, 0, mid) && Within(b, mid, hi) && mid <= hi
    ensures Within(a + b, 0, hi)
  {
  }

  lemma FourLayers(a: seq<Stage>, b: seq<Stage>, c: seq<Stage>, d: seq<Stage>)
    requires Within(a, 0, 1) && Within(b, 1, 2) && Within(c, 2, 3) && Within(d, 3, 4)
    ensures Layered(a + b + c + d)
  {
    LayeredConcat(a, b, 1, 2);
    LayeredConcat(a + b, c, 2, 3);
    LayeredConcat(a + b + c, d, 3, 4);
  }

  lemma StagesLayered(plan: Plan, cb: CbPolicy)
    ensures Layered(Stages(plan, cb))
  {
    FourLayers(FallbackPart(plan), CbPart(plan, cb), TimeoutPart(plan), RetryPart(plan));
  }

  lemma InFour(a: seq<Stage>, b: seq<Stage>, c: seq<Stage>, d: seq<Stage>, s: Stage)
    ensures s in a + b + c + d <==> s in a || s in b || s in c || s in d
  {
  }

  lemma StagesWanted(plan: Plan, cb: CbPolicy, s: Stage)
    ensures s in Stages(plan, cb) <==> Wanted(plan, cb, s)
  {
    InFour(FallbackPart(plan), CbPart(plan, cb), TimeoutPart(plan), RetryPart(plan), s);
  }

  /** Exactly the stages the plan asks for. */
  ghost predicate HoldsWanted(plan: Plan, cb: CbPolicy, stages: seq<Stage>) {
    forall s :: s in stages <==> Wanted(plan, cb, s)
  }

  /** The chain is the one layered arrangement of exactly the stages asked for. */
  lemma ChainIsDetermined(plan: Plan, cb: CbPolicy, stages: seq<Stage>)
    ensures stages == Stages(plan, cb) <==> Layered(stages) && HoldsWanted(plan, cb, stages)
  {
    StagesLayered(plan, cb);
    assert HoldsWanted(plan, cb, Stages(plan, cb)) by {
      forall s ensures s in Stages(plan, cb) <==> Wanted(plan, cb, s) {
        StagesWanted(plan, cb, s);
      }
    }
    if Layered(stages) && HoldsWanted(plan, cb, stages) {
      LayeredUnique(stages, Stages(plan, cb));
    }
  }

  // ---------------------------------------------------------------------------
  // The caches
  // ---------------------------------------------------------------------------

  datatype Profile = DefaultProfile | DlqProfile

  datatype Key = Key(name: string, timeout: Option<real>, profile: Profile)

  /** Plain protect(name, fn): a breaker and perhaps a timeout. */
  predicate IsDefault(p: Plan) {
    p.circuitBreaker && p.retryCfg.None? && p.retryPolicy.None? && p.fallback.None? && !p.dlq && p.stage.None?
  }

  /** The dead-letter profile: its retry configuration must come from the settings. */
  predicate IsDlqProtect(p: Plan) {
    p.circuitBreaker && p.dlq && p.retryCfg.Some? && p.settingsDerived && p.retryPolicy.None? &&
    p.fallback.None? && p.stage.None?
  }

  predicate Cacheable(p: Plan) {
    IsDefault(p) || IsDlqProtect(p)
  }

  /** A fallback, an idempotency stage or a retry stage of the caller's own keeps a call out of the composer cache. */
  lemma OwnStagesBypass(settings: Settings, call: Call)
    requires call.fallback.Some? || call.stage.Some? || call.retry.RetryGiven? || call.retry.RetryBuilt?
    ensures !Cacheable(Resolve(settings, call))
  {
  }

  function KeyOf(p: Plan): Key {
    Key(p.name, p.timeout, if p.dlq then DlqProfile else DefaultProfile)
  }

  /** The plan a cached composer was built for, given the retry configuration inside it. */
  function CachedPlan(k: Key, cfg: Option<RetryConfig>): Plan {
    var dlq := k.profile.DlqProfile?;
    Plan(k.name, None, dlq, if dlq then cfg else None, None, true, k.timeout, dlq, None)
  }

  function PolicyIn(cbs: map<string, CbPolicy>, name: string): CbPolicy {
    if name in cbs then cbs[name] else CbPolicy(name, 0)
  }

  /** The policies after a call that needs one for `name`, built under `id` only if there is none. */
  function Shared(cbs: map<string, CbPolicy>, name: string, id: nat): (r: map<string, CbPolicy>)
    ensures name in r
  {
    if name in cbs then cbs else cbs[name := CbPolicy(name, id)]
  }

  // ---------------------------------------------------------------------------
  // What a history of calls should yield, without any cache
  // ---------------------------------------------------------------------------

  datatype Request = Protect(settings: Settings, call: Call, isAsync: bool) | Reset

  /** Awaiting needs a policy that has an async twin; the check comes before anything is built. */
  predicate Refused(plan: Plan, isAsync: bool) {
    isAsync && plan.retryPolicy.Some? && !plan.retryPolicy.value.tenacity
  }

  /** The call goes through a composer: protection is on and the call is not refused. */
  predicate Composes(r: Request) {
    r.Protect? && r.settings.enabled && !Refused(Resolve(r.settings, r.call), r.isAsync)
  }

  function Prior(history: seq<Request>): seq<Request>
    requires history != []
  {
    history[..|history| - 1]
  }

  /**
   The breaker policy calls under a name share: the one the first such call since the last
   reset built, known by the position of that call.
   */
  function Builder(history: seq<Request>, name: string): Option<nat>
    decreases |history|
  {
    if history == [] then None
    else match history[|history| - 1]
      case Reset => None
      case Protect(settings, call, isAsync) =>
        var before := Builder(Prior(history), name);
        var plan := Resolve(settings, call);
        if before.Some? then before
        else if plan.circuitBreaker && plan.name == name && Composes(history[|history| - 1]) then Some(|history| - 1)
        else None
  }

  /** The retry configuration pinned for a key: that of the first dead-letter call since the last reset. */
  function Pinned(history: seq<Request>, key: Key): Option<RetryConfig>
    decreases |history|
  {
    if history == [] then None
    else match history[|history| - 1]
      case Reset => None
      case Protect(settings, call, isAsync) =>
        var before := Pinned(Prior(history), key);
        var plan := Resolve(settings, call);
        if before.Some? then before
        else if settings.enabled && !isAsync && IsDlqProtect(plan) && KeyOf(plan) == key then plan.retryCfg
        else None
  }

  function Policy(name: string, builder: Option<nat>): CbPolicy {
    CbPolicy(name, if builder.Some? then builder.value else 0)
  }

  /** What the last request of a history gets; nothing when protection is off or the call is refused. */
  function Expected(history: seq<Request>): Option<Composer>
    requires history != []
  {
    match history[|history| - 1]
    case Reset => None
    case Protect(settings, call, isAsync) =>
      var plan := Resolve(settings, call);
      var pinned := Pinned(history, KeyOf(plan));
      var cb := Policy(plan.name, Builder(history, plan.name));
      if !Composes(history[|history| - 1]) then None
      else if isAsync then Some(Assemble(plan, cb).(isAsync := true))
      else
        Some(Assemble(if IsDlqProtect(plan) then plan.(retryCfg := pinned) else plan, cb))
  }

  class ProtectCaches {
    var cbPolicies: map<string, CbPolicy>
    var composers: map<Key, Composer>
    ghost var retries: map<Key, RetryConfig>  // the retry configuration inside each cached dead-letter composer

    /** A cached composer is what per-call construction builds around the cached breaker policy. */
    ghost predicate Valid()
      reads this
    {
      && (forall k | k in composers :: k.name in cbPolicies && (k.profile.DlqProfile? ==> k in retries)
            && composers[k] == Assemble(CachedPlan(k, CachedRetry(k)), cbPolicies[k.name]))
    }

    ghost function CachedRetry(k: Key): Option<RetryConfig>
      reads this
    {
      if k in retries then Some(retries[k]) else None
    }

    constructor ()
      ensures Valid() && composers == map[] && cbPolicies == map[]
    {
      cbPolicies, composers, retries := map[], map[], map[];
    }

    /** `id` is the identity a policy object built by this call gets. */
    method GetOrBuildCbPolicy(name: string, id: nat) returns (policy: CbPolicy)
      requires Valid()
      modifies this`cbPolicies
      ensures Valid()
      ensures name in old(cbPolicies) ==> policy == old(cbPolicies)[name] && cbPolicies == old(cbPolicies)
      ensures name !in old(cbPolicies) ==>
                policy == CbPolicy(name, id) && cbPolicies == old(cbPolicies)[name := policy]
    {
      if name in cbPolicies {
        return cbPolicies[name];
      }
      policy := CbPolicy(name, id);
      cbPolicies := cbPolicies[name := policy];
    }

    method GetOrBuildDefaultComposer(name: string, timeout: Option<real>, id: nat) returns (c: Composer)
      requires Valid()
      modifies this
      ensures Valid() && retries == old(retries)
      ensures cbPolicies == Shared(old(cbPolicies), name, id)
      ensures c == Assemble(CachedPlan(Key(name, timeout, DefaultProfile), None), cbPolicies[name])
      ensures composers == old(composers)[Key(name, timeout, DefaultProfile) := c]
    {
      var key := Key(name, timeout, DefaultProfile);
      if key in composers {
        return composers[key];
      }
      var cb := GetOrBuildCbPolicy(name, id);
      c := Add(EMPTY_COMPOSER, CbStage(cb));
      if timeout.Some? {
        c := Add(c, TimeoutStage(timeout.value));
      }
      composers := composers[key := c];
    }

    /** A cached composer is returned whatever retry configuration is asked for. */
    method GetOrBuildDlqComposer(name: string, timeout: Option<real>, cfg: RetryConfig, id: nat) returns (c: Composer)
      requires Valid()
      modifies this
      ensures Valid() && cbPolicies == Shared(old(cbPolicies), name, id)
      ensures var key := Key(name, timeout, DlqProfile);
              && retries == (if key in old(composers) then old(retries) else old(retries)[key := cfg])
              && key in retries && composers == old(composers)[key := c]
              && c == Assemble(CachedPlan(key, Some(retries[key])), cbPolicies[name])
    {
      var key := Key(name, timeout, DlqProfile);
      if key in composers {
        return composers[key];
      }
      var cb := GetOrBuildCbPolicy(name, id);
      c := Add(EMPTY_COMPOSER, CbStage(cb));
      if timeout.Some? {
        c := Add(c, TimeoutStage(timeout.value));
      }
      c := Add(c, RetryStage(cfg));
      c := AttachDlq(c, name);
      composers := composers[key := c];
      retries := retries[key := cfg];
    }

    /** Per-call construction: successive adds around the shared breaker policy. */
    method BuildUncached(plan: Plan, id: nat) returns (c: Composer)
      requires Valid()
      modifies this`cbPolicies
      ensures Valid()
      ensures cbPolicies == if plan.circuitBreaker then Shared(old(cbPolicies), plan.name, id) else old(cbPolicies)
      ensures c == Assemble(plan, PolicyIn(cbPolicies, plan.name))
    {
      c := EMPTY_COMPOSER;
      if plan.stage.Some? {
        c := c.(guards := c.guards + [plan.stage.value], hooks := c.hooks + [plan.stage.value]);
      }
      if plan.fallback.Some? {
        c := Add(c, FallbackStage(plan.fallback.value));
      }
      assert c.stages == FallbackPart(plan);
      if plan.circuitBreaker {
        var cb := GetOrBuildCbPolicy(plan.name, id);
        c := Add(c, CbStage(cb));
      }
      c := AddInner(plan, c);
    }

    /** The stages inside the breaker, and the dead-letter capture. */
    static method AddInner(plan: Plan, outer: Composer) returns (c: Composer)
      ensures var d := outer.(stages := outer.stages + TimeoutPart(plan) + RetryPart(plan));
              c == if plan.dlq then AttachDlq(d, plan.name) else d
    {
      c := outer;
      if plan.timeout.Some? {
        c := Add(c, TimeoutStage(plan.timeout.value));
      }
      assert c.stages == outer.stages + TimeoutPart(plan);
      if plan.retryPolicy.Some? {
        c := Add(c, BuiltStage(plan.retryPolicy.value));
      } else if plan.retryCfg.Some? {
        c := Add(c, RetryStage(plan.retryCfg.value));
      }
      assert c.stages == outer.stages + TimeoutPart(plan) + RetryPart(plan);
      if plan.dlq {
        c := AttachDlq(c, plan.name);
      }
    }

    /**
     The sync builder. Every call gets what per-call construction would build, except that a
     dead-letter composer found in the cache keeps the retry configuration it was built with.
     A call that is not cacheable leaves the composer cache alone.
     */
    method BuildSync(plan: Plan, id: nat) returns (c: Composer)
      requires Valid()
      modifies this
      ensures Valid()
      ensures cbPolicies == if plan.circuitBreaker then Shared(old(cbPolicies), plan.name, id) else old(cbPolicies)
      ensures composers == if Cacheable(plan) then old(composers)[KeyOf(plan) := c] else old(composers)
      ensures retries == if IsDlqProtect(plan) && KeyOf(plan) !in old(composers)
                         then old(retries)[KeyOf(plan) := plan.retryCfg.value] else old(retries)
      ensures c == Assemble(if IsDlqProtect(plan) then plan.(retryCfg := CachedRetry(KeyOf(plan))) else plan,
                            PolicyIn(cbPolicies, plan.name))
    {
      if IsDefault(plan) {
        c := GetOrBuildDefaultComposer(plan.name, plan.timeout, id);
      } else if IsDlqProtect(plan) {
        c := GetOrBuildDlqComposer(plan.name, plan.timeout, plan.retryCfg.value, id);
      } else {
        c := BuildUncached(plan, id);
      }
    }

    /** The async builder keeps no composers but shares the breaker policies. */
    method BuildAsync(plan: Plan, id: nat) returns (c: Option<Composer>)
      requires Valid()
      modifies this`cbPolicies
      ensures Valid()
      ensures c.None? <==> Refused(plan, true)
      ensures cbPolicies == if plan.circuitBreaker && c.Some? then Shared(old(cbPolicies), plan.name, id)
                            else old(cbPolicies)
      ensures c.Some? ==> c.value == Assemble(plan, PolicyIn(cbPolicies, plan.name)).(isAsync := true)
    {
      if plan.retryPolicy.Some? && !plan.retryPolicy.value.tenacity {
        return None;
      }
      var built := BuildUncached(plan, id);
      c := Some(built.(isAsync := true));
    }

    method ResetProtectCaches()
      requires Valid()
      modifies this
      ensures Valid() && cbPolicies == map[] && composers == map[]
    {
      cbPolicies, composers, retries := map[], map[], map[];
    }
  }

  /** The policy cache holds exactly the policies the history's calls share. */
  ghost predicate HoldsPolicies(cbs: map<string, CbPolicy>, history: seq<Request>) {
    forall name :: if name in cbs then Builder(history, name).Some? && cbs[name] == Policy(name, Builder(history, name))
                   else Builder(history, name).None?
  }

  /** The composer cache holds a dead-letter composer exactly where the history pins its retry configuration. */
  ghost predicate HoldsPins(composers: map<Key, Composer>, retries: map<Key, RetryConfig>, history: seq<Request>) {
    forall key: Key | key.profile.DlqProfile? ::
      if key in composers then key in retries && Pinned(history, key) == Some(retries[key])
      else Pinned(history, key).None?
  }

  /**
   Over every history of sync and async calls, settings and resets, each call gets from the
   caches exactly what the cache-free reading of the history says.
   */
  method Serve(requests: seq<Request>) returns (served: seq<Option<Composer>>)
    ensures |served| == |requests|
    ensures forall i | 0 <= i < |requests| :: served[i] == Expected(requests[..i + 1])
    ensures forall i | 0 <= i < |requests| && requests[i].Protect? :: ServedRight(requests[i], served[i])
  {
    var caches := new ProtectCaches();
    served := [];
    for i := 0 to |requests|
      invariant caches.Valid() && fresh(caches)
      invariant HoldsPolicies(caches.cbPolicies, requests[..i])
      invariant HoldsPins(caches.composers, caches.retries, requests[..i])
      invariant |served| == i && forall j | 0 <= j < i :: served[j] == Expected(requests[..j + 1])
    {
      var c := ServeOne(caches, requests[i], requests[..i]);
      assert requests[..i] + [requests[i]] == requests[..i + 1];
      served := served + [c];
    }
    forall i | 0 <= i < |requests| && requests[i].Protect? ensures ServedRight(requests[i], served[i]) {
      assert requests[..i + 1] == requests[..i] + [requests[i]];
      ServedAsAsked(requests[..i], requests[i].settings, requests[i].call, requests[i].isAsync);
    }
  }

  lemma PoliciesAfter(cbs: map<string, CbPolicy>, history: seq<Request>, request: Request)
    requires HoldsPolicies(cbs, history) && request.Protect?
    ensures var plan := Resolve(request.settings, request.call);
            HoldsPolicies(if plan.circuitBreaker && Composes(request)
                          then Shared(cbs, plan.name, |history|) else cbs, history + [request])
  {
    assert Prior(history + [request]) == history;
  }

  lemma PinsAfter(composers: map<Key, Composer>, retries: map<Key, RetryConfig>, history: seq<Request>,
                  request: Request, c: Composer)
    requires HoldsPins(composers, retries, history) && request.Protect?
    ensures var plan := Resolve(request.settings, request.call);
            var builds := request.settings.enabled && !request.isAsync;
            var pins := builds && IsDlqProtect(plan) && KeyOf(plan) !in composers;
            HoldsPins(if builds && Cacheable(plan) then composers[KeyOf(plan) := c] else composers,
                      if pins then retries[KeyOf(plan) := plan.retryCfg.value] else retries, history + [request])
  {
    assert Prior(history + [request]) == history;
  }

  method ServeOne(caches: ProtectCaches, request: Request, history: seq<Request>) returns (c: Option<Composer>)
    requires caches.Valid()
    requires HoldsPolicies(caches.cbPolicies, history)
    requires HoldsPins(caches.composers, caches.retries, history)
    modifies caches
    ensures caches.Valid()
    ensures HoldsPolicies(caches.cbPolicies, history + [request])
    ensures HoldsPins(caches.composers, caches.retries, history + [request])
    ensures c == Expected(history + [request])
  {
    match request
    case Reset =>
      caches.ResetProtectCaches();
      c := None;
    case Protect(settings, call, isAsync) =>
      var plan := Resolve(settings, call);
      PoliciesAfter(caches.cbPolicies, history, request);
      if !settings.enabled {
        PinsAfter(caches.composers, caches.retries, history, request, EMPTY_COMPOSER);
        c := None;
      } else if isAsync {
        PinsAfter(caches.composers, caches.retries, history, request, EMPTY_COMPOSER);
        c := caches.BuildAsync(plan, |history|);
      } else {
        var built := caches.BuildSync(plan, |history|);
        PinsAfter(old(caches.composers), old(caches.retries), history, request, built);
        c := Some(built);
      }
  }

  // ---------------------------------------------------------------------------
  // What the histories promise
  // ---------------------------------------------------------------------------

  predicate NoReset(requests: seq<Request>) {
    forall i | 0 <= i < |requests| :: requests[i].Protect?
  }

  /** Two calls under one name share their breaker policy exactly when no reset comes between them. */
  lemma {:induction false} PolicyShared(history: seq<Request>, later: seq<Request>, name: string)
    requires Builder(history, name).Some?
    ensures Builder(history + later, name) == Builder(history, name) <==> NoReset(later)
    ensures var b := Builder(history + later, name); NoReset(later) || b.None? || b.value >= |history|
    decreases |later|
  {
    BuilderInPast(history, name);
    if later == [] {
      assert history + later == history;
    } else {
      var n := |later| - 1;
      PolicyShared(history, later[..n], name);
      assert Prior(history + later) == history + later[..n];
      assert later == later[..n] + [later[n]];
    }
  }

  lemma {:induction false} BuilderInPast(history: seq<Request>, name: string)
    ensures var b := Builder(history, name); b.Some? ==> b.value < |history|
    decreases |history|
  {
    if history != [] {
      BuilderInPast(Prior(history), name);
    }
  }

  /**
   Exactly when the composer served is the one per-call construction would give: always,
   except for a dead-letter call that finds its key pinned to a different retry configuration.
   */
  lemma ServedIsCurrentIff(history: seq<Request>, settings: Settings, call: Call)
    requires settings.enabled
    ensures var h := history + [Protect(settings, call, false)];
            var plan := Resolve(settings, call);
            var pinned := Pinned(history, KeyOf(plan));
            Expected(h) == Some(Assemble(plan, Policy(plan.name, Builder(h, plan.name))))
            <==> !IsDlqProtect(plan) || pinned.None? || pinned == plan.retryCfg
  {
    var h := history + [Protect(settings, call, false)];
    assert Prior(h) == history;
    var plan := Resolve(settings, call);
    if IsDlqProtect(plan) {
      var cb := Policy(plan.name, Builder(h, plan.name));
      var kept := plan.(retryCfg := Pinned(h, KeyOf(plan)));
      var s, t := Stages(kept, cb), Stages(plan, cb);
      assert s[|s| - 1] == RetryStage(kept.retryCfg.value) && t[|t| - 1] == RetryStage(plan.retryCfg.value);
    }
  }

  /** Every call of the history was made under settings that give these retry configurations. */
  ghost predicate RetriesFrom(requests: seq<Request>, retryFor: string -> RetryConfig) {
    forall i | 0 <= i < |requests| && requests[i].Protect? :: requests[i].settings.retryFor == retryFor
  }

  /** The requests since the last reset, or since the process began if there was none. */
  function SinceReset(history: seq<Request>): seq<Request>
    decreases |history|
  {
    if history == [] || history[|history| - 1].Reset? then []
    else SinceReset(Prior(history)) + [history[|history| - 1]]
  }

  lemma {:induction false} PinnedFromSettings(history: seq<Request>, retryFor: string -> RetryConfig, key: Key)
    requires RetriesFrom(SinceReset(history), retryFor) && key.profile.DlqProfile?
    ensures var p := Pinned(history, key); p.Some? ==> p.value == WithDlq(retryFor(key.name), true)
    decreases |history|
  {
    if history != [] && history[|history| - 1].Protect? {
      var earlier, last := SinceReset(Prior(history)), history[|history| - 1];
      assert forall i | 0 <= i < |earlier| :: (earlier + [last])[i] == earlier[i];
      assert (earlier + [last])[|earlier|] == last;
      PinnedFromSettings(Prior(history), retryFor, key);
    }
  }

  /** What happened before a reset has no effect on the policies and composers after it. */
  lemma {:induction false} ResetForgets(before: seq<Request>, epoch: seq<Request>, key: Key)
    ensures Pinned(before + [Reset] + epoch, key) == Pinned([Reset] + epoch, key)
    decreases |epoch|
  {
    if epoch == [] {
      assert before + [Reset] + epoch == before + [Reset];
      assert [Reset] + epoch == [Reset];
    } else {
      ResetForgets(before, Prior(epoch), key);
      assert Prior(before + [Reset] + epoch) == before + [Reset] + Prior(epoch);
      assert Prior([Reset] + epoch) == [Reset] + Prior(epoch);
    }
  }

  /**
   As long as the retry settings have not changed since the last reset, or since the process
   began, caching is invisible: every sync call gets its own plan, assembled around the
   shared breaker policy.
   */
  lemma CachingInvisible(history: seq<Request>, settings: Settings, call: Call)
    requires settings.enabled && RetriesFrom(SinceReset(history), settings.retryFor)
    ensures var plan := Resolve(settings, call);
            var h := history + [Protect(settings, call, false)];
            Expected(h) == Some(Assemble(plan, Policy(plan.name, Builder(h, plan.name))))
  {
    var plan := Resolve(settings, call);
    ServedIsCurrentIff(history, settings, call);
    if IsDlqProtect(plan) {
      PinnedFromSettings(history, settings.retryFor, KeyOf(plan));
    }
  }

  // ---------------------------------------------------------------------------
  // What a call is served, in the call's own terms
  // ---------------------------------------------------------------------------

  ghost predicate WantsDlq(settings: Settings, call: Call) {
    call.dlq == Some(true) || (call.dlq.None? && settings.defaultDlq)
  }

  ghost predicate WantsBreaker(settings: Settings, call: Call) {
    call.circuitBreaker == Some(true) || (call.circuitBreaker.None? && settings.defaultCircuitBreaker)
  }

  /** An explicit `None` is an answer: no timeout. */
  ghost predicate WantsTimeout(settings: Settings, call: Call, seconds: real) {
    || call.timeout == TimeoutGiven(Some(seconds))
    || (call.timeout.TimeoutUnset? && settings.defaultTimeout == Some(seconds))
  }

  /** The settings' own retry configuration: asked for, or the default of a silent call. */
  ghost predicate WantsSettingsRetry(settings: Settings, call: Call) {
    call.retry == RetryFlag(true) || (call.retry.RetryUnset? && settings.defaultRetry)
  }

  /** From the outside in: fallback, breaker, timeout, and one retry stage innermost. */
  ghost predicate MayEnclose(outer: Stage, inner: Stage) {
    && !inner.FallbackStage? && !outer.RetryStage? && !outer.BuiltStage?
    && (inner.CbStage? ==> outer.FallbackStage?)
    && (inner.TimeoutStage? ==> outer.FallbackStage? || outer.CbStage?)
  }

  ghost predicate InOrder(stages: seq<Stage>) {
    forall i, j | 0 <= i < j < |stages| :: MayEnclose(stages[i], stages[j])
  }

  ghost predicate HasBreaker(stages: seq<Stage>) {
    exists cb :: CbStage(cb) in stages
  }

  ghost predicate HasRetry(stages: seq<Stage>) {
    exists cfg :: RetryStage(cfg) in stages
  }

  /** The retry configuration is the caller's or the settings', with dead-lettering switched on where it is wanted. */
  ghost predicate RightRetry(settings: Settings, call: Call, cfg: RetryConfig) {
    && (WantsDlq(settings, call) ==> cfg.enableDlq)
    && (call.retry.RetryGiven? ==>
          cfg == call.retry.cfg.(enableDlq := call.retry.cfg.enableDlq || WantsDlq(settings, call)))
    && (!call.retry.RetryGiven? && !WantsDlq(settings, call) ==> cfg == settings.retryFor(call.name))
  }

  ghost predicate RightStages(settings: Settings, call: Call, stages: seq<Stage>) {
    && InOrder(stages)
    && (forall fn: nat :: FallbackStage(fn) in stages <==> call.fallback == Some(fn))
    && (HasBreaker(stages) <==> WantsBreaker(settings, call))
    && (forall cb | CbStage(cb) in stages :: cb.name == call.name)
    && (forall x :: TimeoutStage(x) in stages <==> WantsTimeout(settings, call, x))
    && (forall policy :: BuiltStage(policy) in stages <==> call.retry == RetryBuilt(policy))
    && (HasRetry(stages) <==> call.retry.RetryGiven? || WantsSettingsRetry(settings, call))
    && (forall cfg | RetryStage(cfg) in stages :: RightRetry(settings, call, cfg))
  }

  ghost predicate RightComposer(settings: Settings, call: Call, isAsync: bool, c: Composer) {
    && RightStages(settings, call, c.stages) && c.isAsync == isAsync
    && c.guards == c.hooks == (if call.stage.Some? then [call.stage.value] else [])
    && (c.capturesOpenCircuit <==> WantsDlq(settings, call))
    && c.sinks == (if WantsDlq(settings, call) then 1 else 0)
    && c.captureName == if WantsDlq(settings, call) then Some(call.name) else None
  }

  ghost predicate ServedRight(r: Request, served: Option<Composer>)
    requires r.Protect?
  {
    && (served.Some? <==>
          r.settings.enabled && !(r.isAsync && r.call.retry.RetryBuilt? && !r.call.retry.policy.tenacity))
    && (served.Some? ==> RightComposer(r.settings, r.call, r.isAsync, served.value))
  }

  lemma LayeredInOrder(stages: seq<Stage>)
    requires Layered(stages)
    ensures InOrder(stages)
  {
    forall i, j | 0 <= i < j < |stages| ensures MayEnclose(stages[i], stages[j]) {
      assert Layer(stages[i]) < Layer(stages[j]);
    }
  }

  /** A pinned configuration dead-letters. */
  lemma {:induction false} PinnedDeadLetters(history: seq<Request>, key: Key)
    ensures Pinned(history, key).Some? ==> Pinned(history, key).value.enableDlq
    decreases |history|
  {
    if history != [] {
      PinnedDeadLetters(Prior(history), key);
    }
  }

  /** The plan resolved for a call, with the retry configuration it is served with. */
  ghost predicate ServesPlan(settings: Settings, call: Call, plan: Plan) {
    && plan.name == call.name && plan.fallback == call.fallback && plan.stage == call.stage
    && (plan.dlq <==> WantsDlq(settings, call)) && (plan.circuitBreaker <==> WantsBreaker(settings, call))
    && (forall x :: plan.timeout == Some(x) <==> WantsTimeout(settings, call, x))
    && (forall policy :: plan.retryPolicy == Some(policy) <==> call.retry == RetryBuilt(policy))
    && (plan.retryCfg.Some? <==> call.retry.RetryGiven? || WantsSettingsRetry(settings, call))
    && (plan.retryCfg.Some? ==> RightRetry(settings, call, plan.retryCfg.value))
  }

  lemma ResolvedServes(settings: Settings, call: Call)
    ensures ServesPlan(settings, call, Resolve(settings, call))
  {
  }

  lemma PlanStages(settings: Settings, call: Call, plan: Plan, cb: CbPolicy)
    requires ServesPlan(settings, call, plan) && cb.name == call.name
    ensures RightStages(settings, call, Stages(plan, cb))
  {
    var stages := Stages(plan, cb);
    StagesLayered(plan, cb);
    LayeredInOrder(stages);
    forall s ensures s in stages <==> Wanted(plan, cb, s) {
      StagesWanted(plan, cb, s);
    }
    assert Wanted(plan, cb, CbStage(cb)) <==> plan.circuitBreaker;
    if plan.retryCfg.Some? {
      assert plan.retryPolicy.None? ==> RetryStage(plan.retryCfg.value) in stages;
    }
    assert forall policy :: BuiltStage(policy) in stages <==> Wanted(plan, cb, BuiltStage(policy));
  }

  /**
   Whatever came before, a call is served exactly what it asked for, with the settings' defaults
   where it is silent. It is served nothing only when protection is off, or when an async call
   brings a retry policy that has no async twin.
   */
  lemma ServedAsAsked(history: seq<Request>, settings: Settings, call: Call, isAsync: bool)
    ensures ServedRight(Protect(settings, call, isAsync), Expected(history + [Protect(settings, call, isAsync)]))
  {
    var h := history + [Protect(settings, call, isAsync)];
    var plan := Resolve(settings, call);
    var cb := Policy(plan.name, Builder(h, plan.name));
    ResolvedServes(settings, call);
    var kept := plan;
    if !isAsync && IsDlqProtect(plan) && settings.enabled {
      assert Prior(h) == history;
      PinnedDeadLetters(h, KeyOf(plan));
      kept := plan.(retryCfg := Pinned(h, KeyOf(plan)));
    }
    if Expected(h).Some? {
      assert ServesPlan(settings, call, kept);
      PlanStages(settings, call, kept, cb);
    }
  }
}
