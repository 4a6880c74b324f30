/**
 Environment-aware wiring of provider registries at startup (src/baldur/bootstrap.py): the
 table of rows, the three wiring phases with probes, operator overrides, eager construction,
 demotion and refusal, and the reset that restores the module-load defaults.

 Probes, registrations, overrides and constructions are inputs: an environment fixes their
 outcome for one wiring run. A registry keeps the instances it has built, so a provider that
 was built once is found again without being constructed.
 */
module BootstrapWiring {
  import opened Wrappers

  datatype RegistryId =
    | Cache | ConfigHistory | CanaryRollout | ChaosExperiment | CrossCluster | RateLimit
    | RecoverySession | Security | Postmortem
    | DatabaseHealth | PgAdmin | PoolInfo | EventJournal | FailedOp

  datatype Provider = Redis | Sql | Django | Memory | Noop | Database | Other(name: string)

  datatype Probe = DjangoProbe | PostgresProbe | RedisProbe | AlwaysTrue

  datatype Kind = RedisBacked | SqlDjango | PriorityChain

  datatype Candidate = Candidate(provider: Provider, probe: Probe)

  datatype Row = Row(kind: Kind, registry: RegistryId, target: Provider, fallback: Option<Provider>,
                     chain: seq<Candidate>, baseline: Provider, eager: bool)

  const DATABASE_CHAIN := [Candidate(Django, DjangoProbe), Candidate(Sql, PostgresProbe), Candidate(Noop, AlwaysTrue)]
  const POOL_CHAIN := [Candidate(Django, DjangoProbe), Candidate(Noop, AlwaysTrue)]
  const HYBRID_CHAIN := [Candidate(Redis, RedisProbe), Candidate(Sql, PostgresProbe), Candidate(Memory, AlwaysTrue)]

  /** The ordered table of registries that startup rewires. */
  const TABLE: seq<Row> := [
    Row(RedisBacked, Cache, Redis, None, [], Memory, false),
    Row(RedisBacked, ConfigHistory, Redis, None, [], Memory, false),
    Row(RedisBacked, CanaryRollout, Redis, None, [], Memory, false),
    Row(RedisBacked, ChaosExperiment, Redis, None, [], Memory, false),
    Row(RedisBacked, CrossCluster, Redis, None, [], Memory, false),
    Row(RedisBacked, RateLimit, Redis, Some(Database), [], Memory, false),
    Row(SqlDjango, RecoverySession, Django, None, [], Memory, true),
    Row(SqlDjango, Security, Django, None, [], Memory, true),
    Row(SqlDjango, Postmortem, Django, None, [], Memory, true),
    Row(PriorityChain, DatabaseHealth, Noop, None, DATABASE_CHAIN, Noop, true),
    Row(PriorityChain, PgAdmin, Noop, None, DATABASE_CHAIN, Noop, true),
    Row(PriorityChain, PoolInfo, Noop, None, POOL_CHAIN, Noop, false),
    Row(PriorityChain, EventJournal, Noop, None, HYBRID_CHAIN, Memory, true),
    Row(PriorityChain, FailedOp, Noop, None, HYBRID_CHAIN, Redis, true)
  ]

  /** The position of a registry's row. */
  function Position(r: RegistryId): nat {
    match r
    case Cache => 0 case ConfigHistory => 1 case CanaryRollout => 2 case ChaosExperiment => 3
    case CrossCluster => 4 case RateLimit => 5 case RecoverySession => 6 case Security => 7
    case Postmortem => 8 case DatabaseHealth => 9 case PgAdmin => 10 case PoolInfo => 11
    case EventJournal => 12 case FailedOp => 13
  }

  /** The defaults set when the registry module is loaded (src/baldur/factory/registry.py). */
  function ModuleLoadDefault(r: RegistryId): Provider {
    match r
    case DatabaseHealth => Noop
    case PgAdmin => Noop
    case PoolInfo => Noop
    case FailedOp => Redis
    case _ => Memory
  }

  /** What becomes of the resilient storage backend when it is installed. */
  datatype Storage = WalStarted | WalMissing | ConstructorRaises

  datatype Env = Env(
    legacyAlias: bool, production: bool, testMode: bool,
    redisUrl: bool, redisDriver: bool, sqlDsn: bool, postgresVars: bool, django: bool, storage: Storage,
    overrides: map<RegistryId, Provider>, registered: set<(RegistryId, Provider)>,
    constructible: set<(RegistryId, Provider)>, allowInMemoryIdempotency: bool)

  /** Default names and cached instances of the wired registries. */
  datatype State = State(defaults: map<RegistryId, Provider>, instances: set<(RegistryId, Provider)>)

  /** Wiring ends normally or by an exception, and leaves the registries as they then are. */
  datatype Outcome = Wired(state: State) | Refused(state: State)

  // ---------------------------------------------------------------------------
  // The rows
  // ---------------------------------------------------------------------------

  function SetDefault(s: State, r: RegistryId, p: Provider): State {
    s.(defaults := s.defaults[r := p])
  }

  predicate Holds(env: Env, probe: Probe) {
    match probe
    case DjangoProbe => env.django
    case PostgresProbe => env.sqlDsn || env.postgresVars
    case RedisProbe => env.redisUrl && env.redisDriver
    case AlwaysTrue => true
  }

  /** `registry.get(name)` returns an instance. */
  predicate Resolves(env: Env, s: State, r: RegistryId, p: Provider) {
    (r, p) in s.instances || ((r, p) in env.registered && (r, p) in env.constructible)
  }

  /** Chain members whose probe holds and whose provider is registered, in chain order. */
  function Matched(env: Env, r: RegistryId, chain: seq<Candidate>): seq<Provider> {
    if chain == [] then []
    else
      (if Holds(env, chain[0].probe) && (r, chain[0].provider) in env.registered then [chain[0].provider] else [])
      + Matched(env, r, chain[1..])
  }

  predicate ProbeAccepted(p: Provider) {
    p == Redis || p == Django
  }

  /** The demotion targets behind a selection: never redis or django. */
  function Eligible(candidates: seq<Provider>, selected: Provider): seq<Provider> {
    if candidates == [] then []
    else
      (if candidates[0] != selected && !ProbeAccepted(candidates[0]) then [candidates[0]] else [])
      + Eligible(candidates[1..], selected)
  }

  /** Construct the names in turn; keep the first that resolves, refuse at a failure in production. */
  function TryInTurn(env: Env, r: RegistryId, selected: Provider, names: seq<Provider>, s: State): Outcome {
    if names == [] then Wired(s)
    else if Resolves(env, s, r, names[0]) then
      var t := s.(instances := s.instances + {(r, names[0])});
      Wired(if names[0] != selected then SetDefault(t, r, names[0]) else t)
    else if env.production then Refused(s)
    else TryInTurn(env, r, selected, names[1..], s)
  }

  function EagerValidate(env: Env, row: Row, s: State, candidates: seq<Provider>, operatorChosen: bool): Outcome {
    if !row.eager || row.registry !in s.defaults then Wired(s)
    else
      var selected := s.defaults[row.registry];
      if !operatorChosen && ProbeAccepted(selected) then Wired(s)
      else TryInTurn(env, row.registry, selected, [selected] + Eligible(candidates, selected), s)
  }

  function WireRedisRow(env: Env, row: Row, s: State): Outcome {
    if env.redisUrl && !env.redisDriver then Wired(SetDefault(s, row.registry, Memory))
    else if env.redisUrl then Wired(SetDefault(s, row.registry, row.target))
    else if row.fallback.Some? && env.django then Wired(SetDefault(s, row.registry, row.fallback.value))
    else if env.production then Refused(s)
    else Wired(SetDefault(s, row.registry, Memory))
  }

  function WireSqlDjangoRow(env: Env, row: Row, s: State): Outcome {
    var selected := if env.sqlDsn then Sql else if env.django then row.target else Memory;
    EagerValidate(env, row, SetDefault(s, row.registry, selected), [Memory], false)
  }

  /** The operator's override, when it names a registered provider. */
  predicate Overridden(env: Env, r: RegistryId) {
    r in env.overrides && (r, env.overrides[r]) in env.registered
  }

  function WireChainRow(env: Env, row: Row, s: State): Outcome {
    var r, matched := row.registry, Matched(env, row.registry, row.chain);
    if Overridden(env, r) then EagerValidate(env, row, SetDefault(s, r, env.overrides[r]), matched, true)
    else if matched == [] then Wired(s)
    else EagerValidate(env, row, SetDefault(s, r, matched[0]), matched, false)
  }

  function WireRow(env: Env, row: Row, s: State): Outcome {
    match row.kind
    case RedisBacked => WireRedisRow(env, row, s)
    case SqlDjango => WireSqlDjangoRow(env, row, s)
    case PriorityChain => WireChainRow(env, row, s)
  }

  /** Wire the rows of one kind in table order; the first refusal ends the phase. */
  function WirePhase(env: Env, kind: Kind, rows: seq<Row>, s: State): Outcome {
    if rows == [] then Wired(s)
    else if rows[0].kind != kind then WirePhase(env, kind, rows[1..], s)
    else
      var first := WireRow(env, rows[0], s);
      if first.Refused? then first else WirePhase(env, kind, rows[1..], first.state)
  }

  /** The storage backend is installed only when Redis was selected. */
  predicate StorageRaises(env: Env) {
    env.redisUrl && env.redisDriver &&
    (env.storage.ConstructorRaises? || (env.storage.WalMissing? && env.production))
  }

  /** Startup refuses before any row is wired: a legacy alias, or production without the Redis driver. */
  predicate RefusedAtOnce(env: Env) {
    env.legacyAlias || (!env.testMode && env.production && env.redisUrl && !env.redisDriver)
  }

  function WireDefaults(env: Env, s: State): Outcome {
    if RefusedAtOnce(env) then Refused(s)
    else if env.testMode then Wired(s)
    else
      var a := WirePhase(env, RedisBacked, TABLE, s);
      if a.Refused? then a
      else if StorageRaises(env) then Refused(a.state)
      else
        var b := WirePhase(env, SqlDjango, TABLE, a.state);
        if b.Refused? then b else WirePhase(env, PriorityChain, TABLE, b.state)
  }

  /** The idempotency check that follows wiring would refuse to start. */
  predicate IdempotencyRefuses(env: Env, s: State) {
    !env.testMode && env.production && !env.allowInMemoryIdempotency &&
    (Cache !in s.defaults || s.defaults[Cache] == Memory)
  }

  // ---------------------------------------------------------------------------
  // A row touches only its own registry
  // ---------------------------------------------------------------------------

  /** The two states agree on one registry. */
  ghost predicate SameAt(a: State, b: State, r: RegistryId) {
    && (r in a.defaults <==> r in b.defaults)
    && (r in a.defaults ==> a.defaults[r] == b.defaults[r])
    && forall p :: (r, p) in a.instances <==> (r, p) in b.instances
  }

  /** The outcomes agree on whether they refuse and on the registry. */
  ghost predicate SameOutcomeAt(x: Outcome, y: Outcome, r: RegistryId) {
    (x.Wired? <==> y.Wired?) && SameAt(x.state, y.state, r)
  }

  lemma {:induction false} TryInTurnLocal(env: Env, r: RegistryId, selected: Provider, names: seq<Provider>,
                                          a: State, b: State)
    requires SameAt(a, b, r)
    ensures SameOutcomeAt(TryInTurn(env, r, selected, names, a), TryInTurn(env, r, selected, names, b), r)
  {
    if names != [] && !Resolves(env, a, r, names[0]) && !env.production {
      TryInTurnLocal(env, r, selected, names[1..], a, b);
    }
  }

  lemma {:induction false} TryInTurnFrame(env: Env, r: RegistryId, selected: Provider, names: seq<Provider>,
                                          s: State, o: RegistryId)
    requires o != r
    ensures SameAt(TryInTurn(env, r, selected, names, s).state, s, o)
  {
    if names != [] && !Resolves(env, s, r, names[0]) && !env.production {
      TryInTurnFrame(env, r, selected, names[1..], s, o);
    }
  }

  lemma EagerLocal(env: Env, row: Row, a: State, b: State, candidates: seq<Provider>, operatorChosen: bool)
    requires SameAt(a, b, row.registry)
    ensures SameOutcomeAt(EagerValidate(env, row, a, candidates, operatorChosen),
                          EagerValidate(env, row, b, candidates, operatorChosen), row.registry)
  {
    if row.registry in a.defaults {
      var selected := a.defaults[row.registry];
      TryInTurnLocal(env, row.registry, selected, [selected] + Eligible(candidates, selected), a, b);
    }
  }

  lemma EagerFrame(env: Env, row: Row, s: State, p: Provider, candidates: seq<Provider>, operatorChosen: bool,
                   o: RegistryId)
    requires o != row.registry
    ensures SameAt(EagerValidate(env, row, SetDefault(s, row.registry, p), candidates, operatorChosen).state, s, o)
  {
    var t := SetDefault(s, row.registry, p);
    TryInTurnFrame(env, row.registry, p, [p] + Eligible(candidates, p), t, o);
    assert SameAt(t, s, o);
  }

  /** What wiring a row does at its registry depends on nothing but that registry. */
  lemma RowLocal(env: Env, row: Row, a: State, b: State)
    requires SameAt(a, b, row.registry)
    ensures SameOutcomeAt(WireRow(env, row, a), WireRow(env, row, b), row.registry)
  {
    var r, matched := row.registry, Matched(env, row.registry, row.chain);
    match row.kind {
      case RedisBacked =>
      case SqlDjango =>
        var p := if env.sqlDsn then Sql else if env.django then row.target else Memory;
        EagerLocal(env, row, SetDefault(a, r, p), SetDefault(b, r, p), [Memory], false);
      case PriorityChain =>
        if Overridden(env, r) {
          var p := env.overrides[r];
          EagerLocal(env, row, SetDefault(a, r, p), SetDefault(b, r, p), matched, true);
        } else if matched != [] {
          EagerLocal(env, row, SetDefault(a, r, matched[0]), SetDefault(b, r, matched[0]), matched, false);
        }
    }
  }

  /** Wiring a row changes no other registry. */
  lemma RowFrame(env: Env, row: Row, s: State, o: RegistryId)
    requires o != row.registry
    ensures SameAt(WireRow(env, row, s).state, s, o)
  {
    var r, matched := row.registry, Matched(env, row.registry, row.chain);
    match row.kind {
      case RedisBacked =>
      case SqlDjango =>
        var p := if env.sqlDsn then Sql else if env.django then row.target else Memory;
        EagerFrame(env, row, s, p, [Memory], false, o);
      case PriorityChain =>
        if Overridden(env, r) {
          EagerFrame(env, row, s, env.overrides[r], matched, true, o);
        } else if matched != [] {
          EagerFrame(env, row, s, matched[0], matched, false, o);
        }
    }
  }

  ghost predicate DistinctRows(rows: seq<Row>) {
    forall i, j | 0 <= i < j < |rows| :: rows[i].registry != rows[j].registry
  }

  /** A phase leaves every registry alone that has no row of its kind. */
  lemma {:induction false} PhaseFrame(env: Env, kind: Kind, rows: seq<Row>, s: State, r: RegistryId)
    requires forall i | 0 <= i < |rows| :: rows[i].kind == kind ==> rows[i].registry != r
    ensures SameAt(WirePhase(env, kind, rows, s).state, s, r)
  {
    if rows != [] {
      if rows[0].kind == kind {
        RowFrame(env, rows[0], s, r);
        var first := WireRow(env, rows[0], s);
        if first.Wired? {
          PhaseFrame(env, kind, rows[1..], first.state, r);
        }
      } else {
        PhaseFrame(env, kind, rows[1..], s, r);
      }
    }
  }

  /** A phase that completes leaves at each of its rows what wiring that row alone would. */
  lemma {:induction false} PhaseSettles(env: Env, kind: Kind, rows: seq<Row>, s: State, i: nat)
    requires DistinctRows(rows) && i < |rows| && rows[i].kind == kind
    requires WirePhase(env, kind, rows, s).Wired?
    ensures SameOutcomeAt(WirePhase(env, kind, rows, s), WireRow(env, rows[i], s), rows[i].registry)
    decreases |rows|
  {
    if rows[0].kind == kind {
      var first := WireRow(env, rows[0], s);
      if i == 0 {
        PhaseFrame(env, kind, rows[1..], first.state, rows[0].registry);
      } else {
        PhaseSettles(env, kind, rows[1..], first.state, i - 1);
        RowFrame(env, rows[0], s, rows[i].registry);
        RowLocal(env, rows[i], first.state, s);
      }
    } else {
      PhaseSettles(env, kind, rows[1..], s, i - 1);
    }
  }

  lemma RowPositions(i: nat)
    requires i < |TABLE|
    ensures Position(TABLE[i].registry) == i
  {
  }

  lemma PositionRows(r: RegistryId)
    ensures Position(r) < |TABLE| && TABLE[Position(r)].registry == r
  {
  }

  /** The table has one row per registry. */
  lemma TableRows()
    ensures forall i | 0 <= i < |TABLE| :: Position(TABLE[i].registry) == i
    ensures forall r :: Position(r) < |TABLE| && TABLE[Position(r)].registry == r
    ensures DistinctRows(TABLE)
  {
    forall i | 0 <= i < |TABLE| ensures Position(TABLE[i].registry) == i {
      RowPositions(i);
    }
    forall r ensures Position(r) < |TABLE| && TABLE[Position(r)].registry == r {
      PositionRows(r);
    }
  }

  /** A row of one kind, in the middle of wiring: earlier phases leave its registry alone. */
  lemma RowSettles(env: Env, s: State, t: State, r: RegistryId)
    requires SameAt(t, s, r) && WirePhase(env, TABLE[Position(r)].kind, TABLE, t).Wired?
    ensures SameOutcomeAt(WirePhase(env, TABLE[Position(r)].kind, TABLE, t), WireRow(env, TABLE[Position(r)], s), r)
  {
    TableRows();
    var row := TABLE[Position(r)];
    PhaseSettles(env, row.kind, TABLE, t, Position(r));
    RowLocal(env, row, t, s);
  }

  lemma PhaseKeeps(env: Env, kind: Kind, s: State, r: RegistryId)
    requires TABLE[Position(r)].kind != kind
    ensures SameAt(WirePhase(env, kind, TABLE, s).state, s, r)
  {
    TableRows();
    PhaseFrame(env, kind, TABLE, s, r);
  }

  /** After a complete wiring outside test mode, every registry is as its own row alone would leave it. */
  lemma WiringSettles(env: Env, s: State, r: RegistryId)
    requires !env.testMode && WireDefaults(env, s).Wired?
    ensures SameOutcomeAt(WireDefaults(env, s), WireRow(env, TABLE[Position(r)], s), r)
  {
    var a := WirePhase(env, RedisBacked, TABLE, s).state;
    var b := WirePhase(env, SqlDjango, TABLE, a).state;
    match TABLE[Position(r)].kind {
      case RedisBacked =>
        RowSettles(env, s, s, r);
        PhaseKeeps(env, SqlDjango, a, r);
        PhaseKeeps(env, PriorityChain, b, r);
      case SqlDjango =>
        PhaseKeeps(env, RedisBacked, s, r);
        RowSettles(env, s, a, r);
        PhaseKeeps(env, PriorityChain, b, r);
      case PriorityChain =>
        PhaseKeeps(env, RedisBacked, s, r);
        PhaseKeeps(env, SqlDjango, a, r);
        RowSettles(env, s, b, r);
    }
  }

  // ---------------------------------------------------------------------------
  // Production
  // ---------------------------------------------------------------------------

  predicate IsRedisBacked(r: RegistryId) {
    r in {Cache, ConfigHistory, CanaryRollout, ChaosExperiment, CrossCluster, RateLimit}
  }

  lemma ProductionHasRedis(env: Env, s: State)
    requires env.production && !env.testMode && WireDefaults(env, s).Wired?
    ensures env.redisUrl && env.redisDriver
  {
    WiringSettles(env, s, Cache);
  }

  lemma RedisRowOnRedis(env: Env, s: State, r: RegistryId)
    requires env.redisUrl && env.redisDriver && !env.testMode && WireDefaults(env, s).Wired? && IsRedisBacked(r)
    ensures var f := WireDefaults(env, s).state; r in f.defaults && f.defaults[r] == Redis
  {
    WiringSettles(env, s, r);
    assert TABLE[Position(r)].kind == RedisBacked && TABLE[Position(r)].target == Redis;
  }

  lemma HybridOnRedis(env: Env, s: State, r: RegistryId)
    requires env.redisUrl && env.redisDriver && !env.testMode && WireDefaults(env, s).Wired?
    requires r in {EventJournal, FailedOp} && !Overridden(env, r) && (r, Redis) in env.registered
    ensures var f := WireDefaults(env, s).state; r in f.defaults && f.defaults[r] == Redis
  {
    WiringSettles(env, s, r);
    assert TABLE[Position(r)].kind == PriorityChain && TABLE[Position(r)].chain == HYBRID_CHAIN;
    assert Matched(env, r, HYBRID_CHAIN)[0] == Redis;
  }

  /**
   A wiring that completes in production outside test mode puts every Redis-backed registry on
   redis, so neither the database fallback nor the idempotency refusal can follow; the event
   journal and the dead-letter store are on redis too unless the operator chose otherwise.
   */
  lemma ProductionWiring(env: Env, s: State)
    requires env.production && !env.testMode && WireDefaults(env, s).Wired?
    ensures var f := WireDefaults(env, s).state;
            && (forall r | IsRedisBacked(r) :: r in f.defaults && f.defaults[r] == Redis)
            && !IdempotencyRefuses(env, f)
            && (forall r | r in {EventJournal, FailedOp} && !Overridden(env, r) && (r, Redis) in env.registered ::
                  r in f.defaults && f.defaults[r] == Redis)
  {
    ProductionHasRedis(env, s);
    forall r | IsRedisBacked(r)
      ensures var f := WireDefaults(env, s).state; r in f.defaults && f.defaults[r] == Redis
    {
      RedisRowOnRedis(env, s, r);
    }
    assert IsRedisBacked(Cache);
    forall r | r in {EventJournal, FailedOp} && !Overridden(env, r) && (r, Redis) in env.registered
      ensures var f := WireDefaults(env, s).state; r in f.defaults && f.defaults[r] == Redis
    {
      HybridOnRedis(env, s, r);
    }
  }

  // ---------------------------------------------------------------------------
  // Eager validation
  // ---------------------------------------------------------------------------

  /** `names[k]` is the first of the names that resolves. */
  ghost predicate IsFirst(env: Env, s: State, r: RegistryId, names: seq<Provider>, k: nat) {
    k < |names| && Resolves(env, s, r, names[k]) && forall i | 0 <= i < k :: !Resolves(env, s, r, names[i])
  }

  /**
   The verdict on a selection `names[0]` and its demotion targets: production refuses exactly when
   the selection does not resolve and never demotes; elsewhere the first name that resolves wins.
   */
  ghost predicate IsVerdict(env: Env, s: State, r: RegistryId, names: seq<Provider>, x: Outcome) {
    && names != [] && r in x.state.defaults
    && (if env.production then x.Wired? <==> Resolves(env, s, r, names[0]) else x.Wired?)
    && (env.production && x.Wired? ==> x.state.defaults[r] == names[0])
    && (x.Wired? ==> forall k: nat | IsFirst(env, s, r, names, k) ::
          x.state.defaults[r] == names[k] && (r, names[k]) in x.state.instances)
    && (x.Refused? || (forall i | 0 <= i < |names| :: !Resolves(env, s, r, names[i])) ==> x.state == s)
  }

  lemma {:induction false} TryInTurnVerdict(env: Env, r: RegistryId, selected: Provider, names: seq<Provider>, s: State)
    requires names != [] && r in s.defaults && s.defaults[r] == selected
    ensures IsVerdict(env, s, r, names, TryInTurn(env, r, selected, names, s))
    decreases |names|
  {
    var x := TryInTurn(env, r, selected, names, s);
    if !Resolves(env, s, r, names[0]) && !env.production && |names| > 1 {
      TryInTurnVerdict(env, r, selected, names[1..], s);
      forall k: nat | IsFirst(env, s, r, names, k)
        ensures x.state.defaults[r] == names[k] && (r, names[k]) in x.state.instances
      {
        assert IsFirst(env, s, r, names[1..], k - 1);
      }
      forall i | 0 <= i < |names[1..]| && Resolves(env, s, r, names[1..][i])
        ensures exists j | 0 <= j < |names| :: Resolves(env, s, r, names[j])
      {
        assert Resolves(env, s, r, names[i + 1]);
      }
    }
  }

  /** What eager validation decides about a selection that is not a probe's redis or django. */
  lemma EagerVerdict(env: Env, row: Row, s: State, candidates: seq<Provider>, operatorChosen: bool)
    requires row.eager && row.registry in s.defaults
    requires operatorChosen || !ProbeAccepted(s.defaults[row.registry])
    ensures var selected := s.defaults[row.registry];
            IsVerdict(env, s, row.registry, [selected] + Eligible(candidates, selected),
                      EagerValidate(env, row, s, candidates, operatorChosen))
  {
    var selected := s.defaults[row.registry];
    TryInTurnVerdict(env, row.registry, selected, [selected] + Eligible(candidates, selected), s);
  }

  lemma {:induction false} FirstExists(env: Env, s: State, r: RegistryId, names: seq<Provider>, i: nat) returns (k: nat)
    requires i < |names| && Resolves(env, s, r, names[i])
    ensures IsFirst(env, s, r, names, k)
  {
    if j: nat :| j < i && Resolves(env, s, r, names[j]) {
      k := FirstExists(env, s, r, names, j);
    } else {
      k := i;
    }
  }

  lemma {:induction false} EligibleKeeps(candidates: seq<Provider>, selected: Provider, p: Provider)
    requires p in candidates && p != selected && !ProbeAccepted(p)
    ensures p in Eligible(candidates, selected)
  {
    if p != candidates[0] {
      EligibleKeeps(candidates[1..], selected, p);
    }
  }

  lemma {:induction false} MatchedKeeps(env: Env, r: RegistryId, chain: seq<Candidate>, i: nat)
    requires i < |chain| && Holds(env, chain[i].probe) && (r, chain[i].provider) in env.registered
    ensures chain[i].provider in Matched(env, r, chain)
  {
    if i > 0 {
      MatchedKeeps(env, r, chain[1..], i - 1);
    }
  }

  /** The last resort of a row: always probed true, never skipped as a demotion target. */
  function Terminal(row: Row): Provider {
    if row.kind == PriorityChain && row.chain != [] then row.chain[|row.chain| - 1].provider else Memory
  }

  /** A probe, not the operator, chose this provider for the row. */
  ghost predicate ProbeChose(env: Env, row: Row, p: Provider) {
    if row.kind == SqlDjango then !env.sqlDsn && env.django && p == row.target
    else
      !Overridden(env, row.registry) &&
      var matched := Matched(env, row.registry, row.chain); matched != [] && p == matched[0]
  }

  ghost predicate Usable(env: Env, row: Row, s: State) {
    row.registry in s.defaults &&
    var p := s.defaults[row.registry];
    (ProbeAccepted(p) && ProbeChose(env, row, p)) || (row.registry, p) in s.instances
  }

  lemma EagerUsable(env: Env, row: Row, s: State, p: Provider, candidates: seq<Provider>, operatorChosen: bool)
    requires row.eager && Terminal(row) in candidates && !ProbeAccepted(Terminal(row))
    requires Resolves(env, s, row.registry, Terminal(row))
    requires !operatorChosen && ProbeAccepted(p) ==> ProbeChose(env, row, p)
    ensures var x := EagerValidate(env, row, SetDefault(s, row.registry, p), candidates, operatorChosen);
            x.Wired? ==> Usable(env, row, x.state)
  {
    var t := SetDefault(s, row.registry, p);
    if operatorChosen || !ProbeAccepted(p) {
      var names := [p] + Eligible(candidates, p);
      if Terminal(row) != p {
        EligibleKeeps(candidates, p, Terminal(row));
      }
      assert names[0] == p && Terminal(row) in names;
      var i :| 0 <= i < |names| && names[i] == Terminal(row);
      assert Resolves(env, t, row.registry, names[i]);
      var k := FirstExists(env, t, row.registry, names, i);
      EagerVerdict(env, row, t, candidates, operatorChosen);
    }
  }

  /** An eager row falls back on a name that is always probed true and may be demoted to. */
  ghost predicate HasLastResort(row: Row) {
    && row.eager && !ProbeAccepted(Terminal(row))
    && (row.kind == SqlDjango
        || (row.kind == PriorityChain && row.chain != [] && row.chain[|row.chain| - 1].probe == AlwaysTrue))
  }

  lemma EagerRowsHaveLastResort(r: RegistryId)
    requires TABLE[Position(r)].eager
    ensures HasLastResort(TABLE[Position(r)]) && TABLE[Position(r)].registry == r
  {}

  lemma EagerRowUsable(env: Env, row: Row, s: State)
    requires HasLastResort(row) && WireRow(env, row, s).Wired?
    requires Resolves(env, s, row.registry, Terminal(row)) && (row.registry, Terminal(row)) in env.registered
    ensures Usable(env, row, WireRow(env, row, s).state)
  {
    var r := row.registry;
    if row.kind == SqlDjango {
      var p := if env.sqlDsn then Sql else if env.django then row.target else Memory;
      EagerUsable(env, row, s, p, [Memory], false);
    } else {
      var matched := Matched(env, r, row.chain);
      MatchedKeeps(env, r, row.chain, |row.chain| - 1);
      if Overridden(env, r) {
        EagerUsable(env, row, s, env.overrides[r], matched, true);
      } else {
        EagerUsable(env, row, s, matched[0], matched, false);
      }
    }
  }

  /**
   Whenever wiring completes outside test mode, an eager row whose last resort resolves has as
   default a redis or django that a probe chose, or a provider that has been constructed.
   */
  lemma EagerRowsUsable(env: Env, s: State, r: RegistryId)
    requires !env.testMode && WireDefaults(env, s).Wired?
    requires var row := TABLE[Position(r)];
             row.eager && Resolves(env, s, r, Terminal(row)) && (r, Terminal(row)) in env.registered
    ensures Usable(env, TABLE[Position(r)], WireDefaults(env, s).state)
  {
    WiringSettles(env, s, r);
    EagerRowsHaveLastResort(r);
    EagerRowUsable(env, TABLE[Position(r)], s);
  }

  // ---------------------------------------------------------------------------
  // What every registry ends on
  // ---------------------------------------------------------------------------

  /** The registry hands out an instance under this name: it keeps one, or can build one. */
  ghost predicate Works(env: Env, s: State, r: RegistryId, p: Provider) {
    (r, p) in s.instances || ((r, p) in env.registered && (r, p) in env.constructible)
  }

  ghost predicate IsStore(r: RegistryId) {
    r in {RecoverySession, Security, Postmortem}
  }

  ghost predicate IsHybrid(r: RegistryId) {
    r in {EventJournal, FailedOp}
  }

  ghost predicate IsSurface(r: RegistryId) {
    r in {DatabaseHealth, PgAdmin}
  }

  /** The operator names a registered provider; only the chain registries look at this. */
  ghost predicate OperatorNames(env: Env, r: RegistryId, p: Provider) {
    !IsRedisBacked(r) && !IsStore(r) && r in env.overrides && env.overrides[r] == p && (r, p) in env.registered
  }

  ghost predicate HasSql(env: Env, r: RegistryId) {
    (env.sqlDsn || env.postgresVars) && (r, Sql) in env.registered
  }

  /** The best backend of a chain registry: the framework's own, then SQL, then the last resort, if registered. */
  ghost function Preferred(env: Env, r: RegistryId): Option<Provider> {
    if IsHybrid(r) && env.redisUrl && env.redisDriver && (r, Redis) in env.registered then Some(Redis)
    else if !IsHybrid(r) && env.django && (r, Django) in env.registered then Some(Django)
    else if r != PoolInfo && HasSql(env, r) then Some(Sql)
    else if (r, LastResort(r)) in env.registered then Some(LastResort(r))
    else None
  }

  ghost function LastResort(r: RegistryId): Provider {
    if IsHybrid(r) || IsStore(r) then Memory else Noop
  }

  /** Where a selection that must be built and cannot be is demoted to, outside production. */
  ghost function DemotedTo(env: Env, s: State, r: RegistryId, selected: Provider): Provider {
    if !IsStore(r) && HasSql(env, r) && selected != Sql && Works(env, s, r, Sql) then Sql
    else if (IsStore(r) || (r, LastResort(r)) in env.registered) && Works(env, s, r, LastResort(r)) then LastResort(r)
    else selected
  }

  /** A selection must be built unless a probe chose redis or django, or the registry is not validated. */
  ghost predicate MustBuild(r: RegistryId, selected: Provider, byOperator: bool) {
    r != PoolInfo && (byOperator || (selected != Redis && selected != Django))
  }

  ghost function Settled(env: Env, s: State, r: RegistryId, selected: Provider, byOperator: bool): Provider {
    if MustBuild(r, selected, byOperator) && !Works(env, s, r, selected) then DemotedTo(env, s, r, selected)
    else selected
  }

  /** What startup selects for a registry; nothing when no member of its chain is registered. */
  ghost function Selection(env: Env, r: RegistryId): Option<Provider> {
    if IsRedisBacked(r) then
      if env.redisUrl then Some(if env.redisDriver then Redis else Memory)
      else Some(if r == RateLimit && env.django then Database else Memory)
    else if IsStore(r) then Some(if env.sqlDsn then Sql else if env.django then Django else Memory)
    else if r in env.overrides && (r, env.overrides[r]) in env.registered then Some(env.overrides[r])
    else Preferred(env, r)
  }

  ghost predicate ByOperator(env: Env, r: RegistryId) {
    exists p :: OperatorNames(env, r, p)
  }

  /** The default a registry has after wiring; an unmatched chain leaves it as it was. */
  ghost predicate EndsOn(env: Env, s: State, r: RegistryId, f: State) {
    match Selection(env, r)
    case None => (r in f.defaults <==> r in s.defaults) && (r in s.defaults ==> f.defaults[r] == s.defaults[r])
    case Some(p) =>
      r in f.defaults &&
      f.defaults[r] == if IsRedisBacked(r) then p else Settled(env, s, r, p, ByOperator(env, r))
  }

  /** A selection that production must have built and that cannot be. */
  ghost predicate Unbuildable(env: Env, s: State, r: RegistryId) {
    !IsRedisBacked(r) && Selection(env, r).Some? &&
    var p := Selection(env, r).value; MustBuild(r, p, ByOperator(env, r)) && !Works(env, s, r, p)
  }

  lemma OverriddenByOperator(env: Env, r: RegistryId)
    requires !IsRedisBacked(r) && !IsStore(r)
    ensures Overridden(env, r) <==> ByOperator(env, r)
  {
    if Overridden(env, r) {
      assert OperatorNames(env, r, env.overrides[r]);
    }
  }

  lemma TryFirst(env: Env, r: RegistryId, selected: Provider, p: Provider, rest: seq<Provider>, s: State)
    ensures TryInTurn(env, r, selected, [p] + rest, s) ==
            if Works(env, s, r, p) then
              var t := s.(instances := s.instances + {(r, p)});
              Wired(if p != selected then SetDefault(t, r, p) else t)
            else if env.production then Refused(s)
            else TryInTurn(env, r, selected, rest, s)
  {
    assert ([p] + rest)[1..] == rest;
  }

  /** The first of the selection and at most two others that works. */
  ghost function FirstOf(env: Env, s: State, r: RegistryId, selected: Provider, rest: seq<Provider>): Provider {
    if Works(env, s, r, selected) then selected
    else if |rest| > 0 && Works(env, s, r, rest[0]) then rest[0]
    else if |rest| > 1 && Works(env, s, r, rest[1]) then rest[1]
    else selected
  }

  lemma TryThree(env: Env, r: RegistryId, selected: Provider, rest: seq<Provider>, s: State)
    requires |rest| <= 2 && r in s.defaults && s.defaults[r] == selected
    ensures var x := TryInTurn(env, r, selected, [selected] + rest, s);
            && r in x.state.defaults
            && (x.Refused? <==> env.production && !Works(env, s, r, selected))
            && (x.Wired? ==> x.state.defaults[r] == FirstOf(env, s, r, selected, rest))
  {
    TryFirst(env, r, selected, selected, rest, s);
    if |rest| > 0 {
      assert rest == [rest[0]] + rest[1..];
      TryFirst(env, r, selected, rest[0], rest[1..], s);
      if |rest| > 1 {
        assert rest[1..] == [rest[1]] + [];
        TryFirst(env, r, selected, rest[1], [], s);
      }
    }
  }

  lemma StoreRow(env: Env, s: State, r: RegistryId)
    requires IsStore(r)
    ensures var x := WireRow(env, TABLE[Position(r)], s);
            var p := Selection(env, r).value;
            && (x.Wired? ==> EndsOn(env, s, r, x.state))
            && (x.Refused? <==> env.production && MustBuild(r, p, false) && !Works(env, s, r, p))
  {
    var row := TABLE[Position(r)];
    assert row.kind == SqlDjango && row.registry == r && row.eager && row.target == Django;
    var p := Selection(env, r).value;
    var t := SetDefault(s, r, p);
    assert Eligible([Memory], p) == if p == Memory then [] else [Memory];
    if p != Django {
      TryThree(env, r, p, Eligible([Memory], p), t);
    }
  }

  /** The probed members in front of SQL. */
  ghost function Front(env: Env, r: RegistryId): seq<Provider> {
    if IsHybrid(r) && env.redisUrl && env.redisDriver && (r, Redis) in env.registered then [Redis]
    else if !IsHybrid(r) && env.django && (r, Django) in env.registered then [Django]
    else []
  }

  function MatchedOne(env: Env, r: RegistryId, c: Candidate): seq<Provider> {
    if Holds(env, c.probe) && (r, c.provider) in env.registered then [c.provider] else []
  }

  lemma MatchedOfThree(env: Env, r: RegistryId, x: Candidate, y: Candidate, z: Candidate)
    ensures Matched(env, r, [x, y, z]) == MatchedOne(env, r, x) + MatchedOne(env, r, y) + MatchedOne(env, r, z)
  {
    assert [x, y, z][1..] == [y, z] && [y, z][1..] == [z] && [z][1..] == [];
    assert Matched(env, r, [z]) == MatchedOne(env, r, z);
    assert Matched(env, r, [y, z]) == MatchedOne(env, r, y) + MatchedOne(env, r, z);
  }

  /** What matches of a chain of the framework's own backend, SQL, and a last resort that is always probed true. */
  lemma MatchedThree(env: Env, r: RegistryId, chain: seq<Candidate>)
    requires (IsHybrid(r) && chain == HYBRID_CHAIN) || (IsSurface(r) && chain == DATABASE_CHAIN)
    ensures Matched(env, r, chain) ==
            Front(env, r) + (if HasSql(env, r) then [Sql] else [])
            + (if (r, LastResort(r)) in env.registered then [LastResort(r)] else [])
  {
    MatchedOfThree(env, r, chain[0], chain[1], chain[2]);
    assert chain == [chain[0], chain[1], chain[2]];
  }

  lemma {:induction false} EligibleConcat(a: seq<Provider>, b: seq<Provider>, selected: Provider)
    ensures Eligible(a + b, selected) == Eligible(a, selected) + Eligible(b, selected)
  {
    if a == [] {
      assert a + b == b;
    } else {
      assert (a + b)[1..] == a[1..] + b;
      EligibleConcat(a[1..], b, selected);
    }
  }

  lemma EligibleOne(p: Provider, selected: Provider)
    ensures Eligible([p], selected) == if p != selected && p != Redis && p != Django then [p] else []
  {
    assert [p][1..] == [];
  }

  /** Of the matched members, those a selection may be demoted to. */
  lemma EligibleThree(front: seq<Provider>, sql: seq<Provider>, last: seq<Provider>, l: Provider, selected: Provider)
    requires front in {[], [Redis], [Django]} && sql in {[], [Sql]} && last in {[], [l]} && l in {Memory, Noop}
    ensures Eligible(front + sql + last, selected) ==
            (if selected == Sql then [] else sql) + (if selected == l then [] else last)
  {
    EligibleOne(Redis, selected);
    EligibleOne(Django, selected);
    EligibleOne(Sql, selected);
    EligibleOne(l, selected);
    EligibleConcat(front + sql, last, selected);
    EligibleConcat(front, sql, selected);
    assert Eligible(front, selected) == [];
    assert [] + Eligible(sql, selected) == Eligible(sql, selected);
  }

  /** Production cannot build what it must build. */
  ghost predicate Fails(env: Env, s: State, r: RegistryId, p: Provider, byOperator: bool) {
    env.production && MustBuild(r, p, byOperator) && !Works(env, s, r, p)
  }

  lemma SameWorks(env: Env, s: State, t: State, r: RegistryId, p: Provider, rest: seq<Provider>)
    requires s.instances == t.instances
    ensures FirstOf(env, t, r, p, rest) == FirstOf(env, s, r, p, rest)
  {
  }

  lemma FirstOfSettles(env: Env, s: State, r: RegistryId, p: Provider, sql: seq<Provider>, last: seq<Provider>)
    requires IsHybrid(r) || IsSurface(r)
    requires sql == (if HasSql(env, r) then [Sql] else [])
    requires last == (if (r, LastResort(r)) in env.registered then [LastResort(r)] else [])
    ensures FirstOf(env, s, r, p, (if p == Sql then [] else sql) + (if p == LastResort(r) then [] else last)) ==
            if Works(env, s, r, p) then p else DemotedTo(env, s, r, p)
  {
  }

  lemma TryPair(env: Env, r: RegistryId, s: State, p: Provider, b: seq<Provider>, c: seq<Provider>)
    requires |b| <= 1 && |c| <= 1
    ensures var x := TryInTurn(env, r, p, [p] + (b + c), SetDefault(s, r, p));
            && (x.Refused? <==> env.production && !Works(env, s, r, p))
            && (x.Wired? ==> r in x.state.defaults && x.state.defaults[r] == FirstOf(env, s, r, p, b + c))
  {
    TryThree(env, r, p, b + c, SetDefault(s, r, p));
    SameWorks(env, s, SetDefault(s, r, p), r, p, b + c);
  }

  /** A selection that must be built, tried with what matched behind it. */
  lemma TrySettles(env: Env, r: RegistryId, s: State, p: Provider, front: seq<Provider>, sql: seq<Provider>,
                   last: seq<Provider>)
    requires IsHybrid(r) || IsSurface(r)
    requires front in {[], [Redis], [Django]} && sql == (if HasSql(env, r) then [Sql] else [])
    requires last == (if (r, LastResort(r)) in env.registered then [LastResort(r)] else [])
    ensures var x := TryInTurn(env, r, p, [p] + Eligible(front + sql + last, p), SetDefault(s, r, p));
            var settled := if Works(env, s, r, p) then p else DemotedTo(env, s, r, p);
            && (x.Refused? <==> env.production && !Works(env, s, r, p))
            && (x.Wired? ==> r in x.state.defaults && x.state.defaults[r] == settled)
  {
    EligibleThree(front, sql, last, LastResort(r), p);
    TryPair(env, r, s, p, if p == Sql then [] else sql, if p == LastResort(r) then [] else last);
    FirstOfSettles(env, s, r, p, sql, last);
  }

  /** Validating a selection with what matched behind it. */
  lemma ValidateSettles(env: Env, row: Row, s: State, p: Provider, byOperator: bool,
                        front: seq<Provider>, sql: seq<Provider>, last: seq<Provider>)
    requires var r := row.registry; row.eager && (IsHybrid(r) || IsSurface(r))
    requires front in {[], [Redis], [Django]} && sql == (if HasSql(env, row.registry) then [Sql] else [])
    requires var l := LastResort(row.registry); last == (if (row.registry, l) in env.registered then [l] else [])
    ensures var r := row.registry;
            var x := EagerValidate(env, row, SetDefault(s, r, p), front + sql + last, byOperator);
            && (x.Refused? <==> Fails(env, s, r, p, byOperator))
            && (x.Wired? ==> r in x.state.defaults && x.state.defaults[r] == Settled(env, s, r, p, byOperator))
  {
    TrySettles(env, row.registry, s, p, front, sql, last);
  }

  lemma ChainRow(env: Env, s: State, r: RegistryId)
    requires IsHybrid(r) || IsSurface(r)
    ensures var x := WireRow(env, TABLE[Position(r)], s);
            && (x.Wired? ==> EndsOn(env, s, r, x.state))
            && (x.Refused? <==> Unbuildable(env, s, r) && env.production)
  {
    var row := TABLE[Position(r)];
    assert row.kind == PriorityChain && row.registry == r && row.eager;
    assert row.chain == if IsHybrid(r) then HYBRID_CHAIN else DATABASE_CHAIN;
    ChainRowSettles(env, row, s);
  }

  lemma PreferredIsFirst(env: Env, r: RegistryId, sql: seq<Provider>, last: seq<Provider>)
    requires IsHybrid(r) || IsSurface(r)
    requires sql == (if HasSql(env, r) then [Sql] else [])
    requires last == (if (r, LastResort(r)) in env.registered then [LastResort(r)] else [])
    ensures var m := Front(env, r) + sql + last;
            Preferred(env, r) == if m == [] then None else Some(m[0])
  {
  }

  lemma ChainRowSettles(env: Env, row: Row, s: State)
    requires row.kind == PriorityChain && row.eager
    requires var r := row.registry;
             (IsHybrid(r) && row.chain == HYBRID_CHAIN) || (IsSurface(r) && row.chain == DATABASE_CHAIN)
    ensures var r, x := row.registry, WireRow(env, row, s);
            && (x.Wired? ==> EndsOn(env, s, r, x.state))
            && (x.Refused? <==> Unbuildable(env, s, r) && env.production)
  {
    var r := row.registry;
    MatchedThree(env, r, row.chain);
    OverriddenByOperator(env, r);
    var sql := if HasSql(env, r) then [Sql] else [];
    var last := if (r, LastResort(r)) in env.registered then [LastResort(r)] else [];
    assert Matched(env, r, row.chain) == Front(env, r) + sql + last;
    PreferredIsFirst(env, r, sql, last);
    if Selection(env, r).Some? {
      ValidateSettles(env, row, s, Selection(env, r).value, ByOperator(env, r), Front(env, r), sql, last);
    }
  }

  lemma PoolRow(env: Env, s: State)
    ensures var x := WireRow(env, TABLE[Position(PoolInfo)], s); x.Wired? && EndsOn(env, s, PoolInfo, x.state)
  {
    var row := TABLE[Position(PoolInfo)];
    assert row.kind == PriorityChain && row.registry == PoolInfo && !row.eager && row.chain == POOL_CHAIN;
    OverriddenByOperator(env, PoolInfo);
    assert POOL_CHAIN[1..][1..] == [];
    assert Matched(env, PoolInfo, POOL_CHAIN[1..]) == if (PoolInfo, Noop) in env.registered then [Noop] else [];
  }

  lemma RedisRow(env: Env, s: State, r: RegistryId)
    requires IsRedisBacked(r)
    ensures var x := WireRow(env, TABLE[Position(r)], s);
            && (x.Wired? ==> EndsOn(env, s, r, x.state))
            && (x.Refused? <==> env.production && !env.redisUrl && !(r == RateLimit && env.django))
  {
    var row := TABLE[Position(r)];
    assert row.kind == RedisBacked && row.registry == r && row.target == Redis;
    assert row.fallback == if r == RateLimit then Some(Database) else None;
  }

  /**
   The default every registry has after a complete wiring outside test mode, in the
   environment's own terms.
   */
  lemma WiringDecides(env: Env, s: State, r: RegistryId)
    requires !env.testMode && WireDefaults(env, s).Wired?
    ensures EndsOn(env, s, r, WireDefaults(env, s).state)
  {
    WiringSettles(env, s, r);
    if IsRedisBacked(r) {
      RedisRow(env, s, r);
    } else if IsStore(r) {
      StoreRow(env, s, r);
    } else if r == PoolInfo {
      PoolRow(env, s);
    } else {
      ChainRow(env, s, r);
    }
  }

  /** The stores that must outlive a restart go where the operator pointed them. */
  lemma StoresFollowTheirSignal(env: Env, s: State, r: RegistryId)
    requires !env.testMode && WireDefaults(env, s).Wired? && r in {RecoverySession, Security, Postmortem}
    ensures var f := WireDefaults(env, s).state.defaults;
            && r in f
            && (env.sqlDsn && Works(env, s, r, Sql) ==> f[r] == Sql)
            && (env.sqlDsn && !Works(env, s, r, Sql) && Works(env, s, r, Memory) ==> f[r] == Memory)
            && (!env.sqlDsn && env.django ==> f[r] == Django)
            && (!env.sqlDsn && !env.django ==> f[r] == Memory)
  {
    WiringDecides(env, s, r);
  }

  /** A registered override that can be built is the default of its chain registry. */
  lemma OverrideWins(env: Env, s: State, r: RegistryId)
    requires !env.testMode && WireDefaults(env, s).Wired?
    requires r in {DatabaseHealth, PgAdmin, PoolInfo, EventJournal, FailedOp}
    requires r in env.overrides && (r, env.overrides[r]) in env.registered && Works(env, s, r, env.overrides[r])
    ensures r in WireDefaults(env, s).state.defaults && WireDefaults(env, s).state.defaults[r] == env.overrides[r]
  {
    WiringDecides(env, s, r);
  }

  // ---------------------------------------------------------------------------
  // When startup refuses
  // ---------------------------------------------------------------------------

  /** A phase refuses exactly when one of its rows, wired alone, would. */
  lemma {:induction false} PhaseRefusesIff(env: Env, kind: Kind, rows: seq<Row>, s: State)
    requires DistinctRows(rows)
    ensures WirePhase(env, kind, rows, s).Refused? <==>
            exists i | 0 <= i < |rows| :: rows[i].kind == kind && WireRow(env, rows[i], s).Refused?
    decreases |rows|
  {
    if rows != [] {
      var rest := rows[1..];
      if rows[0].kind != kind {
        PhaseRefusesIff(env, kind, rest, s);
        RefusersShift(env, kind, rows, s, s);
      } else if WireRow(env, rows[0], s).Wired? {
        var t := WireRow(env, rows[0], s).state;
        PhaseRefusesIff(env, kind, rest, t);
        forall i | 1 <= i < |rows| ensures WireRow(env, rows[i], t).Refused? <==> WireRow(env, rows[i], s).Refused? {
          RowFrame(env, rows[0], s, rows[i].registry);
          RowLocal(env, rows[i], t, s);
        }
        RefusersShift(env, kind, rows, s, t);
      }
    }
  }

  lemma RefusersShift(env: Env, kind: Kind, rows: seq<Row>, s: State, t: State)
    requires rows != [] && !(rows[0].kind == kind && WireRow(env, rows[0], s).Refused?)
    requires forall i | 1 <= i < |rows| :: WireRow(env, rows[i], t).Refused? <==> WireRow(env, rows[i], s).Refused?
    ensures (exists i | 0 <= i < |rows| :: rows[i].kind == kind && WireRow(env, rows[i], s).Refused?) <==>
            exists i | 0 <= i < |rows[1..]| :: rows[1..][i].kind == kind && WireRow(env, rows[1..][i], t).Refused?
  {
    if i :| 0 <= i < |rows| && rows[i].kind == kind && WireRow(env, rows[i], s).Refused? {
      assert rows[1..][i - 1] == rows[i];
    }
    if i :| 0 <= i < |rows[1..]| && rows[1..][i].kind == kind && WireRow(env, rows[1..][i], t).Refused? {
      assert rows[i + 1] == rows[1..][i];
    }
  }

  lemma RowRefusesIff(env: Env, s: State, r: RegistryId)
    ensures WireRow(env, TABLE[Position(r)], s).Refused? <==>
            env.production &&
            if IsRedisBacked(r) then !env.redisUrl && !(r == RateLimit && env.django) else Unbuildable(env, s, r)
  {
    if IsRedisBacked(r) {
      RedisRow(env, s, r);
    } else if IsStore(r) {
      StoreRow(env, s, r);
      assert !ByOperator(env, r);
    } else if r == PoolInfo {
      PoolRow(env, s);
    } else {
      ChainRow(env, s, r);
    }
  }

  /** The environments in which the storage backend cannot be installed once Redis was selected. */
  ghost predicate NoStorage(env: Env) {
    env.redisUrl && env.redisDriver && (env.storage == ConstructorRaises || (env.production && env.storage == WalMissing))
  }

  lemma PhaseRefuser(env: Env, kind: Kind, s: State) returns (r: RegistryId)
    requires WirePhase(env, kind, TABLE, s).Refused?
    ensures TABLE[Position(r)].kind == kind && WireRow(env, TABLE[Position(r)], s).Refused?
  {
    TableRows();
    PhaseRefusesIff(env, kind, TABLE, s);
    var i :| 0 <= i < |TABLE| && TABLE[i].kind == kind && WireRow(env, TABLE[i], s).Refused?;
    r := TABLE[i].registry;
  }

  lemma RowRefusesPhase(env: Env, s: State, r: RegistryId)
    requires WireRow(env, TABLE[Position(r)], s).Refused?
    ensures WirePhase(env, TABLE[Position(r)].kind, TABLE, s).Refused?
  {
    TableRows();
    PhaseRefusesIff(env, TABLE[Position(r)].kind, TABLE, s);
  }

  lemma KindOf(r: RegistryId)
    ensures TABLE[Position(r)].registry == r
    ensures TABLE[Position(r)].kind == RedisBacked <==> IsRedisBacked(r)
    ensures TABLE[Position(r)].kind == SqlDjango <==> IsStore(r)
  {
  }

  /** The Redis phase refuses exactly in production without a Redis address. */
  lemma RedisPhaseRefusesIff(env: Env, s: State)
    ensures WirePhase(env, RedisBacked, TABLE, s).Refused? <==> env.production && !env.redisUrl
  {
    if WirePhase(env, RedisBacked, TABLE, s).Refused? {
      var r := PhaseRefuser(env, RedisBacked, s);
      KindOf(r);
      RowRefusesIff(env, s, r);
    } else {
      RowRefusesIff(env, s, Cache);
      KindOf(Cache);
      if WireRow(env, TABLE[Position(Cache)], s).Refused? {
        RowRefusesPhase(env, s, Cache);
      }
    }
  }

  /** A later phase refuses exactly for a registry of its kind that was unbuildable from the start. */
  lemma LaterPhaseRefusesIff(env: Env, kind: Kind, s: State, t: State)
    requires kind != RedisBacked && forall r | TABLE[Position(r)].kind == kind :: SameAt(t, s, r)
    ensures WirePhase(env, kind, TABLE, t).Refused? <==>
            env.production && exists r :: TABLE[Position(r)].kind == kind && Unbuildable(env, s, r)
  {
    if WirePhase(env, kind, TABLE, t).Refused? {
      var r := PhaseRefuser(env, kind, t);
      KindOf(r);
      RowLocal(env, TABLE[Position(r)], t, s);
      RowRefusesIff(env, s, r);
    } else if r :| env.production && TABLE[Position(r)].kind == kind && Unbuildable(env, s, r) {
      KindOf(r);
      RowRefusesIff(env, s, r);
      RowLocal(env, TABLE[Position(r)], t, s);
      RowRefusesPhase(env, t, r);
    }
  }

  /** When startup must refuse, in the environment's own terms. */
  ghost predicate MustRefuse(env: Env, s: State) {
    || env.legacyAlias
    || (!env.testMode && env.production && !(env.redisUrl && env.redisDriver))
    || (!env.testMode && NoStorage(env))
    || (!env.testMode && env.production && exists r :: Unbuildable(env, s, r))
  }

  lemma StartupRefusesIff(env: Env, s: State)
    ensures WireDefaults(env, s).Refused? <==> MustRefuse(env, s)
  {
    if !env.legacyAlias && !env.testMode && !(env.production && !(env.redisUrl && env.redisDriver)) && !NoStorage(env) {
      RedisPhaseRefusesIff(env, s);
      LaterPhases(env, s, WirePhase(env, RedisBacked, TABLE, s).state);
    } else if !env.testMode {
      RedisPhaseRefusesIff(env, s);
    }
  }

  lemma LaterPhases(env: Env, s: State, a: State)
    requires a == WirePhase(env, RedisBacked, TABLE, s).state
    ensures var b := WirePhase(env, SqlDjango, TABLE, a);
            (b.Refused? || WirePhase(env, PriorityChain, TABLE, b.state).Refused?) <==>
            env.production && exists r :: Unbuildable(env, s, r)
  {
    var b := WirePhase(env, SqlDjango, TABLE, a);
    forall r | TABLE[Position(r)].kind == SqlDjango ensures SameAt(a, s, r) {
      PhaseKeeps(env, RedisBacked, s, r);
    }
    LaterPhaseRefusesIff(env, SqlDjango, s, a);
    forall r | TABLE[Position(r)].kind == PriorityChain ensures SameAt(b.state, s, r) {
      PhaseKeeps(env, RedisBacked, s, r);
      PhaseKeeps(env, SqlDjango, a, r);
    }
    LaterPhaseRefusesIff(env, PriorityChain, s, b.state);
    if r :| Unbuildable(env, s, r) {
      KindOf(r);
      assert TABLE[Position(r)].kind == SqlDjango || TABLE[Position(r)].kind == PriorityChain;
    }
  }

  // ---------------------------------------------------------------------------
  // Reset
  // ---------------------------------------------------------------------------

  const REGISTRIES: set<RegistryId> := {
    Cache, ConfigHistory, CanaryRollout, ChaosExperiment, CrossCluster, RateLimit, RecoverySession,
    Security, Postmortem, DatabaseHealth, PgAdmin, PoolInfo, EventJournal, FailedOp}

  /** A process whose registry module has just been loaded. */
  function Cold(): State {
    State(map r | r in REGISTRIES :: ModuleLoadDefault(r), {})
  }

  function DropInstances(s: State, r: RegistryId): State {
    s.(instances := set x | x in s.instances && x.0 != r)
  }

  /** The cache drops its instances only when its default is not memory. */
  function ResetCache(s: State): State {
    SetDefault(if Cache in s.defaults && s.defaults[Cache] != Memory then DropInstances(s, Cache) else s, Cache, Memory)
  }

  function ResetRows(rows: seq<Row>, s: State): State {
    if rows == [] then s
    else if rows[0].registry == Cache then ResetRows(rows[1..], s)
    else ResetRows(rows[1..], SetDefault(DropInstances(s, rows[0].registry), rows[0].registry, rows[0].baseline))
  }

  function Reset(s: State): State {
    ResetRows(TABLE, ResetCache(s))
  }

  lemma {:induction false} ResetRowsFrame(rows: seq<Row>, s: State, r: RegistryId)
    requires r == Cache || forall i | 0 <= i < |rows| :: rows[i].registry != r
    ensures SameAt(ResetRows(rows, s), s, r)
  {
    if rows != [] {
      if rows[0].registry == Cache {
        ResetRowsFrame(rows[1..], s, r);
      } else {
        ResetRowsFrame(rows[1..], SetDefault(DropInstances(s, rows[0].registry), rows[0].registry, rows[0].baseline), r);
      }
    }
  }

  lemma {:induction false} ResetRowsRestore(rows: seq<Row>, s: State, i: nat)
    requires DistinctRows(rows) && i < |rows| && rows[i].registry != Cache
    ensures var t, r := ResetRows(rows, s), rows[i].registry;
            r in t.defaults && t.defaults[r] == rows[i].baseline && forall p :: (r, p) !in t.instances
    decreases |rows|
  {
    var next := if rows[0].registry == Cache then s
                else SetDefault(DropInstances(s, rows[0].registry), rows[0].registry, rows[0].baseline);
    if i == 0 {
      ResetRowsFrame(rows[1..], next, rows[0].registry);
    } else {
      ResetRowsRestore(rows[1..], next, i - 1);
    }
  }

  /** The states agree wherever wiring looks: everywhere, but for instances of the cache registry. */
  ghost predicate Agree(a: State, b: State) {
    && (forall r | r != Cache :: SameAt(a, b, r))
    && (Cache in a.defaults <==> Cache in b.defaults)
    && (Cache in a.defaults ==> a.defaults[Cache] == b.defaults[Cache])
  }

  /** Every row's reset target is the registry's module-load default. */
  lemma BaselinesMatch(r: RegistryId)
    ensures TABLE[Position(r)].baseline == ModuleLoadDefault(r) && r in REGISTRIES
  {}

  lemma ResetIsCold(s: State)
    ensures Agree(Reset(s), Cold())
  {
    TableRows();
    ResetRowsFrame(TABLE, ResetCache(s), Cache);
    forall r | r != Cache ensures SameAt(Reset(s), Cold(), r) {
      BaselinesMatch(r);
      ResetRowsRestore(TABLE, ResetCache(s), Position(r));
    }
  }

  ghost predicate AgreeOutcome(x: Outcome, y: Outcome) {
    (x.Wired? <==> y.Wired?) && Agree(x.state, y.state)
  }

  lemma RowAgrees(env: Env, row: Row, a: State, b: State)
    requires Agree(a, b) && (row.registry == Cache ==> row.kind == RedisBacked)
    ensures AgreeOutcome(WireRow(env, row, a), WireRow(env, row, b))
  {
    var x, y := WireRow(env, row, a), WireRow(env, row, b);
    if row.registry != Cache {
      RowLocal(env, row, a, b);
      RowFrame(env, row, a, Cache);
      RowFrame(env, row, b, Cache);
    }
    forall r | r != Cache && r != row.registry ensures SameAt(x.state, y.state, r) {
      RowFrame(env, row, a, r);
      RowFrame(env, row, b, r);
      assert SameAt(a, b, r);
    }
  }

  lemma {:induction false} PhaseAgrees(env: Env, kind: Kind, rows: seq<Row>, a: State, b: State)
    requires Agree(a, b)
    requires forall i | 0 <= i < |rows| :: rows[i].registry == Cache ==> rows[i].kind == RedisBacked
    ensures AgreeOutcome(WirePhase(env, kind, rows, a), WirePhase(env, kind, rows, b))
  {
    if rows != [] {
      if rows[0].kind != kind {
        PhaseAgrees(env, kind, rows[1..], a, b);
      } else {
        RowAgrees(env, rows[0], a, b);
        var x, y := WireRow(env, rows[0], a), WireRow(env, rows[0], b);
        if x.Wired? {
          PhaseAgrees(env, kind, rows[1..], x.state, y.state);
        }
      }
    }
  }

  lemma WiringAgrees(env: Env, a: State, b: State)
    requires Agree(a, b)
    ensures AgreeOutcome(WireDefaults(env, a), WireDefaults(env, b))
  {
    TableRows();
    assert forall i | 0 <= i < |TABLE| && TABLE[i].registry == Cache :: i == 0;
    PhaseAgrees(env, RedisBacked, TABLE, a, b);
    var a1, b1 := WirePhase(env, RedisBacked, TABLE, a), WirePhase(env, RedisBacked, TABLE, b);
    if a1.Wired? {
      PhaseAgrees(env, SqlDjango, TABLE, a1.state, b1.state);
      var a2, b2 := WirePhase(env, SqlDjango, TABLE, a1.state), WirePhase(env, SqlDjango, TABLE, b1.state);
      if a2.Wired? {
        PhaseAgrees(env, PriorityChain, TABLE, a2.state, b2.state);
      }
    }
  }

  /** What a process may do between load and reset: wire, resolve providers, override defaults. */
  datatype Event = Attempt(env: Env) | Resolved(registry: RegistryId, provider: Provider)
                 | Chosen(registry: RegistryId, provider: Provider)

  function After(history: seq<Event>, s: State): State {
    if history == [] then s
    else
      var t := After(history[..|history| - 1], s);
      match history[|history| - 1]
      case Attempt(env) => WireDefaults(env, t).state
      case Resolved(r, p) => t.(instances := t.instances + {(r, p)})
      case Chosen(r, p) => SetDefault(t, r, p)
  }

  /**
   After any history, wiring attempts that refused midway included, a reset followed by wiring
   refuses or completes as in a cold process, with the same default in every registry.
   */
  lemma ResetErasesHistory(history: seq<Event>, env: Env)
    ensures var x, y := WireDefaults(env, Reset(After(history, Cold()))), WireDefaults(env, Cold());
            && (x.Wired? <==> y.Wired?)
            && forall r :: (r in x.state.defaults <==> r in y.state.defaults)
                           && (r in x.state.defaults ==> x.state.defaults[r] == y.state.defaults[r])
  {
    var s := After(history, Cold());
    ResetIsCold(s);
    WiringAgrees(env, Reset(s), Cold());
    var x, y := WireDefaults(env, Reset(s)), WireDefaults(env, Cold());
    forall r ensures (r in x.state.defaults <==> r in y.state.defaults)
                     && (r in x.state.defaults ==> x.state.defaults[r] == y.state.defaults[r])
    {
      assert r != Cache ==> SameAt(x.state, y.state, r);
    }
  }

  // ---------------------------------------------------------------------------
  // The registries
  // ---------------------------------------------------------------------------

  /** The wired registries as startup updates them; a method that raises returns false. */
  class ProviderRegistries {
    var defaults: map<RegistryId, Provider>
    var instances: set<(RegistryId, Provider)>

    constructor ()
      ensures Snapshot() == Cold()
    {
      defaults := map r | r in REGISTRIES :: ModuleLoadDefault(r);
      instances := {};
    }

    function Snapshot(): State
      reads this
    {
      State(defaults, instances)
    }

    /** The outcome of a method that has just returned `ok`. */
    function Ended(ok: bool): Outcome
      reads this
    {
      if ok then Wired(Snapshot()) else Refused(Snapshot())
    }

    method EagerValidateWired(env: Env, row: Row, candidates: seq<Provider>, operatorChosen: bool) returns (ok: bool)
      modifies this
      ensures Ended(ok) == EagerValidate(env, row, old(Snapshot()), candidates, operatorChosen)
    {
      if !row.eager || row.registry !in defaults {
        return true;
      }
      var r, selected := row.registry, defaults[row.registry];
      if !operatorChosen && ProbeAccepted(selected) {
        return true;
      }
      var remaining := [selected] + Eligible(candidates, selected);
      for i := 0 to |remaining|
        invariant Snapshot() == old(Snapshot())
        invariant TryInTurn(env, r, selected, remaining[i..], Snapshot()) ==
                  TryInTurn(env, r, selected, remaining, old(Snapshot()))
      {
        assert remaining[i..][1..] == remaining[i + 1..];
        var name := remaining[i];
        if (r, name) !in instances && ((r, name) !in env.registered || (r, name) !in env.constructible) {
          if env.production {
            return false;
          }
          continue;
        }
        instances := instances + {(r, name)};
        if name != selected {
          defaults := defaults[r := name];
        }
        return true;
      }
      return true;
    }

    method WireOne(env: Env, row: Row) returns (ok: bool)
      modifies this
      ensures Ended(ok) == WireRow(env, row, old(Snapshot()))
    {
      var r := row.registry;
      match row.kind {
        case RedisBacked =>
          if env.redisUrl && !env.redisDriver {
            defaults := defaults[r := Memory];
          } else if env.redisUrl {
            defaults := defaults[r := row.target];
          } else if row.fallback.Some? && env.django {
            defaults := defaults[r := row.fallback.value];
          } else if env.production {
            return false;
          } else {
            defaults := defaults[r := Memory];
          }
          return true;
        case SqlDjango =>
          defaults := defaults[r := if env.sqlDsn then Sql else if env.django then row.target else Memory];
          ok := EagerValidateWired(env, row, [Memory], false);
        case PriorityChain =>
          var matched := Matched(env, r, row.chain);
          if Overridden(env, r) {
            defaults := defaults[r := env.overrides[r]];
            ok := EagerValidateWired(env, row, matched, true);
          } else if matched == [] {
            return true;
          } else {
            defaults := defaults[r := matched[0]];
            ok := EagerValidateWired(env, row, matched, false);
          }
      }
    }

    method WireKind(env: Env, kind: Kind, rows: seq<Row>) returns (ok: bool)
      modifies this
      ensures Ended(ok) == WirePhase(env, kind, rows, old(Snapshot()))
    {
      for i := 0 to |rows|
        invariant WirePhase(env, kind, rows[i..], Snapshot()) == WirePhase(env, kind, rows, old(Snapshot()))
      {
        assert rows[i..][1..] == rows[i + 1..];
        if rows[i].kind != kind {
          continue;
        }
        ok := WireOne(env, rows[i]);
        if !ok {
          return false;
        }
      }
      return true;
    }

    /** Refuses exactly when it must, and otherwise leaves every registry on the default it should have. */
    method WireRegistryDefaults(env: Env) returns (ok: bool)
      modifies this
      ensures Ended(ok) == WireDefaults(env, old(Snapshot()))
      ensures ok <==> !MustRefuse(env, old(Snapshot()))
      ensures ok && env.testMode ==> Snapshot() == old(Snapshot())
      ensures ok && !env.testMode ==> forall r :: EndsOn(env, old(Snapshot()), r, Snapshot())
    {
      ghost var before := Snapshot();
      StartupRefusesIff(env, before);
      if !env.testMode && WireDefaults(env, before).Wired? {
        forall r ensures EndsOn(env, before, r, WireDefaults(env, before).state) {
          WiringDecides(env, before, r);
        }
      }
      if env.legacyAlias {
        return false;
      }
      if env.testMode {
        return true;
      }
      if env.redisUrl && !env.redisDriver && env.production {
        return false;
      }
      ok := WireKind(env, RedisBacked, TABLE);
      if !ok || StorageRaises(env) {
        return false;
      }
      ok := WireKind(env, SqlDjango, TABLE);
      if !ok {
        return false;
      }
      ok := WireKind(env, PriorityChain, TABLE);
    }

    method ResetInitState()
      modifies this
      ensures Snapshot() == Reset(old(Snapshot()))
    {
      if Cache in defaults && defaults[Cache] != Memory {
        instances := set x | x in instances && x.0 != Cache;
      }
      defaults := defaults[Cache := Memory];
      RestoreBaselines(TABLE);
    }

    method RestoreBaselines(rows: seq<Row>)
      modifies this
      ensures Snapshot() == ResetRows(rows, old(Snapshot()))
    {
      for i := 0 to |rows|
        invariant ResetRows(rows[i..], Snapshot()) == ResetRows(rows, old(Snapshot()))
      {
        assert rows[i..][1..] == rows[i + 1..];
        if rows[i].registry == Cache {
          continue;
        }
        instances := set x | x in instances && x.0 != rows[i].registry;
        defaults := defaults[rows[i].registry := rows[i].baseline];
      }
    }
  }
}
