/**
 The two protect() caches under concurrent calls (src/baldur/protect_facade.py): both are
 read without a lock and filled under one lock after a second look, and the composer helper
 resolves its breaker policy before it takes that lock. `reset_protect_caches` may come at
 any moment. Each step below is one lock-free read or one locked block.

 A policy is known by its position in the log of constructor calls.
 */
module ProtectConcurrency {
  import ProtectFacade

  type Key = ProtectFacade.Key

  /** Where a thread is in a call; only a `cached` call goes through the composer cache. */
  datatype Pc =
    | Idle
    | ReadingComposer(key: Key)
    | ReadingPolicy(key: Key, cached: bool)
    | LockingPolicy(key: Key, cached: bool)
    | LockingComposer(key: Key, policy: nat)

  /** One call of the policy constructor; epochs are numbered by the resets. */
  datatype Built = Built(name: string, epoch: nat)

  /** A composer handed to a caller and the breaker policy inside it. */
  datatype Served = Served(name: string, epoch: nat, policy: nat)

  datatype State = State(policies: map<string, nat>, composers: map<Key, nat>, built: seq<Built>,
                         epoch: nat, served: seq<Served>, threads: seq<Pc>)

  datatype Step = Begin(t: nat, key: Key, cached: bool) | Advance(t: nat) | Reset

  function Deliver(s: State, t: nat, name: string, policy: nat): State
    requires t < |s.threads|
  {
    s.(served := s.served + [Served(name, s.epoch, policy)], threads := s.threads[t := Idle])
  }

  function Resolved(s: State, t: nat, key: Key, cached: bool, policy: nat): State
    requires t < |s.threads|
  {
    if cached then s.(threads := s.threads[t := LockingComposer(key, policy)])
    else Deliver(s, t, key.name, policy)
  }

  function Build(s: State, name: string): State {
    s.(built := s.built + [Built(name, s.epoch)], policies := s.policies[name := |s.built|])
  }

  /** The next read or locked block of thread `t`. */
  function Advanced(s: State, t: nat): State
    requires t < |s.threads|
  {
    match s.threads[t]
    case Idle => s
    case ReadingComposer(key) =>
      if key in s.composers then Deliver(s, t, key.name, s.composers[key])
      else s.(threads := s.threads[t := ReadingPolicy(key, true)])
    case ReadingPolicy(key, cached) =>
      if key.name in s.policies then Resolved(s, t, key, cached, s.policies[key.name])
      else s.(threads := s.threads[t := LockingPolicy(key, cached)])
    case LockingPolicy(key, cached) =>
      if key.name in s.policies then Resolved(s, t, key, cached, s.policies[key.name])
      else Resolved(Build(s, key.name), t, key, cached, |s.built|)
    case LockingComposer(key, policy) =>
      if key in s.composers then Deliver(s, t, key.name, s.composers[key])
      else Deliver(Store(s, key, policy), t, key.name, policy)
  }

  function Store(s: State, key: Key, policy: nat): State {
    s.(composers := s.composers[key := policy])
  }

  function Next(s: State, step: Step): State {
    match step
    case Reset => s.(policies := map[], composers := map[], epoch := s.epoch + 1)
    case Begin(t, key, cached) =>
      if t < |s.threads| && s.threads[t].Idle? then
        s.(threads := s.threads[t := if cached then ReadingComposer(key) else ReadingPolicy(key, false)])
      else s
    case Advance(t) => if t < |s.threads| then Advanced(s, t) else s
  }

  function Run(s: State, steps: seq<Step>): State {
    if steps == [] then s else Next(Run(s, steps[..|steps| - 1]), steps[|steps| - 1])
  }

  function Cold(threads: nat): State {
    State(map[], map[], [], 0, [], seq(threads, _ => Idle))
  }

  // ---------------------------------------------------------------------------
  // One constructor call per name and epoch
  // ---------------------------------------------------------------------------

  /** The policy was built for this name since the last reset. */
  predicate Current(s: State, name: string, policy: nat) {
    policy < |s.built| && s.built[policy] == Built(name, s.epoch)
  }

  ghost predicate BuiltOnce(s: State) {
    && (forall i, j | 0 <= i < j < |s.built| :: s.built[i] != s.built[j])
    && (forall i | 0 <= i < |s.built| :: s.built[i].epoch <= s.epoch)
    && (forall i | 0 <= i < |s.built| && s.built[i].epoch == s.epoch :: s.built[i].name in s.policies)
    && (forall n | n in s.policies :: Current(s, n, s.policies[n]))
  }

  lemma BuildOnce(s: State, name: string)
    requires BuiltOnce(s) && name !in s.policies
    ensures BuiltOnce(Build(s, name))
  {
    var r := Build(s, name);
    assert forall i | 0 <= i < |s.built| :: r.built[i] == s.built[i];
    assert forall n | n in s.policies :: Current(s, n, s.policies[n]) && Current(r, n, s.policies[n]);
  }

  lemma OnceFrame(s: State, r: State)
    requires BuiltOnce(s) && r.built == s.built && r.policies == s.policies && r.epoch == s.epoch
    ensures BuiltOnce(r)
  {
    assert forall n | n in s.policies :: Current(s, n, s.policies[n]) && Current(r, n, s.policies[n]);
  }

  lemma AdvancedBuildsOnce(s: State, t: nat)
    requires BuiltOnce(s) && t < |s.threads|
    ensures BuiltOnce(Advanced(s, t))
  {
    var r := Advanced(s, t);
    if s.threads[t].LockingPolicy? && s.threads[t].key.name !in s.policies {
      BuildOnce(s, s.threads[t].key.name);
      OnceFrame(Build(s, s.threads[t].key.name), r);
    } else {
      OnceFrame(s, r);
    }
  }

  lemma StepBuildsOnce(s: State, step: Step)
    requires BuiltOnce(s)
    ensures BuiltOnce(Next(s, step))
  {
    match step
    case Reset =>
    case Begin(t, key, cached) => OnceFrame(s, Next(s, step));
    case Advance(t) =>
      if t < |s.threads| {
        AdvancedBuildsOnce(s, t);
      }
  }

  // ---------------------------------------------------------------------------
  // One policy for all the calls of a name
  // ---------------------------------------------------------------------------

  predicate ThreadCurrent(s: State, t: nat)
    requires t < |s.threads|
  {
    s.threads[t].LockingComposer? ==> Current(s, s.threads[t].key.name, s.threads[t].policy)
  }

  predicate ServedRight(s: State, x: Served) {
    x.policy < |s.built| && s.built[x.policy] == Built(x.name, x.epoch)
  }

  /** Cached composers and resolved policies belong to this epoch, served ones to the epoch of their call. */
  ghost predicate Coherent(s: State) {
    && (forall k | k in s.composers :: Current(s, k.name, s.composers[k]))
    && (forall t | 0 <= t < |s.threads| :: ThreadCurrent(s, t))
    && (forall i | 0 <= i < |s.served| :: ServedRight(s, s.served[i]))
  }

  /** No thread is between resolving its breaker policy and storing the composer. */
  predicate Quiet(s: State) {
    forall t | 0 <= t < |s.threads| :: !s.threads[t].LockingComposer?
  }

  lemma BuildKeeps(s: State, name: string)
    requires Coherent(s)
    ensures Coherent(Build(s, name)) && Current(Build(s, name), name, |s.built|)
  {
    var r := Build(s, name);
    assert forall i | 0 <= i < |s.built| :: r.built[i] == s.built[i];
    forall u | 0 <= u < |r.threads| ensures ThreadCurrent(r, u) {
      assert ThreadCurrent(s, u);
    }
    assert forall i | 0 <= i < |s.served| :: ServedRight(s, s.served[i]);
  }

  lemma MoveKeeps(s: State, t: nat, pc: Pc)
    requires Coherent(s) && t < |s.threads| && (pc.LockingComposer? ==> Current(s, pc.key.name, pc.policy))
    ensures Coherent(s.(threads := s.threads[t := pc]))
  {
    var r := s.(threads := s.threads[t := pc]);
    forall u | 0 <= u < |r.threads| ensures ThreadCurrent(r, u) {
      assert ThreadCurrent(s, u);
    }
    assert forall i | 0 <= i < |s.served| :: ServedRight(s, s.served[i]);
  }

  lemma DeliverKeeps(s: State, t: nat, name: string, policy: nat)
    requires Coherent(s) && t < |s.threads| && Current(s, name, policy)
    ensures Coherent(Deliver(s, t, name, policy))
  {
    var m := s.(threads := s.threads[t := Idle]);
    MoveKeeps(s, t, Idle);
    var r := Deliver(s, t, name, policy);
    forall i | 0 <= i < |r.served| ensures ServedRight(r, r.served[i]) {
      assert i < |s.served| ==> ServedRight(m, s.served[i]);
    }
    forall u | 0 <= u < |r.threads| ensures ThreadCurrent(r, u) {
      assert ThreadCurrent(m, u);
    }
  }

  lemma StoreKeeps(s: State, key: Key, policy: nat)
    requires Coherent(s) && Current(s, key.name, policy)
    ensures Coherent(Store(s, key, policy))
  {
    var r := Store(s, key, policy);
    forall u | 0 <= u < |r.threads| ensures ThreadCurrent(r, u) {
      assert ThreadCurrent(s, u);
    }
    assert forall i | 0 <= i < |s.served| :: ServedRight(s, s.served[i]);
  }

  lemma ResolvedKeeps(s: State, t: nat, key: Key, cached: bool, policy: nat)
    requires Coherent(s) && t < |s.threads| && Current(s, key.name, policy)
    ensures Coherent(Resolved(s, t, key, cached, policy))
  {
    if cached {
      MoveKeeps(s, t, LockingComposer(key, policy));
    } else {
      DeliverKeeps(s, t, key.name, policy);
    }
  }

  lemma AdvancedKeeps(s: State, t: nat)
    requires BuiltOnce(s) && Coherent(s) && t < |s.threads|
    ensures Coherent(Advanced(s, t))
  {
    match s.threads[t]
    case Idle =>
    case ReadingComposer(key) =>
      if key in s.composers {
        DeliverKeeps(s, t, key.name, s.composers[key]);
      } else {
        MoveKeeps(s, t, ReadingPolicy(key, true));
      }
    case ReadingPolicy(key, cached) =>
      if key.name in s.policies {
        ResolvedKeeps(s, t, key, cached, s.policies[key.name]);
      } else {
        MoveKeeps(s, t, LockingPolicy(key, cached));
      }
    case LockingPolicy(key, cached) =>
      if key.name in s.policies {
        ResolvedKeeps(s, t, key, cached, s.policies[key.name]);
      } else {
        BuildKeeps(s, key.name);
        ResolvedKeeps(Build(s, key.name), t, key, cached, |s.built|);
      }
    case LockingComposer(key, policy) =>
      assert ThreadCurrent(s, t);
      if key in s.composers {
        DeliverKeeps(s, t, key.name, s.composers[key]);
      } else {
        StoreKeeps(s, key, policy);
        DeliverKeeps(Store(s, key, policy), t, key.name, policy);
      }
  }

  lemma StepKeepsCoherent(s: State, step: Step)
    requires BuiltOnce(s) && Coherent(s) && !step.Reset?
    ensures Coherent(Next(s, step))
  {
    match step
    case Begin(t, key, cached) =>
      if t < |s.threads| && s.threads[t].Idle? {
        MoveKeeps(s, t, if cached then ReadingComposer(key) else ReadingPolicy(key, false));
      }
    case Advance(t) =>
      if t < |s.threads| {
        AdvancedKeeps(s, t);
      }
  }

  lemma QuietResetKeeps(s: State)
    requires BuiltOnce(s) && Coherent(s) && Quiet(s)
    ensures Coherent(Next(s, Reset))
  {
  }

  /** Every reset of the run finds the state quiet. */
  ghost predicate ResetsQuiet(s: State, steps: seq<Step>) {
    forall i | 0 <= i < |steps| && steps[i].Reset? :: Quiet(Run(s, steps[..i]))
  }

  lemma {:induction false} RunsBuildOnce(threads: nat, steps: seq<Step>)
    ensures BuiltOnce(Run(Cold(threads), steps))
    decreases |steps|
  {
    if steps != [] {
      RunsBuildOnce(threads, steps[..|steps| - 1]);
      StepBuildsOnce(Run(Cold(threads), steps[..|steps| - 1]), steps[|steps| - 1]);
    }
  }

  lemma {:induction false} CoherentAlong(s: State, steps: seq<Step>)
    requires BuiltOnce(s) && Coherent(s) && ResetsQuiet(s, steps)
    ensures BuiltOnce(Run(s, steps)) && Coherent(Run(s, steps))
    decreases |steps|
  {
    if steps != [] {
      var n := |steps| - 1;
      assert forall i | 0 <= i <= n :: steps[..n][..i] == steps[..i];
      CoherentAlong(s, steps[..n]);
      var r := Run(s, steps[..n]);
      StepBuildsOnce(r, steps[n]);
      if steps[n].Reset? {
        QuietResetKeeps(r);
      } else {
        StepKeepsCoherent(r, steps[n]);
      }
    }
  }

  /**
   Over every interleaving in which resets find the state quiet, two composers served in one
   epoch share their breaker policy exactly when they were asked for under one name.
   */
  lemma CallsSharePolicy(threads: nat, steps: seq<Step>, i: nat, j: nat)
    requires ResetsQuiet(Cold(threads), steps)
    requires var served := Run(Cold(threads), steps).served;
             i < |served| && j < |served| && served[i].epoch == served[j].epoch
    ensures var served := Run(Cold(threads), steps).served;
            served[i].policy == served[j].policy <==> served[i].name == served[j].name
  {
    var s := Run(Cold(threads), steps);
    CoherentAlong(Cold(threads), steps);
    assert ServedRight(s, s.served[i]) && ServedRight(s, s.served[j]);
  }

  // ---------------------------------------------------------------------------
  // A reset that is not quiet
  // ---------------------------------------------------------------------------

  lemma RunOne(s: State, steps: seq<Step>, step: Step)
    ensures Run(s, steps + [step]) == Next(Run(s, steps), step)
  {
    assert (steps + [step])[..|steps|] == steps;
  }

  /** Thread `t` stores its composer after the reset. */
  lemma StoredStale(s: State, t: nat)
    requires t < |s.threads| && s.threads[t].LockingComposer?
    ensures var key, policy := s.threads[t].key, s.threads[t].policy;
            Next(Next(s, Reset), Advance(t)) ==
            s.(policies := map[], composers := map[key := policy], epoch := s.epoch + 1,
               served := s.served + [Served(key.name, s.epoch + 1, policy)], threads := s.threads[t := Idle])
  {
    assert map[][s.threads[t].key := s.threads[t].policy] == map[s.threads[t].key := s.threads[t].policy];
  }

  /** A call that does not use the composer cache, when no policy is cached, builds one. */
  lemma UncachedBuilds(s: State, u: nat, key: Key)
    requires u < |s.threads| && s.threads[u].Idle? && key.name !in s.policies
    ensures Next(Next(Next(s, Begin(u, key, false)), Advance(u)), Advance(u)).served ==
            s.served + [Served(key.name, s.epoch, |s.built|)]
  {
    var s1 := Next(s, Begin(u, key, false));
    assert s1.threads[u] == ReadingPolicy(key, false);
    var s2 := Next(s1, Advance(u));
    assert s2.threads[u] == LockingPolicy(key, false);
  }

  /** After the reset thread `t` stores its composer and then makes an uncached call of the same name. */
  function SplitRun(t: nat, key: Key): seq<Step> {
    [Advance(t)] + [Begin(t, key, false)] + [Advance(t)] + [Advance(t)]
  }

  /** One breaker policy per name and epoch among the composers served. */
  ghost predicate OnePolicy(served: seq<Served>) {
    forall i, j | 0 <= i < |served| && 0 <= j < |served| ::
      served[i].name == served[j].name && served[i].epoch == served[j].epoch ==> served[i].policy == served[j].policy
  }

  /** The thread that was about to store its composer serves its name with two policies in one epoch. */
  lemma RacingResetSplits(s: State, t: nat)
    requires t < |s.threads| && s.threads[t].LockingComposer? && s.threads[t].policy < |s.built|
    ensures !OnePolicy(Run(Next(s, Reset), SplitRun(t, s.threads[t].key)).served)
  {
    var key, r := s.threads[t].key, Next(s, Reset);
    StoredStale(s, t);
    UncachedBuilds(Next(r, Advance(t)), t, key);
    assert [] + [Advance(t)] == [Advance(t)];
    RunOne(r, [], Advance(t));
    RunOne(r, [Advance(t)], Begin(t, key, false));
    RunOne(r, [Advance(t)] + [Begin(t, key, false)], Advance(t));
    RunOne(r, [Advance(t)] + [Begin(t, key, false)] + [Advance(t)], Advance(t));
    var served, n := Run(r, SplitRun(t, key)).served, |s.served|;
    assert served[n].name == served[n + 1].name && served[n].epoch == served[n + 1].epoch;
    assert served[n].policy != served[n + 1].policy;
  }

  /** Whatever happens next, as long as further resets are quiet, one policy serves each name and epoch. */
  ghost predicate StaysShared(s: State) {
    forall after | ResetsQuiet(s, after) :: OnePolicy(Run(s, after).served)
  }

  /**
   In every state that quiet resets can lead to: a reset there is safe for all that callers
   can observe afterwards if and only if no thread is between resolving its breaker policy
   and storing its composer.
   */
  lemma ResetSafeIff(threads: nat, before: seq<Step>)
    requires ResetsQuiet(Cold(threads), before)
    ensures var s := Run(Cold(threads), before); StaysShared(Next(s, Reset)) <==> Quiet(s)
  {
    var s := Run(Cold(threads), before);
    CoherentAlong(Cold(threads), before);
    var r := Next(s, Reset);
    if Quiet(s) {
      QuietResetKeeps(s);
      StepBuildsOnce(s, Reset);
      forall after | ResetsQuiet(r, after) ensures OnePolicy(Run(r, after).served) {
        CoherentAlong(r, after);
        CoherentShares(Run(r, after));
      }
    } else {
      var t :| 0 <= t < |s.threads| && s.threads[t].LockingComposer?;
      assert ThreadCurrent(s, t);
      RacingResetSplits(s, t);
      assert ResetsQuiet(r, SplitRun(t, s.threads[t].key));
    }
  }

  lemma CoherentShares(s: State)
    requires BuiltOnce(s) && Coherent(s)
    ensures OnePolicy(s.served)
  {
    forall i, j | 0 <= i < |s.served| && 0 <= j < |s.served|
      ensures s.served[i].name == s.served[j].name && s.served[i].epoch == s.served[j].epoch ==>
                s.served[i].policy == s.served[j].policy
    {
      assert ServedRight(s, s.served[i]) && ServedRight(s, s.served[j]);
    }
  }

  /** A call that reaches the composer lock leaves its key cached, with what it was served. */
  lemma CachedCallStores(s: State, t: nat)
    requires t < |s.threads| && s.threads[t].LockingComposer?
    ensures var key, r := s.threads[t].key, Next(s, Advance(t));
            && key in r.composers && r.served == s.served + [Served(key.name, s.epoch, r.composers[key])]
            && r.threads[t].Idle? && (key !in s.composers ==> r.composers[key] == s.threads[t].policy)
  {
  }

  lemma StepKeepsStored(s: State, step: Step, key: Key)
    requires key in s.composers && !step.Reset?
    ensures var r := Next(s, step); key in r.composers && r.composers[key] == s.composers[key]
  {
  }

  /** A composer once stored is the one served until the next reset, whatever policy is inside. */
  lemma {:induction false} StoredUntilReset(s: State, steps: seq<Step>, key: Key)
    requires key in s.composers && Reset !in steps
    ensures var r := Run(s, steps); key in r.composers && r.composers[key] == s.composers[key]
    decreases |steps|
  {
    if steps != [] {
      StoredUntilReset(s, steps[..|steps| - 1], key);
      StepKeepsStored(Run(s, steps[..|steps| - 1]), steps[|steps| - 1], key);
    }
  }
}
