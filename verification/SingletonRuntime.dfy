/**
 The runtime's singleton registry (src/baldur/runtime.py): double-checked creation with an
 unlocked fast path under one re-entrant lock, where a creator may itself request, inject
 or drop singletons.

 A thread is a stack of `get` calls with program counters. The creator of a name is a
 script of registry operations followed by an instance or an exception; the names it
 requests have a smaller rank than its own, so the dependency relation is acyclic.
 */
module SingletonRuntime {
  import opened Wrappers

  type Name = string

  /** A cached value; `None` and `False` are values like any other. */
  datatype Value = PyNone | PyFalse | Object(id: nat)

  datatype Op = GetOp(name: Name) | SetOp(name: Name, value: Value) | ResetOp(name: Name)

  datatype Creators = Creators(script: Name -> seq<Op>, rank: Name -> nat)
  {
    /** Every singleton a creator requests ranks below the one it creates. */
    ghost predicate Acyclic() {
      forall n, k | 0 <= k < |script(n)| && script(n)[k].GetOp? :: rank(script(n)[k].name) < rank(n)
    }
  }

  // ---------------------------------------------------------------------------
  // The registry and its history
  // ---------------------------------------------------------------------------

  datatype Return = Return(name: Name, value: Value, start: nat, end: nat)

  /**
   The dictionary, every content it has had, how often each name was created, dropped and
   injected, and what the calls returned. Moments are positions in the history.
   */
  datatype Registry = Registry(
    singletons: map<Name, Value>, history: seq<map<Name, Value>>,
    created: multiset<Name>, resets: multiset<Name>, sets: multiset<Name>, returned: seq<Return>)

  const EMPTY_REGISTRY := Registry(map[], [map[]], multiset{}, multiset{}, multiset{}, [])

  function Write(r: Registry, m: map<Name, Value>): Registry {
    r.(singletons := m, history := r.history + [m])
  }

  function StoreCreated(r: Registry, n: Name, v: Value): Registry {
    Write(r, r.singletons[n := v]).(created := r.created + multiset{n})
  }

  function SetSingleton(r: Registry, n: Name, v: Value): Registry {
    Write(r, r.singletons[n := v]).(sets := r.sets + multiset{n})
  }

  /** Dropping a name that is not present changes nothing. */
  function ResetSingleton(r: Registry, n: Name): Registry {
    if n in r.singletons then Write(r, r.singletons - {n}).(resets := r.resets + multiset{n}) else r
  }

  /** The registry held `v` under `n` at some moment from `start` to `end`. */
  ghost predicate HeldDuring(r: Registry, n: Name, v: Value, start: nat, end: nat) {
    exists k | start <= k <= end && k < |r.history| :: n in r.history[k] && r.history[k][n] == v
  }

  /** Nobody has injected or dropped the name. */
  ghost predicate Untouched(r: Registry, n: Name) {
    r.sets[n] == 0 && r.resets[n] == 0
  }

  ghost predicate Current(r: Registry, n: Name, v: Value) {
    n in r.singletons && r.singletons[n] == v
  }

  function Bit(b: bool): nat {
    if b then 1 else 0
  }

  ghost predicate CountOk(r: Registry, n: Name) {
    && r.created[n] <= r.resets[n] + Bit(n in r.singletons)
    && (Untouched(r, n) ==> r.created[n] == Bit(n in r.singletons))
  }

  ghost predicate ReturnOk(r: Registry, x: Return) {
    && x.start <= x.end < |r.history|
    && HeldDuring(r, x.name, x.value, x.start, x.end)
    && (Untouched(r, x.name) ==> Current(r, x.name, x.value))
  }

  ghost predicate RegistryInv(r: Registry) {
    && |r.history| > 0 && r.history[|r.history| - 1] == r.singletons
    && (forall n :: CountOk(r, n))
    && (forall i | 0 <= i < |r.returned| :: ReturnOk(r, r.returned[i]))
  }

  // ---------------------------------------------------------------------------
  // Calls in progress
  // ---------------------------------------------------------------------------

  datatype Pc =
    | FastPath                        // about to look the name up without the lock
    | Acquiring                       // about to take the lock
    | Checking                        // holds the lock, about to look the name up again
    | Creating(next: nat)             // holds the lock, runs operation `next` of the creator
    | Storing(value: Value)           // holds the lock, about to publish the instance
    | Releasing(result: Option<Value>) // holds the lock, about to leave with a value or an exception

  datatype Frame = Frame(name: Name, start: nat, pc: Pc)

  predicate Holding(pc: Pc) {
    !pc.FastPath? && !pc.Acquiring?
  }

  type Stack = seq<Frame>

  /** How often a thread with this stack holds the lock; every frame below the top is creating. */
  function Holds(stack: Stack): nat {
    if stack == [] then 0 else |stack| - 1 + Bit(Holding(stack[|stack| - 1].pc))
  }

  datatype State = State(registry: Registry, owner: Option<nat>, depth: nat, threads: seq<Stack>)

  datatype Step =
    | Call(thread: nat, name: Name)
    | SetCall(thread: nat, name: Name, value: Value)
    | ResetCall(thread: nat, name: Name)
    | Advance(thread: nat, raises: bool, instance: Value)

  predicate Available(s: State, t: nat) {
    s.owner == None || s.owner == Some(t)
  }

  predicate Idle(s: State, t: nat) {
    t < |s.threads| && s.threads[t] == []
  }

  function Top(stack: Stack): Frame
    requires stack != []
  {
    stack[|stack| - 1]
  }

  function Below(stack: Stack): Stack
    requires stack != []
  {
    stack[..|stack| - 1]
  }

  /** A running thread can take a step unless it waits for a lock that another thread holds. */
  predicate CanAdvance(s: State, t: nat) {
    t < |s.threads| && s.threads[t] != [] && (Top(s.threads[t]).pc.Acquiring? ==> Available(s, t))
  }

  /** The latest moment of the history. */
  function Now(r: Registry): nat {
    if r.history == [] then 0 else |r.history| - 1
  }

  /** The registry and the thread's own stack after its top call takes one step. */
  function Stepped(c: Creators, r: Registry, stack: Stack, raises: bool, instance: Value): (Registry, Stack)
    requires stack != []
  {
    var f, below, now := Top(stack), Below(stack), Now(r);
    match f.pc
    case FastPath =>
      if f.name in r.singletons
      then (r.(returned := r.returned + [Return(f.name, r.singletons[f.name], f.start, now)]), below)
      else (r, below + [f.(pc := Acquiring)])
    case Acquiring => (r, below + [f.(pc := Checking)])
    case Checking =>
      if f.name in r.singletons
      then (r, below + [f.(pc := Releasing(Some(r.singletons[f.name])))])
      else (r, below + [f.(pc := Creating(0))])
    case Creating(k) =>
      if raises then (r, below + [f.(pc := Releasing(None))])
      else if k >= |c.script(f.name)| then (r, below + [f.(pc := Storing(instance))])
      else
        var g := f.(pc := Creating(k + 1));
        (match c.script(f.name)[k]
         case GetOp(m) => (r, below + [g, Frame(m, now, FastPath)])
         case SetOp(m, v) => (SetSingleton(r, m, v), below + [g])
         case ResetOp(m) => (ResetSingleton(r, m), below + [g]))
    case Storing(v) => (StoreCreated(r, f.name, v), below + [f.(pc := Releasing(Some(v)))])
    case Releasing(result) =>
      (if result.Some? then r.(returned := r.returned + [Return(f.name, result.value, f.start, now)]) else r, below)
  }

  /** One step of one thread; a step that is not possible in the state changes nothing. */
  function Next(c: Creators, s: State, step: Step): State {
    var t := step.thread;
    match step
    case Call(_, n) =>
      if Idle(s, t) then s.(threads := s.threads[t := [Frame(n, Now(s.registry), FastPath)]]) else s
    case SetCall(_, n, v) =>
      if Idle(s, t) && Available(s, t) then s.(registry := SetSingleton(s.registry, n, v)) else s
    case ResetCall(_, n) =>
      if Idle(s, t) && Available(s, t) then s.(registry := ResetSingleton(s.registry, n)) else s
    case Advance(_, raises, instance) =>
      if !CanAdvance(s, t) then s
      else
        var (r, stack) := Stepped(c, s.registry, s.threads[t], raises, instance);
        var (owner, depth) := Relock(s.owner, s.depth, t, Top(s.threads[t]).pc);
        State(r, owner, depth, s.threads[t := stack])
  }

  /** The re-entrant lock: taken when a call acquires it, given back when a call releases it. */
  function Relock(owner: Option<nat>, depth: nat, t: nat, pc: Pc): (Option<nat>, nat) {
    match pc
    case Acquiring => (Some(t), depth + 1)
    case Releasing(_) => if depth <= 1 then (None, 0) else (owner, depth - 1)
    case _ => (owner, depth)
  }

  function Initial(threads: nat): State {
    State(EMPTY_REGISTRY, None, 0, NoCalls(threads))
  }

  function NoCalls(threads: nat): (stacks: seq<Stack>)
    ensures |stacks| == threads && forall t | 0 <= t < threads :: stacks[t] == []
  {
    if threads == 0 then [] else NoCalls(threads - 1) + [[]]
  }

  // ---------------------------------------------------------------------------
  // What every step keeps
  // ---------------------------------------------------------------------------

  /** While a name is being created, its creations so far have all been dropped again. */
  ghost predicate HeldOk(r: Registry, f: Frame) {
    match f.pc
    case Creating(_) => CreationOpen(r, f.name)
    case Storing(_) => CreationOpen(r, f.name)
    case Releasing(result) =>
      result.Some? ==>
        && HeldDuring(r, f.name, result.value, f.start, |r.history|)
        && (Untouched(r, f.name) ==> Current(r, f.name, result.value))
    case _ => true
  }

  ghost predicate CreationOpen(r: Registry, n: Name) {
    r.created[n] <= r.resets[n] && (Untouched(r, n) ==> n !in r.singletons)
  }

  ghost predicate FrameOk(c: Creators, r: Registry, f: Frame) {
    && f.start < |r.history| && HeldOk(r, f)
    && (f.pc.Creating? ==> f.pc.next <= |c.script(f.name)|)
  }

  ghost predicate FramesOk(c: Creators, r: Registry, stack: Stack) {
    forall i | 0 <= i < |stack| :: FrameOk(c, r, stack[i])
  }

  /** Every call below the top is creating, and ranks drop towards the top. */
  ghost predicate Nested(c: Creators, stack: Stack) {
    && (forall i | 0 <= i < |stack| - 1 :: stack[i].pc.Creating?)
    && (forall i, j | 0 <= i < j < |stack| :: c.rank(stack[j].name) < c.rank(stack[i].name))
  }

  /** The owner's recursion depth counts its calls that hold the lock; nobody else holds it. */
  ghost predicate LockInv(s: State) {
    && (s.owner == None <==> s.depth == 0)
    && (s.owner.Some? ==> s.owner.value < |s.threads|)
    && forall t | 0 <= t < |s.threads| :: Holds(s.threads[t]) == if s.owner == Some(t) then s.depth else 0
  }

  ghost predicate Inv(c: Creators, s: State) {
    && RegistryInv(s.registry) && LockInv(s)
    && forall t | 0 <= t < |s.threads| :: FramesOk(c, s.registry, s.threads[t]) && Nested(c, s.threads[t])
  }

  /** A later registry keeps what its history and its past returns promised. */
  ghost predicate Extends(r: Registry, q: Registry) {
    |r.history| <= |q.history| && r.history == q.history[..|r.history|]
  }

  lemma HeldStays(r: Registry, q: Registry, n: Name, v: Value, start: nat, end: nat, later: nat)
    requires Extends(r, q) && HeldDuring(r, n, v, start, end) && end <= later
    ensures HeldDuring(q, n, v, start, later)
  {
    var k :| start <= k <= end && k < |r.history| && n in r.history[k] && r.history[k][n] == v;
    assert q.history[k] == r.history[k];
  }

  /** Injecting a value keeps the registry and every call in progress in order. */
  lemma SetKeeps(c: Creators, r: Registry, n: Name, v: Value)
    requires RegistryInv(r)
    ensures RegistryInv(SetSingleton(r, n, v))
    ensures forall f | FrameOk(c, r, f) :: FrameOk(c, SetSingleton(r, n, v), f)
  {
    var q := SetSingleton(r, n, v);
    KeepsCalls(c, r, q, n);
    forall m ensures CountOk(q, m) {
      assert CountOk(r, m);
    }
  }

  lemma ResetKeeps(c: Creators, r: Registry, n: Name)
    requires RegistryInv(r)
    ensures RegistryInv(ResetSingleton(r, n))
    ensures forall f | FrameOk(c, r, f) :: FrameOk(c, ResetSingleton(r, n), f)
  {
    if n in r.singletons {
      var q := ResetSingleton(r, n);
      KeepsCalls(c, r, q, n);
      forall m ensures CountOk(q, m) {
        assert CountOk(r, m);
      }
    }
  }

  /** A write that marks its name as touched leaves past returns and calls in progress in order. */
  lemma KeepsCalls(c: Creators, r: Registry, q: Registry, n: Name)
    requires RegistryInv(r) && Extends(r, q) && q.returned == r.returned && !Untouched(q, n)
    requires q.created == r.created
    requires forall m :: r.resets[m] <= q.resets[m] && r.sets[m] <= q.sets[m]
    requires forall m | m != n :: (m in q.singletons <==> m in r.singletons)
    requires forall m | m != n && m in r.singletons :: q.singletons[m] == r.singletons[m]
    ensures forall i | 0 <= i < |q.returned| :: ReturnOk(q, q.returned[i])
    ensures forall f | FrameOk(c, r, f) :: FrameOk(c, q, f)
  {
    forall i | 0 <= i < |q.returned| ensures ReturnOk(q, q.returned[i]) {
      var x := r.returned[i];
      assert ReturnOk(r, x);
      HeldStays(r, q, x.name, x.value, x.start, x.end, x.end);
    }
    forall f | FrameOk(c, r, f) ensures FrameOk(c, q, f) {
      if f.pc.Releasing? && f.pc.result.Some? {
        HeldStays(r, q, f.name, f.pc.result.value, f.start, |r.history|, |q.history|);
      }
    }
  }

  /** Publishing an instance keeps every call in order, apart from other creations of the name. */
  lemma StoreKeeps(c: Creators, r: Registry, n: Name, v: Value)
    requires RegistryInv(r) && CreationOpen(r, n)
    ensures RegistryInv(StoreCreated(r, n, v))
    ensures forall f | FrameOk(c, r, f) && (f.name != n || !Holding(f.pc)) :: FrameOk(c, StoreCreated(r, n, v), f)
  {
    var q := StoreCreated(r, n, v);
    forall m ensures CountOk(q, m) {
      assert CountOk(r, m);
    }
    forall i | 0 <= i < |q.returned| ensures ReturnOk(q, q.returned[i]) {
      var x := r.returned[i];
      assert ReturnOk(r, x);
      HeldStays(r, q, x.name, x.value, x.start, x.end, x.end);
    }
    forall f | FrameOk(c, r, f) && (f.name != n || !Holding(f.pc)) ensures FrameOk(c, q, f) {
      if f.pc.Releasing? && f.pc.result.Some? {
        HeldStays(r, q, f.name, f.pc.result.value, f.start, |r.history|, |q.history|);
      }
    }
  }

  lemma ReturnKeeps(c: Creators, r: Registry, x: Return)
    requires RegistryInv(r) && ReturnOk(r, x)
    ensures RegistryInv(r.(returned := r.returned + [x]))
    ensures forall f | FrameOk(c, r, f) :: FrameOk(c, r.(returned := r.returned + [x]), f)
  {
    var q := r.(returned := r.returned + [x]);
    forall n ensures CountOk(q, n) {
      assert CountOk(r, n);
    }
    forall i | 0 <= i < |q.returned| ensures ReturnOk(q, q.returned[i]) {
      var y := if i < |r.returned| then r.returned[i] else x;
      assert ReturnOk(r, y);
      HeldStays(r, q, y.name, y.value, y.start, y.end, y.end);
    }
    forall f | FrameOk(c, r, f) ensures FrameOk(c, q, f) {
      if f.pc.Releasing? && f.pc.result.Some? {
        HeldStays(r, q, f.name, f.pc.result.value, f.start, |r.history|, |q.history|);
      }
    }
  }

  /** What a thread's step promises to the other threads, whose calls hold no lock if it writes. */
  ghost predicate KeepsOthers(c: Creators, r: Registry, q: Registry, held: bool) {
    forall f | FrameOk(c, r, f) && (held ==> !Holding(f.pc)) :: FrameOk(c, q, f)
  }

  /** A stack with its top call replaced or removed stays in order if its calls do. */
  lemma RetopKeeps(c: Creators, r: Registry, q: Registry, stack: Stack, g: Frame)
    requires stack != [] && FramesOk(c, r, stack) && Nested(c, stack)
    requires forall f | f in Below(stack) && FrameOk(c, r, f) :: FrameOk(c, q, f)
    ensures FramesOk(c, q, Below(stack)) && Nested(c, Below(stack))
    ensures FrameOk(c, q, g) && g.name == Top(stack).name ==>
              FramesOk(c, q, Below(stack) + [g]) && Nested(c, Below(stack) + [g])
  {
    forall i | 0 <= i < |Below(stack)| ensures FrameOk(c, q, Below(stack)[i]) {
      assert Below(stack)[i] in Below(stack) && FrameOk(c, r, stack[i]);
    }
    if g.name == Top(stack).name {
      var next := Below(stack) + [g];
      forall i, j | 0 <= i < j < |next| ensures c.rank(next[j].name) < c.rank(next[i].name) {
        assert next[i].name == stack[i].name && next[j].name == stack[j].name;
      }
    }
  }

  ghost predicate StepKeeps(c: Creators, r: Registry, stack: Stack, q: Registry, next: Stack) {
    RegistryInv(q) && FramesOk(c, q, next) && Nested(c, next) && KeepsOthers(c, r, q, Holds(stack) > 0)
  }

  lemma PushKeeps(c: Creators, r: Registry, stack: Stack, g: Frame, h: Frame)
    requires stack != [] && FramesOk(c, r, stack) && Nested(c, stack) && RegistryInv(r)
    requires g.name == Top(stack).name && g.pc.Creating? && FrameOk(c, r, g)
    requires FrameOk(c, r, h) && c.rank(h.name) < c.rank(g.name)
    ensures StepKeeps(c, r, stack, r, Below(stack) + [g, h])
  {
    RetopKeeps(c, r, r, stack, g);
    var next, base := Below(stack) + [g, h], Below(stack) + [g];
    forall i | 0 <= i < |next| ensures FrameOk(c, r, next[i]) {
      assert next[i] == if i < |base| then base[i] else h;
    }
    forall i, j | 0 <= i < j < |next| ensures c.rank(next[j].name) < c.rank(next[i].name) {
      assert next[i] == base[i] && (j < |base| ==> next[j] == base[j]);
      assert i < |base| - 1 ==> c.rank(base[|base| - 1].name) < c.rank(base[i].name);
    }
  }

  lemma CreatingKeeps(c: Creators, r: Registry, stack: Stack, raises: bool, instance: Value)
    requires c.Acyclic() && RegistryInv(r) && stack != [] && FramesOk(c, r, stack) && Nested(c, stack)
    requires Top(stack).pc.Creating?
    ensures var (q, next) := Stepped(c, r, stack, raises, instance); StepKeeps(c, r, stack, q, next)
  {
    var f := Top(stack);
    var k := f.pc.next;
    assert FrameOk(c, r, f);
    if raises {
      RetopKeeps(c, r, r, stack, f.(pc := Releasing(None)));
    } else if k >= |c.script(f.name)| {
      RetopKeeps(c, r, r, stack, f.(pc := Storing(instance)));
    } else {
      var g := f.(pc := Creating(k + 1));
      assert FrameOk(c, r, g);
      match c.script(f.name)[k] {
        case GetOp(m) =>
          PushKeeps(c, r, stack, g, Frame(m, |r.history| - 1, FastPath));
        case SetOp(m, v) =>
          SetKeeps(c, r, m, v);
          RetopKeeps(c, r, SetSingleton(r, m, v), stack, g);
        case ResetOp(m) =>
          ResetKeeps(c, r, m);
          RetopKeeps(c, r, ResetSingleton(r, m), stack, g);
      }
    }
  }

  lemma StoringKeeps(c: Creators, r: Registry, stack: Stack, raises: bool, instance: Value)
    requires RegistryInv(r) && stack != [] && FramesOk(c, r, stack) && Nested(c, stack)
    requires Top(stack).pc.Storing?
    ensures var (q, next) := Stepped(c, r, stack, raises, instance); StepKeeps(c, r, stack, q, next)
  {
    var f := Top(stack);
    assert FrameOk(c, r, f);
    var v := f.pc.value;
    StoreKeeps(c, r, f.name, v);
    var q, g := StoreCreated(r, f.name, v), f.(pc := Releasing(Some(v)));
    assert q.history[|q.history| - 1] == q.singletons;
    forall b | b in Below(stack) && FrameOk(c, r, b) ensures FrameOk(c, q, b) {
      var i :| 0 <= i < |stack| - 1 && stack[i] == b;
      assert c.rank(f.name) < c.rank(stack[i].name);
    }
    RetopKeeps(c, r, q, stack, g);
  }

  /** The thread's own step: its stack stays in order and other threads are not disturbed. */
  lemma SteppedKeeps(c: Creators, r: Registry, stack: Stack, raises: bool, instance: Value)
    requires c.Acyclic() && RegistryInv(r) && stack != [] && FramesOk(c, r, stack) && Nested(c, stack)
    ensures var (q, next) := Stepped(c, r, stack, raises, instance); StepKeeps(c, r, stack, q, next)
  {
    var f := Top(stack);
    assert FrameOk(c, r, f);
    match f.pc {
      case FastPath =>
        if f.name in r.singletons {
          FastHitKeeps(c, r, f);
        }
        RetopKeeps(c, r, Stepped(c, r, stack, raises, instance).0, stack, f.(pc := Acquiring));
      case Acquiring =>
        RetopKeeps(c, r, r, stack, f.(pc := Checking));
      case Checking =>
        CheckKeeps(c, r, f);
        RetopKeeps(c, r, r, stack, Top(Stepped(c, r, stack, raises, instance).1));
      case Creating(k) =>
        CreatingKeeps(c, r, stack, raises, instance);
      case Storing(v) =>
        StoringKeeps(c, r, stack, raises, instance);
      case Releasing(result) =>
        if result.Some? {
          ReleaseKeeps(c, r, f);
        }
        RetopKeeps(c, r, Stepped(c, r, stack, raises, instance).0, stack, f);
    }
  }

  lemma FastHitKeeps(c: Creators, r: Registry, f: Frame)
    requires RegistryInv(r) && FrameOk(c, r, f) && f.name in r.singletons
    ensures ReturnOk(r, Return(f.name, r.singletons[f.name], f.start, |r.history| - 1))
    ensures var q := r.(returned := r.returned + [Return(f.name, r.singletons[f.name], f.start, |r.history| - 1)]);
            RegistryInv(q) && forall g | FrameOk(c, r, g) :: FrameOk(c, q, g)
  {
    assert r.history[|r.history| - 1] == r.singletons;
    ReturnKeeps(c, r, Return(f.name, r.singletons[f.name], f.start, |r.history| - 1));
  }

  lemma ReleaseKeeps(c: Creators, r: Registry, f: Frame)
    requires RegistryInv(r) && FrameOk(c, r, f) && f.pc.Releasing? && f.pc.result.Some?
    ensures var q := r.(returned := r.returned + [Return(f.name, f.pc.result.value, f.start, |r.history| - 1)]);
            RegistryInv(q) && forall g | FrameOk(c, r, g) :: FrameOk(c, q, g)
  {
    var x := Return(f.name, f.pc.result.value, f.start, |r.history| - 1);
    var k :| f.start <= k <= |r.history| && k < |r.history|
             && f.name in r.history[k] && r.history[k][f.name] == f.pc.result.value;
    assert HeldDuring(r, x.name, x.value, x.start, x.end);
    ReturnKeeps(c, r, x);
  }

  lemma CheckKeeps(c: Creators, r: Registry, f: Frame)
    requires RegistryInv(r) && FrameOk(c, r, f)
    ensures f.name in r.singletons ==> FrameOk(c, r, f.(pc := Releasing(Some(r.singletons[f.name]))))
    ensures f.name !in r.singletons ==> FrameOk(c, r, f.(pc := Creating(0)))
  {
    assert r.history[|r.history| - 1] == r.singletons;
    assert CountOk(r, f.name);
  }

  /** Only acquiring and releasing change how often a thread holds the lock. */
  lemma HoldsStepped(c: Creators, r: Registry, stack: Stack, raises: bool, instance: Value)
    requires stack != [] && Nested(c, stack)
    ensures var next := Stepped(c, r, stack, raises, instance).1;
            Holds(next) == Holds(stack) + (if Top(stack).pc.Acquiring? then 1
                                           else if Top(stack).pc.Releasing? then -1 else 0)
  {
    var below := Below(stack);
    assert below != [] ==> below[|below| - 1].pc.Creating?;
  }

  lemma AdvanceKeepsLock(c: Creators, s: State, t: nat, raises: bool, instance: Value)
    requires LockInv(s) && CanAdvance(s, t) && Nested(c, s.threads[t])
    ensures LockInv(Next(c, s, Advance(t, raises, instance)))
  {
    HoldsStepped(c, s.registry, s.threads[t], raises, instance);
    assert Holding(Top(s.threads[t]).pc) ==> Holds(s.threads[t]) > 0;
  }

  lemma AdvanceKeeps(c: Creators, s: State, t: nat, raises: bool, instance: Value)
    requires c.Acyclic() && Inv(c, s) && CanAdvance(s, t)
    ensures Inv(c, Next(c, s, Advance(t, raises, instance)))
  {
    AdvanceKeepsLock(c, s, t, raises, instance);
    SteppedKeeps(c, s.registry, s.threads[t], raises, instance);
    var (q, next) := Stepped(c, s.registry, s.threads[t], raises, instance);
    forall u | 0 <= u < |s.threads| && u != t ensures FramesOk(c, q, s.threads[u]) {
      assert Holds(s.threads[t]) > 0 ==> Holds(s.threads[u]) == 0;
      forall i | 0 <= i < |s.threads[u]| ensures FrameOk(c, q, s.threads[u][i]) {
        assert FrameOk(c, s.registry, s.threads[u][i]);
        assert Holds(s.threads[u]) == 0 ==> !Holding(s.threads[u][i].pc);
      }
    }
  }

  lemma NextKeepsInv(c: Creators, s: State, step: Step)
    requires c.Acyclic() && Inv(c, s)
    ensures Inv(c, Next(c, s, step))
  {
    match step {
      case Call(t, n) =>
      case SetCall(t, n, v) => SetKeeps(c, s.registry, n, v);
      case ResetCall(t, n) => ResetKeeps(c, s.registry, n);
      case Advance(t, raises, instance) =>
        if CanAdvance(s, t) {
          AdvanceKeeps(c, s, t, raises, instance);
        }
    }
  }

  function Run(c: Creators, s: State, steps: seq<Step>): State {
    if steps == [] then s else Next(c, Run(c, s, steps[..|steps| - 1]), steps[|steps| - 1])
  }

  lemma {:induction false} RunsKeepInv(c: Creators, s: State, steps: seq<Step>)
    requires c.Acyclic() && Inv(c, s)
    ensures Inv(c, Run(c, s, steps))
  {
    if steps != [] {
      RunsKeepInv(c, s, steps[..|steps| - 1]);
      NextKeepsInv(c, Run(c, s, steps[..|steps| - 1]), steps[|steps| - 1]);
    }
  }

  /**
   Over every interleaving of gets, injections and drops by any number of threads: a name is
   created at most once more than it is dropped, every value returned was in the registry
   during the call, and as long as nobody injects or drops the name it is created at most
   once and every call returns that one instance.
   */
  lemma SingletonProtocol(c: Creators, threads: nat, steps: seq<Step>, n: Name)
    requires c.Acyclic()
    ensures var r := Run(c, Initial(threads), steps).registry;
            && r.created[n] <= 1 + r.resets[n]
            && (forall x | x in r.returned :: x.end < |r.history| && HeldDuring(r, x.name, x.value, x.start, x.end))
            && (Untouched(r, n) ==>
                  && r.created[n] == Bit(n in r.singletons)
                  && forall x, y | x in r.returned && y in r.returned && x.name == n && y.name == n ::
                       x.value == y.value)
  {
    RunsKeepInv(c, Initial(threads), steps);
    var r := Run(c, Initial(threads), steps).registry;
    assert CountOk(r, n);
    assert forall x | x in r.returned :: ReturnOk(r, x);
  }

  /**
   What a step does to the registry: an injection puts its value under its name, a drop removes
   its name, a creator that raises changes nothing, a publication puts the instance under the name;
   every other name is left alone.
   */
  lemma StepEffects(c: Creators, s: State, step: Step)
    ensures var before, after := s.registry.singletons, Next(c, s, step).registry.singletons;
            var t := step.thread;
            && (step.Call? ==> after == before)
            && (step.SetCall? && Idle(s, t) && Available(s, t) ==> after == before[step.name := step.value])
            && (step.ResetCall? && Idle(s, t) && Available(s, t) ==> after == before - {step.name})
            && (step.Advance? && CanAdvance(s, t) && Top(s.threads[t]).pc.Creating? && step.raises ==> after == before)
            && (step.Advance? && CanAdvance(s, t) && Top(s.threads[t]).pc.Storing? ==>
                  after == before[Top(s.threads[t]).name := Top(s.threads[t]).pc.value])
  {
  }

  /** A creator runs its operations in turn: it injects, drops or requests, and then yields its instance. */
  lemma CreatorRunsScript(c: Creators, s: State, t: nat, instance: Value)
    requires t < |s.threads| && s.threads[t] != [] && Top(s.threads[t]).pc.Creating?
    ensures var f := Top(s.threads[t]);
            var k, script := f.pc.next, c.script(f.name);
            var n := Next(c, s, Advance(t, false, instance));
            var before, after := s.registry.singletons, n.registry.singletons;
            && n.threads[t] != []
            && (k >= |script| ==> after == before && Top(n.threads[t]) == f.(pc := Storing(instance)))
            && (k < |script| && script[k].SetOp? ==> after == before[script[k].name := script[k].value])
            && (k < |script| && script[k].ResetOp? ==> after == before - {script[k].name})
            && (k < |script| && !script[k].GetOp? ==> Top(n.threads[t]) == f.(pc := Creating(k + 1)))
            && (k < |script| && script[k].GetOp? ==>
                  && after == before && |n.threads[t]| == |s.threads[t]| + 1
                  && Top(n.threads[t]).name == script[k].name && Top(n.threads[t]).pc == FastPath
                  && Top(Below(n.threads[t])) == f.(pc := Creating(k + 1)))
  {
  }

  // ---------------------------------------------------------------------------
  // Progress
  // ---------------------------------------------------------------------------

  /** The most steps of its own a thread needs for a `get`: the dependency rank bounds the recursion. */
  ghost function Cost(c: Creators, n: Name): nat
    requires c.Acyclic()
    decreases c.rank(n), 1
  {
    6 + ScriptCost(c, n, 0)
  }

  ghost function ScriptCost(c: Creators, n: Name, k: nat): nat
    requires c.Acyclic()
    decreases c.rank(n), 0, |c.script(n)| - k
  {
    if k >= |c.script(n)| then 0
    else (if c.script(n)[k].GetOp? then 1 + Cost(c, c.script(n)[k].name) else 1) + ScriptCost(c, n, k + 1)
  }

  ghost function FrameCost(c: Creators, f: Frame): nat
    requires c.Acyclic()
  {
    match f.pc
    case FastPath => Cost(c, f.name)
    case Acquiring => Cost(c, f.name) - 1
    case Checking => Cost(c, f.name) - 2
    case Creating(k) => ScriptCost(c, f.name, k) + 3
    case Storing(_) => 2
    case Releasing(_) => 1
  }

  ghost function StackCost(c: Creators, stack: Stack): nat
    requires c.Acyclic()
  {
    if stack == [] then 0 else StackCost(c, Below(stack)) + FrameCost(c, Top(stack))
  }

  ghost function TotalCost(c: Creators, threads: seq<Stack>): nat
    requires c.Acyclic()
  {
    if threads == [] then 0
    else TotalCost(c, threads[..|threads| - 1]) + StackCost(c, threads[|threads| - 1])
  }

  lemma PushCost(c: Creators, stack: Stack, f: Frame)
    requires c.Acyclic()
    ensures StackCost(c, stack + [f]) == StackCost(c, stack) + FrameCost(c, f)
  {
    assert Below(stack + [f]) == stack;
  }

  lemma SteppedSpends(c: Creators, r: Registry, stack: Stack, raises: bool, instance: Value)
    requires c.Acyclic() && stack != []
    ensures StackCost(c, Stepped(c, r, stack, raises, instance).1) < StackCost(c, stack)
  {
    var f, below := Top(stack), Below(stack);
    var next := Stepped(c, r, stack, raises, instance).1;
    if |next| == |stack| {
      assert next == below + [Top(next)];
      PushCost(c, below, Top(next));
    } else if |next| == |stack| + 1 {
      var g := f.(pc := Creating(f.pc.next + 1));
      assert next == below + [g] + [Top(next)];
      PushCost(c, below + [g], Top(next));
      PushCost(c, below, g);
    }
  }

  lemma {:induction false} TotalCostUpdate(c: Creators, threads: seq<Stack>, t: nat, stack: Stack)
    requires c.Acyclic() && t < |threads|
    ensures TotalCost(c, threads[t := stack]) + StackCost(c, threads[t]) == TotalCost(c, threads) + StackCost(c, stack)
  {
    var rest := threads[..|threads| - 1];
    if t < |threads| - 1 {
      TotalCostUpdate(c, rest, t, stack);
      assert threads[t := stack][..|threads| - 1] == rest[t := stack];
    } else {
      assert threads[t := stack][..|threads| - 1] == rest;
    }
  }

  /** A lock that a thread already holds never blocks it. */
  lemma OwnerCanAdvance(c: Creators, s: State, t: nat)
    requires Inv(c, s) && s.owner == Some(t)
    ensures CanAdvance(s, t)
  {}

  /** While any call is in progress, some thread can take a step. */
  lemma NoDeadlock(c: Creators, s: State, t: nat) returns (u: nat)
    requires Inv(c, s) && t < |s.threads| && s.threads[t] != []
    ensures CanAdvance(s, u)
  {
    if s.owner.Some? {
      u := s.owner.value;
      OwnerCanAdvance(c, s, u);
    } else {
      u := t;
    }
  }

  /** Nested calls are never deeper than the rank of the first name requested. */
  lemma {:induction false} NestingBounded(c: Creators, stack: Stack)
    requires stack != [] && Nested(c, stack)
    ensures |stack| + c.rank(Top(stack).name) <= c.rank(stack[0].name) + 1
    decreases |stack|
  {
    if |stack| > 1 {
      NestingBounded(c, Below(stack));
    }
  }

  /** Every step in the list is an advance that is possible when its turn comes. */
  ghost predicate AllAdvance(c: Creators, s: State, steps: seq<Step>)
    decreases |steps|
  {
    steps != [] ==>
      && steps[0].Advance? && CanAdvance(s, steps[0].thread)
      && AllAdvance(c, Next(c, s, steps[0]), steps[1..])
  }

  /** How many of the steps are steps that thread `t` takes in its own calls. */
  ghost function OwnSteps(c: Creators, s: State, t: nat, steps: seq<Step>): nat
    decreases |steps|
  {
    if steps == [] then 0
    else
      var before, last := steps[..|steps| - 1], steps[|steps| - 1];
      OwnSteps(c, s, t, before) + Bit(last.Advance? && last.thread == t && CanAdvance(Run(c, s, before), t))
  }

  /** Thread `t` has a call in progress at every one of the steps. */
  ghost predicate InProgress(c: Creators, s: State, t: nat, steps: seq<Step>) {
    forall k | 0 <= k < |steps| :: var r := Run(c, s, steps[..k]); t < |r.threads| && r.threads[t] != []
  }

  lemma {:induction false} OwnStepsBounded(c: Creators, s: State, t: nat, steps: seq<Step>)
    requires c.Acyclic() && t < |s.threads| && InProgress(c, s, t, steps)
    ensures var r := Run(c, s, steps);
            t < |r.threads| && OwnSteps(c, s, t, steps) + StackCost(c, r.threads[t]) <= StackCost(c, s.threads[t])
    decreases |steps|
  {
    if steps != [] {
      var n := |steps| - 1;
      assert forall k | 0 <= k <= n :: steps[..n][..k] == steps[..k];
      OwnStepsBounded(c, s, t, steps[..n]);
      OwnStepSpends(c, Run(c, s, steps[..n]), t, steps[n]);
    }
  }

  lemma OwnStepSpends(c: Creators, s: State, t: nat, step: Step)
    requires c.Acyclic() && t < |s.threads| && s.threads[t] != []
    ensures var r := Next(c, s, step);
            && t < |r.threads|
            && StackCost(c, r.threads[t]) + Bit(step.Advance? && step.thread == t && CanAdvance(s, t))
               <= StackCost(c, s.threads[t])
  {
    if step.Advance? && step.thread == t && CanAdvance(s, t) {
      SteppedSpends(c, s.registry, s.threads[t], step.raises, step.instance);
    }
  }

  /**
   A get of `n` takes at most `Cost(c, n)` steps of its own, nested gets included, whatever
   the other threads call, inject, drop or advance in between.
   */
  lemma CallCostBounded(c: Creators, s: State, t: nat, n: Name, steps: seq<Step>)
    requires c.Acyclic() && Idle(s, t) && InProgress(c, Next(c, s, Call(t, n)), t, steps)
    ensures OwnSteps(c, Next(c, s, Call(t, n)), t, steps) <= Cost(c, n)
  {
    var called := Next(c, s, Call(t, n));
    OwnStepsBounded(c, called, t, steps);
    PushCost(c, [], Frame(n, Now(s.registry), FastPath));
    assert called.threads[t] == [] + [Frame(n, Now(s.registry), FastPath)];
  }

  /**
   With no new calls, the calls in progress take together no more steps than their creators'
   costs add up to, in any order of the threads; until they are done some thread can step.
   */
  lemma {:induction false} CallsTerminate(c: Creators, s: State, steps: seq<Step>)
    requires c.Acyclic() && Inv(c, s) && AllAdvance(c, s, steps)
    ensures |steps| <= TotalCost(c, s.threads)
    decreases |steps|
  {
    if steps != [] {
      var t := steps[0].thread;
      SteppedSpends(c, s.registry, s.threads[t], steps[0].raises, steps[0].instance);
      var next := Next(c, s, steps[0]);
      TotalCostUpdate(c, s.threads, t, next.threads[t]);
      NextKeepsInv(c, s, steps[0]);
      CallsTerminate(c, next, steps[1..]);
    }
  }

  // ---------------------------------------------------------------------------
  // One thread, undisturbed
  // ---------------------------------------------------------------------------

  /** The runtime as its lock owner sees it: no other thread writes while it runs. */
  class BaldurRuntime {
    const creators: Creators
    const outcome: Name -> Option<Value>  // what the creator of a name ends with; `None` when it raises
    var singletons: map<Name, Value>
    ghost var created: multiset<Name>

    constructor (creators: Creators, outcome: Name -> Option<Value>)
      ensures this.creators == creators && this.outcome == outcome
      ensures singletons == map[] && created == multiset{}
    {
      this.creators := creators;
      this.outcome := outcome;
      singletons := map[];
      created := multiset{};
    }

    method Set(n: Name, v: Value)
      modifies this`singletons
      ensures singletons == old(singletons)[n := v]
    {
      singletons := singletons[n := v];
    }

    /** Tells a dropped `None` apart from a name that was never created. */
    method Reset(n: Name) returns (present: bool, value: Value)
      modifies this`singletons
      ensures present <==> n in old(singletons)
      ensures value == if present then old(singletons)[n] else PyNone
      ensures singletons == old(singletons) - {n}
    {
      if n in singletons {
        present, value := true, singletons[n];
        singletons := singletons - {n};
      } else {
        present, value := false, PyNone;
      }
    }

    /** What creators that only request singletons add: each new name once, ranked within the limit. */
    twostate predicate CreatedOnce(limit: nat)
      reads this
    {
      && (forall m | m in old(singletons) :: m in singletons && singletons[m] == old(singletons)[m])
      && (forall m :: created[m] == old(created)[m] + Bit(m in singletons) - Bit(m in old(singletons)))
      && (forall m | m in singletons && m !in old(singletons) :: creators.rank(m) < limit)
    }

    ghost predicate OnlyGets() {
      forall n, k | 0 <= k < |creators.script(n)| :: creators.script(n)[k].GetOp?
    }

    /** A cached value is returned as it is; a creator that raises caches nothing under the name. */
    method Get(n: Name) returns (result: Option<Value>)
      requires creators.Acyclic()
      modifies this
      ensures n in old(singletons) ==>
                result == Some(old(singletons)[n]) && singletons == old(singletons) && created == old(created)
      ensures result.Some? ==> n in singletons && singletons[n] == result.value
      ensures OnlyGets() ==> CreatedOnce(creators.rank(n) + 1)
      ensures OnlyGets() && result.None? ==> n !in singletons
      decreases creators.rank(n)
    {
      if n in singletons {
        return Some(singletons[n]);
      }
      var script := creators.script(n);
      for k := 0 to |script|
        invariant OnlyGets() ==> CreatedOnce(creators.rank(n))
      {
        match script[k] {
          case GetOp(m) =>
            var nested := Get(m);
            if nested.None? {
              return None;
            }
          case SetOp(m, v) => Set(m, v);
          case ResetOp(m) => var _, _ := Reset(m);
        }
      }
      result := outcome(n);
      if result.Some? {
        singletons := singletons[n := result.value];
        created := created + multiset{n};
      }
    }
  }
}
