/**
 * The dependency-injection container of 7.py: a registration table, a
 * singleton cache, a scoped cache, a flag saying whether a scope is open, and
 * a resolver that builds an implementation together with the dependencies its
 * constructor declares.
 *
 * Python objects are modelled by the interpreter's heap `objects`: building
 * an object appends a record to it and its identity is its position, so the
 * identity of a fresh object is the counter `|objects|`.  The constructor
 * signature that the source reads by reflection is given explicitly, as the
 * ordered list of annotated parameters (`hints`) and the set of parameter
 * names without a default value (`required`).
 */
module DependencyInjection {
  import opened Wrappers

  /** An interface (or any annotated parameter type), identified by its name. */
  type Key = string

  /** The three life-style names of class `LifeStyle`. */
  const PER_REQUEST: string := "PerRequest"
  const SCOPED: string := "Scoped"
  const SINGLETON: string := "Singleton"

  /** The reuse policy that `get_instance` applies to a life-style string. */
  datatype LifeStyle = PerRequest | Scoped | Singleton

  /** `get_instance` compares with SINGLETON, then SCOPED; any other string is per-request. */
  function Policy(lifeStyle: string): (p: LifeStyle)
    ensures p == Singleton <==> lifeStyle == SINGLETON
    ensures p == Scoped <==> lifeStyle == SCOPED
    ensures p == PerRequest <==> lifeStyle != SINGLETON && lifeStyle != SCOPED
  {
    if lifeStyle == SINGLETON then Singleton
    else if lifeStyle == SCOPED then Scoped
    else PerRequest
  }

  /** An annotated constructor parameter: its name and its annotated type. */
  datatype Hint = Hint(name: string, key: Key)

  /** The callable registered for an interface: a factory function or a class. */
  datatype Implementation =
    | Factory(name: string)
    | Constructor(name: string, hints: seq<Hint>, required: set<string>)

  /** A keyword argument passed to a constructor: a fixed literal or a built object. */
  datatype Value = Lit(literal: string) | Ref(id: nat)

  /** One entry of `_registrations`. */
  datatype Registration = Registration(impl: Implementation, lifeStyle: string, params: map<string, string>)

  /** A built object: what was called and with which keyword arguments. */
  datatype Obj = Obj(impl: Implementation, args: map<string, Value>)

  /** The exceptions the container raises. */
  datatype Error =
    | AlreadyRegistered(key: Key)      // ValueError in `register`
    | NotRegistered(key: Key)          // ValueError in `get_instance`
    | OutsideScope(key: Key)           // RuntimeError for a Scoped key outside a scope
    | MissingArgument(impl: string)    // TypeError: a required constructor argument was not supplied

  datatype Result<+T> = Ok(value: T) | Err(error: Error)

  /** The part of the container's state that resolution writes: both caches and the heap of built objects. */
  datatype ResolverState = ResolverState(singletons: map<Key, nat>, scoped: map<Key, nat>, objects: seq<Obj>)

  /** Definition of `params or {}`: a missing parameter dictionary becomes the empty one; the ensures spell the definition out. */
  function FixedParams(params: Option<map<string, string>>): (m: map<string, string>)
    ensures params.None? ==> m == map[]
    ensures params.Some? ==> m == params.value
  {
    match params
    case None => map[]
    case Some(p) => p
  }

  /** Definition of the keyword arguments a factory is called with: its fixed params, and nothing else. */
  function LiteralArgs(params: map<string, string>): (args: map<string, Value>)
    ensures args.Keys == params.Keys
    ensures forall n :: n in params ==> args[n] == Lit(params[n])
  {
    map n | n in params :: Lit(params[n])
  }

  /** Appending a fresh object to the heap; its identity is the old length. */
  function Alloc(c: ResolverState, o: Obj): (ResolverState, Result<nat>)
  {
    (c.(objects := c.objects + [o]), Ok(|c.objects|))
  }

  // ---------------------------------------------------------------------------
  // Termination.  The source has no cycle check: a cyclic dependency recurses
  // until the interpreter gives up.  The model asks the caller for a ranking of
  // the keys reachable from the requested one, under which every dependency
  // the resolver could follow from a ranked key is ranked and smaller.  Keys
  // outside the ranking's domain are unconstrained, so a cycle among keys the
  // request never reaches does not matter.
  // ---------------------------------------------------------------------------

  function RankOf(rank: map<Key, nat>, k: Key): nat
  {
    if k in rank then rank[k] else 0
  }

  /** The resolver resolves hint `h` of a constructor registered with fixed params `params`. */
  predicate Injects(regs: map<Key, Registration>, params: map<string, string>, h: Hint)
  {
    h.name != "return" && h.name !in params && h.key in regs
  }

  /** The ranked keys are closed under the dependencies the resolver follows, each ranked below its dependant. */
  ghost predicate Ranked(regs: map<Key, Registration>, rank: map<Key, nat>)
  {
    forall k, h :: k in rank && k in regs && regs[k].impl.Constructor? && h in regs[k].impl.hints && Injects(regs, regs[k].params, h) ==>
      h.key in rank && RankOf(rank, h.key) < RankOf(rank, k)
  }

  /** A ranking that covers the registered key `key`, and so everything resolving it can reach. */
  ghost predicate RankedFor(regs: map<Key, Registration>, rank: map<Key, nat>, key: Key)
  {
    Ranked(regs, rank) && (key in regs ==> key in rank)
  }

  /** The hints of `owner`'s constructor that remain to be visited. */
  ghost predicate HintsOf(regs: map<Key, Registration>, owner: Key, hints: seq<Hint>)
  {
    owner in regs && regs[owner].impl.Constructor? && forall h :: h in hints ==> h in regs[owner].impl.hints
  }

  // ---------------------------------------------------------------------------
  // The resolver as functions over the caches.  Each returns the caches it
  // leaves behind also when it fails: a dependency cached before a later
  // failure stays cached, as in the source.
  // ---------------------------------------------------------------------------

  /** `get_instance(key)`, 7.py:36-60. */
  function Resolve(regs: map<Key, Registration>, inScope: bool, c: ResolverState, key: Key, rank: map<Key, nat>): (ResolverState, Result<nat>)
    requires RankedFor(regs, rank, key)
    decreases RankOf(rank, key), 2, 0
  {
    if key !in regs then (c, Err(NotRegistered(key)))
    else
      match Policy(regs[key].lifeStyle)
      case Singleton =>
        if key in c.singletons then (c, Ok(c.singletons[key]))
        else
          var (c1, r) := Build(regs, inScope, c, key, rank);
          if r.Ok? then (c1.(singletons := c1.singletons[key := r.value]), r) else (c1, r)
      case Scoped =>
        if !inScope then (c, Err(OutsideScope(key)))
        else if key in c.scoped then (c, Ok(c.scoped[key]))
        else
          var (c1, r) := Build(regs, inScope, c, key, rank);
          if r.Ok? then (c1.(scoped := c1.scoped[key := r.value]), r) else (c1, r)
      case PerRequest =>
        Build(regs, inScope, c, key, rank)
  }

  /** `_create_instance` for the registration of `key`, 7.py:62-88. */
  function Build(regs: map<Key, Registration>, inScope: bool, c: ResolverState, key: Key, rank: map<Key, nat>): (ResolverState, Result<nat>)
    requires RankedFor(regs, rank, key) && key in regs
    decreases RankOf(rank, key), 1, 0
  {
    var reg := regs[key];
    match reg.impl
    case Factory(_) => Alloc(c, Obj(reg.impl, LiteralArgs(reg.params)))
    case Constructor(name, hints, required) =>
      var (c1, r) := CollectArgs(regs, inScope, c, key, hints, map[], rank);
      match r
      case Err(e) => (c1, Err(e))
      case Ok(args) =>
        if required <= args.Keys then Alloc(c1, Obj(reg.impl, args))
        else (c1, Err(MissingArgument(name)))
  }

  /** The loop of 7.py:80-86 over the hints still to visit, `args` holding those already collected. */
  function CollectArgs(regs: map<Key, Registration>, inScope: bool, c: ResolverState, owner: Key, hints: seq<Hint>,
                       args: map<string, Value>, rank: map<Key, nat>): (ResolverState, Result<map<string, Value>>)
    requires RankedFor(regs, rank, owner) && HintsOf(regs, owner, hints)
    decreases RankOf(rank, owner), 0, |hints|
  {
    if hints == [] then (c, Ok(args))
    else
      var h, params := hints[0], regs[owner].params;
      if h.name == "return" then CollectArgs(regs, inScope, c, owner, hints[1..], args, rank)
      else if h.name in params then CollectArgs(regs, inScope, c, owner, hints[1..], args[h.name := Lit(params[h.name])], rank)
      else if h.key in regs then
        var (c1, r) := Resolve(regs, inScope, c, h.key, rank);
        match r
        case Err(e) => (c1, Err(e))
        case Ok(id) => CollectArgs(regs, inScope, c1, owner, hints[1..], args[h.name := Ref(id)], rank)
      else CollectArgs(regs, inScope, c, owner, hints[1..], args, rank)
  }

  // ---------------------------------------------------------------------------
  // Invariants of the caches
  // ---------------------------------------------------------------------------

  /** Every object reference among `args` names an object older than `n`. */
  ghost predicate RefsBelow(args: map<string, Value>, n: nat)
  {
    forall name :: name in args && args[name].Ref? ==> args[name].id < n
  }

  /** An entry `key -> id` of a cache is sound: the object exists and was built by key's implementation. */
  ghost predicate BuiltFor(regs: map<Key, Registration>, c: ResolverState, key: Key, id: nat)
  {
    key in regs && id < |c.objects| && c.objects[id].impl == regs[key].impl
  }

  /**
   * Singleton entries belong to Singleton registrations, scoped entries to
   * Scoped ones, every entry names an object built for its key, an object's
   * injected dependencies are older than the object, and there is no scoped
   * entry while no scope is open.
   */
  ghost predicate CachesValid(regs: map<Key, Registration>, inScope: bool, c: ResolverState)
  {
    && (forall k :: k in c.singletons ==> BuiltFor(regs, c, k, c.singletons[k]) && Policy(regs[k].lifeStyle) == Singleton)
    && (forall k :: k in c.scoped ==> BuiltFor(regs, c, k, c.scoped[k]) && Policy(regs[k].lifeStyle) == Scoped)
    && (forall i :: 0 <= i < |c.objects| ==> RefsBelow(c.objects[i].args, i))
    && (!inScope ==> c.scoped == map[])
  }

  /** Resolution only adds: no cache entry changes or disappears and the heap only grows. */
  ghost predicate Grows(c: ResolverState, c': ResolverState)
  {
    && (forall k :: k in c.singletons ==> k in c'.singletons && c'.singletons[k] == c.singletons[k])
    && (forall k :: k in c.scoped ==> k in c'.scoped && c'.scoped[k] == c.scoped[k])
    && c.objects <= c'.objects
  }

  /** Every cache entry added between `c` and `c'` is for a key ranked below `bound`. */
  ghost predicate NewKeysBelow(c: ResolverState, c': ResolverState, rank: map<Key, nat>, bound: nat)
  {
    && (forall k :: k in c'.singletons && k !in c.singletons ==> RankOf(rank, k) < bound)
    && (forall k :: k in c'.scoped && k !in c.scoped ==> RankOf(rank, k) < bound)
  }

  lemma GrowsTrans(c1: ResolverState, c2: ResolverState, c3: ResolverState)
    requires Grows(c1, c2) && Grows(c2, c3)
    ensures Grows(c1, c3)
  {
  }

  lemma ValidAfterAlloc(regs: map<Key, Registration>, inScope: bool, c: ResolverState, o: Obj)
    requires CachesValid(regs, inScope, c) && RefsBelow(o.args, |c.objects|)
    ensures CachesValid(regs, inScope, Alloc(c, o).0) && Grows(c, Alloc(c, o).0)
  {
    var c' := Alloc(c, o).0;
    forall i | 0 <= i < |c'.objects| ensures RefsBelow(c'.objects[i].args, i) {
      if i < |c.objects| { assert c'.objects[i] == c.objects[i]; }
    }
    forall k | k in c'.singletons ensures BuiltFor(regs, c', k, c'.singletons[k]) {
      assert c'.objects[c.singletons[k]] == c.objects[c.singletons[k]];
    }
    forall k | k in c'.scoped ensures BuiltFor(regs, c', k, c'.scoped[k]) {
      assert c'.objects[c.scoped[k]] == c.objects[c.scoped[k]];
    }
  }

  /** An entry that was sound stays sound while the heap grows. */
  lemma BuiltForGrows(regs: map<Key, Registration>, c: ResolverState, c': ResolverState, key: Key, id: nat)
    requires BuiltFor(regs, c, key, id) && c.objects <= c'.objects
    ensures BuiltFor(regs, c', key, id)
  {
    assert c'.objects[id] == c.objects[id];
  }

  /**
   * Resolution keeps the caches valid, only adds to them, returns an object
   * built for the requested key, and adds cache entries only for keys ranked
   * below the requested one — and for the requested key itself only when it
   * succeeds.
   */
  lemma {:induction false} ResolveSound(regs: map<Key, Registration>, inScope: bool, c: ResolverState, key: Key, rank: map<Key, nat>)
    requires RankedFor(regs, rank, key) && CachesValid(regs, inScope, c)
    ensures var (c', r) := Resolve(regs, inScope, c, key, rank);
      && Grows(c, c') && CachesValid(regs, inScope, c')
      && (r.Ok? ==> BuiltFor(regs, c', key, r.value))
      && NewKeysBelow(c, c', rank, RankOf(rank, key) + (if r.Ok? then 1 else 0))
    decreases RankOf(rank, key), 2, 0
  {
    if key in regs {
      match Policy(regs[key].lifeStyle)
      case Singleton =>
        if key !in c.singletons {
          var (c1, r) := Build(regs, inScope, c, key, rank);
          BuildSound(regs, inScope, c, key, rank);
          if r.Ok? {
            StoreSingletonSound(regs, inScope, c, c1, key, r.value, rank);
          }
        }
      case Scoped =>
        if inScope && key !in c.scoped {
          var (c1, r) := Build(regs, inScope, c, key, rank);
          BuildSound(regs, inScope, c, key, rank);
          if r.Ok? {
            StoreScopedSound(regs, inScope, c, c1, key, r.value, rank);
          }
        }
      case PerRequest =>
        BuildSound(regs, inScope, c, key, rank);
    }
  }

  /** Storing a freshly built Singleton instance keeps the caches valid. */
  lemma StoreSingletonSound(regs: map<Key, Registration>, inScope: bool, c: ResolverState, c1: ResolverState, key: Key, id: nat, rank: map<Key, nat>)
    requires CachesValid(regs, inScope, c1) && Grows(c, c1) && NewKeysBelow(c, c1, rank, RankOf(rank, key))
    requires key !in c.singletons && BuiltFor(regs, c1, key, id) && Policy(regs[key].lifeStyle) == Singleton
    ensures var c2 := c1.(singletons := c1.singletons[key := id]);
      Grows(c, c2) && CachesValid(regs, inScope, c2) && NewKeysBelow(c, c2, rank, RankOf(rank, key) + 1)
  {
  }

  /** Storing a freshly built Scoped instance, inside a scope, keeps the caches valid. */
  lemma StoreScopedSound(regs: map<Key, Registration>, inScope: bool, c: ResolverState, c1: ResolverState, key: Key, id: nat, rank: map<Key, nat>)
    requires CachesValid(regs, inScope, c1) && Grows(c, c1) && NewKeysBelow(c, c1, rank, RankOf(rank, key))
    requires inScope && key !in c.scoped && BuiltFor(regs, c1, key, id) && Policy(regs[key].lifeStyle) == Scoped
    ensures var c2 := c1.(scoped := c1.scoped[key := id]);
      Grows(c, c2) && CachesValid(regs, inScope, c2) && NewKeysBelow(c, c2, rank, RankOf(rank, key) + 1)
  {
  }

  lemma {:induction false} BuildSound(regs: map<Key, Registration>, inScope: bool, c: ResolverState, key: Key, rank: map<Key, nat>)
    requires RankedFor(regs, rank, key) && CachesValid(regs, inScope, c) && key in regs
    ensures var (c', r) := Build(regs, inScope, c, key, rank);
      && Grows(c, c') && CachesValid(regs, inScope, c')
      && (r.Ok? ==> r.value == |c'.objects| - 1 && |c.objects| <= r.value && BuiltFor(regs, c', key, r.value))
      && NewKeysBelow(c, c', rank, RankOf(rank, key))
    decreases RankOf(rank, key), 1, 0
  {
    var reg := regs[key];
    match reg.impl
    case Factory(_) =>
      ValidAfterAlloc(regs, inScope, c, Obj(reg.impl, LiteralArgs(reg.params)));
    case Constructor(name, hints, required) =>
      var (c1, r) := CollectArgs(regs, inScope, c, key, hints, map[], rank);
      CollectSound(regs, inScope, c, key, hints, map[], rank);
      if r.Ok? && required <= r.value.Keys {
        ValidAfterAlloc(regs, inScope, c1, Obj(reg.impl, r.value));
        GrowsTrans(c, c1, Alloc(c1, Obj(reg.impl, r.value)).0);
      }
  }

  lemma {:induction false} CollectSound(regs: map<Key, Registration>, inScope: bool, c: ResolverState, owner: Key, hints: seq<Hint>,
                                        args: map<string, Value>, rank: map<Key, nat>)
    requires RankedFor(regs, rank, owner) && HintsOf(regs, owner, hints) && CachesValid(regs, inScope, c)
    requires RefsBelow(args, |c.objects|)
    ensures var (c', r) := CollectArgs(regs, inScope, c, owner, hints, args, rank);
      && Grows(c, c') && CachesValid(regs, inScope, c')
      && (r.Ok? ==> RefsBelow(r.value, |c'.objects|))
      && NewKeysBelow(c, c', rank, RankOf(rank, owner))
    decreases RankOf(rank, owner), 0, |hints|
  {
    if hints != [] {
      var h, params := hints[0], regs[owner].params;
      if h.name == "return" {
        CollectSound(regs, inScope, c, owner, hints[1..], args, rank);
      } else if h.name in params {
        CollectSound(regs, inScope, c, owner, hints[1..], args[h.name := Lit(params[h.name])], rank);
      } else if h.key in regs {
        assert Injects(regs, params, h);
        var (c1, r) := Resolve(regs, inScope, c, h.key, rank);
        ResolveSound(regs, inScope, c, h.key, rank);
        if r.Ok? {
          var args' := args[h.name := Ref(r.value)];
          assert RefsBelow(args', |c1.objects|);
          CollectSound(regs, inScope, c1, owner, hints[1..], args', rank);
          GrowsTrans(c, c1, CollectArgs(regs, inScope, c1, owner, hints[1..], args', rank).0);
        }
      } else {
        CollectSound(regs, inScope, c, owner, hints[1..], args, rank);
      }
    }
  }

  // ---------------------------------------------------------------------------
  // What resolution promises
  // ---------------------------------------------------------------------------

  /** An unregistered key fails and leaves every cache as it was. */
  lemma UnregisteredFails(regs: map<Key, Registration>, inScope: bool, c: ResolverState, key: Key, rank: map<Key, nat>)
    requires RankedFor(regs, rank, key) && key !in regs
    ensures Resolve(regs, inScope, c, key, rank) == (c, Err(NotRegistered(key)))
  {
  }

  /**
   * Singleton: a cached instance is returned without building anything, and
   * after a successful first resolution every later one returns that same
   * instance and changes nothing.
   */
  lemma SingletonIdentity(regs: map<Key, Registration>, inScope: bool, c: ResolverState, key: Key, rank: map<Key, nat>)
    requires RankedFor(regs, rank, key) && key in regs && Policy(regs[key].lifeStyle) == Singleton
    ensures key in c.singletons ==> Resolve(regs, inScope, c, key, rank) == (c, Ok(c.singletons[key]))
    ensures var (c1, r1) := Resolve(regs, inScope, c, key, rank);
      r1.Ok? ==> key in c1.singletons && c1.singletons[key] == r1.value && Resolve(regs, inScope, c1, key, rank) == (c1, r1)
  {
  }

  /** Scoped: outside a scope resolution fails and changes nothing; inside one it behaves like a singleton of the scope. */
  lemma ScopedIdentity(regs: map<Key, Registration>, inScope: bool, c: ResolverState, key: Key, rank: map<Key, nat>)
    requires RankedFor(regs, rank, key) && key in regs && Policy(regs[key].lifeStyle) == Scoped
    ensures !inScope ==> Resolve(regs, inScope, c, key, rank) == (c, Err(OutsideScope(key)))
    ensures inScope && key in c.scoped ==> Resolve(regs, inScope, c, key, rank) == (c, Ok(c.scoped[key]))
    ensures var (c1, r1) := Resolve(regs, inScope, c, key, rank);
      r1.Ok? ==> key in c1.scoped && c1.scoped[key] == r1.value && Resolve(regs, inScope, c1, key, rank) == (c1, r1)
  {
  }

  /**
   * PerRequest: every successful resolution returns an object newer than all
   * objects that existed before it, and the key never enters either cache.
   * For a `Factory` registration the freshness rests on the model's reading
   * of a factory as yielding one new object per call; a Python factory could
   * return a shared object instead.
   */
  lemma PerRequestFresh(regs: map<Key, Registration>, inScope: bool, c: ResolverState, key: Key, rank: map<Key, nat>)
    requires RankedFor(regs, rank, key) && CachesValid(regs, inScope, c) && key in regs && Policy(regs[key].lifeStyle) == PerRequest
    ensures var (c1, r) := Resolve(regs, inScope, c, key, rank);
      && key !in c1.singletons && key !in c1.scoped
      && (r.Ok? ==> |c.objects| <= r.value == |c1.objects| - 1)
  {
    BuildSound(regs, inScope, c, key, rank);
  }

  /**
   * Two PerRequest resolutions in a row give two distinct objects; for a
   * `Factory` registration, under the same reading of factories as above.
   */
  lemma PerRequestDistinct(regs: map<Key, Registration>, inScope: bool, c: ResolverState, key: Key, rank: map<Key, nat>)
    requires RankedFor(regs, rank, key) && CachesValid(regs, inScope, c) && key in regs && Policy(regs[key].lifeStyle) == PerRequest
    ensures var (c1, r1) := Resolve(regs, inScope, c, key, rank);
      var (c2, r2) := Resolve(regs, inScope, c1, key, rank);
      r1.Ok? && r2.Ok? ==> r1.value != r2.value
  {
    var (c1, r1) := Resolve(regs, inScope, c, key, rank);
    PerRequestFresh(regs, inScope, c, key, rank);
    ResolveSound(regs, inScope, c, key, rank);
    PerRequestFresh(regs, inScope, c1, key, rank);
  }

  /**
   * A resolution that fails stores no entry for the requested key: the store
   * happens only after the build returns, and no nested resolution can reach
   * the key again.
   */
  lemma FailureStoresNothing(regs: map<Key, Registration>, inScope: bool, c: ResolverState, key: Key, rank: map<Key, nat>)
    requires RankedFor(regs, rank, key) && CachesValid(regs, inScope, c)
    ensures var (c1, r) := Resolve(regs, inScope, c, key, rank);
      r.Err? ==> (key in c1.singletons <==> key in c.singletons) && (key in c1.scoped <==> key in c.scoped)
  {
    ResolveSound(regs, inScope, c, key, rank);
  }

  /** A new scope starts from an empty scoped cache, so its instance is newer than every earlier object. */
  lemma NewScopeFreshInstance(regs: map<Key, Registration>, c: ResolverState, key: Key, rank: map<Key, nat>)
    requires RankedFor(regs, rank, key) && CachesValid(regs, true, c) && key in regs && Policy(regs[key].lifeStyle) == Scoped
    requires c.scoped == map[]
    ensures var (c1, r) := Resolve(regs, true, c, key, rank);
      r.Ok? ==> |c.objects| <= r.value < |c1.objects|
  {
    BuildSound(regs, true, c, key, rank);
  }

  /** A factory is called with exactly its fixed params and resolves nothing itself. */
  lemma FactoryGetsOnlyParams(regs: map<Key, Registration>, inScope: bool, c: ResolverState, key: Key, rank: map<Key, nat>)
    requires RankedFor(regs, rank, key) && key in regs && regs[key].impl.Factory?
    ensures var (c1, r) := Build(regs, inScope, c, key, rank);
      && r == Ok(|c.objects|)
      && c1.singletons == c.singletons && c1.scoped == c.scoped
      && c1.objects == c.objects + [Obj(regs[key].impl, LiteralArgs(regs[key].params))]
  {
  }

  /** The parameter names of a constructor signature are distinct (they are the keys of a dictionary). */
  ghost predicate DistinctNames(hints: seq<Hint>)
  {
    forall i, j :: 0 <= i < j < |hints| ==> hints[i].name != hints[j].name
  }

  /** The names that receive an argument: not `return`, and either fixed or of a registered type. */
  ghost function Filled(regs: map<Key, Registration>, params: map<string, string>, hints: seq<Hint>): set<string>
  {
    set h | h in hints && h.name != "return" && (h.name in params || h.key in regs) :: h.name
  }

  ghost function NamesOf(hints: seq<Hint>): set<string>
  {
    set h | h in hints :: h.name
  }

  /** Object `id` is the instance that resolving `key` yields in `c`, cached per key's policy. */
  ghost predicate Injected(regs: map<Key, Registration>, c: ResolverState, key: Key, id: nat)
  {
    && BuiltFor(regs, c, key, id)
    && (Policy(regs[key].lifeStyle) == Singleton ==> key in c.singletons && c.singletons[key] == id)
    && (Policy(regs[key].lifeStyle) == Scoped ==> key in c.scoped && c.scoped[key] == id)
  }

  /**
   * The argument rule for one constructor parameter: `return` is skipped, a
   * fixed param wins even over a registered type, a registered type receives
   * its resolved instance, and anything else is left to its default.
   */
  ghost predicate ArgFor(regs: map<Key, Registration>, params: map<string, string>, h: Hint, args: map<string, Value>, c: ResolverState)
  {
    if h.name == "return" then h.name !in args
    else if h.name in params then h.name in args && args[h.name] == Lit(params[h.name])
    else if h.key in regs then h.name in args && args[h.name].Ref? && Injected(regs, c, h.key, args[h.name].id)
    else h.name !in args
  }

  lemma InjectedGrows(regs: map<Key, Registration>, c: ResolverState, c': ResolverState, key: Key, id: nat)
    requires Injected(regs, c, key, id) && Grows(c, c')
    ensures Injected(regs, c', key, id)
  {
    BuiltForGrows(regs, c, c', key, id);
  }

  /** A successful resolution's result is the instance the key's policy caches. */
  lemma ResolveInjected(regs: map<Key, Registration>, inScope: bool, c: ResolverState, key: Key, rank: map<Key, nat>)
    requires RankedFor(regs, rank, key) && CachesValid(regs, inScope, c)
    ensures var (c1, r) := Resolve(regs, inScope, c, key, rank);
      r.Ok? ==> Injected(regs, c1, key, r.value)
  {
    ResolveSound(regs, inScope, c, key, rank);
  }

  /** Facts about the first hint and the rest of a list of distinct hints. */
  lemma SplitHints(hints: seq<Hint>)
    requires hints != [] && DistinctNames(hints)
    ensures DistinctNames(hints[1..])
    ensures forall g :: g in hints[1..] ==> g.name != hints[0].name
    ensures forall g :: g in hints ==> g == hints[0] || g in hints[1..]
    ensures NamesOf(hints) == {hints[0].name} + NamesOf(hints[1..])
  {
    var h, rest := hints[0], hints[1..];
    forall g | g in rest ensures g.name != h.name {
      var j :| 0 <= j < |rest| && rest[j] == g;
      assert hints[j + 1] == g;
    }
    forall i, j | 0 <= i < j < |rest| ensures rest[i].name != rest[j].name {
      assert rest[i] == hints[i + 1] && rest[j] == hints[j + 1];
    }
    forall g | g in hints ensures g == h || g in rest {
      var j :| 0 <= j < |hints| && hints[j] == g;
      if j > 0 { assert rest[j - 1] == g; }
    }
  }

  /**
   * Collecting arguments keeps those already collected, adds only names of
   * the visited hints, and leaves every visited hint with the argument rule's
   * value, judged in the caches as they are at the end.
   */
  lemma {:induction false} CollectRule(regs: map<Key, Registration>, inScope: bool, c: ResolverState, owner: Key, hints: seq<Hint>,
                                       args: map<string, Value>, rank: map<Key, nat>)
    requires RankedFor(regs, rank, owner) && HintsOf(regs, owner, hints) && CachesValid(regs, inScope, c)
    requires RefsBelow(args, |c.objects|)
    requires DistinctNames(hints) && forall h :: h in hints ==> h.name !in args
    ensures var (c1, r) := CollectArgs(regs, inScope, c, owner, hints, args, rank);
      r.Ok? ==>
        && (forall n :: n in args ==> n in r.value && r.value[n] == args[n])
        && (forall n :: n in r.value ==> n in args || n in NamesOf(hints))
        && (forall h :: h in hints ==> ArgFor(regs, regs[owner].params, h, r.value, c1))
    decreases |hints|
  {
    if hints != [] {
      SplitHints(hints);
      var h, params, rest := hints[0], regs[owner].params, hints[1..];
      if h.name == "return" || (h.name !in params && h.key !in regs) {
        CollectRule(regs, inScope, c, owner, rest, args, rank);
      } else if h.name in params {
        CollectRule(regs, inScope, c, owner, rest, args[h.name := Lit(params[h.name])], rank);
      } else {
        CollectRuleResolved(regs, inScope, c, owner, hints, args, rank);
      }
    }
  }

  /** The step of CollectRule for a hint whose type is resolved. */
  lemma {:induction false} CollectRuleResolved(regs: map<Key, Registration>, inScope: bool, c: ResolverState, owner: Key, hints: seq<Hint>,
                                               args: map<string, Value>, rank: map<Key, nat>)
    requires RankedFor(regs, rank, owner) && HintsOf(regs, owner, hints) && CachesValid(regs, inScope, c)
    requires RefsBelow(args, |c.objects|)
    requires DistinctNames(hints) && forall h :: h in hints ==> h.name !in args
    requires hints != [] && Injects(regs, regs[owner].params, hints[0])
    ensures var (c1, r) := CollectArgs(regs, inScope, c, owner, hints, args, rank);
      r.Ok? ==>
        && (forall n :: n in args ==> n in r.value && r.value[n] == args[n])
        && (forall n :: n in r.value ==> n in args || n in NamesOf(hints))
        && (forall h :: h in hints ==> ArgFor(regs, regs[owner].params, h, r.value, c1))
    decreases |hints|, 0
  {
    SplitHints(hints);
    var h, params, rest := hints[0], regs[owner].params, hints[1..];
    var (c1, r) := Resolve(regs, inScope, c, h.key, rank);
    if r.Ok? {
      ResolveSound(regs, inScope, c, h.key, rank);
      ResolveInjected(regs, inScope, c, h.key, rank);
      var args' := args[h.name := Ref(r.value)];
      assert RefsBelow(args', |c1.objects|);
      CollectRule(regs, inScope, c1, owner, rest, args', rank);
      CollectSound(regs, inScope, c1, owner, rest, args', rank);
      var (c2, r2) := CollectArgs(regs, inScope, c1, owner, rest, args', rank);
      InjectedGrows(regs, c1, c2, h.key, r.value);
    }
  }

  /** An injected argument stays true to the rule while the caches grow. */
  lemma ArgForGrows(regs: map<Key, Registration>, params: map<string, string>, h: Hint, args: map<string, Value>, c: ResolverState, c': ResolverState)
    requires ArgFor(regs, params, h, args, c) && Grows(c, c')
    ensures ArgFor(regs, params, h, args, c')
  {
    if h.name != "return" && h.name !in params && h.key in regs {
      InjectedGrows(regs, c, c', h.key, args[h.name].id);
    }
  }

  /**
   * Building a class: the object receives an argument for exactly the filled
   * names, each as the argument rule says, judged in the caches the build
   * leaves; and once every dependency resolved, the build fails exactly when
   * a required parameter is neither fixed nor of a registered type.
   */
  lemma ConstructorArgs(regs: map<Key, Registration>, inScope: bool, c: ResolverState, key: Key, rank: map<Key, nat>)
    requires RankedFor(regs, rank, key) && CachesValid(regs, inScope, c)
    requires key in regs && regs[key].impl.Constructor? && DistinctNames(regs[key].impl.hints)
    ensures var (c1, r) := Build(regs, inScope, c, key, rank);
      var reg := regs[key];
      && (r.Ok? ==>
            && r.value < |c1.objects| && c1.objects[r.value].impl == reg.impl
            && c1.objects[r.value].args.Keys == Filled(regs, reg.params, reg.impl.hints)
            && (forall h :: h in reg.impl.hints ==> ArgFor(regs, reg.params, h, c1.objects[r.value].args, c1)))
      && (CollectArgs(regs, inScope, c, key, reg.impl.hints, map[], rank).1.Ok? ==>
            (r.Ok? <==> reg.impl.required <= Filled(regs, reg.params, reg.impl.hints)))
  {
    var reg := regs[key];
    var hints := reg.impl.hints;
    var (c1, r) := CollectArgs(regs, inScope, c, key, hints, map[], rank);
    CollectSound(regs, inScope, c, key, hints, map[], rank);
    CollectRule(regs, inScope, c, key, hints, map[], rank);
    if r.Ok? {
      var args := r.value;
      var filled := Filled(regs, reg.params, hints);
      forall n | n in args ensures n in filled {
        var h :| h in hints && h.name == n;
        assert ArgFor(regs, reg.params, h, args, c1);
      }
      forall n | n in filled ensures n in args {
        var h :| h in hints && h.name == n && h.name != "return" && (h.name in reg.params || h.key in regs);
        assert ArgFor(regs, reg.params, h, args, c1);
      }
      assert args.Keys == filled;
      if reg.impl.required <= args.Keys {
        var c2 := Alloc(c1, Obj(reg.impl, args)).0;
        ValidAfterAlloc(regs, inScope, c1, Obj(reg.impl, args));
        forall h | h in hints ensures ArgFor(regs, reg.params, h, args, c2) {
          ArgForGrows(regs, reg.params, h, args, c1, c2);
        }
      }
    }
  }

  /**
   * A Singleton dependency is shared: two objects built for constructors that
   * inject it, at any two moments, receive the very same instance.
   */
  lemma SingletonDependencyShared(regs: map<Key, Registration>, params1: map<string, string>, params2: map<string, string>,
                                  h1: Hint, h2: Hint, args1: map<string, Value>, args2: map<string, Value>, c1: ResolverState, c2: ResolverState)
    requires h1.key == h2.key && h1.key in regs && Policy(regs[h1.key].lifeStyle) == Singleton
    requires Injects(regs, params1, h1) && Injects(regs, params2, h2)
    requires ArgFor(regs, params1, h1, args1, c1) && ArgFor(regs, params2, h2, args2, c2) && Grows(c1, c2)
    ensures args1[h1.name] == args2[h2.name]
  {
  }

  // ---------------------------------------------------------------------------
  // The container, 7.py:14-104
  // ---------------------------------------------------------------------------

  class Injector {
    var registrations: map<Key, Registration>  // `_registrations`
    var singletons: map<Key, nat>              // `_singleton_instances`
    var scoped: map<Key, nat>                  // `_scoped_instances`
    var inScope: bool                          // `_in_scope`
    var objects: seq<Obj>                      // the objects built so far (the interpreter's heap)

    function State(): ResolverState
      reads this
    {
      ResolverState(singletons, scoped, objects)
    }

    ghost predicate Valid()
      reads this
    {
      CachesValid(registrations, inScope, State())
    }

    constructor ()
      ensures Valid()
      ensures registrations == map[] && singletons == map[] && scoped == map[] && !inScope
      ensures objects == []
    {
      registrations, singletons, scoped, inScope, objects := map[], map[], map[], false, [];
    }

    /** `register`: fails on a key already bound; otherwise stores the record and touches no cache. */
    method Register(key: Key, impl: Implementation, lifeStyle: string := PER_REQUEST, params: Option<map<string, string>> := None)
      returns (r: Result<()>)
      requires Valid()
      modifies this
      ensures Valid()
      ensures key in old(registrations) ==> r == Err(AlreadyRegistered(key)) && registrations == old(registrations)
      ensures key !in old(registrations) ==>
        r == Ok(()) && registrations == old(registrations)[key := Registration(impl, lifeStyle, FixedParams(params))]
      ensures State() == old(State()) && inScope == old(inScope)
    {
      if key in registrations {
        return Err(AlreadyRegistered(key));
      }
      registrations := registrations[key := Registration(impl, lifeStyle, FixedParams(params))];
      r := Ok(());
    }

    /** `get_instance`: proved to compute exactly `Resolve`; registrations and scope flag unchanged. */
    method GetInstance(key: Key, ghost rank: map<Key, nat>) returns (r: Result<nat>)
      requires Valid() && RankedFor(registrations, rank, key)
      modifies this
      ensures Valid()
      ensures registrations == old(registrations) && inScope == old(inScope)
      ensures (State(), r) == Resolve(registrations, inScope, old(State()), key, rank)
      decreases RankOf(rank, key), 2, 0
    {
      ResolveSound(registrations, inScope, State(), key, rank);
      if key !in registrations {
        return Err(NotRegistered(key));
      }
      var registration := registrations[key];
      var lifeStyle, impl, params := registration.lifeStyle, registration.impl, registration.params;
      if lifeStyle == SINGLETON {
        if key !in singletons {
          var built := CreateInstance(impl, params, key, rank);
          if built.Err? {
            return built;
          }
          singletons := singletons[key := built.value];
        }
        r := Ok(singletons[key]);
      } else if lifeStyle == SCOPED {
        if !inScope {
          return Err(OutsideScope(key));
        }
        if key !in scoped {
          var built := CreateInstance(impl, params, key, rank);
          if built.Err? {
            return built;
          }
          scoped := scoped[key := built.value];
        }
        r := Ok(scoped[key]);
      } else {
        r := CreateInstance(impl, params, key, rank);
      }
    }

    /** `_create_instance` for the registration of the ghost `owner`: proved to compute exactly `Build`. */
    method CreateInstance(impl: Implementation, params: map<string, string>, ghost owner: Key, ghost rank: map<Key, nat>)
      returns (r: Result<nat>)
      requires Valid() && RankedFor(registrations, rank, owner)
      requires owner in registrations && registrations[owner].impl == impl && registrations[owner].params == params
      modifies this
      ensures Valid()
      ensures registrations == old(registrations) && inScope == old(inScope)
      ensures (State(), r) == Build(registrations, inScope, old(State()), owner, rank)
      decreases RankOf(rank, owner), 1, 0
    {
      BuildSound(registrations, inScope, State(), owner, rank);
      match impl
      case Factory(_) =>
        objects := objects + [Obj(impl, LiteralArgs(params))];
        r := Ok(|objects| - 1);
      case Constructor(name, hints, required) =>
        var args: map<string, Value> := map[];
        var i := 0;
        while i < |hints|
          invariant 0 <= i <= |hints|
          invariant Valid()
          invariant registrations == old(registrations) && inScope == old(inScope)
          invariant CollectArgs(registrations, inScope, old(State()), owner, hints, map[], rank)
                 == CollectArgs(registrations, inScope, State(), owner, hints[i..], args, rank)
          decreases |hints| - i
        {
          var h := hints[i];
          assert hints[i..][0] == h && hints[i..][1..] == hints[i + 1..];
          if h.name == "return" {
          } else if h.name in params {
            args := args[h.name := Lit(params[h.name])];
          } else if h.key in registrations {
            assert Injects(registrations, params, h);
            var dependency := GetInstance(h.key, rank);
            if dependency.Err? {
              return Err(dependency.error);
            }
            args := args[h.name := Ref(dependency.value)];
          }
          i := i + 1;
        }
        if !(required <= args.Keys) {
          return Err(MissingArgument(name));
        }
        objects := objects + [Obj(impl, args)];
        r := Ok(|objects| - 1);
    }

    /** `scope()`: a context manager bound to this container. */
    method Scope() returns (s: ScopeContext)
      ensures fresh(s) && s.injector == this
    {
      s := new ScopeContext(this);
    }
  }

  /** `Injector.ScopeContext`, 7.py:94-104. */
  class ScopeContext {
    const injector: Injector

    constructor (injector: Injector)
      ensures this.injector == injector
    {
      this.injector := injector;
    }

    /** `__enter__`: switches scoped resolution on and returns the container. */
    method Enter() returns (inj: Injector)
      requires injector.Valid()
      modifies injector
      ensures inj == injector && injector.Valid()
      ensures injector.inScope
      ensures injector.registrations == old(injector.registrations) && injector.State() == old(injector.State())
    {
      injector.inScope := true;
      inj := injector;
    }

    /** `__exit__`: switches scoped resolution off and empties the scoped cache, on every exit path. */
    method Exit()
      requires injector.Valid()
      modifies injector
      ensures injector.Valid()
      ensures !injector.inScope && injector.scoped == map[]
      ensures injector.registrations == old(injector.registrations)
      ensures injector.singletons == old(injector.singletons) && injector.objects == old(injector.objects)
    {
      injector.inScope := false;
      injector.scoped := map[];
    }
  }

  // ---------------------------------------------------------------------------
  // The two configurations of 7.py:179-200, run as the demonstration
  // 7.py:204-249 runs them; each assertion is derived from the contracts above.
  // ---------------------------------------------------------------------------

  /**
   * `configure_development` and the development half of `demonstrate_injector`
   * (7.py:179-183, 7.py:205-216), then a second registration of `ILogger`.
   */
  method DevelopmentScenario()
  {
    var injector := new Injector();
    var r1 := injector.Register("ILogger", Constructor("ConsoleLogger", [], {}), SINGLETON);
    var r2 := injector.Register("IDatabase", Constructor("MockDatabase", [], {}), PER_REQUEST);
    var r3 := injector.Register("IEmailSender", Constructor("MockEmailSender", [], {}), PER_REQUEST);
    assert r1.Ok? && r2.Ok? && r3.Ok?;
    ghost var rank: map<Key, nat> := map["ILogger" := 0, "IDatabase" := 0, "IEmailSender" := 0];
    assert Ranked(injector.registrations, rank);

    var logger1 := injector.GetInstance("ILogger", rank);
    var logger2 := injector.GetInstance("ILogger", rank);
    assert logger1.Ok? && logger1 == logger2;

    ghost var before := injector.State();
    var db1 := injector.GetInstance("IDatabase", rank);
    PerRequestDistinct(injector.registrations, injector.inScope, before, "IDatabase", rank);
    var db2 := injector.GetInstance("IDatabase", rank);
    assert db1.Ok? && db2.Ok? && db1 != db2;

    var again := injector.Register("ILogger", Constructor("FileLogger", [], {}), SINGLETON);
    assert again == Err(AlreadyRegistered("ILogger"));
  }

  /** A table where `C` and `D` inject each other and `E` depends on nothing. */
  function CycleRegistrations(): map<Key, Registration>
  {
    map[
      "C" := Registration(Constructor("C", [Hint("d", "D")], {"d"}), PER_REQUEST, map[]),
      "D" := Registration(Constructor("D", [Hint("c", "C")], {"c"}), PER_REQUEST, map[]),
      "E" := Registration(Constructor("E", [], {}), PER_REQUEST, map[])
    ]
  }

  /**
   * A cycle the request never reaches does not matter: `E` is ranked on its
   * own and resolves to one new object, as `get_instance` builds it without
   * visiting `C` or `D`.
   */
  lemma UnrelatedCycleIgnored(regs: map<Key, Registration>, rank: map<Key, nat>, c: ResolverState, inScope: bool)
    requires regs == CycleRegistrations() && rank == map["E" := 0]
    ensures RankedFor(regs, rank, "E")
    ensures Resolve(regs, inScope, c, "E", rank) == (c.(objects := c.objects + [Obj(regs["E"].impl, map[])]), Ok(|c.objects|))
  {
    assert forall k :: k in rank ==> k == "E";
    var e := regs["E"];
    assert Policy(e.lifeStyle) == PerRequest && e.impl.hints == [];
    assert CollectArgs(regs, inScope, c, "E", [], map[], rank) == (c, Ok(map[]));
  }

  /** Resolving `a` resolves `b` directly: `b` is the type of a hint of `a`'s constructor that the resolver follows. */
  ghost predicate Step(regs: map<Key, Registration>, a: Key, b: Key)
  {
    a in regs && regs[a].impl.Constructor? &&
    exists h :: h in regs[a].impl.hints && Injects(regs, regs[a].params, h) && h.key == b
  }

  /** One followed dependency of a ranked key is ranked, and lower. */
  lemma StepDown(regs: map<Key, Registration>, rank: map<Key, nat>, a: Key, b: Key)
    requires Ranked(regs, rank) && a in rank && Step(regs, a, b)
    ensures b in rank && RankOf(rank, b) < RankOf(rank, a)
  {
    var h :| h in regs[a].impl.hints && Injects(regs, regs[a].params, h) && h.key == b;
  }

  /** Along a chain of followed dependencies from a ranked key, the rank drops by at least one per step. */
  lemma {:induction false} Descends(regs: map<Key, Registration>, rank: map<Key, nat>, path: seq<Key>, i: nat)
    requires Ranked(regs, rank) && i < |path| && path[0] in rank
    requires forall j :: 0 <= j < i ==> Step(regs, path[j], path[j + 1])
    ensures path[i] in rank && RankOf(rank, path[i]) + i <= RankOf(rank, path[0])
  {
    if i > 0 {
      Descends(regs, rank, path, i - 1);
      StepDown(regs, rank, path[i - 1], path[i]);
    }
  }

  /**
   * No ranking covers a key on a dependency cycle, in any table: from such a
   * key the source recurses without end.
   */
  lemma CycleUnranked(regs: map<Key, Registration>, rank: map<Key, nat>, path: seq<Key>)
    requires |path| >= 1 && path[0] in rank
    requires forall j :: 0 <= j < |path| - 1 ==> Step(regs, path[j], path[j + 1])
    requires Step(regs, path[|path| - 1], path[0])
    ensures !Ranked(regs, rank)
  {
    if Ranked(regs, rank) {
      Descends(regs, rank, path, |path| - 1);
      StepDown(regs, rank, path[|path| - 1], path[0]);
      assert false;
    }
  }

  /** In the table with `C` and `D` injecting each other, no ranking covers `C`. */
  lemma CycleTableUnranked(regs: map<Key, Registration>, rank: map<Key, nat>)
    requires regs == CycleRegistrations() && "C" in rank
    ensures !Ranked(regs, rank)
  {
    assert Hint("d", "D") in regs["C"].impl.hints && Injects(regs, regs["C"].params, Hint("d", "D"));
    assert Hint("c", "C") in regs["D"].impl.hints && Injects(regs, regs["D"].params, Hint("c", "C"));
    CycleUnranked(regs, rank, ["C", "D"]);
  }

  /** The registrations made by `configure_production`. */
  function ProductionRegistrations(): map<Key, Registration>
  {
    map[
      "ILogger" := Registration(Constructor("FileLogger", [Hint("filename", "str")], {}),
                                SINGLETON, map["filename" := "production.log"]),
      "IDatabase" := Registration(Constructor("SqlDatabase", [Hint("connection_string", "str"), Hint("logger", "ILogger")],
                                              {"connection_string", "logger"}),
                                  SCOPED, map["connection_string" := "Server=prod;Database=app;User=admin;Password=secret"]),
      "IEmailSender" := Registration(Constructor("SmtpEmailSender", [Hint("smtp_server", "str"), Hint("logger", "ILogger")],
                                                 {"smtp_server", "logger"}),
                                     PER_REQUEST, map["smtp_server" := "smtp.prod.com"])
    ]
  }

  function ProductionRank(): map<Key, nat>
  {
    map["ILogger" := 0, "IDatabase" := 1, "IEmailSender" := 1]
  }

  lemma ProductionRanked()
    ensures Ranked(ProductionRegistrations(), ProductionRank())
    ensures ProductionRank().Keys == ProductionRegistrations().Keys
  {
    var regs := ProductionRegistrations();
    forall k, h | k in regs && regs[k].impl.Constructor? && h in regs[k].impl.hints && Injects(regs, regs[k].params, h)
      ensures RankOf(ProductionRank(), h.key) < RankOf(ProductionRank(), k)
    {
      assert h.key == "ILogger" && k != "ILogger";
    }
  }

  /** The object `configure_production`'s SqlDatabase is built as, with the logger `logger` injected. */
  function ProductionDatabaseObj(logger: nat): Obj
  {
    var reg := ProductionRegistrations()["IDatabase"];
    Obj(reg.impl, map["connection_string" := Lit(reg.params["connection_string"]), "logger" := Ref(logger)])
  }

  /**
   * In a scope with the logger cached and no `IDatabase` yet, resolving
   * `IDatabase` builds one SqlDatabase with that logger and caches it for the
   * scope; resolving it again changes nothing.
   */
  lemma ProductionDatabase(c: ResolverState)
    requires CachesValid(ProductionRegistrations(), true, c) && "ILogger" in c.singletons && "IDatabase" !in c.scoped
    ensures var (c1, r) := Resolve(ProductionRegistrations(), true, c, "IDatabase", ProductionRank());
      && r == Ok(|c.objects|)
      && c1 == c.(objects := c.objects + [ProductionDatabaseObj(c.singletons["ILogger"])],
                  scoped := c.scoped["IDatabase" := |c.objects|])
      && Resolve(ProductionRegistrations(), true, c1, "IDatabase", ProductionRank()) == (c1, r)
  {
    var regs, rank := ProductionRegistrations(), ProductionRank();
    ProductionRanked();
    var hints := regs["IDatabase"].impl.hints;
    var logger := c.singletons["ILogger"];
    var args := map["connection_string" := Lit(regs["IDatabase"].params["connection_string"])];
    assert Resolve(regs, true, c, "ILogger", rank) == (c, Ok(logger));
    assert CollectArgs(regs, true, c, "IDatabase", hints[2..], args["logger" := Ref(logger)], rank)
        == (c, Ok(args["logger" := Ref(logger)]));
    assert CollectArgs(regs, true, c, "IDatabase", hints[1..], args, rank) == (c, Ok(args["logger" := Ref(logger)]));
    assert CollectArgs(regs, true, c, "IDatabase", hints, map[], rank) == (c, Ok(args["logger" := Ref(logger)]));
    ScopedIdentity(regs, true, c, "IDatabase", rank);
  }

  /** With the logger cached, an `IEmailSender` always builds. */
  lemma ProductionSender(regs: map<Key, Registration>, c: ResolverState, inScope: bool)
    requires regs == ProductionRegistrations()
    requires CachesValid(regs, inScope, c) && "ILogger" in c.singletons
    ensures Resolve(regs, inScope, c, "IEmailSender", ProductionRank()).1.Ok?
  {
    var rank := ProductionRank();
    ProductionRanked();
    var hints := regs["IEmailSender"].impl.hints;
    var logger := c.singletons["ILogger"];
    var args := map["smtp_server" := Lit(regs["IEmailSender"].params["smtp_server"])];
    assert Resolve(regs, inScope, c, "ILogger", rank) == (c, Ok(logger));
    assert CollectArgs(regs, inScope, c, "IEmailSender", hints[2..], args["logger" := Ref(logger)], rank)
        == (c, Ok(args["logger" := Ref(logger)]));
    assert CollectArgs(regs, inScope, c, "IEmailSender", hints[1..], args, rank) == (c, Ok(args["logger" := Ref(logger)]));
    assert CollectArgs(regs, inScope, c, "IEmailSender", hints, map[], rank) == (c, Ok(args["logger" := Ref(logger)]));
  }

  /** Two `IEmailSender` resolutions after the logger is cached give two distinct senders. */
  lemma ProductionSendersDistinct(regs: map<Key, Registration>, rank: map<Key, nat>, c: ResolverState, inScope: bool)
    requires regs == ProductionRegistrations() && rank == ProductionRank()
    requires CachesValid(regs, inScope, c) && "ILogger" in c.singletons
    ensures RankedFor(regs, rank, "IEmailSender")
    ensures var (c1, r1) := Resolve(regs, inScope, c, "IEmailSender", rank);
      var (c2, r2) := Resolve(regs, inScope, c1, "IEmailSender", rank);
      r1.Ok? && r2.Ok? && r1.value != r2.value
  {
    ProductionRanked();
    assert RankedFor(regs, rank, "IEmailSender");
    var (c1, r1) := Resolve(regs, inScope, c, "IEmailSender", rank);
    ResolveSound(regs, inScope, c, "IEmailSender", rank);
    ProductionSender(regs, c, inScope);
    ProductionSender(regs, c1, inScope);
    PerRequestDistinct(regs, inScope, c, "IEmailSender", rank);
  }

  /** `configure_production`, 7.py:186-200. */
  method ConfigureProduction(injector: Injector)
    requires injector.Valid() && injector.registrations == map[]
    modifies injector
    ensures injector.Valid() && injector.registrations == ProductionRegistrations()
    ensures injector.State() == old(injector.State()) && injector.inScope == old(injector.inScope)
  {
    var regs := ProductionRegistrations();
    var _ := injector.Register("ILogger", regs["ILogger"].impl, SINGLETON, Some(regs["ILogger"].params));
    var _ := injector.Register("IDatabase", regs["IDatabase"].impl, SCOPED, Some(regs["IDatabase"].params));
    var _ := injector.Register("IEmailSender", regs["IEmailSender"].impl, PER_REQUEST, Some(regs["IEmailSender"].params));
  }

  /**
   * One `with injector.scope():` block of the production demonstration: two
   * resolutions of `IDatabase` give the same instance, built with the cached
   * logger; it is newer than every object that existed before the block.
   */
  method ProductionScopeBlock(injector: Injector) returns (db: nat)
    requires injector.Valid() && injector.registrations == ProductionRegistrations() && !injector.inScope
    requires "ILogger" in injector.singletons
    modifies injector
    ensures injector.Valid() && injector.registrations == old(injector.registrations) && !injector.inScope
    ensures injector.singletons == old(injector.singletons)
    ensures db == |old(injector.objects)| && db < |injector.objects|
    ensures injector.objects[db] == ProductionDatabaseObj(injector.singletons["ILogger"])
  {
    ghost var rank := ProductionRank();
    ProductionRanked();
    var scope := injector.Scope();
    var _ := scope.Enter();
    ProductionDatabase(injector.State());
    var db1 := injector.GetInstance("IDatabase", rank);
    var db2 := injector.GetInstance("IDatabase", rank);
    assert db1.Ok? && db1 == db2;
    scope.Exit();
    db := db1.value;
  }

  /** The emails of the production demonstration: each resolution builds a new sender. */
  method ProductionEmails(injector: Injector)
    requires injector.Valid() && injector.registrations == ProductionRegistrations() && "ILogger" in injector.singletons
    modifies injector
  {
    ghost var rank := ProductionRank();
    ProductionRanked();
    ProductionSendersDistinct(injector.registrations, rank, injector.State(), injector.inScope);
    var email1 := injector.GetInstance("IEmailSender", rank);
    var email2 := injector.GetInstance("IEmailSender", rank);
    assert email1.Ok? && email2.Ok? && email1 != email2;
  }

  /** `demonstrate_injector`'s production half, 7.py:226-249. */
  method ProductionScenario()
  {
    var injector := new Injector();
    ConfigureProduction(injector);
    ghost var rank := ProductionRank();
    ProductionRanked();

    var logger1 := injector.GetInstance("ILogger", rank);
    var logger2 := injector.GetInstance("ILogger", rank);
    assert logger1.Ok? && logger1 == logger2;

    var outside := injector.GetInstance("IDatabase", rank);
    assert outside == Err(OutsideScope("IDatabase"));

    var db1 := ProductionScopeBlock(injector);
    assert injector.objects[db1].args["logger"] == Ref(logger1.value);
    var db3 := ProductionScopeBlock(injector);
    assert db3 != db1;
    ProductionEmails(injector);
  }
}
