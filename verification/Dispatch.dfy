/** Sub-agent dispatch: the depth guard, and how long dispatch chains can get. */
module Dispatch {
  import opened Text

  const DEFAULT_MAX_DEPTH: nat := 1
  const U32_LIMIT: nat := 0x1_0000_0000

  type u32 = n: nat | n < U32_LIMIT

  /** The parts of a JSON value that `agent.max_depth` may hold. */
  datatype Json = Number(value: int) | Other

  /** `maxDepth` is what `tool_config` holds under `agent.max_depth`, if anything. */
  datatype AgentDef = AgentDef(id: string, depth: u32, maxDepth: Option<Json>, parent: Option<string>)

  datatype ToolError =
    | InvalidArguments
    | DepthReached(maxDepth: u32, depth: u32)
    | NotFound(id: string)
    | RegistryGone
    | ConfigRejected

  /** `Value::as_u64` followed by `u32::try_from`. */
  function AsU32(v: Json): Option<u32> {
    match v
    case Number(n) => if 0 <= n < U32_LIMIT then Some(n) else None
    case Other => None
  }

  function CallerMaxDepth(caller: Option<AgentDef>): u32 {
    if caller.Some? && caller.value.maxDepth.Some? && AsU32(caller.value.maxDepth.value).Some?
    then AsU32(caller.value.maxDepth.value).value
    else DEFAULT_MAX_DEPTH
  }

  /** A limit other than one is in force exactly when the caller's configuration holds that number, and it is a u32. */
  lemma ConfiguredLimitIff(caller: Option<AgentDef>, limit: int)
    requires limit != 1
    ensures CallerMaxDepth(caller) == limit
       <==> caller.Some? && caller.value.maxDepth == Some(Number(limit)) && 0 <= limit < 0x1_0000_0000
  {
  }

  function CallerDepth(caller: Option<AgentDef>): u32 {
    if caller.Some? then caller.value.depth else 0
  }

  /** The guard of `execute`. */
  predicate MayDispatch(caller: Option<AgentDef>) {
    CallerDepth(caller) < CallerMaxDepth(caller)
  }

  /** A dispatched agent: the definition with its parent and its depth filled in. */
  function SubDef(caller: Option<AgentDef>, def: AgentDef): AgentDef
    requires MayDispatch(caller)
  {
    def.(parent := if caller.Some? then Some(caller.value.id) else None, depth := CallerDepth(caller) + 1)
  }

  /** The definitions the loader knows, by id. */
  type Loader = map<string, AgentDef>

  /** `execute` up to the start of the sub-agent: arguments, guard, lookup, preparation, configuration. */
  method Execute(loader: Loader, registryAlive: bool, configBuilds: bool, caller: Option<AgentDef>, id: Option<string>)
    returns (r: Result<AgentDef, ToolError>)
    ensures r.Ok? <==> id.Some? && MayDispatch(caller) && id.value in loader && registryAlive && configBuilds
    ensures r.Ok? ==> r.value == SubDef(caller, loader[id.value])
    ensures r.Ok? ==> r.value.id == loader[id.value].id && r.value.maxDepth == loader[id.value].maxDepth
    ensures r.Ok? && caller.Some? ==> r.value.depth == caller.value.depth + 1 && r.value.parent == Some(caller.value.id)
    ensures r.Ok? && caller.None? ==> r.value.depth == 1 && r.value.parent == None
    ensures r == Err(InvalidArguments) <==> id.None?
    ensures r.Err? && r.error.DepthReached? <==> id.Some? && !MayDispatch(caller)
    ensures r.Err? && r.error.DepthReached? ==> r.error == DepthReached(CallerMaxDepth(caller), CallerDepth(caller))
    ensures id.Some? && MayDispatch(caller) && id.value !in loader ==> r == Err(NotFound(id.value))
    ensures r == Err(RegistryGone) <==> id.Some? && MayDispatch(caller) && id.value in loader && !registryAlive
  {
    if id.None? {
      return Err(InvalidArguments);
    }
    var callerDepth := if caller.Some? then caller.value.depth else 0;
    var maxDepth := CallerMaxDepth(caller);
    if callerDepth >= maxDepth {
      return Err(DepthReached(maxDepth, callerDepth));
    }
    if id.value !in loader {
      return Err(NotFound(id.value));
    }
    var subDef := loader[id.value];
    subDef := subDef.(parent := if caller.Some? then Some(caller.value.id) else None);
    subDef := subDef.(depth := if caller.Some? then caller.value.depth + 1 else 1);
    if !registryAlive {
      return Err(RegistryGone);
    }
    if !configBuilds {
      return Err(ConfigRejected);
    }
    r := Ok(subDef);
  }

  // ----- chains -----

  /** `sub` is what `caller` gets by dispatching some definition of the loader. */
  predicate Dispatches(loader: Loader, caller: Option<AgentDef>, sub: AgentDef) {
    MayDispatch(caller) && exists id :: id in loader && sub == SubDef(caller, loader[id])
  }

  /** Who dispatched the i-th agent of a chain: the root, which may be without a definition, or the agent before. */
  function Caller(root: Option<AgentDef>, chain: seq<AgentDef>, i: nat): Option<AgentDef>
    requires i <= |chain|
  {
    if i == 0 then root else Some(chain[i - 1])
  }

  predicate Link(loader: Loader, root: Option<AgentDef>, chain: seq<AgentDef>, i: nat)
    requires i < |chain|
  {
    Dispatches(loader, Caller(root, chain, i), chain[i])
  }

  /** Each agent was dispatched by its caller, from a definition of the loader. */
  predicate IsChain(loader: Loader, root: Option<AgentDef>, chain: seq<AgentDef>) {
    forall i :: 0 <= i < |chain| ==> Link(loader, root, chain, i)
  }

  /** In a chain from a root at depth 0 every agent is one deeper than its caller, and knows its caller. */
  lemma {:induction false} DepthsCount(loader: Loader, root: Option<AgentDef>, chain: seq<AgentDef>, i: nat)
    requires IsChain(loader, root, chain) && i < |chain| && CallerDepth(root) == 0
    ensures CallerDepth(Caller(root, chain, i)) == i
    ensures chain[i].depth == i + 1 < U32_LIMIT
    ensures var caller := Caller(root, chain, i);
            chain[i].parent == if caller.Some? then Some(caller.value.id) else None
  {
    if i > 0 {
      DepthsCount(loader, root, chain, i - 1);
    }
    assert Link(loader, root, chain, i);
  }

  /** The i-th dispatcher allows more than i dispatches. */
  lemma DispatchersOutrankDepth(loader: Loader, root: Option<AgentDef>, chain: seq<AgentDef>, i: nat)
    requires IsChain(loader, root, chain) && i < |chain| && CallerDepth(root) == 0
    ensures i < CallerMaxDepth(Caller(root, chain, i))
  {
    DepthsCount(loader, root, chain, i);
    assert Link(loader, root, chain, i);
  }

  /** `bound` is at least every dispatcher's limit. */
  predicate BoundsDispatchers(root: Option<AgentDef>, chain: seq<AgentDef>, bound: nat) {
    forall i :: 0 <= i < |chain| ==> CallerMaxDepth(Caller(root, chain, i)) <= bound
  }

  /** Dispatching always ends: no chain has more dispatches than the largest limit among its dispatchers,
      and what is left of it falls with each dispatch. */
  lemma ChainsAreBounded(loader: Loader, root: Option<AgentDef>, chain: seq<AgentDef>, bound: nat)
    requires IsChain(loader, root, chain) && CallerDepth(root) == 0 && BoundsDispatchers(root, chain, bound)
    ensures |chain| <= bound
    ensures forall i :: 0 <= i < |chain| ==>
              0 <= bound - chain[i].depth == bound - 1 - CallerDepth(Caller(root, chain, i))
  {
    forall i | 0 <= i < |chain|
      ensures i < bound && chain[i].depth == i + 1 && CallerDepth(Caller(root, chain, i)) == i
    {
      DispatchersOutrankDepth(loader, root, chain, i);
      DepthsCount(loader, root, chain, i);
    }
    if chain != [] {
      assert chain[|chain| - 1].depth <= bound;
    }
  }

  lemma LimitIsTheDefinitions(caller: Option<AgentDef>, def: AgentDef)
    requires MayDispatch(caller)
    ensures CallerMaxDepth(Some(SubDef(caller, def))) == CallerMaxDepth(Some(def))
  {
  }

  /** So the root and the definitions the loader knows already bound every chain. */
  lemma LoaderBoundsChains(loader: Loader, root: Option<AgentDef>, chain: seq<AgentDef>, bound: nat)
    requires IsChain(loader, root, chain) && CallerDepth(root) == 0 && CallerMaxDepth(root) <= bound
    requires forall id :: id in loader ==> CallerMaxDepth(Some(loader[id])) <= bound
    ensures |chain| <= bound
  {
    forall i | 0 <= i < |chain| ensures CallerMaxDepth(Caller(root, chain, i)) <= bound {
      if i > 0 {
        assert Link(loader, root, chain, i - 1);
        var caller := Caller(root, chain, i - 1);
        var id :| id in loader && chain[i - 1] == SubDef(caller, loader[id]);
        LimitIsTheDefinitions(caller, loader[id]);
      }
    }
    ChainsAreBounded(loader, root, chain, bound);
  }

  /** A root without a definition has the default limit: what it dispatches may dispatch on only by its own limit. */
  lemma RootlessChain(loader: Loader, chain: seq<AgentDef>)
    requires IsChain(loader, None, chain) && |chain| > 1
    ensures chain[0].parent == None && CallerMaxDepth(Some(chain[0])) > 1
  {
    DepthsCount(loader, None, chain, 0);
    DispatchersOutrankDepth(loader, None, chain, 1);
  }

  /** `n` dispatches of one definition, each by the one before. */
  function SelfChain(root: Option<AgentDef>, def: AgentDef, n: nat): seq<AgentDef> {
    if n == 0 then []
    else
      var c := SelfChain(root, def, n - 1);
      var caller := Caller(root, c, |c|);
      if MayDispatch(caller) then c + [SubDef(caller, def)] else c
  }

  lemma {:induction false} SelfChainGrows(root: Option<AgentDef>, def: AgentDef, n: nat)
    requires CallerDepth(root) == 0 && CallerMaxDepth(root) == CallerMaxDepth(Some(def)) && n <= CallerMaxDepth(root)
    ensures var c := SelfChain(root, def, n);
            && |c| == n && CallerDepth(Caller(root, c, n)) == n
            && CallerMaxDepth(Caller(root, c, n)) == CallerMaxDepth(root)
            && IsChain(map[def.id := def], root, c)
  {
    if n > 0 {
      SelfChainGrows(root, def, n - 1);
      var p, c := SelfChain(root, def, n - 1), SelfChain(root, def, n);
      var loader := map[def.id := def];
      assert c == p + [SubDef(Caller(root, p, n - 1), def)];
      forall i: nat | i < |c| ensures Link(loader, root, c, i) {
        if i < n - 1 {
          assert Link(loader, root, p, i) && Caller(root, c, i) == Caller(root, p, i);
        } else {
          assert def.id in loader && c[i] == SubDef(Caller(root, c, i), loader[def.id]);
        }
      }
    }
  }

  /** The bound is exact: an agent that can dispatch only itself starts a chain of n dispatches iff n is
      within its limit. */
  lemma ChainLengthIff(root: Option<AgentDef>, def: AgentDef, n: nat)
    requires CallerDepth(root) == 0 && CallerMaxDepth(root) == CallerMaxDepth(Some(def))
    ensures (exists c: seq<AgentDef> :: |c| == n && IsChain(map[def.id := def], root, c))
       <==> n <= CallerMaxDepth(root)
  {
    var loader := map[def.id := def];
    if c: seq<AgentDef> :| |c| == n && IsChain(loader, root, c) {
      LoaderBoundsChains(loader, root, c, CallerMaxDepth(root));
    }
    if n <= CallerMaxDepth(root) {
      SelfChainGrows(root, def, n);
    }
  }
}
