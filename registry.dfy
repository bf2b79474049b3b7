/**
 * The contract registry: one list of curated contract records per chain,
 * loaded once from a JSON file per chain, and `getContracts`, which lists
 * them with each record's `chain` set to the list it came from.
 */
module Registry {
  import opened Json
  import opened Core

  /** `contractRegistry`, whose keys are, in insertion order, ethereum, base,
      optimism, polygon and zora. */
  datatype ContractRegistry = ContractRegistry(
    ethereum: seq<Record>,
    base: seq<Record>,
    optimism: seq<Record>,
    polygon: seq<Record>,
    zora: seq<Record>)

  const RegistryChains: seq<string> := ["ethereum", "base", "optimism", "polygon", "zora"]

  /** `loadJsonFile(filename)`: what reading and parsing the file gave, or `[]`
      when either failed. */
  function LoadJsonFile(parsed: Result<seq<Record>>): seq<Record>
  {
    match parsed
    case Ok(records) => records
    case Fail(_) => []
  }

  /** Builds the registry from what loading each `<chain>.json` gave. */
  function LoadRegistry(load: string -> Result<seq<Record>>): ContractRegistry
  {
    ContractRegistry(
      LoadJsonFile(load("ethereum")),
      LoadJsonFile(load("base")),
      LoadJsonFile(load("optimism")),
      LoadJsonFile(load("polygon")),
      LoadJsonFile(load("zora")))
  }

  /** `contractRegistry[chain]` for the five own keys. */
  function Entry(reg: ContractRegistry, chain: string): Option<seq<Record>>
  {
    if chain == "ethereum" then Some(reg.ethereum)
    else if chain == "base" then Some(reg.base)
    else if chain == "optimism" then Some(reg.optimism)
    else if chain == "polygon" then Some(reg.polygon)
    else if chain == "zora" then Some(reg.zora)
    else None
  }

  /** `contracts.map(contract => ({...contract, chain}))` */
  function WithChain(contracts: seq<Record>, chain: string): (r: seq<Record>)
    ensures |r| == |contracts|
  {
    if contracts == [] then []
    else [contracts[0]["chain" := Str(chain)]] + WithChain(contracts[1..], chain)
  }

  /** Each listed record is the stored one, in the same place, with `chain` set. */
  lemma {:induction false} WithChainSetsChain(contracts: seq<Record>, chain: string)
    ensures forall k :: 0 <= k < |contracts| ==> WithChain(contracts, chain)[k] == contracts[k]["chain" := Str(chain)]
  {
    if contracts != [] {
      WithChainSetsChain(contracts[1..], chain);
    }
  }

  /** The `reduce` over `Object.entries(contractRegistry)` for the given keys. */
  function Gather(reg: ContractRegistry, chains: seq<string>): seq<Record>
    requires forall k :: 0 <= k < |chains| ==> chains[k] in RegistryChains
  {
    if chains == [] then []
    else
      var last := chains[|chains| - 1];
      Gather(reg, chains[..|chains| - 1]) + WithChain(Entry(reg, last).value, last)
  }

  /** The properties every plain object inherits from `Object.prototype`:
      `contractRegistry[chain]` finds one of these (a function, or the
      prototype itself for `__proto__`) when `chain` names it. */
  const PrototypeNames: seq<string> := [
    "constructor", "__proto__", "hasOwnProperty", "isPrototypeOf",
    "propertyIsEnumerable", "toLocaleString", "toString", "valueOf",
    "__defineGetter__", "__defineSetter__", "__lookupGetter__", "__lookupSetter__"]

  /** `getContracts(chain)`; `"all"` is also what the default argument gives.
      An inherited property is truthy but has no `map`, so calling it throws. */
  function GetContracts(reg: ContractRegistry, chain: string): Result<seq<Record>>
  {
    if chain == "all" then Ok(Gather(reg, RegistryChains))
    else match Entry(reg, chain)
      case Some(contracts) => Ok(WithChain(contracts, chain))
      case None => if chain in PrototypeNames then Fail(TypeError()) else Ok([])
  }

  /** `getContracts()`: the five chains' lists one after the other. */
  function GetAllContracts(reg: ContractRegistry): (r: seq<Record>)
    ensures r == WithChain(reg.ethereum, "ethereum") + WithChain(reg.base, "base")
               + WithChain(reg.optimism, "optimism") + WithChain(reg.polygon, "polygon")
               + WithChain(reg.zora, "zora")
    ensures GetContracts(reg, "all") == Ok(r)
  {
    AllIsConcatenation(reg);
    GetContracts(reg, "all").value
  }

  /** "all" lists the five chains one after the other, in registry order. */
  lemma AllIsConcatenation(reg: ContractRegistry)
    ensures GetContracts(reg, "all") == Ok(WithChain(reg.ethereum, "ethereum") + WithChain(reg.base, "base")
          + WithChain(reg.optimism, "optimism") + WithChain(reg.polygon, "polygon")
          + WithChain(reg.zora, "zora"))
  {
    var ebop := ["ethereum", "base", "optimism", "polygon"];
    GatherFirstFour(reg);
    GatherSnoc(reg, ebop, "zora");
    assert ebop + ["zora"] == RegistryChains;
    assert Entry(reg, "zora").value == reg.zora;
  }

  /** The reduce after its first two entries. */
  lemma GatherFirstTwo(reg: ContractRegistry)
    ensures Gather(reg, ["ethereum", "base"]) == WithChain(reg.ethereum, "ethereum") + WithChain(reg.base, "base")
  {
    var e := ["ethereum"];
    assert e[..0] == [];
    assert Gather(reg, e) == [] + WithChain(reg.ethereum, "ethereum");
    GatherSnoc(reg, e, "base");
    assert ["ethereum"] + ["base"] == ["ethereum", "base"];
  }

  /** The reduce after its first four entries. */
  lemma GatherFirstFour(reg: ContractRegistry)
    ensures Gather(reg, ["ethereum", "base", "optimism", "polygon"])
         == WithChain(reg.ethereum, "ethereum") + WithChain(reg.base, "base")
          + WithChain(reg.optimism, "optimism") + WithChain(reg.polygon, "polygon")
  {
    var eb, ebo := ["ethereum", "base"], ["ethereum", "base", "optimism"];
    GatherFirstTwo(reg);
    GatherSnoc(reg, eb, "optimism");
    assert eb + ["optimism"] == ebo;
    GatherSnoc(reg, ebo, "polygon");
    assert ebo + ["polygon"] == ["ethereum", "base", "optimism", "polygon"];
  }

  /** Gathering one more key appends that key's records. */
  lemma GatherSnoc(reg: ContractRegistry, chains: seq<string>, c: string)
    requires forall k :: 0 <= k < |chains| ==> chains[k] in RegistryChains
    requires c in RegistryChains
    ensures Gather(reg, chains + [c]) == Gather(reg, chains) + WithChain(Entry(reg, c).value, c)
  {
    assert (chains + [c])[..|chains|] == chains;
  }

  /** "all" lists as many records as the five lists hold together. */
  lemma AllCount(reg: ContractRegistry)
    ensures GetContracts(reg, "all").Ok?
    ensures |GetContracts(reg, "all").value|
         == |reg.ethereum| + |reg.base| + |reg.optimism| + |reg.polygon| + |reg.zora|
  {
    AllIsConcatenation(reg);
  }

  /** Every record "all" lists is a stored record of some chain, with `chain`
      set to that chain's name. */
  lemma AllRecordsCarryTheirChain(reg: ContractRegistry, k: nat)
    requires k < |GetContracts(reg, "all").value|
    ensures exists c, j :: c in RegistryChains && 0 <= j < |Entry(reg, c).value|
              && GetContracts(reg, "all").value[k] == Entry(reg, c).value[j]["chain" := Str(c)]
  {
    GatherMember(reg, RegistryChains, k);
  }

  lemma {:induction false} GatherMember(reg: ContractRegistry, chains: seq<string>, k: nat)
    requires forall i :: 0 <= i < |chains| ==> chains[i] in RegistryChains
    requires k < |Gather(reg, chains)|
    ensures exists c, j :: c in chains && 0 <= j < |Entry(reg, c).value|
              && Gather(reg, chains)[k] == Entry(reg, c).value[j]["chain" := Str(c)]
  {
    var init := chains[..|chains| - 1];
    var last := chains[|chains| - 1];
    var front := Gather(reg, init);
    if k < |front| {
      GatherMember(reg, init, k);
      var c, j :| c in init && 0 <= j < |Entry(reg, c).value|
                  && front[k] == Entry(reg, c).value[j]["chain" := Str(c)];
      assert c in chains;
    } else {
      var j := k - |front|;
      WithChainSetsChain(Entry(reg, last).value, last);
      assert Gather(reg, chains)[k] == WithChain(Entry(reg, last).value, last)[j];
    }
  }

  /** A known chain lists its own records, same count and order, each with
      `chain` set to that chain, whatever `chain` it was stored with. */
  lemma KnownChain(reg: ContractRegistry, chain: string)
    requires chain in RegistryChains
    ensures GetContracts(reg, chain).Ok?
    ensures |GetContracts(reg, chain).value| == |Entry(reg, chain).value|
    ensures forall k :: 0 <= k < |GetContracts(reg, chain).value| ==>
              GetContracts(reg, chain).value[k] == Entry(reg, chain).value[k]["chain" := Str(chain)]
              && GetContracts(reg, chain).value[k]["chain"] == Str(chain)
  {
    assert GetContracts(reg, chain) == Ok(WithChain(Entry(reg, chain).value, chain));
    WithChainSetsChain(Entry(reg, chain).value, chain);
  }

  /** Any other name that is not inherited lists nothing. */
  lemma UnknownChain(reg: ContractRegistry, chain: string)
    requires chain !in RegistryChains && chain != "all" && chain !in PrototypeNames
    ensures GetContracts(reg, chain) == Ok([])
  {
  }

  /** A name inherited from `Object.prototype` makes `getContracts` throw a
      TypeError instead of listing anything. */
  lemma PrototypeNameThrows(reg: ContractRegistry, chain: string)
    requires chain in PrototypeNames
    ensures GetContracts(reg, chain) == Fail(TypeError())
  {
    assert chain !in RegistryChains && chain != "all";
  }

  /** A registry file that loaded lists its records, each with `chain` set. */
  lemma LoadedFileListed(load: string -> Result<seq<Record>>, c: string)
    requires c in RegistryChains && load(c).Ok?
    ensures GetContracts(LoadRegistry(load), c) == Ok(WithChain(load(c).value, c))
  {
    assert Entry(LoadRegistry(load), c).value == load(c).value;
  }

  /** A registry file that fails to load lists nothing for its chain, and
      nothing "all" lists carries that chain. */
  lemma FailedFileContributesNothing(load: string -> Result<seq<Record>>, c: string)
    requires c in RegistryChains && load(c).Fail?
    ensures GetContracts(LoadRegistry(load), c) == Ok([])
    ensures GetContracts(LoadRegistry(load), "all").Ok?
    ensures forall k :: 0 <= k < |GetContracts(LoadRegistry(load), "all").value| ==>
              "chain" in GetContracts(LoadRegistry(load), "all").value[k]
              && GetContracts(LoadRegistry(load), "all").value[k]["chain"] != Str(c)
  {
    var reg := LoadRegistry(load);
    assert Entry(reg, c).value == [];
    var all := GetContracts(reg, "all").value;
    forall k | 0 <= k < |all|
      ensures "chain" in all[k] && all[k]["chain"] != Str(c)
    {
      AllRecordsCarryTheirChain(reg, k);
      var c', j :| c' in RegistryChains && 0 <= j < |Entry(reg, c').value|
                   && all[k] == Entry(reg, c').value[j]["chain" := Str(c')];
      assert c' != c;
    }
  }
}
