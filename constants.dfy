/**
 * The template registry of internal/constants: which contract kinds exist,
 * the template object each kind resolves to, and the query, write and
 * combined operation names each kind accepts.
 */
module Constants {
  import opened Common
  import opened TokenTemplate
  import DetailedTestToken
  import FastTestToken
  import opened ContractsTemplateInterface

  const DetailedKind: string := "detailed_test_token"
  const FastKind: string := "fast_test_token"

  /** `baseERC20Queries`: the ERC-20 read methods, lower-cased. */
  const BaseErc20Queries: seq<string> := ["name", "symbol", "decimals", "totalsupply", "balanceof", "allowance"]

  /** `baseERC20Writes`: the ERC-20 write methods and the allowance adjusters, lower-cased. */
  const BaseErc20Writes: seq<string> := ["transfer", "approve", "transferfrom", "increaseallowance", "decreaseallowance"]

  /** The writes only DetailedTestToken offers. */
  const DetailedExtraWrites: seq<string> := ["mint", "burn"]

  /** `ContractNamesToFuncNames`: per kind, the "query", "write" and "all" name lists. */
  const ContractNamesToFuncNames: map<string, map<string, seq<string>>> := map[
    DetailedKind := map[
      "query" := BaseErc20Queries,
      "write" := BaseErc20Writes + DetailedExtraWrites,
      "all" := BaseErc20Queries + (BaseErc20Writes + DetailedExtraWrites)],
    FastKind := map[
      "query" := BaseErc20Queries,
      "write" := BaseErc20Writes,
      "all" := BaseErc20Queries + BaseErc20Writes]]

  /**
   * `ContractNamesToFuncNames[contractType][category]` with Go's map reads:
   * a missing key at either level yields the nil (empty) slice.
   */
  function FuncNames(contractType: string, category: string): (names: seq<string>)
    ensures contractType !in ContractNamesToFuncNames ==> names == []
    ensures contractType in ContractNamesToFuncNames && category in ContractNamesToFuncNames[contractType]
            ==> names == ContractNamesToFuncNames[contractType][category]
  {
    if contractType in ContractNamesToFuncNames && category in ContractNamesToFuncNames[contractType]
    then ContractNamesToFuncNames[contractType][category]
    else []
  }

  /** The keys of `ContractNamesDict`. */
  const ContractKinds: set<string> := {DetailedKind, FastKind}

  /**
   * `VerifyContractTypeExists`: whether the kind has a template in the
   * registry; the registry and the name tables have the same kinds.
   */
  function VerifyContractTypeExists(key: string): (ok: bool)
    ensures ok <==> key in ContractNamesToFuncNames
  {
    key in ContractKinds
  }

  /** `VerifyFunctionNameExists`: a scan of the kind's "all" list for `funcName`. */
  method VerifyFunctionNameExists(contractType: string, funcName: string) returns (ok: bool)
    ensures ok <==> funcName in FuncNames(contractType, "all")
    ensures !VerifyContractTypeExists(contractType) ==> !ok
  {
    var allFunctions := FuncNames(contractType, "all");
    var i := 0;
    while i < |allFunctions|
      invariant 0 <= i <= |allFunctions|
      invariant funcName !in allFunctions[..i]
    {
      if allFunctions[i] == funcName {
        return true;
      }
      i := i + 1;
    }
    assert allFunctions[..i] == allFunctions;
    return false;
  }

  /**
   * `ContractNamesDict`: one template object per kind, shared by every
   * lookup, so what one lookup's caller sets on it the next one sees.
   */
  class ContractNamesDict {
    const detailed: DetailedTestToken.DetailedTestTokenContract
    const fast: FastTestToken.FastTestTokenContract

    /** The two zero-valued templates the registry is initialised with. */
    constructor ()
      ensures fresh(detailed) && fresh(fast)
      ensures detailed.State() == fast.State() == TokenState("", "", 0, None, map[], map[], None, "")
      ensures detailed.instance.None? && fast.instance.None?
      ensures detailed.address == fast.address == ZeroAddress
      ensures detailed.constructorArgs == DetailedTestToken.ConstructorArgs("", "", None)
    {
      detailed := new DetailedTestToken.DetailedTestTokenContract();
      fast := new FastTestToken.FastTestTokenContract();
    }

    /** `ContractNamesDict[key]`, with the nil interface for an unknown key as `None`. */
    function Get(key: string): (c: Option<IContract>)
      ensures c.Some? <==> VerifyContractTypeExists(key)
      ensures key == DetailedKind ==> c == Some(Detailed(detailed))
      ensures key == FastKind ==> c == Some(Fast(fast))
    {
      if key == DetailedKind then Some(Detailed(detailed))
      else if key == FastKind then Some(Fast(fast))
      else None
    }
  }

  // ---------------------------------------------------------------------
  // Properties of the tables.
  // ---------------------------------------------------------------------

  /** The known kinds are exactly the two template names, and they are the kinds with name lists. */
  lemma KnownKinds(key: string)
    ensures VerifyContractTypeExists(key) <==> key == "detailed_test_token" || key == "fast_test_token"
    ensures VerifyContractTypeExists(key) <==> key in ContractNamesToFuncNames
  {
  }

  /** For every kind, "all" is the query list followed by the write list. */
  lemma AllIsQueryThenWrite(contractType: string)
    ensures FuncNames(contractType, "all") == FuncNames(contractType, "query") + FuncNames(contractType, "write")
  {
    if contractType == DetailedKind {
      assert FuncNames(contractType, "all") == BaseErc20Queries + (BaseErc20Writes + DetailedExtraWrites);
    }
  }

  /** No name is both a query and a write of the same kind. */
  lemma QueryAndWriteDisjoint(contractType: string, funcName: string)
    ensures !(funcName in FuncNames(contractType, "query") && funcName in FuncNames(contractType, "write"))
  {
    if funcName in FuncNames(contractType, "query") {
      assert QueryArity(funcName).Some? by { QueryListMatchesSwitch(contractType, funcName); }
    }
  }

  /** Both kinds accept the same queries; `mint` and `burn` are writes of DetailedTestToken only. */
  lemma KindsDiffer()
    ensures FuncNames(DetailedKind, "query") == FuncNames(FastKind, "query")
    ensures "mint" in FuncNames(DetailedKind, "write") && "burn" in FuncNames(DetailedKind, "write")
    ensures "mint" !in FuncNames(FastKind, "all") && "burn" !in FuncNames(FastKind, "all")
  {
    assert FuncNames(DetailedKind, "write")[5] == "mint";
    assert FuncNames(DetailedKind, "write")[6] == "burn";
  }

  /** The query list of a known kind names exactly the cases of the templates' query switch. */
  lemma QueryListMatchesSwitch(contractType: string, funcName: string)
    requires VerifyContractTypeExists(contractType)
    ensures funcName in FuncNames(contractType, "query") <==> QueryArity(funcName).Some?
  {
    assert FuncNames(contractType, "query") == BaseErc20Queries;
  }

  /** The write list of each kind names exactly the cases of that template's write switch. */
  lemma WriteListMatchesSwitch(funcName: string)
    ensures funcName in FuncNames(DetailedKind, "write") <==> DetailedTestToken.WriteArity(funcName).Some?
    ensures funcName in FuncNames(FastKind, "write") <==> BaseWriteArity(funcName).Some?
  {
    assert FuncNames(DetailedKind, "write") == BaseErc20Writes + DetailedExtraWrites;
    assert FuncNames(FastKind, "write") == BaseErc20Writes;
  }
}
