/**
 * The facades of internal/contract_interactor_facade, past their session
 * setup: each resolves its contract kind in the shared registry, wraps the
 * template in a `Contract`, and deploys, loads, or routes one named
 * operation to the template's query or write switch.
 */
module ContractInteractorFacade {
  import opened Common
  import opened Bindings
  import opened TokenTemplate
  import opened Constants
  import opened ContractsTemplateInterface
  import Utils
  import DetailedTestToken

  /** `contractDeployerFacade`: a session that deploys one contract of a known kind. */
  class ContractDeployerFacade {
    const registry: ContractNamesDict
    const lib: Library
    const client: EthClient
    const auth: Auth
    const contractType: string
    const contractArgs: seq<string>

    /** The facade the session setup assembles (the setup itself is not part of this model). */
    constructor (registry: ContractNamesDict, lib: Library, client: EthClient, auth: Auth,
                 contractType: string, contractArgs: seq<string>)
      ensures this.registry == registry && this.lib == lib && this.client == client && this.auth == auth
      ensures this.contractType == contractType && this.contractArgs == contractArgs
    {
      this.registry, this.lib, this.client, this.auth := registry, lib, client, auth;
      this.contractType, this.contractArgs := contractType, contractArgs;
    }

    /** The registry entry for this session's kind. */
    function Template(): IContract
      requires VerifyContractTypeExists(contractType)
    {
      registry.Get(contractType).value
    }

    /**
     * `DeployContract`: deploys through the registry's template for the
     * kind, with the session's arguments, signer and client. An unknown kind
     * would hand the wrapper a nil interface, so the kind must be known.
     */
    method DeployContract() returns (err: Option<Error>)
      requires VerifyContractTypeExists(contractType)
      modifies Template().Obj()
      ensures DeployedAs(Template(), lib, contractArgs, auth, client, err)
    {
      var contract := new Contract(registry.Get(contractType).value);
      err := contract.DeployContract(lib, contractArgs, auth, client);
    }
  }

  /** `contractExecutorFacade`: a session that runs one named operation on a deployed contract. */
  class ContractExecutorFacade {
    const registry: ContractNamesDict
    const lib: Library
    const client: EthClient
    const auth: Auth
    const contractType: string
    const contractAddress: Address
    const funcName: string
    const funcArguments: seq<string>

    /** The facade the session setup assembles (the setup itself is not part of this model). */
    constructor (registry: ContractNamesDict, lib: Library, client: EthClient, auth: Auth,
                 contractType: string, contractAddress: Address, funcName: string, funcArguments: seq<string>)
      ensures this.registry == registry && this.lib == lib && this.client == client && this.auth == auth
      ensures this.contractType == contractType && this.contractAddress == contractAddress
      ensures this.funcName == funcName && this.funcArguments == funcArguments
    {
      this.registry, this.lib, this.client, this.auth := registry, lib, client, auth;
      this.contractType, this.contractAddress := contractType, contractAddress;
      this.funcName, this.funcArguments := funcName, funcArguments;
    }

    /** The registry entry for this session's kind: the same object on every lookup. */
    function Template(): IContract
      requires VerifyContractTypeExists(contractType)
    {
      registry.Get(contractType).value
    }

    /** The registry object for this session's kind; none for an unknown kind. */
    function Footprint(): set<object>
    {
      if VerifyContractTypeExists(contractType) then {Template().Obj()} else {}
    }

    /** The operation is classified as a query: it is in the kind's query list. */
    predicate IsQuery()
    {
      funcName in FuncNames(contractType, "query")
    }

    /** The operation is classified as a write: not a query, and in the kind's write list. */
    predicate IsWrite()
    {
      !IsQuery() && funcName in FuncNames(contractType, "write")
    }

    /** The template's instance is bound on whichever switch the operation is routed to, where that switch calls it. */
    predicate CanExecute()
      reads Footprint()
    {
      && (IsQuery() ==> Template().CanQuery(funcName, funcArguments))
      && (IsWrite() ==> Template().CanWrite(funcName, funcArguments))
    }

    /** `LoadContract`: loads the registry's template for the kind at the session's address. */
    method LoadContract() returns (err: Option<Error>)
      requires VerifyContractTypeExists(contractType)
      modifies Template().Obj()
      ensures LoadedAs(Template(), contractAddress, client, err)
      ensures err.None? <==> Binds(Template(), contractAddress, client)
      ensures err.None? ==> Template().Bound() && Template().Address() == contractAddress
    {
      var contract := new Contract(registry.Get(contractType).value);
      err := contract.LoadContract(contractAddress, client);
    }

    /**
     * `ExecuteContract`: a name in the query list runs the template's query
     * switch; otherwise a name in the write list runs its write switch with
     * the session's signer; any other name, and every name of an unknown
     * kind (whose lists are empty), does nothing. The chosen switch's error
     * is returned unchanged, and the template keeps its binding.
     */
    method ExecuteContract() returns (err: Option<Error>)
      requires CanExecute()
      modifies Footprint()
      ensures IsQuery() ==>
        && err == old(Template().QueryResult(lib, funcName, funcArguments)).err
        && Template().State() == old(Template().QueryResult(lib, funcName, funcArguments)).state
      ensures IsWrite() ==>
        && err == old(Template().WriteResult(lib, auth, funcName, funcArguments)).err
        && Template().State() == old(Template().WriteResult(lib, auth, funcName, funcArguments)).state
      ensures !IsQuery() && !IsWrite() ==> err.None? && unchanged(Footprint())
      ensures !VerifyContractTypeExists(contractType) ==> err.None?
      ensures VerifyContractTypeExists(contractType) ==> Template().Binding() == old(Template().Binding())
    {
      var queryFuncs := FuncNames(contractType, "query");
      var writeFuncs := FuncNames(contractType, "write");
      var isQuery := Utils.Contains(queryFuncs, funcName);
      if isQuery {
        var contract := new Contract(registry.Get(contractType).value);
        err := contract.QueryContract(lib, funcName, funcArguments);
        if err.Some? {
          return;
        }
      } else {
        var isWrite := Utils.Contains(writeFuncs, funcName);
        if isWrite {
          var contract := new Contract(registry.Get(contractType).value);
          err := contract.WriteContract(lib, auth, funcName, funcArguments);
          if err.Some? {
            return;
          }
        }
      }
      return None;
    }

    /**
     * Loading and then executing in one session: both steps resolve the same
     * registry object, so the execution runs on the instance and address the
     * load bound, with both balance caches starting empty.
     */
    method LoadAndExecute() returns (err: Option<Error>)
      requires VerifyContractTypeExists(contractType)
      modifies Template().Obj()
      ensures !Binds(Template(), contractAddress, client) ==> err.Some? && unchanged(Template().Obj())
      ensures Binds(Template(), contractAddress, client) ==>
                Template().Bound() && Template().Address() == contractAddress
    {
      err := LoadContract();
      if err.Some? {
        return;
      }
      BoundCanRunAnything(Template(), funcName, funcArguments);
      err := ExecuteContract();
    }
  }

  // ---------------------------------------------------------------------
  // Routing agrees with the templates' switches.
  // ---------------------------------------------------------------------

  /**
   * For a known kind, a name routed to the query switch is one of its cases,
   * a name routed to the write switch is one of that template's write cases,
   * and a name routed nowhere is a case of neither switch, so doing nothing
   * is what either switch would have done with it.
   */
  lemma RoutingMatchesSwitches(contractType: string, funcName: string)
    requires VerifyContractTypeExists(contractType)
    ensures funcName in FuncNames(contractType, "query") ==> QueryArity(funcName).Some?
    ensures funcName in FuncNames(contractType, "write") ==>
              if contractType == DetailedKind then DetailedTestToken.WriteArity(funcName).Some? else BaseWriteArity(funcName).Some?
    ensures funcName !in FuncNames(contractType, "all") ==>
              && QueryArity(funcName).None?
              && (if contractType == DetailedKind then DetailedTestToken.WriteArity(funcName).None? else BaseWriteArity(funcName).None?)
  {
    QueryListMatchesSwitch(contractType, funcName);
    WriteListMatchesSwitch(funcName);
    AllIsQueryThenWrite(contractType);
  }
}
