/**
 * The template wrapper of internal/contracts_template_interface: `Contract`
 * holds one `IContract` and sequences calls on it, stopping at the first
 * error. The Go interface has exactly two implementations, so `IContract`
 * is the closed choice between them.
 */
module ContractsTemplateInterface {
  import opened Common
  import opened Bindings
  import opened TokenTemplate
  import DetailedTestToken
  import FastTestToken

  /** What a template is bound to: its instance, its address and, for DetailedTestToken, its constructor arguments. */
  datatype Binding =
    | DetailedBinding(detailed: Option<DetailedInstance>, at: Address, constructorArgs: DetailedTestToken.ConstructorArgs)
    | FastBinding(fast: Option<Erc20Instance>, at: Address)

  /** `IContract`: a pointer to one of the two template objects. */
  datatype IContract =
    | Detailed(d: DetailedTestToken.DetailedTestTokenContract)
    | Fast(f: FastTestToken.FastTestTokenContract)
  {
    /** The template object the interface value points at. */
    function Obj(): object
    {
      match this
      case Detailed(d) => d
      case Fast(f) => f
    }

    function State(): TokenState
      reads Obj()
    {
      match this
      case Detailed(d) => d.State()
      case Fast(f) => f.State()
    }

    function Address(): Address
      reads Obj()
    {
      match this
      case Detailed(d) => d.address
      case Fast(f) => f.address
    }

    /** The fields a query or a write never changes. */
    function Binding(): (b: Binding)
      reads Obj()
      ensures b.at == Address()
      ensures b.DetailedBinding? == Detailed?
      ensures Bound() <==> if b.DetailedBinding? then b.detailed.Some? else b.fast.Some?
    {
      match this
      case Detailed(d) => DetailedBinding(d.instance, d.address, d.constructorArgs)
      case Fast(f) => FastBinding(f.instance, f.address)
    }

    /** Whether an instance is bound (`Instance != nil`). */
    predicate Bound()
      reads Obj()
    {
      match this
      case Detailed(d) => d.instance.Some?
      case Fast(f) => f.instance.Some?
    }

    predicate CanQuery(funcName: string, args: seq<string>)
      reads Obj()
    {
      match this
      case Detailed(d) => d.CanQuery(funcName, args)
      case Fast(f) => f.CanQuery(funcName, args)
    }

    /** What the template's `QueryContract` returns and leaves behind. */
    function QueryResult(lib: Library, funcName: string, args: seq<string>): Step
      reads Obj()
      requires CanQuery(funcName, args)
    {
      match this
      case Detailed(d) => d.QueryResult(lib, funcName, args)
      case Fast(f) => f.QueryResult(lib, funcName, args)
    }

    predicate CanWrite(funcName: string, args: seq<string>)
      reads Obj()
    {
      match this
      case Detailed(d) => d.CanWrite(funcName, args)
      case Fast(f) => f.CanWrite(funcName, args)
    }

    /** What the template's `WriteContract` returns and leaves behind. */
    function WriteResult(lib: Library, auth: Auth, funcName: string, args: seq<string>): Step
      reads Obj()
      requires CanWrite(funcName, args)
    {
      match this
      case Detailed(d) => d.WriteResult(lib, auth, funcName, args)
      case Fast(f) => f.WriteResult(lib, auth, funcName, args)
    }
  }

  /** A bound template can run every query and every write. */
  lemma BoundCanRunAnything(c: IContract, funcName: string, args: seq<string>)
    requires c.Bound()
    ensures c.CanQuery(funcName, args) && c.CanWrite(funcName, args)
  {
  }

  /**
   * What deploying through `c` does: DetailedTestToken first parses its
   * constructor arguments and stops at a parse error with nothing changed;
   * then the deployment either fails, keeping the address and instance, or
   * records the new address, transaction and instance. No cache changes.
   */
  twostate predicate DeployedAs(c: IContract, lib: Library, contractArgs: seq<string>, auth: Auth,
                                client: EthClient, new err: Option<Error>)
    reads c.Obj()
  {
    match c
    case Detailed(d) =>
      (match DetailedTestToken.ParseConstructorArgs(lib, contractArgs)
       case Failure(e) => err == Some(e) && unchanged(d)
       case Success(ca) =>
         && d.constructorArgs == ca
         && d.State() == old(d.State()).(lastTx := d.lastTx)
         && match client.deployDetailed(auth, ca.name, ca.symbol, ca.amount)
            case Failure(e) =>
              err == Some(e) && d.address == old(d.address) && d.instance == old(d.instance)
              && d.lastTx == old(d.lastTx)
            case Success(dep) =>
              err.None? && d.address == dep.address && d.lastTx == Some(dep.tx) && d.instance == Some(dep.instance))
    case Fast(f) =>
      match client.deployFast(auth)
      case Failure(e) => err == Some(e) && unchanged(f)
      case Success(dep) =>
        && err.None? && f.address == dep.address && f.lastTx == Some(dep.tx) && f.instance == Some(dep.instance)
        && f.State() == old(f.State()).(lastTx := f.lastTx)
  }

  /**
   * What loading `c` at `address` does: a failed binding changes nothing;
   * a successful one binds the instance, records the address and empties
   * both balance caches, keeping every other cache.
   */
  twostate predicate LoadedAs(c: IContract, address: Address, client: EthClient, new err: Option<Error>)
    reads c.Obj()
  {
    match c
    case Detailed(d) =>
      (match client.newDetailed(address)
       case Failure(e) => err == Some(e) && unchanged(d)
       case Success(inst) =>
         && err.None? && d.instance == Some(inst) && d.address == address
         && d.constructorArgs == old(d.constructorArgs)
         && d.State() == old(d.State()).(balanceOf := map[], allowance := map[]))
    case Fast(f) =>
      match client.newFast(address)
      case Failure(e) => err == Some(e) && unchanged(f)
      case Success(inst) =>
        && err.None? && f.instance == Some(inst) && f.address == address
        && f.State() == old(f.State()).(balanceOf := map[], allowance := map[])
  }

  /** Whether the client can bind the template's kind at `address`. */
  predicate Binds(c: IContract, address: Address, client: EthClient)
  {
    if c.Detailed? then client.newDetailed(address).Success? else client.newFast(address).Success?
  }

  /** `Contract`: the wrapper the facade builds around a registry entry. */
  class Contract {
    const iContract: IContract

    constructor (c: IContract)
      ensures iContract == c
    {
      iContract := c;
    }

    /**
     * `DeployContract`: parses the constructor arguments and, only if that
     * succeeds, deploys with them; the first error is returned unchanged.
     */
    method DeployContract(lib: Library, contractArgs: seq<string>, auth: Auth, client: EthClient)
      returns (err: Option<Error>)
      modifies iContract.Obj()
      ensures DeployedAs(iContract, lib, contractArgs, auth, client, err)
    {
      match iContract {
        case Detailed(d) =>
          err := d.ParseConstructorArguments(lib, contractArgs);
          if err.Some? {
            return;
          }
          err := d.DeployContract(auth, client);
        case Fast(f) =>
          err := f.ParseConstructorArguments(contractArgs);
          if err.Some? {
            return;
          }
          err := f.DeployContract(auth, client);
      }
    }

    /** `LoadContract`: binds the template at `address` and returns its error unchanged. */
    method LoadContract(address: Address, client: EthClient) returns (err: Option<Error>)
      modifies iContract.Obj()
      ensures LoadedAs(iContract, address, client, err)
    {
      match iContract {
        case Detailed(d) => err := d.LoadContract(address, client);
        case Fast(f) => err := f.LoadContract(address, client);
      }
    }

    /** `QueryContract`: runs the template's query and returns its error unchanged. */
    method QueryContract(lib: Library, funcName: string, funcArgs: seq<string>) returns (err: Option<Error>)
      requires iContract.CanQuery(funcName, funcArgs)
      modifies iContract.Obj()
      ensures err == old(iContract.QueryResult(lib, funcName, funcArgs)).err
      ensures iContract.State() == old(iContract.QueryResult(lib, funcName, funcArgs)).state
      ensures iContract.Binding() == old(iContract.Binding())
    {
      match iContract {
        case Detailed(d) => err := d.QueryContract(lib, funcName, funcArgs);
        case Fast(f) => err := f.QueryContract(lib, funcName, funcArgs);
      }
    }

    /** `WriteContract`: runs the template's write with `auth` and returns its error unchanged. */
    method WriteContract(lib: Library, auth: Auth, funcName: string, funcArgs: seq<string>)
      returns (err: Option<Error>)
      requires iContract.CanWrite(funcName, funcArgs)
      modifies iContract.Obj()
      ensures err == old(iContract.WriteResult(lib, auth, funcName, funcArgs)).err
      ensures iContract.State() == old(iContract.WriteResult(lib, auth, funcName, funcArgs)).state
      ensures iContract.Binding() == old(iContract.Binding())
    {
      match iContract {
        case Detailed(d) => err := d.WriteContract(lib, auth, funcName, funcArgs);
        case Fast(f) => err := f.WriteContract(lib, auth, funcName, funcArgs);
      }
    }
  }
}
