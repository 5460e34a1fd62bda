/**
 * The FastTestToken template (pkg/contracts/fast_test_token): an ERC-20
 * token deployed without constructor arguments, offering only the write
 * cases both templates share.
 */
module FastTestToken {
  import opened Common
  import opened Bindings
  import opened TokenTemplate
  import Utils

  /** The contract name the reports use. */
  const Token: string := "FastTestToken"

  /** One call of this template's `WriteContract(auth, funcName, args)`. */
  function WriteStep(inst: Option<Erc20Instance>, lib: Library, address: Address, auth: Auth,
                     funcName: string, args: seq<string>, s: TokenState): (r: Step)
    requires Reaches(BaseWriteArity(funcName), args) ==> inst.Some?
    ensures r.err.Some? ==> r.state == s
    ensures r.state == s.(lastTx := r.state.lastTx, strToPrint := r.state.strToPrint)
  {
    BaseWriteStep(Token, inst, lib, address, auth, funcName, args, s)
  }

  /** `FastTestTokenContract`: one template object, updated in place by its methods. */
  class FastTestTokenContract {
    var name: string
    var symbol: string
    var decimals: byte
    var totalSupply: Option<int>
    var balanceOf: map<Address, int>
    var allowance: map<Address, map<Address, int>>
    var address: Address
    var lastTx: Option<Transaction>
    var instance: Option<Erc20Instance>
    var strToPrint: string

    /** The zero value `&FastTestTokenContract{}`. */
    constructor ()
      ensures address == ZeroAddress && instance.None?
      ensures State() == TokenState("", "", 0, None, map[], map[], None, "")
    {
      name, symbol, decimals, totalSupply := "", "", 0, None;
      balanceOf, allowance := map[], map[];
      address, lastTx, instance, strToPrint := ZeroAddress, None, None, "";
    }

    /** The fields queries and writes update. */
    function State(): TokenState
      reads this
    {
      TokenState(name, symbol, decimals, totalSupply, balanceOf, allowance, lastTx, strToPrint)
    }

    /** The instance is bound whenever the query case goes on to call it. */
    predicate CanQuery(funcName: string, args: seq<string>)
      reads this
    {
      Reaches(QueryArity(funcName), args) ==> instance.Some?
    }

    function QueryResult(lib: Library, funcName: string, args: seq<string>): Step
      reads this
      requires CanQuery(funcName, args)
    {
      QueryStep(Token, instance, lib, address, funcName, args, State())
    }

    /** The instance is bound whenever the write case goes on to call it. */
    predicate CanWrite(funcName: string, args: seq<string>)
      reads this
    {
      Reaches(BaseWriteArity(funcName), args) ==> instance.Some?
    }

    function WriteResult(lib: Library, auth: Auth, funcName: string, args: seq<string>): Step
      reads this
      requires CanWrite(funcName, args)
    {
      WriteStep(instance, lib, address, auth, funcName, args, State())
    }

    /**
     * `ParseConstructorArguments`: the template takes no constructor
     * arguments, so whatever is passed is accepted and ignored.
     */
    method ParseConstructorArguments(contractArgs: seq<string>) returns (err: Option<Error>)
      ensures err.None?
    {
      return None;
    }

    /**
     * `DeployContract`: deploys the token and, on success, keeps the new
     * address, deployment transaction and instance.
     */
    method DeployContract(auth: Auth, client: EthClient) returns (err: Option<Error>)
      modifies this`address, this`lastTx, this`instance
      ensures match client.deployFast(auth)
              case Failure(e) => err == Some(e) && unchanged(this)
              case Success(dep) =>
                err.None? && address == dep.address && lastTx == Some(dep.tx) && instance == Some(dep.instance)
    {
      var deployed := client.deployFast(auth);
      if deployed.Failure? {
        return Some(deployed.error);
      }
      address := deployed.value.address;
      lastTx := Some(deployed.value.tx);
      instance := Some(deployed.value.instance);
      return None;
    }

    /**
     * `LoadContract`: binds the template to an existing contract and starts
     * both caches afresh; a failed binding changes nothing.
     */
    method LoadContract(contractAddress: Address, client: EthClient) returns (err: Option<Error>)
      modifies this`instance, this`address, this`balanceOf, this`allowance
      ensures match client.newFast(contractAddress)
              case Failure(e) => err == Some(e) && unchanged(this)
              case Success(inst) =>
                err.None? && instance == Some(inst) && address == contractAddress
                && balanceOf == map[] && allowance == map[]
    {
      var bound := client.newFast(contractAddress);
      if bound.Failure? {
        return Some(bound.error);
      }
      instance := Some(bound.value);
      address := contractAddress;
      balanceOf := map[];
      allowance := map[];
      return None;
    }

    /** `QueryContract`: the query switch, one cache entry per case. */
    method QueryContract(lib: Library, funcName: string, funcArgs: seq<string>) returns (err: Option<Error>)
      requires CanQuery(funcName, funcArgs)
      modifies this`name, this`symbol, this`decimals, this`totalSupply, this`balanceOf, this`allowance, this`strToPrint
      ensures err == old(QueryResult(lib, funcName, funcArgs)).err
      ensures State() == old(QueryResult(lib, funcName, funcArgs)).state
    {
      var at := At(Token, lib, address) + "\n";
      match funcName {
      case "name" =>
        var chk := Utils.ValidateLength(funcArgs, 0);
        if chk.Some? { return chk; }
        var res := instance.value.name();
        if res.Failure? { return Some(res.error); }
        name := res.value;
        strToPrint := "info: Token Name: " + res.value + " for " + at;
      case "symbol" =>
        var chk := Utils.ValidateLength(funcArgs, 0);
        if chk.Some? { return chk; }
        var res := instance.value.symbol();
        if res.Failure? { return Some(res.error); }
        symbol := res.value;
        strToPrint := "info: Token Symbol: " + res.value + " for " + at;
      case "decimals" =>
        var chk := Utils.ValidateLength(funcArgs, 0);
        if chk.Some? { return chk; }
        var res := instance.value.decimals();
        if res.Failure? { return Some(res.error); }
        decimals := res.value;
        strToPrint := "info: Token Decimals: " + NatToString(res.value as nat) + " for " + at;
      case "totalsupply" =>
        var chk := Utils.ValidateLength(funcArgs, 0);
        if chk.Some? { return chk; }
        var res := instance.value.totalSupply();
        if res.Failure? { return Some(res.error); }
        totalSupply := Some(res.value);
        strToPrint := "info: Token TotalSupply: " + IntToString(res.value) + " for " + at;
      case "balanceof" =>
        var chk := Utils.ValidateLength(funcArgs, 1);
        if chk.Some? { return chk; }
        var account := lib.hexToAddress(funcArgs[0]);
        var res := instance.value.balanceOf(account);
        if res.Failure? { return Some(res.error); }
        balanceOf := balanceOf[account := res.value];
        strToPrint := "info: Token Balance of " + lib.addressString(account) + " : "
                      + IntToString(res.value) + " for " + at;
      case "allowance" =>
        var chk := Utils.ValidateLength(funcArgs, 2);
        if chk.Some? { return chk; }
        var owner := lib.hexToAddress(funcArgs[0]);
        var spender := lib.hexToAddress(funcArgs[1]);
        var res := instance.value.allowance(owner, spender);
        if res.Failure? { return Some(res.error); }
        if owner !in allowance {
          allowance := allowance[owner := map[]];
        }
        allowance := allowance[owner := allowance[owner][spender := res.value]];
        strToPrint := "info: Token Allowance of spender " + lib.addressString(spender)
                      + " from owner " + lib.addressString(owner) + " is "
                      + IntToString(res.value) + " for " + at;
      case _ =>
      }
      return None;
    }

    /** `WriteContract`: the write switch; a successful case records its transaction and report. */
    method WriteContract(lib: Library, auth: Auth, funcName: string, funcArgs: seq<string>) returns (err: Option<Error>)
      requires CanWrite(funcName, funcArgs)
      modifies this`lastTx, this`strToPrint
      ensures err == old(WriteResult(lib, auth, funcName, funcArgs)).err
      ensures State() == old(WriteResult(lib, auth, funcName, funcArgs)).state
    {
      var at := At(Token, lib, address);
      var tx: Result<Transaction>;
      var report: string;
      match funcName {
      case "transfer" =>
        var chk := Utils.ValidateLength(funcArgs, 2);
        if chk.Some? { return chk; }
        var recipient := lib.hexToAddress(funcArgs[0]);
        var amount := lib.setString(funcArgs[1]);
        tx := instance.value.transfer(auth, recipient, amount);
        report := "info: Transferred " + IntToString(amount) + " tokens at " + at
                  + " to address " + lib.addressString(recipient) + "\n";
      case "approve" =>
        var chk := Utils.ValidateLength(funcArgs, 2);
        if chk.Some? { return chk; }
        var recipient := lib.hexToAddress(funcArgs[0]);
        var amount := lib.setString(funcArgs[1]);
        tx := instance.value.approve(auth, recipient, amount);
        report := "info: Approved " + IntToString(amount) + " tokens at " + at
                  + " to address " + lib.addressString(recipient) + "\n";
      case "transferfrom" =>
        var chk := Utils.ValidateLength(funcArgs, 3);
        if chk.Some? { return chk; }
        var sender := lib.hexToAddress(funcArgs[0]);
        var recipient := lib.hexToAddress(funcArgs[1]);
        var amount := lib.setString(funcArgs[2]);
        tx := instance.value.transferFrom(auth, sender, recipient, amount);
        report := "info: Transferred From " + lib.addressString(sender) + " " + IntToString(amount)
                  + " tokens at " + at + " to address " + lib.addressString(recipient) + "\n";
      case "increaseallowance" =>
        var chk := Utils.ValidateLength(funcArgs, 2);
        if chk.Some? { return chk; }
        var spender := lib.hexToAddress(funcArgs[0]);
        var amount := lib.setString(funcArgs[1]);
        tx := instance.value.increaseAllowance(auth, spender, amount);
        report := "info: Increased Allowance by " + IntToString(amount) + " tokens at " + at
                  + " to address " + lib.addressString(spender) + "\n";
      case "decreaseallowance" =>
        var chk := Utils.ValidateLength(funcArgs, 2);
        if chk.Some? { return chk; }
        var spender := lib.hexToAddress(funcArgs[0]);
        var amount := lib.setString(funcArgs[1]);
        tx := instance.value.decreaseAllowance(auth, spender, amount);
        report := "info: Decreased Allowance by " + IntToString(amount) + " tokens at " + at
                  + " from address " + lib.addressString(spender) + "\n";
      case _ =>
        return None;
      }
      if tx.Failure? {
        return Some(tx.error);
      }
      lastTx := Some(tx.value);
      strToPrint := report;
      return None;
    }
  }

  // ---------------------------------------------------------------------
  // Properties of this template's write switch.
  // ---------------------------------------------------------------------

  /** `mint` and `burn` are not write cases of this template: they succeed and change nothing. */
  lemma MintAndBurnAreNoOps(inst: Option<Erc20Instance>, lib: Library, address: Address, auth: Auth,
                            funcName: string, args: seq<string>, s: TokenState)
    requires funcName == "mint" || funcName == "burn"
    ensures WriteStep(inst, lib, address, auth, funcName, args, s) == Step(None, s)
  {
    TokenTemplate.WriteUnknownIsNoOp(Token, inst, lib, address, auth, funcName, args, s);
  }
}
