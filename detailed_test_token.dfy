/**
 * The DetailedTestToken template (pkg/contracts/detailed_test_token): an
 * ERC-20 token deployed with a name, a symbol and an initial amount, with
 * `mint` and `burn` writes besides the shared ones.
 */
module DetailedTestToken {
  import opened Common
  import opened Bindings
  import opened TokenTemplate
  import Utils

  /** The contract name the reports use. */
  const Token: string := "DetailedTestToken"

  /** `contractConstructorArgs`; the zero value has an unset (`nil`) amount. */
  datatype ConstructorArgs = ConstructorArgs(name: string, symbol: string, amount: Option<int>)

  /** The number of fields of `contractConstructorArgs`, which is what the arity check compares against. */
  const ConstructorArgCount: nat := 3

  /**
   * The constructor arguments parsed from the command line: exactly three
   * strings, the third read as a decimal amount.
   */
  function ParseConstructorArgs(lib: Library, args: seq<string>): (r: Result<ConstructorArgs>)
    ensures r.Success? <==> |args| == ConstructorArgCount
    ensures r.Failure? ==> r.error == ConstructorArityError(ConstructorArgCount, |args|)
    ensures r.Success? ==> r.value == ConstructorArgs(args[0], args[1], Some(lib.setString(args[2])))
  {
    if |args| != ConstructorArgCount then Failure(ConstructorArityError(ConstructorArgCount, |args|))
    else Success(ConstructorArgs(args[0], args[1], Some(lib.setString(args[2]))))
  }

  /** The text of the constructor arity error names the three fields needed and the count received. */
  lemma ConstructorArityText(received: nat)
    ensures ConstructorArityError(ConstructorArgCount, received).Message()
         == "error: incorrect amount of arguments, args needed : 3 != args received " + NatToString(received)
  {
    assert NatToString(ConstructorArgCount) == "3";
  }

  /** The arguments of each write case; `mint` and `burn` exist only in this template. */
  function WriteArity(funcName: string): Option<nat>
  {
    if funcName == "mint" || funcName == "burn" then Some(2) else BaseWriteArity(funcName)
  }

  function Erc20Of(inst: Option<DetailedInstance>): Option<Erc20Instance>
  {
    if inst.Some? then Some(inst.value.erc20) else None
  }

  /** One call of this template's `WriteContract(auth, funcName, args)`. */
  function WriteStep(inst: Option<DetailedInstance>, lib: Library, address: Address, auth: Auth,
                     funcName: string, args: seq<string>, s: TokenState): (r: Step)
    requires Reaches(WriteArity(funcName), args) ==> inst.Some?
    ensures r.err.Some? ==> r.state == s
    ensures r.state == s.(lastTx := r.state.lastTx, strToPrint := r.state.strToPrint)
  {
    var at := At(Token, lib, address);
    match funcName
    case "mint" =>
      var chk := Utils.ValidateLength(args, 2);
      if chk.Some? then Step(chk, s)
      else
        var to := lib.hexToAddress(args[0]);
        var amount := lib.setString(args[1]);
        Sent(s, inst.value.mint(auth, to, amount),
             "info: Minted " + IntToString(amount) + " tokens to " + lib.addressString(to) + " at " + at + "\n")
    case "burn" =>
      var chk := Utils.ValidateLength(args, 2);
      if chk.Some? then Step(chk, s)
      else
        var from := lib.hexToAddress(args[0]);
        var amount := lib.setString(args[1]);
        Sent(s, inst.value.burn(auth, from, amount),
             "info: Burned " + IntToString(amount) + " tokens from " + lib.addressString(from) + " at " + at + "\n")
    case _ => BaseWriteStep(Token, Erc20Of(inst), lib, address, auth, funcName, args, s)
  }

  /** The instance call each write case makes once its arity check has passed. */
  function WriteCall(inst: DetailedInstance, lib: Library, auth: Auth, funcName: string, args: seq<string>)
    : Result<Transaction>
    requires Reaches(WriteArity(funcName), args)
  {
    if funcName == "mint" then inst.mint(auth, lib.hexToAddress(args[0]), lib.setString(args[1]))
    else if funcName == "burn" then inst.burn(auth, lib.hexToAddress(args[0]), lib.setString(args[1]))
    else BaseWriteCall(inst.erc20, lib, auth, funcName, args)
  }

  /** `DetailedTestTokenContract`: one template object, updated in place by its methods. */
  class DetailedTestTokenContract {
    var constructorArgs: ConstructorArgs
    var name: string
    var symbol: string
    var decimals: byte
    var totalSupply: Option<int>
    var balanceOf: map<Address, int>
    var allowance: map<Address, map<Address, int>>
    var address: Address
    var lastTx: Option<Transaction>
    var instance: Option<DetailedInstance>
    var strToPrint: string

    /** The zero value `&DetailedTestTokenContract{}`. */
    constructor ()
      ensures constructorArgs == ConstructorArgs("", "", None)
      ensures address == ZeroAddress && instance.None?
      ensures State() == TokenState("", "", 0, None, map[], map[], None, "")
    {
      constructorArgs := ConstructorArgs("", "", None);
      name, symbol, decimals, totalSupply := "", "", 0, None;
      balanceOf, allowance := map[], map[];
      address, lastTx, instance, strToPrint := ZeroAddress, None, None, "";
    }

    /** The fields queries and writes update. */
    function State(): TokenState
      reads this
    {
      TokenState(name, symbol, decimals, totalSupply, balanceOf, allowance, lastTx, strToPrint)
    }

    /** The instance is bound whenever the query case goes on to call it. */
    predicate CanQuery(funcName: string, args: seq<string>)
      reads this
    {
      Reaches(QueryArity(funcName), args) ==> instance.Some?
    }

    function QueryResult(lib: Library, funcName: string, args: seq<string>): Step
      reads this
      requires CanQuery(funcName, args)
    {
      QueryStep(Token, Erc20Of(instance), lib, address, funcName, args, State())
    }

    /** The instance is bound whenever the write case goes on to call it. */
    predicate CanWrite(funcName: string, args: seq<string>)
      reads this
    {
      Reaches(WriteArity(funcName), args) ==> instance.Some?
    }

    function WriteResult(lib: Library, auth: Auth, funcName: string, args: seq<string>): Step
      reads this
      requires CanWrite(funcName, args)
    {
      WriteStep(instance, lib, address, auth, funcName, args, State())
    }

    /** `ParseConstructorArguments`: stores the parsed arguments, or fails and keeps the old ones. */
    method ParseConstructorArguments(lib: Library, contractArgs: seq<string>) returns (err: Option<Error>)
      modifies this`constructorArgs
      ensures match ParseConstructorArgs(lib, contractArgs)
              case Failure(e) => err == Some(e) && constructorArgs == old(constructorArgs)
              case Success(ca) => err.None? && constructorArgs == ca
    {
      var neededArgs := ConstructorArgCount;
      var recArgs := |contractArgs|;
      if recArgs != neededArgs {
        return Some(ConstructorArityError(neededArgs, recArgs));
      }
      var amount := lib.setString(contractArgs[2]);
      constructorArgs := ConstructorArgs(contractArgs[0], contractArgs[1], Some(amount));
      return None;
    }

    /**
     * `DeployContract`: deploys with the stored constructor arguments and,
     * on success, keeps the new address, deployment transaction and instance.
     */
    method DeployContract(auth: Auth, client: EthClient) returns (err: Option<Error>)
      modifies this`address, this`lastTx, this`instance
      ensures match client.deployDetailed(auth, constructorArgs.name, constructorArgs.symbol, constructorArgs.amount)
              case Failure(e) => err == Some(e) && unchanged(this)
              case Success(dep) =>
                err.None? && address == dep.address && lastTx == Some(dep.tx) && instance == Some(dep.instance)
    {
      var deployed := client.deployDetailed(auth, constructorArgs.name, constructorArgs.symbol, constructorArgs.amount);
      if deployed.Failure? {
        return Some(deployed.error);
      }
      address := deployed.value.address;
      lastTx := Some(deployed.value.tx);
      instance := Some(deployed.value.instance);
      return None;
    }

    /**
     * `LoadContract`: binds the template to an existing contract and starts
     * both caches afresh; a failed binding changes nothing.
     */
    method LoadContract(contractAddress: Address, client: EthClient) returns (err: Option<Error>)
      modifies this`instance, this`address, this`balanceOf, this`allowance
      ensures match client.newDetailed(contractAddress)
              case Failure(e) => err == Some(e) && unchanged(this)
              case Success(inst) =>
                err.None? && instance == Some(inst) && address == contractAddress
                && balanceOf == map[] && allowance == map[]
    {
      var bound := client.newDetailed(contractAddress);
      if bound.Failure? {
        return Some(bound.error);
      }
      instance := Some(bound.value);
      address := contractAddress;
      balanceOf := map[];
      allowance := map[];
      return None;
    }

    /** `QueryContract`: the query switch, one cache entry per case. */
    method QueryContract(lib: Library, funcName: string, funcArgs: seq<string>) returns (err: Option<Error>)
      requires CanQuery(funcName, funcArgs)
      modifies this`name, this`symbol, this`decimals, this`totalSupply, this`balanceOf, this`allowance, this`strToPrint
      ensures err == old(QueryResult(lib, funcName, funcArgs)).err
      ensures State() == old(QueryResult(lib, funcName, funcArgs)).state
    {
      var at := At(Token, lib, address) + "\n";
      match funcName {
      case "name" =>
        var chk := Utils.ValidateLength(funcArgs, 0);
        if chk.Some? { return chk; }
        var res := instance.value.erc20.name();
        if res.Failure? { return Some(res.error); }
        name := res.value;
        strToPrint := "info: Token Name: " + res.value + " for " + at;
      case "symbol" =>
        var chk := Utils.ValidateLength(funcArgs, 0);
        if chk.Some? { return chk; }
        var res := instance.value.erc20.symbol();
        if res.Failure? { return Some(res.error); }
        symbol := res.value;
        strToPrint := "info: Token Symbol: " + res.value + " for " + at;
      case "decimals" =>
        var chk := Utils.ValidateLength(funcArgs, 0);
        if chk.Some? { return chk; }
        var res := instance.value.erc20.decimals();
        if res.Failure? { return Some(res.error); }
        decimals := res.value;
        strToPrint := "info: Token Decimals: " + NatToString(res.value as nat) + " for " + at;
      case "totalsupply" =>
        var chk := Utils.ValidateLength(funcArgs, 0);
        if chk.Some? { return chk; }
        var res := instance.value.erc20.totalSupply();
        if res.Failure? { return Some(res.error); }
        totalSupply := Some(res.value);
        strToPrint := "info: Token TotalSupply: " + IntToString(res.value) + " for " + at;
      case "balanceof" =>
        var chk := Utils.ValidateLength(funcArgs, 1);
        if chk.Some? { return chk; }
        var account := lib.hexToAddress(funcArgs[0]);
        var res := instance.value.erc20.balanceOf(account);
        if res.Failure? { return Some(res.error); }
        balanceOf := balanceOf[account := res.value];
        strToPrint := "info: Token Balance of " + lib.addressString(account) + " : "
                      + IntToString(res.value) + " for " + at;
      case "allowance" =>
        var chk := Utils.ValidateLength(funcArgs, 2);
        if chk.Some? { return chk; }
        var owner := lib.hexToAddress(funcArgs[0]);
        var spender := lib.hexToAddress(funcArgs[1]);
        var res := instance.value.erc20.allowance(owner, spender);
        if res.Failure? { return Some(res.error); }
        if owner !in allowance {
          allowance := allowance[owner := map[]];
        }
        allowance := allowance[owner := allowance[owner][spender := res.value]];
        strToPrint := "info: Token Allowance of spender " + lib.addressString(spender)
                      + " from owner " + lib.addressString(owner) + " is "
                      + IntToString(res.value) + " for " + at;
      case _ =>
      }
      return None;
    }

    /** `WriteContract`: the write switch; a successful case records its transaction and report. */
    method WriteContract(lib: Library, auth: Auth, funcName: string, funcArgs: seq<string>) returns (err: Option<Error>)
      requires CanWrite(funcName, funcArgs)
      modifies this`lastTx, this`strToPrint
      ensures err == old(WriteResult(lib, auth, funcName, funcArgs)).err
      ensures State() == old(WriteResult(lib, auth, funcName, funcArgs)).state
    {
      var at := At(Token, lib, address);
      var tx: Result<Transaction>;
      var report: string;
      match funcName {
      case "transfer" =>
        var chk := Utils.ValidateLength(funcArgs, 2);
        if chk.Some? { return chk; }
        var recipient := lib.hexToAddress(funcArgs[0]);
        var amount := lib.setString(funcArgs[1]);
        tx := instance.value.erc20.transfer(auth, recipient, amount);
        report := "info: Transferred " + IntToString(amount) + " tokens at " + at
                  + " to address " + lib.addressString(recipient) + "\n";
      case "approve" =>
        var chk := Utils.ValidateLength(funcArgs, 2);
        if chk.Some? { return chk; }
        var recipient := lib.hexToAddress(funcArgs[0]);
        var amount := lib.setString(funcArgs[1]);
        tx := instance.value.erc20.approve(auth, recipient, amount);
        report := "info: Approved " + IntToString(amount) + " tokens at " + at
                  + " to address " + lib.addressString(recipient) + "\n";
      case "transferfrom" =>
        var chk := Utils.ValidateLength(funcArgs, 3);
        if chk.Some? { return chk; }
        var sender := lib.hexToAddress(funcArgs[0]);
        var recipient := lib.hexToAddress(funcArgs[1]);
        var amount := lib.setString(funcArgs[2]);
        tx := instance.value.erc20.transferFrom(auth, sender, recipient, amount);
        report := "info: Transferred From " + lib.addressString(sender) + " " + IntToString(amount)
                  + " tokens at " + at + " to address " + lib.addressString(recipient) + "\n";
      case "increaseallowance" =>
        var chk := Utils.ValidateLength(funcArgs, 2);
        if chk.Some? { return chk; }
        var spender := lib.hexToAddress(funcArgs[0]);
        var amount := lib.setString(funcArgs[1]);
        tx := instance.value.erc20.increaseAllowance(auth, spender, amount);
        report := "info: Increased Allowance by " + IntToString(amount) + " tokens at " + at
                  + " to address " + lib.addressString(spender) + "\n";
      case "decreaseallowance" =>
        var chk := Utils.ValidateLength(funcArgs, 2);
        if chk.Some? { return chk; }
        var spender := lib.hexToAddress(funcArgs[0]);
        var amount := lib.setString(funcArgs[1]);
        tx := instance.value.erc20.decreaseAllowance(auth, spender, amount);
        report := "info: Decreased Allowance by " + IntToString(amount) + " tokens at " + at
                  + " from address " + lib.addressString(spender) + "\n";
      case "mint" =>
        var chk := Utils.ValidateLength(funcArgs, 2);
        if chk.Some? { return chk; }
        var to := lib.hexToAddress(funcArgs[0]);
        var amount := lib.setString(funcArgs[1]);
        tx := instance.value.mint(auth, to, amount);
        report := "info: Minted " + IntToString(amount) + " tokens to " + lib.addressString(to)
                  + " at " + at + "\n";
      case "burn" =>
        var chk := Utils.ValidateLength(funcArgs, 2);
        if chk.Some? { return chk; }
        var from := lib.hexToAddress(funcArgs[0]);
        var amount := lib.setString(funcArgs[1]);
        tx := instance.value.burn(auth, from, amount);
        report := "info: Burned " + IntToString(amount) + " tokens from " + lib.addressString(from)
                  + " at " + at + "\n";
      case _ =>
        return None;
      }
      if tx.Failure? {
        return Some(tx.error);
      }
      lastTx := Some(tx.value);
      strToPrint := report;
      return None;
    }
  }

  // ---------------------------------------------------------------------
  // Properties of this template's write switch and constructor arguments.
  // ---------------------------------------------------------------------

  /** A write case of this template with the wrong number of arguments fails with the arity error and changes nothing. */
  lemma WriteArityMismatch(i1: Option<DetailedInstance>, i2: Option<DetailedInstance>, lib: Library,
                           address: Address, auth: Auth, funcName: string, args: seq<string>, s: TokenState)
    requires WriteArity(funcName).Some? && |args| != WriteArity(funcName).value
    ensures WriteStep(i1, lib, address, auth, funcName, args, s)
         == WriteStep(i2, lib, address, auth, funcName, args, s)
         == Step(Some(ArityError(|args|, WriteArity(funcName).value)), s)
  {
    if funcName != "mint" && funcName != "burn" {
      TokenTemplate.WriteArityMismatch(Token, Erc20Of(i1), Erc20Of(i2), lib, address, auth, funcName, args, s);
    }
  }

  /**
   * With the right arity, every write case of this template, `mint` and
   * `burn` included, returns the instance's error unchanged or records the
   * returned transaction with a report, leaving the caches untouched.
   */
  lemma WriteForwardsInstance(inst: DetailedInstance, lib: Library, address: Address, auth: Auth,
                              funcName: string, args: seq<string>, s: TokenState)
    requires Reaches(WriteArity(funcName), args)
    ensures var r := WriteStep(Some(inst), lib, address, auth, funcName, args, s);
            match WriteCall(inst, lib, auth, funcName, args)
            case Failure(e) => r == Step(Some(e), s)
            case Success(tx) =>
              && r.err.None?
              && r.state == s.(lastTx := Some(tx), strToPrint := r.state.strToPrint)
              && Mentions(r.state.strToPrint, At(Token, lib, address))
              && EndsWith(r.state.strToPrint, "\n")
  {
    var at := At(Token, lib, address);
    if funcName == "mint" {
      ReportEndsNaming("info: Minted " + IntToString(lib.setString(args[1])) + " tokens to "
                       + lib.addressString(lib.hexToAddress(args[0])) + " at ", at, "\n");
    } else if funcName == "burn" {
      ReportEndsNaming("info: Burned " + IntToString(lib.setString(args[1])) + " tokens from "
                       + lib.addressString(lib.hexToAddress(args[0])) + " at ", at, "\n");
    } else {
      TokenTemplate.WriteForwardsInstance(Token, inst.erc20, lib, address, auth, funcName, args, s);
    }
  }

  /** A name outside this template's write cases is a silent success that changes nothing. */
  lemma WriteUnknownIsNoOp(inst: Option<DetailedInstance>, lib: Library, address: Address, auth: Auth,
                           funcName: string, args: seq<string>, s: TokenState)
    requires WriteArity(funcName).None?
    ensures WriteStep(inst, lib, address, auth, funcName, args, s) == Step(None, s)
  {
    TokenTemplate.WriteUnknownIsNoOp(Token, Erc20Of(inst), lib, address, auth, funcName, args, s);
  }
}
