/**
 * What the `QueryContract` and `WriteContract` switches of the token
 * templates do, as functions of the template's fields. DetailedTestToken and
 * FastTestToken repeat the same cases word for word, apart from the contract
 * name in their reports and DetailedTestToken's extra `mint` and `burn`
 * writes; both classes are proved to follow these functions.
 */
module TokenTemplate {
  import opened Common
  import opened Bindings
  import Utils

  /** The fields that queries and writes update: the query caches, `LastTx` and `StrToPrint`. */
  datatype TokenState = TokenState(
    name: string,
    symbol: string,
    decimals: byte,
    totalSupply: Option<int>,
    balanceOf: map<Address, int>,
    allowance: map<Address, map<Address, int>>,
    lastTx: Option<Transaction>,
    strToPrint: string
  )

  /** The error a template method returns (`None` for nil) and the fields it leaves behind. */
  datatype Step = Step(err: Option<Error>, state: TokenState)

  /** The number of arguments each query case demands; `None` for a name the switch does not handle. */
  function QueryArity(funcName: string): Option<nat>
  {
    match funcName
    case "name" => Some(0)
    case "symbol" => Some(0)
    case "decimals" => Some(0)
    case "totalsupply" => Some(0)
    case "balanceof" => Some(1)
    case "allowance" => Some(2)
    case _ => None
  }

  /** The number of arguments each write case common to both templates demands. */
  function BaseWriteArity(funcName: string): Option<nat>
  {
    match funcName
    case "transfer" => Some(2)
    case "approve" => Some(2)
    case "transferfrom" => Some(3)
    case "increaseallowance" => Some(2)
    case "decreaseallowance" => Some(2)
    case _ => None
  }

  /** A case whose arity check passes goes on to call the contract instance. */
  predicate Reaches(arity: Option<nat>, args: seq<string>)
  {
    arity.Some? && |args| == arity.value
  }

  /** The ` (<address>)` suffix naming the contract in every report. */
  function At(token: string, lib: Library, address: Address): string
  {
    token + " (" + lib.addressString(address) + ")"
  }

  /**
   * One call of `QueryContract(funcName, args)` on a template named `token`
   * at `address` whose instance is `inst`. The instance must be bound on the
   * paths that call it (Go would dereference a nil interface).
   */
  function QueryStep(token: string, inst: Option<Erc20Instance>, lib: Library, address: Address,
                     funcName: string, args: seq<string>, s: TokenState): (r: Step)
    requires Reaches(QueryArity(funcName), args) ==> inst.Some?
    ensures r.err.Some? ==> r.state == s
    ensures r.state.lastTx == s.lastTx
  {
    var at := At(token, lib, address) + "\n";
    match funcName
    case "name" =>
      var chk := Utils.ValidateLength(args, 0);
      if chk.Some? then Step(chk, s)
      else (match inst.value.name()
        case Failure(e) => Step(Some(e), s)
        case Success(v) => Step(None, s.(name := v, strToPrint := "info: Token Name: " + v + " for " + at)))
    case "symbol" =>
      var chk := Utils.ValidateLength(args, 0);
      if chk.Some? then Step(chk, s)
      else (match inst.value.symbol()
        case Failure(e) => Step(Some(e), s)
        case Success(v) => Step(None, s.(symbol := v, strToPrint := "info: Token Symbol: " + v + " for " + at)))
    case "decimals" =>
      var chk := Utils.ValidateLength(args, 0);
      if chk.Some? then Step(chk, s)
      else (match inst.value.decimals()
        case Failure(e) => Step(Some(e), s)
        case Success(v) =>
          Step(None, s.(decimals := v, strToPrint := "info: Token Decimals: " + NatToString(v as nat) + " for " + at)))
    case "totalsupply" =>
      var chk := Utils.ValidateLength(args, 0);
      if chk.Some? then Step(chk, s)
      else (match inst.value.totalSupply()
        case Failure(e) => Step(Some(e), s)
        case Success(v) =>
          Step(None, s.(totalSupply := Some(v), strToPrint := "info: Token TotalSupply: " + IntToString(v) + " for " + at)))
    case "balanceof" =>
      var chk := Utils.ValidateLength(args, 1);
      if chk.Some? then Step(chk, s)
      else
        var account := lib.hexToAddress(args[0]);
        (match inst.value.balanceOf(account)
        case Failure(e) => Step(Some(e), s)
        case Success(v) =>
          Step(None, s.(balanceOf := s.balanceOf[account := v],
                        strToPrint := "info: Token Balance of " + lib.addressString(account) + " : "
                                      + IntToString(v) + " for " + at)))
    case "allowance" =>
      var chk := Utils.ValidateLength(args, 2);
      if chk.Some? then Step(chk, s)
      else
        var owner := lib.hexToAddress(args[0]);
        var spender := lib.hexToAddress(args[1]);
        (match inst.value.allowance(owner, spender)
        case Failure(e) => Step(Some(e), s)
        case Success(v) =>
          var inner := if owner in s.allowance then s.allowance[owner] else map[];
          Step(None, s.(allowance := s.allowance[owner := inner[spender := v]],
                        strToPrint := "info: Token Allowance of spender " + lib.addressString(spender)
                                      + " from owner " + lib.addressString(owner) + " is "
                                      + IntToString(v) + " for " + at)))
    case _ => Step(None, s)
  }

  /** The outcome of a write call: the transaction is recorded with its report, an error changes nothing. */
  function Sent(s: TokenState, sent: Result<Transaction>, report: string): Step
  {
    match sent
    case Failure(e) => Step(Some(e), s)
    case Success(tx) => Step(None, s.(lastTx := Some(tx), strToPrint := report))
  }

  /**
   * One call of `WriteContract(auth, funcName, args)` restricted to the write
   * cases both templates share (a name outside them is a silent success).
   */
  function BaseWriteStep(token: string, inst: Option<Erc20Instance>, lib: Library, address: Address,
                         auth: Auth, funcName: string, args: seq<string>, s: TokenState): (r: Step)
    requires Reaches(BaseWriteArity(funcName), args) ==> inst.Some?
    ensures r.err.Some? ==> r.state == s
    ensures r.state == s.(lastTx := r.state.lastTx, strToPrint := r.state.strToPrint)
  {
    var at := At(token, lib, address);
    match funcName
    case "transfer" =>
      var chk := Utils.ValidateLength(args, 2);
      if chk.Some? then Step(chk, s)
      else
        var recipient := lib.hexToAddress(args[0]);
        var amount := lib.setString(args[1]);
        Sent(s, inst.value.transfer(auth, recipient, amount),
             "info: Transferred " + IntToString(amount) + " tokens at " + at
             + " to address " + lib.addressString(recipient) + "\n")
    case "approve" =>
      var chk := Utils.ValidateLength(args, 2);
      if chk.Some? then Step(chk, s)
      else
        var recipient := lib.hexToAddress(args[0]);
        var amount := lib.setString(args[1]);
        Sent(s, inst.value.approve(auth, recipient, amount),
             "info: Approved " + IntToString(amount) + " tokens at " + at
             + " to address " + lib.addressString(recipient) + "\n")
    case "transferfrom" =>
      var chk := Utils.ValidateLength(args, 3);
      if chk.Some? then Step(chk, s)
      else
        var sender := lib.hexToAddress(args[0]);
        var recipient := lib.hexToAddress(args[1]);
        var amount := lib.setString(args[2]);
        Sent(s, inst.value.transferFrom(auth, sender, recipient, amount),
             "info: Transferred From " + lib.addressString(sender) + " " + IntToString(amount)
             + " tokens at " + at + " to address " + lib.addressString(recipient) + "\n")
    case "increaseallowance" =>
      var chk := Utils.ValidateLength(args, 2);
      if chk.Some? then Step(chk, s)
      else
        var spender := lib.hexToAddress(args[0]);
        var amount := lib.setString(args[1]);
        Sent(s, inst.value.increaseAllowance(auth, spender, amount),
             "info: Increased Allowance by " + IntToString(amount) + " tokens at " + at
             + " to address " + lib.addressString(spender) + "\n")
    case "decreaseallowance" =>
      var chk := Utils.ValidateLength(args, 2);
      if chk.Some? then Step(chk, s)
      else
        var spender := lib.hexToAddress(args[0]);
        var amount := lib.setString(args[1]);
        Sent(s, inst.value.decreaseAllowance(auth, spender, amount),
             "info: Decreased Allowance by " + IntToString(amount) + " tokens at " + at
             + " from address " + lib.addressString(spender) + "\n")
    case _ => Step(None, s)
  }

  // ---------------------------------------------------------------------
  // Which instance method each case calls, and with what arguments.
  // ---------------------------------------------------------------------

  /** A value a query reads from the contract. */
  datatype Answer = Text(text: string) | Small(small: byte) | Amount(amount: int)

  /** The instance call a query case makes once its arity check has passed. */
  function QueryCall(inst: Erc20Instance, lib: Library, funcName: string, args: seq<string>): Result<Answer>
    requires Reaches(QueryArity(funcName), args)
  {
    if funcName == "name" then Wrap(inst.name(), x => Text(x))
    else if funcName == "symbol" then Wrap(inst.symbol(), x => Text(x))
    else if funcName == "decimals" then Wrap(inst.decimals(), x => Small(x))
    else if funcName == "totalsupply" then Wrap(inst.totalSupply(), x => Amount(x))
    else if funcName == "balanceof" then Wrap(inst.balanceOf(lib.hexToAddress(args[0])), x => Amount(x))
    else Wrap(inst.allowance(lib.hexToAddress(args[0]), lib.hexToAddress(args[1])), x => Amount(x))
  }

  function Wrap<T>(r: Result<T>, f: T -> Answer): Result<Answer>
  {
    match r
    case Success(v) => Success(f(v))
    case Failure(e) => Failure(e)
  }

  /** The instance call a write case makes once its arity check has passed. */
  function BaseWriteCall(inst: Erc20Instance, lib: Library, auth: Auth, funcName: string, args: seq<string>)
    : Result<Transaction>
    requires Reaches(BaseWriteArity(funcName), args)
  {
    if funcName == "transferfrom" then
      inst.transferFrom(auth, lib.hexToAddress(args[0]), lib.hexToAddress(args[1]), lib.setString(args[2]))
    else
      var send :=
        if funcName == "transfer" then inst.transfer
        else if funcName == "approve" then inst.approve
        else if funcName == "increaseallowance" then inst.increaseAllowance
        else inst.decreaseAllowance;
      send(auth, lib.hexToAddress(args[0]), lib.setString(args[1]))
  }

  // ---------------------------------------------------------------------
  // The shape of the reports.
  // ---------------------------------------------------------------------

  /** `t` ends with `suffix`. */
  predicate EndsWith(t: string, suffix: string)
  {
    |suffix| <= |t| && t[|t| - |suffix|..] == suffix
  }

  /** `m` occurs in `t` starting at index `i`. */
  predicate OccursAt(t: string, m: string, i: int)
  {
    0 <= i <= |t| - |m| && t[i..i + |m|] == m
  }

  /** `m` occurs somewhere in `t`. */
  ghost predicate Mentions(t: string, m: string)
  {
    exists i :: OccursAt(t, m, i)
  }

  /** A query report `p + " for " + at + "\n"` ends with the contract it names. */
  lemma QueryReportTail(p: string, at: string)
    ensures EndsWith(p + " for " + (at + "\n"), " for " + at + "\n")
  {
    assert (p + " for " + (at + "\n"))[|p|..] == " for " + at + "\n";
  }

  /** A report with `at` followed by a closing text ending in `c` names `at` and ends with `c`. */
  lemma ReportNames(p: string, at: string, a: string, b: string, c: string)
    ensures Mentions(p + at + a + b + c, at) && EndsWith(p + at + a + b + c, c)
  {
    assert OccursAt(p + at + a + b + c, at, |p|);
  }

  /** A report ending with `at` and then `c` names `at` and ends with `c`. */
  lemma ReportEndsNaming(p: string, at: string, c: string)
    ensures Mentions(p + at + c, at) && EndsWith(p + at + c, c)
  {
    assert OccursAt(p + at + c, at, |p|);
  }

  // ---------------------------------------------------------------------
  // Properties of the query switch.
  // ---------------------------------------------------------------------

  /**
   * A handled query with the wrong number of arguments fails with the arity
   * error, whatever the instance (it is never consulted), and changes nothing.
   */
  lemma QueryArityMismatch(token: string, i1: Option<Erc20Instance>, i2: Option<Erc20Instance>, lib: Library,
                           address: Address, funcName: string, args: seq<string>, s: TokenState)
    requires QueryArity(funcName).Some? && |args| != QueryArity(funcName).value
    ensures QueryStep(token, i1, lib, address, funcName, args, s)
         == QueryStep(token, i2, lib, address, funcName, args, s)
         == Step(Some(ArityError(|args|, QueryArity(funcName).value)), s)
  {
  }

  /** A name the query switch does not handle is a silent success that changes nothing. */
  lemma QueryUnknownIsNoOp(token: string, inst: Option<Erc20Instance>, lib: Library, address: Address,
                           funcName: string, args: seq<string>, s: TokenState)
    requires QueryArity(funcName).None?
    ensures QueryStep(token, inst, lib, address, funcName, args, s) == Step(None, s)
  {
  }

  /** With the right arity, a failing instance call is returned unchanged and nothing changes. */
  lemma QueryFailureForwarded(token: string, inst: Erc20Instance, lib: Library, address: Address,
                              funcName: string, args: seq<string>, s: TokenState)
    requires Reaches(QueryArity(funcName), args)
    requires QueryCall(inst, lib, funcName, args).Failure?
    ensures QueryStep(token, Some(inst), lib, address, funcName, args, s)
         == Step(Some(QueryCall(inst, lib, funcName, args).error), s)
  {
  }

  /**
   * With the right arity and a successful instance call, the query succeeds,
   * stores the value read into exactly the cache entry it names, writes a
   * report naming the contract, and leaves every other field as it was.
   */
  lemma QuerySuccessUpdatesOneEntry(token: string, inst: Erc20Instance, lib: Library, address: Address,
                                    funcName: string, args: seq<string>, s: TokenState)
    requires Reaches(QueryArity(funcName), args)
    requires QueryCall(inst, lib, funcName, args).Success?
    ensures var r := QueryStep(token, Some(inst), lib, address, funcName, args, s);
            var v := QueryCall(inst, lib, funcName, args).value;
            var t := r.state.strToPrint;
            && r.err.None?
            && EndsWith(t, " for " + At(token, lib, address) + "\n")
            && (funcName == "name" ==> r.state == s.(name := v.text, strToPrint := t))
            && (funcName == "symbol" ==> r.state == s.(symbol := v.text, strToPrint := t))
            && (funcName == "decimals" ==> r.state == s.(decimals := v.small, strToPrint := t))
            && (funcName == "totalsupply" ==> r.state == s.(totalSupply := Some(v.amount), strToPrint := t))
            && (funcName == "balanceof" ==>
                  r.state == s.(balanceOf := r.state.balanceOf, strToPrint := t)
                  && BalanceUpdated(s.balanceOf, r.state.balanceOf, lib.hexToAddress(args[0]), v.amount))
            && (funcName == "allowance" ==>
                  r.state == s.(allowance := r.state.allowance, strToPrint := t)
                  && AllowanceUpdated(s.allowance, r.state.allowance,
                                      lib.hexToAddress(args[0]), lib.hexToAddress(args[1]), v.amount))
  {
    var at := At(token, lib, address);
    match funcName {
      case "name" => QueryReportTail("info: Token Name: " + inst.name().value, at);
      case "symbol" => QueryReportTail("info: Token Symbol: " + inst.symbol().value, at);
      case "decimals" => QueryReportTail("info: Token Decimals: " + NatToString(inst.decimals().value as nat), at);
      case "totalsupply" => QueryReportTail("info: Token TotalSupply: " + IntToString(inst.totalSupply().value), at);
      case "balanceof" =>
        var account := lib.hexToAddress(args[0]);
        QueryReportTail("info: Token Balance of " + lib.addressString(account) + " : "
                        + IntToString(inst.balanceOf(account).value), at);
      case "allowance" =>
        var owner, spender := lib.hexToAddress(args[0]), lib.hexToAddress(args[1]);
        QueryReportTail("info: Token Allowance of spender " + lib.addressString(spender)
                        + " from owner " + lib.addressString(owner) + " is "
                        + IntToString(inst.allowance(owner, spender).value), at);
    }
  }

  /** `after` is `before` with `account`'s balance set to `v` and every other account untouched. */
  ghost predicate BalanceUpdated(before: map<Address, int>, after: map<Address, int>, account: Address, v: int)
  {
    && account in after && after[account] == v
    && after.Keys == before.Keys + {account}
    && forall a :: a in before && a != account ==> after[a] == before[a]
  }

  /**
   * `after` is `before` with the allowance of `spender` under `owner` set to
   * `v`; other owners keep their maps, and `owner` keeps its other spenders.
   */
  ghost predicate AllowanceUpdated(before: map<Address, map<Address, int>>, after: map<Address, map<Address, int>>,
                                   owner: Address, spender: Address, v: int)
  {
    && owner in after && spender in after[owner] && after[owner][spender] == v
    && after.Keys == before.Keys + {owner}
    && (forall o :: o in before && o != owner ==> after[o] == before[o])
    && (owner in before ==> after[owner].Keys == before[owner].Keys + {spender})
    && (owner !in before ==> after[owner].Keys == {spender})
    && (owner in before ==> forall sp :: sp in before[owner] && sp != spender ==> after[owner][sp] == before[owner][sp])
  }

  /** Asking the same question twice of the same instance leaves what asking it once left. */
  lemma QueryIdempotent(token: string, inst: Option<Erc20Instance>, lib: Library, address: Address,
                        funcName: string, args: seq<string>, s: TokenState)
    requires Reaches(QueryArity(funcName), args) ==> inst.Some?
    ensures var once := QueryStep(token, inst, lib, address, funcName, args, s);
            QueryStep(token, inst, lib, address, funcName, args, once.state) == once
  {
    var once := QueryStep(token, inst, lib, address, funcName, args, s);
    if funcName == "allowance" && |args| == 2 && once.err.None? {
      var owner, spender := lib.hexToAddress(args[0]), lib.hexToAddress(args[1]);
      var v := inst.value.allowance(owner, spender).value;
      var inner := if owner in s.allowance then s.allowance[owner] else map[];
      assert once.state.allowance == s.allowance[owner := inner[spender := v]];
      assert inner[spender := v][spender := v] == inner[spender := v];
      assert once.state.allowance[owner := once.state.allowance[owner][spender := v]] == once.state.allowance;
    } else if funcName == "balanceof" && |args| == 1 && once.err.None? {
      var account := lib.hexToAddress(args[0]);
      assert once.state.balanceOf[account := once.state.balanceOf[account]] == once.state.balanceOf;
    }
  }

  // ---------------------------------------------------------------------
  // Properties of the shared write cases.
  // ---------------------------------------------------------------------

  /** A shared write case with the wrong number of arguments fails with the arity error and changes nothing. */
  lemma WriteArityMismatch(token: string, i1: Option<Erc20Instance>, i2: Option<Erc20Instance>, lib: Library,
                           address: Address, auth: Auth, funcName: string, args: seq<string>, s: TokenState)
    requires BaseWriteArity(funcName).Some? && |args| != BaseWriteArity(funcName).value
    ensures BaseWriteStep(token, i1, lib, address, auth, funcName, args, s)
         == BaseWriteStep(token, i2, lib, address, auth, funcName, args, s)
         == Step(Some(ArityError(|args|, BaseWriteArity(funcName).value)), s)
  {
  }

  /**
   * With the right arity, the write returns the instance's error unchanged
   * (changing nothing) or records the returned transaction as `LastTx`
   * together with a report, leaving the caches as they were.
   */
  lemma WriteForwardsInstance(token: string, inst: Erc20Instance, lib: Library, address: Address,
                              auth: Auth, funcName: string, args: seq<string>, s: TokenState)
    requires Reaches(BaseWriteArity(funcName), args)
    ensures var r := BaseWriteStep(token, Some(inst), lib, address, auth, funcName, args, s);
            match BaseWriteCall(inst, lib, auth, funcName, args)
            case Failure(e) => r == Step(Some(e), s)
            case Success(tx) =>
              && r.err.None?
              && r.state == s.(lastTx := Some(tx), strToPrint := r.state.strToPrint)
              && Mentions(r.state.strToPrint, At(token, lib, address))
              && EndsWith(r.state.strToPrint, "\n")
  {
    var at := At(token, lib, address);
    match funcName {
      case "transfer" =>
        var amount := lib.setString(args[1]);
        ReportNames("info: Transferred " + IntToString(amount) + " tokens at ", at,
                    " to address ", lib.addressString(lib.hexToAddress(args[0])), "\n");
      case "approve" =>
        var amount := lib.setString(args[1]);
        ReportNames("info: Approved " + IntToString(amount) + " tokens at ", at,
                    " to address ", lib.addressString(lib.hexToAddress(args[0])), "\n");
      case "transferfrom" =>
        var amount := lib.setString(args[2]);
        ReportNames("info: Transferred From " + lib.addressString(lib.hexToAddress(args[0])) + " "
                    + IntToString(amount) + " tokens at ", at,
                    " to address ", lib.addressString(lib.hexToAddress(args[1])), "\n");
      case "increaseallowance" =>
        var amount := lib.setString(args[1]);
        ReportNames("info: Increased Allowance by " + IntToString(amount) + " tokens at ", at,
                    " to address ", lib.addressString(lib.hexToAddress(args[0])), "\n");
      case "decreaseallowance" =>
        var amount := lib.setString(args[1]);
        ReportNames("info: Decreased Allowance by " + IntToString(amount) + " tokens at ", at,
                    " from address ", lib.addressString(lib.hexToAddress(args[0])), "\n");
    }
  }

  /** A name outside the shared write cases is a silent success that changes nothing. */
  lemma WriteUnknownIsNoOp(token: string, inst: Option<Erc20Instance>, lib: Library, address: Address,
                           auth: Auth, funcName: string, args: seq<string>, s: TokenState)
    requires BaseWriteArity(funcName).None?
    ensures BaseWriteStep(token, inst, lib, address, auth, funcName, args, s) == Step(None, s)
  {
  }
}
