# go-evm-client contract dispatch layer, in Dafny

This project models the part of go-evm-client that turns a command-line
request into a call on an ERC-20 token contract:

- the argument and flag helpers (`Contains`, `ValidateLength`,
  `RequiredFlagVerification`);
- the template registry (`ContractNamesDict`, the per-kind `query`, `write`
  and `all` name lists, `VerifyContractTypeExists`,
  `VerifyFunctionNameExists`);
- the two contract templates, DetailedTestToken and FastTestToken. Each is
  an object whose `ParseConstructorArguments`, `DeployContract`,
  `LoadContract`, `QueryContract` and `WriteContract` methods update its
  address, transaction, instance, query caches and report string;
- the `Contract` wrapper, which sequences calls on an `IContract`;
- the executor and deployer facades, which resolve the kind in the registry
  and route a named operation to the query or the write switch.

Layout, one module per file:

| file | module | models |
|---|---|---|
| `common.dfy` | `Common` | Go `error` values and their texts, `common.Address`, transactions, signing options, `%d` formatting |
| `utils.dfy` | `Utils` | `internal/utils/utils.go` |
| `bindings.dfy` | `Bindings` | the generated `IInstance` bindings and the RPC client, as records of total functions |
| `token_template.dfy` | `TokenTemplate` | the query switch and the shared write cases, as functions of the template's fields |
| `detailed_test_token.dfy` | `DetailedTestToken` | `pkg/contracts/detailed_test_token/contract_controller.go` |
| `fast_test_token.dfy` | `FastTestToken` | `pkg/contracts/fast_test_token/contract_controller.go` |
| `contracts_template_interface.dfy` | `ContractsTemplateInterface` | `internal/contracts_template_interface/contracts_template_interface.go` |
| `constants.dfy` | `Constants` | `internal/constants/constants.go` |
| `contract_interactor_facade.dfy` | `ContractInteractorFacade` | `DeployContract`, `LoadContract` and `ExecuteContract` of `internal/contract_interactor_facade/contract_interactor_facade.go` |

How the parts fit together:

- **Templates.** Each template is a Dafny `class` with the Go struct's
  fields.
  - Every method names the fields it may change, field by field.
  - Each of `QueryContract` and `WriteContract` is proved equal to a pure
    function of the old fields: `TokenTemplate.QueryStep`,
    `TokenTemplate.BaseWriteStep` or `DetailedTestToken.WriteStep`.
  - The lemmas about those functions carry the properties: arity errors
    before any chain call, errors forwarded unchanged, one cache entry
    written, unknown names as silent no-ops, idempotent queries.
- **`IContract`.** The Go interface has exactly two implementations, so it is
  the datatype `IContract = Detailed(..) | Fast(..)`.
- **Registry.** The registry holds one object per kind. Every lookup returns
  the same object, so what `LoadContract` sets is what `ExecuteContract`
  works on.
- **Text of errors and reports.** Argument-count errors and `%d` are spelled
  out exactly, and the arity error text is proved to read back into the two
  counts it states. `common.HexToAddress`, `big.Int.SetString` and the `%s`
  text of an address are parameters: the `Library` record.

Behaviour at the edges, as the code has it:

- An unknown contract kind is not reported as an error by the facades.
  `ExecuteContract` reads empty query and write lists for it, calls nothing
  and succeeds; the model states exactly that. `DeployContract` and
  `LoadContract` would call a method on the nil interface the registry
  lookup yields, so those two require a known kind, which the command-line
  entry point checks before building a facade.
- Calling a template whose `Instance` is nil would dereference nil. So the
  template methods require a bound instance, but only on the paths that
  reach the instance call. An arity error or an unknown name needs no
  instance.

## Model

| member | source | states |
|---|---|---|
| Utils.Contains | internal/utils/utils.go:9-16 | true exactly when some element of the list equals the string |
| Utils.ValidateLength | internal/utils/utils.go:20-28 | no error exactly when the list has the expected length; otherwise an arity error whose text reads back into the received and expected counts |
| Utils.RequiredFlagVerification | internal/utils/utils.go:32-39 | true exactly when every flag is non-empty (so true for no flags) |
| Utils.ArityMessageRoundTrip | internal/utils/utils.go:22-25 | the text "error: <got> arguments does not match required <want>" parses back to exactly (got, want) |
| Utils.ArityMessageInjective | internal/utils/utils.go:22-25 | two arity errors with the same text report the same counts |
| Utils.OneArgumentForNoneText | pkg/contracts/detailed_test_token/contract_controller_test.go:134-141 | one argument where none is expected gives exactly "error: 1 arguments does not match required 0" |
| Utils.FourArgumentsForThreeText | pkg/contracts/fast_test_token/contract_controller_test.go:570-578 | four arguments where three are expected gives exactly "error: 4 arguments does not match required 3" |
| Constants.FuncNames | internal/constants/constants.go:40-51 | the kind's name list for a category; an unknown kind has the empty list |
| Constants.VerifyFunctionNameExists | internal/constants/constants.go:61-69 | true exactly when the name is in the kind's "all" list; false for every unknown kind |
| Constants.ContractNamesDict.constructor | internal/constants/constants.go:12-15 | the registry starts with two fresh zero-valued templates: empty fields and caches, the zero address, no instance, and DetailedTestToken's constructor arguments empty with no amount |
| Constants.ContractNamesDict.Get | internal/constants/constants.go:12-15 | a template exactly for the two known kinds, and always the same object for a kind |
| Constants.VerifyContractTypeExists | internal/constants/constants.go:54-57 | true exactly for the kinds that have name lists |
| Constants.KnownKinds | internal/constants/constants.go:54-57 | a kind exists exactly when it is "detailed_test_token" or "fast_test_token", which are exactly the kinds with name lists |
| Constants.AllIsQueryThenWrite | internal/constants/constants.go:41-50 | for every kind, the "all" list is the query list followed by the write list |
| Constants.QueryAndWriteDisjoint | internal/constants/constants.go:19-36 | no name is both a query and a write of the same kind |
| Constants.KindsDiffer | internal/constants/constants.go:41-50 | both kinds have the same query list; mint and burn are DetailedTestToken writes and no FastTestToken name |
| Constants.QueryListMatchesSwitch | internal/constants/constants.go:19-26 | for a known kind, a name is in the query list exactly when the query switch has a case for it |
| Constants.WriteListMatchesSwitch | internal/constants/constants.go:30-48 | a name is in a kind's write list exactly when that template's write switch has a case for it |
| TokenTemplate.QueryStep | pkg/contracts/detailed_test_token/contract_controller.go:302-392 | a query that returns an error changes no field; no query changes the last transaction |
| TokenTemplate.BaseWriteStep | pkg/contracts/fast_test_token/contract_controller.go:147-233 | a write that returns an error changes no field; a write changes nothing but the last transaction and the report |
| TokenTemplate.QueryArityMismatch | pkg/contracts/detailed_test_token/contract_controller.go:307-376 | a query case given the wrong number of arguments returns the arity error, changes nothing, and does so whatever the instance is |
| TokenTemplate.QueryUnknownIsNoOp | pkg/contracts/detailed_test_token/contract_controller.go:388-389 | a name with no query case succeeds and changes nothing |
| TokenTemplate.QueryFailureForwarded | pkg/contracts/fast_test_token/contract_controller.go:245-325 | with the right arity, a failing instance call's error is returned unchanged and nothing changes |
| TokenTemplate.QuerySuccessUpdatesOneEntry | pkg/contracts/detailed_test_token/contract_controller.go:355-387 | a successful query stores the value read in exactly its cache entry (one balance key; one owner/spender pair, creating the owner's map when absent), writes a report that ends with " for ", the token name and address, and a newline, and keeps every other field |
| TokenTemplate.QueryIdempotent | pkg/contracts/detailed_test_token/contract_controller.go:302-392 | repeating a query against the same instance leaves the same result and state as asking once |
| TokenTemplate.WriteArityMismatch | pkg/contracts/fast_test_token/contract_controller.go:153-228 | a shared write case given the wrong number of arguments returns the arity error before any instance call and changes nothing |
| TokenTemplate.WriteForwardsInstance | pkg/contracts/fast_test_token/contract_controller.go:153-228 | with the right arity, the instance's error is returned unchanged with no change, or its transaction becomes the last transaction, with a report that names the token and its address and ends with a newline, and the caches kept |
| TokenTemplate.WriteUnknownIsNoOp | pkg/contracts/fast_test_token/contract_controller.go:229-230 | a name outside the shared write cases succeeds and changes nothing |
| DetailedTestToken.ParseConstructorArgs | pkg/contracts/detailed_test_token/contract_controller.go:97-114 | succeeds exactly for three arguments, giving name and symbol as passed and the amount as `SetString` reads the third; otherwise the constructor arity error for 3 needed and the count received |
| DetailedTestToken.ConstructorArityText | pkg/contracts/detailed_test_token/contract_controller.go:99-104 | the constructor arity error reads "error: incorrect amount of arguments, args needed : 3 != args received <n>" |
| DetailedTestToken.WriteStep | pkg/contracts/detailed_test_token/contract_controller.go:178-295 | a write, mint and burn included, that returns an error changes no field; a write changes nothing but the last transaction and the report |
| DetailedTestToken.WriteArityMismatch | pkg/contracts/detailed_test_token/contract_controller.go:184-290 | any write case, mint and burn included, given the wrong number of arguments returns the arity error whatever the instance and changes nothing |
| DetailedTestToken.WriteForwardsInstance | pkg/contracts/detailed_test_token/contract_controller.go:261-290 | with the right arity, every write case forwards the instance's error with no change or records its transaction with a report that names the token and its address and ends with a newline, keeping the caches |
| DetailedTestToken.WriteUnknownIsNoOp | pkg/contracts/detailed_test_token/contract_controller.go:291-292 | a name outside the write cases succeeds and changes nothing |
| DetailedTestToken.DetailedTestTokenContract.constructor | pkg/contracts/detailed_test_token/contract_controller.go:64-72 | the zero value: empty fields and caches, no amount, no transaction, no instance |
| DetailedTestToken.DetailedTestTokenContract.ParseConstructorArguments | pkg/contracts/detailed_test_token/contract_controller.go:97-114 | stores what the arguments parse to, or returns the parse error and keeps the old arguments |
| DetailedTestToken.DetailedTestTokenContract.DeployContract | pkg/contracts/detailed_test_token/contract_controller.go:118-135 | a failed deployment changes nothing; a successful one records the address, transaction and instance |
| DetailedTestToken.DetailedTestTokenContract.LoadContract | pkg/contracts/detailed_test_token/contract_controller.go:139-153 | a failed binding changes nothing; a successful one records the instance and address and empties both balance caches |
| DetailedTestToken.DetailedTestTokenContract.QueryContract | pkg/contracts/detailed_test_token/contract_controller.go:302-392 | returns the error and leaves exactly the fields the query function gives for the old fields |
| DetailedTestToken.DetailedTestTokenContract.WriteContract | pkg/contracts/detailed_test_token/contract_controller.go:178-295 | returns the error and leaves exactly the fields the write function gives for the old fields |
| FastTestToken.WriteStep | pkg/contracts/fast_test_token/contract_controller.go:147-233 | a write that returns an error changes no field; a write changes nothing but the last transaction and the report |
| FastTestToken.MintAndBurnAreNoOps | pkg/contracts/fast_test_token/contract_controller.go:152-232 | mint and burn have no case here: they succeed and change nothing |
| FastTestToken.FastTestTokenContract.constructor | pkg/contracts/fast_test_token/contract_controller.go:56-64 | the zero value: empty fields and caches, no transaction, no instance |
| FastTestToken.FastTestTokenContract.ParseConstructorArguments | pkg/contracts/fast_test_token/contract_controller.go:85-87 | always succeeds, whatever the arguments |
| FastTestToken.FastTestTokenContract.DeployContract | pkg/contracts/fast_test_token/contract_controller.go:91-103 | a failed deployment changes nothing; a successful one records the address, transaction and instance |
| FastTestToken.FastTestTokenContract.LoadContract | pkg/contracts/fast_test_token/contract_controller.go:107-122 | a failed binding changes nothing; a successful one records the instance and address and empties both balance caches |
| FastTestToken.FastTestTokenContract.QueryContract | pkg/contracts/fast_test_token/contract_controller.go:240-330 | returns the error and leaves exactly the fields the query function gives for the old fields |
| FastTestToken.FastTestTokenContract.WriteContract | pkg/contracts/fast_test_token/contract_controller.go:147-233 | returns the error and leaves exactly the fields the write function gives for the old fields |
| ContractsTemplateInterface.Contract.constructor | internal/contracts_template_interface/contracts_template_interface.go:62-64 | the wrapper holds the given interface value |
| ContractsTemplateInterface.Contract.DeployContract | internal/contracts_template_interface/contracts_template_interface.go:69-84 | a constructor-argument error is returned before anything is deployed and changes nothing; otherwise the deployment's error is returned unchanged, and on success address, transaction and instance are recorded |
| ContractsTemplateInterface.Contract.LoadContract | internal/contracts_template_interface/contracts_template_interface.go:88-98 | forwards the address and returns the template's load error unchanged, with the template's load effect; DetailedTestToken's constructor arguments are kept |
| ContractsTemplateInterface.Contract.QueryContract | internal/contracts_template_interface/contracts_template_interface.go:102-113 | passes name and arguments through and returns the template query's error and state unchanged; the instance, address and constructor arguments are kept |
| ContractsTemplateInterface.Contract.WriteContract | internal/contracts_template_interface/contracts_template_interface.go:118-130 | passes signer, name and arguments through and returns the template write's error and state unchanged; the instance, address and constructor arguments are kept |
| ContractInteractorFacade.ContractDeployerFacade.constructor | internal/contract_interactor_facade/contract_interactor_facade.go:26-31 | the session holds the given registry, client, signer, kind and arguments |
| ContractInteractorFacade.ContractDeployerFacade.DeployContract | internal/contract_interactor_facade/contract_interactor_facade.go:97-111 | deploys through the registry's template for the kind, with the wrapper's deployment effect |
| ContractInteractorFacade.ContractExecutorFacade.constructor | internal/contract_interactor_facade/contract_interactor_facade.go:179-190 | the session holds the given registry, client, signer, kind, address, name and arguments |
| ContractInteractorFacade.ContractExecutorFacade.LoadContract | internal/contract_interactor_facade/contract_interactor_facade.go:198-211 | loads the registry's template for the kind; it succeeds exactly when the client binds the address, and then the template is bound at that address with its constructor arguments kept |
| ContractInteractorFacade.ContractExecutorFacade.ExecuteContract | internal/contract_interactor_facade/contract_interactor_facade.go:216-240 | a query-list name runs only the query switch, otherwise a write-list name runs only the write switch with the session signer, and any other name changes nothing and succeeds, as does every name of an unknown kind; the chosen switch's error is returned unchanged, and the instance, address and constructor arguments are kept |
| ContractInteractorFacade.ContractExecutorFacade.LoadAndExecute | internal/contract_interactor_facade/contract_interactor_facade.go:198-240 | a failed load stops the session with nothing changed; after a successful load the execution runs on the same registry object, bound at the session's address |
| ContractInteractorFacade.RoutingMatchesSwitches | internal/contract_interactor_facade/contract_interactor_facade.go:216-240 | for a known kind, query-routed names are query cases, write-routed names are write cases of that template, and names routed nowhere are cases of neither switch |

## Left out

- Printing: the `Print*` methods and every `fmt.Println` or `fmt.Printf` of the wrapper and the facades are not modelled. The report string `StrToPrint` that they print is modelled.
- Session setup: `NewContractDeployerFacade` and `NewContractExecutionFacade` (account creation, dialing the RPC endpoint, chain state, the contract-code check, transaction options) are not modelled. The facades are built from their resulting fields.
- The generated bindings and the RPC client are records of total functions returning a value or an error. What a deployment, a binding or a chain call does on chain is not modelled.
- `common.HexToAddress`, `big.Int.SetString` and the `%s` text of an address are arbitrary total functions. `SetString`'s result for malformed input, and its ignored success flag, are not modelled.
- A `*big.Int` result that is nil with no error (which `%d` would print as `<nil>`) is not modelled: amounts are integers.
- The caches `BalanceOf` and `Allowance` are nil maps in Go until `LoadContract` runs, and a write to a nil map panics. The model starts them as empty maps, so a `balanceof` or `allowance` query before any load is not shown to fail.
- `LoadContract` takes a `*common.Address` in Go. The model passes the address itself, so a nil address pointer is not modelled.
- ContractsTemplateInterface.Contract.QueryContract: requires a bound instance on the paths that call it. Go would call a method on a nil interface there and panic; the panic is not modelled.
- ContractsTemplateInterface.Contract.WriteContract: requires a bound instance on the paths that call it, for the same reason; the panic is not modelled.
- ContractInteractorFacade.ContractExecutorFacade.ExecuteContract: requires a bound instance on the switch the name is routed to, where that switch calls it. The nil-interface panic Go would raise there is not modelled.
- ContractInteractorFacade.ContractDeployerFacade.DeployContract: requires a known kind. For an unknown kind Go calls a method on a nil interface and panics; the panic is not modelled.
- ContractInteractorFacade.ContractExecutorFacade.LoadContract: requires a known kind, for the same reason; the panic is not modelled.
- ContractInteractorFacade.ContractExecutorFacade.LoadAndExecute: states only the load outcome and the binding that the execution runs on; the execution's own effect is what `ExecuteContract` states. It requires a known kind, as `LoadContract` does.
- The command-line entry points (flag parsing, lower-casing the function name, exiting) are not modelled. The switches are modelled on the names exactly as given.
- The embedded `cc.Contract` field of both template structs is never used by the templates and is not modelled.
