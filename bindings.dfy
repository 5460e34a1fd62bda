/**
 * The generated contract bindings and the RPC client, seen only through what
 * the templates call on them. Every chain call is a total function from its
 * arguments to a value or an error; what the chain does is not modelled.
 */
module Bindings {
  import opened Common

  /** A state-changing call of one address and one amount (`Transfer`, `Approve`, ...). */
  type Send1 = (Auth, Address, int) -> Result<Transaction>

  /**
   * The `IInstance` methods both token templates use: the ERC-20 queries and
   * the ERC-20 writes, and `IncreaseAllowance` / `DecreaseAllowance`.
   */
  datatype Erc20Instance = Erc20Instance(
    transfer: Send1,
    approve: Send1,
    transferFrom: (Auth, Address, Address, int) -> Result<Transaction>,
    increaseAllowance: Send1,
    decreaseAllowance: Send1,
    name: () -> Result<string>,
    symbol: () -> Result<string>,
    decimals: () -> Result<byte>,
    totalSupply: () -> Result<int>,
    balanceOf: Address -> Result<int>,
    allowance: (Address, Address) -> Result<int>
  )

  /** The DetailedTestToken `IInstance`: the ERC-20 methods plus `Mint` and `Burn`. */
  datatype DetailedInstance = DetailedInstance(erc20: Erc20Instance, mint: Send1, burn: Send1)

  /** What a generated `Deploy...` function returns on success. */
  datatype Deployment<I> = Deployment(address: Address, tx: Transaction, instance: I)

  /**
   * `eth_rpc_client.IEthClient` as the generated bindings use it:
   * `DeployDetailedTestToken`, `NewDetailedTestToken`, `DeployFastTestToken`
   * and `NewFastTestToken` run against this client.
   */
  datatype EthClient = EthClient(
    deployDetailed: (Auth, string, string, Option<int>) -> Result<Deployment<DetailedInstance>>,
    newDetailed: Address -> Result<DetailedInstance>,
    deployFast: Auth -> Result<Deployment<Erc20Instance>>,
    newFast: Address -> Result<Erc20Instance>
  )
}
