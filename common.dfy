/**
 * Values shared by every part of the dispatch layer: Go's `error`, the
 * go-ethereum value types the templates handle (addresses, transactions,
 * signing options), the library conversions they call, and `%d` formatting.
 */
module Common {

  datatype Option<+T> = None | Some(value: T)

  /** A call that returns `(T, error)` in Go. */
  datatype Result<+T> = Success(value: T) | Failure(error: Error)

  /** Go's `uint8`. */
  newtype byte = x: int | 0 <= x < 256

  /** `common.Address`: a 20-byte account or contract address. */
  type Address = a: seq<byte> | |a| == 20 witness ZeroAddress

  /** The zero value of `common.Address`. */
  const ZeroAddress: seq<byte> := seq(20, _ => 0)

  /** `*types.Transaction`, known here only by its hash. */
  datatype Transaction = Transaction(hash: seq<byte>)

  /** `*bind.TransactOpts`: the signing identity and fee parameters of a session. */
  datatype Auth = Auth(from: Address, nonce: nat, gasLimit: nat, gasPrice: nat, chainId: nat)

  /** The errors the dispatch layer produces or forwards. */
  datatype Error =
    | ArityError(got: nat, want: int)              // utils.ValidateLength
    | ConstructorArityError(needed: nat, received: nat) // DetailedTestToken constructor arguments
    | ChainError(message: string)                  // anything returned by the chain binding
  {
    /** The text `err.Error()` returns. */
    function Message(): string
    {
      match this
      case ArityError(got, want) =>
        "error: " + NatToString(got) + " arguments does not match required " + IntToString(want)
      case ConstructorArityError(needed, received) =>
        "error: incorrect amount of arguments, args needed : " + NatToString(needed)
        + " != args received " + NatToString(received)
      case ChainError(message) => message
    }
  }

  /**
   * The library functions the templates call on raw argument strings and
   * addresses. They are total, and nothing is assumed about what they return
   * for malformed input.
   */
  datatype Library = Library(
    hexToAddress: string -> Address,  // common.HexToAddress
    setString: string -> int,         // new(big.Int).SetString(s, 10), result flag ignored
    addressString: Address -> string  // `%s` applied to a common.Address
  )

  predicate IsDigit(c: char) { '0' <= c <= '9' }

  function DigitChar(d: nat): (c: char)
    requires d < 10
    ensures IsDigit(c)
  {
    "0123456789"[d]
  }

  function DigitValue(c: char): nat
  {
    if IsDigit(c) then (c - '0') as nat else 0
  }

  /** `%d` applied to a non-negative integer. */
  function NatToString(n: nat): (s: string)
    ensures |s| > 0
    ensures forall i :: 0 <= i < |s| ==> IsDigit(s[i])
  {
    if n < 10 then [DigitChar(n)] else NatToString(n / 10) + [DigitChar(n % 10)]
  }

  /** `%d` applied to any integer. */
  function IntToString(i: int): (s: string)
    ensures |s| > 0
    ensures (s[0] == '-') == (i < 0)
  {
    if i < 0 then "-" + NatToString(-i) else NatToString(i)
  }
}
