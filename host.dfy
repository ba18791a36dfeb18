/** Values and conventions shared by every contract of the model: the host's
    integer widths, addresses, and how a call ends (a value, a contract
    error code, or a host panic — the last two roll back every write). */
module Host {

  const I128_MIN: int := -0x8000_0000_0000_0000_0000_0000_0000_0000
  const I128_MAX: int := 0x7fff_ffff_ffff_ffff_ffff_ffff_ffff_ffff
  const U64_MAX: int := 0xffff_ffff_ffff_ffff
  const U32_MAX: int := 0xffff_ffff

  type I128 = x: int | I128_MIN <= x <= I128_MAX
  type U64 = x: int | 0 <= x <= U64_MAX
  type U32 = x: int | 0 <= x <= U32_MAX

  /** An account or contract address; only equality matters to the contracts. */
  datatype Address = Address(id: nat)

  /** A short host symbol (names, categories, payload tags). */
  type Symbol = string

  datatype Option<+T> = None | Some(value: T)

  datatype Result<+T, +E> = Ok(value: T) | Err(error: E)

  /** How a failed call ends: `panic_with_error!` with a contract error code,
      or a plain panic (`panic!`, `expect`, arithmetic overflow). */
  datatype Abort<+E> = ContractError(code: E) | HostPanic(message: string)

  /** Message of the panic raised by an overflowing `+`, `+=` or `*`
      (release builds of the contracts keep overflow checks on). */
  const ADD_OVERFLOW: string := "attempt to add with overflow"
  const MUL_OVERFLOW: string := "attempt to multiply with overflow"

  /** A token transfer made through the token contract's client. */
  datatype Transfer = Transfer(token: Address, from: Address, to: Address, amount: I128)

  /** `a.checked_add(b)`: the sum, or None when it leaves the i128 range. */
  function CheckedAdd(a: I128, b: I128): (r: Option<I128>)
    ensures r.Some? <==> I128_MIN <= a + b <= I128_MAX
    ensures r.Some? ==> r.value == a + b
  {
    if I128_MIN <= a + b <= I128_MAX then Some(a + b) else None
  }

  /** `a.checked_add(b).unwrap_or(i128::MAX)`: for a non-negative addend this
      is addition saturating at i128::MAX. */
  function AddOrMax(a: I128, b: I128): (r: I128)
    ensures b >= 0 ==> r == if a + b <= I128_MAX then a + b else I128_MAX
  {
    match CheckedAdd(a, b)
    case Some(s) => s
    case None => I128_MAX
  }

  /** Integer division as Rust's `/` does it: truncated toward zero. */
  function TruncDiv(a: int, b: int): (q: int)
    requires b > 0
    ensures a >= 0 ==> q * b <= a < (q + 1) * b
    ensures a < 0 ==> (q - 1) * b < a <= q * b
  {
    if a >= 0 then a / b else -((-a) / b)
  }
}
