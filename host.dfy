/** Shapes of the host library (cosmwasm_std, cw_utils) that both contracts use:
    addresses, coins, block environment, message info, the standard error, the
    response a call returns, and the host's address validation. */
module Host {

  datatype Option<+T> = None | Some(value: T)

  datatype Result<+T, +E> = Ok(value: T) | Err(error: E)

  /** Rust's unsigned integer widths. */
  const U32_MAX: nat := 0xFFFF_FFFF
  const U64_MAX: nat := 0xFFFF_FFFF_FFFF_FFFF
  const U128_MAX: nat := 0xFFFF_FFFF_FFFF_FFFF_FFFF_FFFF_FFFF_FFFF

  type U32 = x: nat | x <= 0xFFFF_FFFF
  type U64 = x: nat | x <= 0xFFFF_FFFF_FFFF_FFFF
  type U128 = x: nat | x <= 0xFFFF_FFFF_FFFF_FFFF_FFFF_FFFF_FFFF_FFFF

  /** An address is carried as its textual form. */
  type Addr = string

  datatype Coin = Coin(denom: string, amount: U128)

  /** Block time is modelled in whole seconds. */
  datatype Env = Env(blockTime: nat, contractAddress: Addr)

  datatype MessageInfo = MessageInfo(sender: Addr, funds: seq<Coin>)

  /** cw_utils::Expiration. */
  datatype Expiration = AtHeight(height: U64) | AtTime(time: nat) | Never

  /** The errors of cosmwasm_std that the core can raise. `InvalidAddress`
      stands for whatever the host's address validation reports; its wording is
      the host's. */
  datatype StdError =
    | NotFound(kind: string)
    | GenericErr(msg: string)
    | InvalidAddress(raw: string)

  datatype Attribute = Attribute(key: string, value: string)

  /** A successful call's answer: the messages it asks the host to dispatch, and
      its attributes. */
  datatype Response<+M> = Response(messages: seq<M>, attributes: seq<Attribute>)

  /** The host's address validation (`deps.api.addr_validate`), which the
      contracts cannot see: a predicate on raw strings. The host never accepts
      the empty string. */
  datatype AddrApi = AddrApi(accepts: string -> bool)
  type Api = a: AddrApi | !a.accepts("") witness AddrApi((s: string) => false)

  function AddrValidate(api: Api, raw: string): (r: Result<Addr, StdError>)
    ensures r.Ok? <==> api.accepts(raw)
    ensures r.Ok? ==> r.value == raw && r.value != ""
    ensures r.Err? ==> r.error == InvalidAddress(raw)
  {
    if api.accepts(raw) then Ok(raw) else Err(InvalidAddress(raw))
  }

  /** A Rust panic message for a checked arithmetic overflow. */
  const ADD_OVERFLOW: string := "attempt to add with overflow"
  const MUL_OVERFLOW: string := "attempt to multiply with overflow"
  const UNWRAP_ERR: string := "called `Result::unwrap()` on an `Err` value"
}
