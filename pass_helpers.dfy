/** Payment validation and the conversion of base queries
    (contracts/pass_nft/src/helpers.rs). */
module PassHelpers {
  import opened Host
  import opened Text
  import opened PassMsgs

  /** The settlement denomination. */
  const UXION: string := "uxion"

  const NO_PAYMENT: string := "No uxion payment found"

  function InsufficientText(required: nat, provided: nat): string
  {
    "Insufficient payment. Required: " + NatToString(required) + " uxion, provided: "
      + NatToString(provided) + " uxion"
  }

  /** The position of the first coin of `denom` in `funds` (`iter().find`). */
  function FirstOfDenom(funds: seq<Coin>, denom: string): (r: Option<nat>)
    ensures r.None? <==> forall j | 0 <= j < |funds| :: funds[j].denom != denom
    ensures r.Some? ==> r.value < |funds| && funds[r.value].denom == denom
    ensures r.Some? ==> forall j | 0 <= j < r.value :: funds[j].denom != denom
    decreases |funds|
  {
    if |funds| == 0 then None
    else if funds[0].denom == denom then Some(0)
    else
      match FirstOfDenom(funds[1..], denom)
      case None => None
      case Some(i) => Some(i + 1)
  }

  /** `validate_payment`: the first uxion coin must cover the price. */
  function ValidatePayment(funds: seq<Coin>, requiredPrice: nat): (r: Result<(), ContractError>)
    ensures r == Err(Custom(NO_PAYMENT)) <==> forall j | 0 <= j < |funds| :: funds[j].denom != UXION
    ensures r.Ok? <==> FirstOfDenom(funds, UXION).Some?
                       && funds[FirstOfDenom(funds, UXION).value].amount >= requiredPrice
    ensures r.Err? && r != Err(Custom(NO_PAYMENT)) ==>
              FirstOfDenom(funds, UXION).Some?
              && var paid := funds[FirstOfDenom(funds, UXION).value].amount;
                 paid < requiredPrice && r == Err(Custom(InsufficientText(requiredPrice, paid)))
  {
    match FirstOfDenom(funds, UXION)
    case None => Err(Custom(NO_PAYMENT))
    case Some(i) =>
      var paid := funds[i].amount;
      if paid < requiredPrice then
        assert InsufficientText(requiredPrice, paid)[0] != NO_PAYMENT[0];
        Err(Custom(InsufficientText(requiredPrice, paid)))
      else Ok(())
  }

  /** A coin of another denomination, wherever it is put, does not change which
      uxion coin comes first. */
  lemma {:induction false} FirstOfDenomIgnoresOthers(funds: seq<Coin>, k: nat, c: Coin, denom: string)
    requires k <= |funds| && c.denom != denom
    ensures var r := FirstOfDenom(funds, denom);
            var r' := FirstOfDenom(funds[..k] + [c] + funds[k..], denom);
            (r.None? <==> r'.None?)
            && (r.Some? ==> r'.Some? && (funds[..k] + [c] + funds[k..])[r'.value] == funds[r.value])
    decreases k
  {
    var funds' := funds[..k] + [c] + funds[k..];
    if k == 0 {
      assert funds'[1..] == funds;
    } else {
      assert funds'[0] == funds[0];
      if funds[0].denom != denom {
        assert funds'[1..] == funds[1..][..k - 1] + [c] + funds[1..][k - 1..];
        FirstOfDenomIgnoresOthers(funds[1..], k - 1, c, denom);
      }
    }
  }

  /** Coins of other denominations never affect the outcome of the payment
      check. */
  lemma OtherDenomsIrrelevant(funds: seq<Coin>, k: nat, c: Coin, requiredPrice: nat)
    requires k <= |funds| && c.denom != UXION
    ensures ValidatePayment(funds[..k] + [c] + funds[k..], requiredPrice) == ValidatePayment(funds, requiredPrice)
  {
    FirstOfDenomIgnoresOthers(funds, k, c, UXION);
  }

  /** Only the first uxion coin is inspected: whatever follows it does not
      change the outcome. */
  lemma {:induction false} OnlyFirstUxionCounts(funds: seq<Coin>, more: seq<Coin>, requiredPrice: nat)
    requires FirstOfDenom(funds, UXION).Some?
    ensures ValidatePayment(funds + more, requiredPrice) == ValidatePayment(funds, requiredPrice)
  {
    FirstOfDenomPrefix(funds, more, UXION);
  }

  lemma {:induction false} FirstOfDenomPrefix(funds: seq<Coin>, more: seq<Coin>, denom: string)
    requires FirstOfDenom(funds, denom).Some?
    ensures FirstOfDenom(funds + more, denom) == FirstOfDenom(funds, denom)
    decreases |funds|
  {
    if funds[0].denom != denom {
      assert (funds + more)[1..] == funds[1..] + more;
      FirstOfDenomPrefix(funds[1..], more, denom);
    }
  }

  /** Overpayment is accepted: paying at least the price in the first uxion
      coin succeeds. */
  lemma OverpaymentAccepted(funds: seq<Coin>, requiredPrice: nat, paid: U128, extra: nat)
    requires paid == requiredPrice + extra
    ensures ValidatePayment([Coin(UXION, paid)] + funds, requiredPrice).Ok?
  {
  }

  /** Without any coin there is no uxion payment. */
  lemma NoFundsNoPayment(requiredPrice: nat)
    ensures ValidatePayment([], requiredPrice) == Err(Custom(NO_PAYMENT))
  {
  }

  /** `convert_query_msg`: the two base queries the collection supports are
      passed on with their fields unchanged; every other one is refused. */
  function ConvertQueryMsg(msg: QueryMsg): (r: Result<BaseQueryMsg, ContractError>)
    ensures r.Ok? <==> msg.OwnerOf? || msg.Approval?
    ensures r.Err? ==> r.error == Custom(UNSUPPORTED)
    ensures msg.OwnerOf? ==> r == Ok(BaseOwnerOf(msg.tokenId, msg.includeExpired))
    ensures msg.Approval? ==> r == Ok(BaseApproval(msg.tokenId, msg.spender, msg.includeExpired))
  {
    match msg
    case OwnerOf(tokenId, includeExpired) => Ok(BaseOwnerOf(tokenId, includeExpired))
    case Approval(tokenId, spender, includeExpired) => Ok(BaseApproval(tokenId, spender, includeExpired))
    case _ => Err(Custom(UNSUPPORTED))
  }

  /** The conversion can be undone: each converted query determines the query
      it came from. */
  function UnconvertQueryMsg(b: BaseQueryMsg): QueryMsg
  {
    match b
    case BaseOwnerOf(tokenId, includeExpired) => OwnerOf(tokenId, includeExpired)
    case BaseApproval(tokenId, spender, includeExpired) => Approval(tokenId, spender, includeExpired)
  }

  lemma ConvertRoundTrip(b: BaseQueryMsg)
    ensures ConvertQueryMsg(UnconvertQueryMsg(b)) == Ok(b)
  {
  }
}
