/** The state-changing operations of a pass collection
    (contracts/pass_nft/src/execute.rs): mint, renew and burn-expired over the
    token map, the token id counter and the live-token count, with the royalty
    split of every payment. A failing call leaves the state as it was, as the
    host discards the writes of a failed call. */
module PassExecute {
  import opened Host
  import opened Text
  import opened PassState
  import opened PassMsgs
  import opened PassHelpers

  // ---------------------------------------------------------------------------
  // Token ids

  function TokenPrefix(symbol: string): string
  {
    Lowercase(symbol) + "-"
  }

  /** `format!("{}-{}", symbol.to_lowercase(), n)`. */
  function TokenId(symbol: string, n: nat): (id: string)
    ensures StartsWith(id, TokenPrefix(symbol))
    ensures id[|TokenPrefix(symbol)|..] == NatToString(n)
  {
    StartsWithConcat(TokenPrefix(symbol), NatToString(n));
    TokenPrefix(symbol) + NatToString(n)
  }

  /** Ids of one collection are distinct for distinct counter values. */
  lemma TokenIdInjective(symbol: string, m: nat, n: nat)
    requires TokenId(symbol, m) == TokenId(symbol, n)
    ensures m == n
  {
    NatToStringInjective(m, n);
  }

  /** `id` is an id this collection issued while its counter was at most
      `counter`. */
  ghost predicate IssuedUpTo(symbol: string, counter: nat, id: string)
  {
    var p := TokenPrefix(symbol);
    StartsWith(id, p) && 1 <= ParseDecimal(id[|p|..]) <= counter
  }

  /** The next id is not among the ids issued so far. */
  lemma NextIdNotIssued(symbol: string, counter: nat, id: string)
    requires IssuedUpTo(symbol, counter, id)
    ensures id != TokenId(symbol, counter + 1)
  {
    ParseNatToString(counter + 1);
  }

  // ---------------------------------------------------------------------------
  // Royalty split

  /** The integer split of a payment: the house gets the floor of its
      percentage, the artist the remainder, so nothing is lost or created. */
  function Split(payment: nat, housePct: nat): (r: (nat, nat))
    requires housePct <= 100
    ensures r.0 + r.1 == payment
    ensures r.0 * 100 <= payment * housePct < r.0 * 100 + 100
    ensures r.0 <= payment && r.1 <= payment
  {
    var house := payment * housePct / 100;
    assert payment * housePct <= payment * 100;
    (house, payment - house)
  }

  lemma SplitScenario()
    ensures Split(10, 30) == (3, 7)
  {
  }

  /** The two bank transfers of a payment: the house share to the payment
      address and the artist share to the artist, in the payment's
      denomination. */
  function RoyaltyMessages(config: Config, payment: Coin): (msgs: seq<BankMsg>)
    requires config.housePercentage <= 100
    ensures |msgs| == 2
    ensures msgs[0].toAddress == config.paymentAddress && msgs[1].toAddress == config.artist
    ensures |msgs[0].amount| == 1 && |msgs[1].amount| == 1
    ensures msgs[0].amount[0].denom == payment.denom && msgs[1].amount[0].denom == payment.denom
    ensures msgs[0].amount[0].amount + msgs[1].amount[0].amount == payment.amount
    ensures msgs[0].amount[0].amount == Split(payment.amount, config.housePercentage).0
  {
    var (house, artist) := Split(payment.amount, config.housePercentage);
    [Send(config.paymentAddress, [Coin(payment.denom, house)]),
     Send(config.artist, [Coin(payment.denom, artist)])]
  }

  /** The multiplication in the split stays within 128 bits. */
  predicate SplitFits(payment: Coin, housePct: nat)
  {
    payment.amount * housePct <= U128_MAX
  }

  const TOKEN_EXISTS: string := "Token ID already exists"
  const NOT_EXPIRED: string := "Pass is not expired"
  const TOKEN_KIND: string := "TokenInfo"

  /** The storage of one deployed collection: its configuration, the token id
      counter, the token map and the base library's live-token count. */
  class PassContract {
    var config: Config
    var counter: U64
    var tokens: map<string, TokenInfo>
    var tokenCount: nat

    /** The count matches the map, every stored id was issued by the counter,
        and every stored pass is active with a well-formed window. */
    ghost predicate Valid()
      reads this
    {
      && config.housePercentage + config.artistPercentage == 100
      && tokenCount == |tokens|
      && (forall id | id in tokens :: IssuedUpTo(config.symbol, counter, id))
      && (forall id | id in tokens :: WellFormed(tokens[id].extension) && tokens[id].extension.isActive)
    }

    constructor (config: Config)
      requires config.housePercentage + config.artistPercentage == 100
      ensures Valid()
      ensures this.config == config && counter == 0 && tokens == map[] && tokenCount == 0
    {
      this.config := config;
      counter := 0;
      tokens := map[];
      tokenCount := 0;
    }

    /** The id the next mint will use. */
    function NextTokenId(): string
      reads this
    {
      TokenId(config.symbol, counter + 1)
    }

    /** The next id is never taken, so "Token ID already exists" cannot occur
        in a valid collection. */
    lemma NextTokenIdFree()
      requires Valid()
      ensures NextTokenId() !in tokens
    {
      if NextTokenId() in tokens {
        NextIdNotIssued(config.symbol, counter, NextTokenId());
      }
    }

    /** `mint_pass`. */
    method MintPass(api: Api, env: Env, info: MessageInfo, ownerAddress: string)
      returns (r: Result<Response<BankMsg>, ContractError>)
      requires Valid()
      modifies this
      ensures Valid() && config == old(config)
      ensures r.Err? ==> counter == old(counter) && tokens == old(tokens) && tokenCount == old(tokenCount)
      // the checks, in the order the code makes them
      ensures ValidatePayment(info.funds, config.passPrice).Err? ==>
                r == Err(ValidatePayment(info.funds, config.passPrice).error)
      ensures ValidatePayment(info.funds, config.passPrice).Ok? && old(counter) == U64_MAX ==>
                r == Err(Panic(ADD_OVERFLOW))
      ensures ValidatePayment(info.funds, config.passPrice).Ok? && old(counter) < U64_MAX
              && TokenId(config.symbol, old(counter) + 1) in old(tokens) ==>
                r == Err(Custom(TOKEN_EXISTS))
      ensures ValidatePayment(info.funds, config.passPrice).Ok? && old(counter) < U64_MAX
              && TokenId(config.symbol, old(counter) + 1) !in old(tokens) && !api.accepts(ownerAddress) ==>
                r == Err(Std(InvalidAddress(ownerAddress)))
      ensures ValidatePayment(info.funds, config.passPrice).Ok? && old(counter) < U64_MAX
              && TokenId(config.symbol, old(counter) + 1) !in old(tokens) && api.accepts(ownerAddress)
              && !SplitFits(info.funds[0], config.housePercentage) ==>
                r == Err(Panic(MUL_OVERFLOW))
      ensures r.Ok? <==>
                ValidatePayment(info.funds, config.passPrice).Ok? && old(counter) < U64_MAX
                && TokenId(config.symbol, old(counter) + 1) !in old(tokens) && api.accepts(ownerAddress)
                && SplitFits(info.funds[0], config.housePercentage)
      // the new state and the answer
      ensures r.Ok? ==>
                var id := TokenId(config.symbol, old(counter) + 1);
                && counter == old(counter) + 1
                && tokens == old(tokens)[id := TokenInfo(ownerAddress, [], Some(config.collectionInfo),
                                                         New(env.blockTime, config.passDuration, config.gracePeriod))]
                && tokenCount == old(tokenCount) + 1
                && r.value.messages == RoyaltyMessages(config, info.funds[0])
                && r.value.attributes == [Attribute("action", "mint_pass"), Attribute("collection", config.name),
                                          Attribute("artist", config.artist), Attribute("minter", info.sender),
                                          Attribute("token_id", id)]
    {
      var paid := ValidatePayment(info.funds, config.passPrice);
      if paid.Err? {
        return Err(paid.error);
      }
      if counter == U64_MAX {
        return Err(Panic(ADD_OVERFLOW));
      }
      var nextId := counter + 1;
      var tokenId := TokenId(config.symbol, nextId);
      var extension := New(env.blockTime, config.passDuration, config.gracePeriod);
      if tokenId in tokens {
        return Err(Custom(TOKEN_EXISTS));
      }
      var owner := AddrValidate(api, ownerAddress);
      if owner.Err? {
        return Err(Std(owner.error));
      }
      var payment := info.funds[0];
      if !SplitFits(payment, config.housePercentage) {
        return Err(Panic(MUL_OVERFLOW));
      }
      forall id | id in tokens ensures IssuedUpTo(config.symbol, nextId, id) { }
      ParseNatToString(nextId);
      counter := nextId;
      tokens := tokens[tokenId := TokenInfo(owner.value, [], Some(config.collectionInfo), extension)];
      tokenCount := tokenCount + 1;
      r := Ok(Response(RoyaltyMessages(config, payment),
                       [Attribute("action", "mint_pass"), Attribute("collection", config.name),
                        Attribute("artist", config.artist), Attribute("minter", info.sender),
                        Attribute("token_id", tokenId)]));
    }

    /** Whether `sender` may renew or burn the token `id`: its owner or the
        collection's minter. */
    predicate MayManage(sender: Addr, id: string)
      reads this
      requires id in tokens
    {
      sender == tokens[id].owner || sender == config.minter
    }

    /** `renew_pass`. */
    method RenewPass(env: Env, info: MessageInfo, tokenId: string)
      returns (r: Result<Response<BankMsg>, ContractError>)
      requires Valid()
      modifies this
      ensures Valid() && config == old(config)
      ensures counter == old(counter) && tokenCount == old(tokenCount)
      ensures r.Err? ==> tokens == old(tokens)
      ensures ValidatePayment(info.funds, config.passPrice).Err? ==>
                r == Err(ValidatePayment(info.funds, config.passPrice).error)
      ensures ValidatePayment(info.funds, config.passPrice).Ok? && tokenId !in old(tokens) ==>
                r == Err(Std(NotFound(TOKEN_KIND)))
      ensures ValidatePayment(info.funds, config.passPrice).Ok? && tokenId in old(tokens)
              && !old(MayManage(info.sender, tokenId)) ==>
                r == Err(Unauthorized)
      ensures ValidatePayment(info.funds, config.passPrice).Ok? && tokenId in old(tokens)
              && old(MayManage(info.sender, tokenId)) && !SplitFits(info.funds[0], config.housePercentage) ==>
                r == Err(Panic(MUL_OVERFLOW))
      // the pass's status plays no part: an expired pass can be renewed
      ensures r.Ok? <==>
                ValidatePayment(info.funds, config.passPrice).Ok? && tokenId in old(tokens)
                && old(MayManage(info.sender, tokenId)) && SplitFits(info.funds[0], config.housePercentage)
      ensures r.Ok? ==>
                var t := old(tokens)[tokenId];
                var renewed := Renew(t.extension, env.blockTime, config.passDuration, config.gracePeriod);
                && tokens == old(tokens)[tokenId := t.(extension := renewed)]
                && r.value.messages == RoyaltyMessages(config, info.funds[0])
                && r.value.attributes == [Attribute("action", "renew_pass"), Attribute("collection", config.name),
                                          Attribute("artist", config.artist), Attribute("token_id", tokenId),
                                          Attribute("owner", t.owner),
                                          Attribute("new_expiry", NatToString(renewed.expiresAt) + ".000000000")]
    {
      var paid := ValidatePayment(info.funds, config.passPrice);
      if paid.Err? {
        return Err(paid.error);
      }
      if tokenId !in tokens {
        return Err(Std(NotFound(TOKEN_KIND)));
      }
      var token := tokens[tokenId];
      if info.sender != token.owner && info.sender != config.minter {
        return Err(Unauthorized);
      }
      token := token.(extension := Renew(token.extension, env.blockTime, config.passDuration, config.gracePeriod));
      var payment := info.funds[0];
      if !SplitFits(payment, config.housePercentage) {
        return Err(Panic(MUL_OVERFLOW));
      }
      tokens := tokens[tokenId := token];
      // a timestamp is written as seconds, a point and nine digits of nanoseconds
      r := Ok(Response(RoyaltyMessages(config, payment),
                       [Attribute("action", "renew_pass"), Attribute("collection", config.name),
                        Attribute("artist", config.artist), Attribute("token_id", tokenId),
                        Attribute("owner", token.owner),
                        Attribute("new_expiry", NatToString(token.extension.expiresAt) + ".000000000")]));
    }

    /** `burn_expired_pass`. */
    method BurnExpiredPass(env: Env, info: MessageInfo, tokenId: string)
      returns (r: Result<Response<BankMsg>, ContractError>)
      requires Valid()
      modifies this
      ensures Valid() && config == old(config) && counter == old(counter)
      ensures r.Err? ==> tokens == old(tokens) && tokenCount == old(tokenCount)
      ensures tokenId !in old(tokens) ==> r == Err(Std(NotFound(TOKEN_KIND)))
      // authorization is checked before expiry
      ensures tokenId in old(tokens) && !old(MayManage(info.sender, tokenId)) ==> r == Err(Unauthorized)
      ensures tokenId in old(tokens) && old(MayManage(info.sender, tokenId))
              && Status(old(tokens)[tokenId].extension, env.blockTime) != Expired ==>
                r == Err(Custom(NOT_EXPIRED))
      ensures r.Ok? <==>
                tokenId in old(tokens) && old(MayManage(info.sender, tokenId))
                && Status(old(tokens)[tokenId].extension, env.blockTime) == Expired
      ensures r.Ok? ==>
                && tokens == old(tokens) - {tokenId}
                && tokenCount == old(tokenCount) - 1
                && r.value.messages == []
                && r.value.attributes == [Attribute("action", "burn_expired_pass"), Attribute("collection", config.name),
                                          Attribute("artist", config.artist), Attribute("token_id", tokenId),
                                          Attribute("owner", info.sender)]
    {
      if tokenId !in tokens {
        return Err(Std(NotFound(TOKEN_KIND)));
      }
      var token := tokens[tokenId];
      if info.sender != token.owner && info.sender != config.minter {
        return Err(Unauthorized);
      }
      if Status(token.extension, env.blockTime) != Expired {
        return Err(Custom(NOT_EXPIRED));
      }
      tokens := tokens - {tokenId};
      tokenCount := tokenCount - 1;
      r := Ok(Response([], [Attribute("action", "burn_expired_pass"), Attribute("collection", config.name),
                            Attribute("artist", config.artist), Attribute("token_id", tokenId),
                            Attribute("owner", info.sender)]));
    }
  }
}
