/** The entry points of a pass collection (contracts/pass_nft/src/contract.rs):
    instantiation, the execute dispatch that lets only the three pass messages
    through, and the query dispatch. */
module PassEntry {
  import opened Host
  import opened Text
  import opened PassState
  import opened PassMsgs
  import opened PassHelpers
  import opened PassExecute
  import opened PassQueries

  /** The configuration `instantiate` stores, or the error it stops with:
      both addresses are validated first, then the percentages must add up
      to exactly 100 (a sum beyond 32 bits panics). */
  function InstantiatedConfig(api: Api, msg: InstantiateMsg): (r: Result<Config, ContractError>)
    ensures !api.accepts(msg.paymentAddress) ==> r == Err(Std(InvalidAddress(msg.paymentAddress)))
    ensures api.accepts(msg.paymentAddress) && !api.accepts(msg.artist) ==>
              r == Err(Std(InvalidAddress(msg.artist)))
    ensures api.accepts(msg.paymentAddress) && api.accepts(msg.artist)
            && msg.housePercentage + msg.artistPercentage > U32_MAX ==>
              r == Err(Panic(ADD_OVERFLOW))
    ensures api.accepts(msg.paymentAddress) && api.accepts(msg.artist)
            && msg.housePercentage + msg.artistPercentage <= U32_MAX
            && msg.housePercentage + msg.artistPercentage != 100 ==>
              r == Err(InvalidRoyalties)
    ensures r.Ok? <==> api.accepts(msg.paymentAddress) && api.accepts(msg.artist)
                       && msg.housePercentage + msg.artistPercentage == 100
    // every field is copied from the message unchanged
    ensures r.Ok? ==>
              && r.value.name == msg.name && r.value.symbol == msg.symbol
              && r.value.artist == msg.artist && r.value.minter == msg.minter
              && r.value.collectionInfo == msg.collectionInfo && r.value.passPrice == msg.passPrice
              && r.value.passDuration == msg.passDuration && r.value.gracePeriod == msg.gracePeriod
              && r.value.paymentAddress == msg.paymentAddress
              && r.value.housePercentage == msg.housePercentage
              && r.value.artistPercentage == msg.artistPercentage
  {
    match AddrValidate(api, msg.paymentAddress)
    case Err(e) => Err(Std(e))
    case Ok(paymentAddress) =>
      match AddrValidate(api, msg.artist)
      case Err(e) => Err(Std(e))
      case Ok(artist) =>
        if msg.housePercentage + msg.artistPercentage > U32_MAX then Err(Panic(ADD_OVERFLOW))
        else if msg.housePercentage + msg.artistPercentage != 100 then Err(InvalidRoyalties)
        else Ok(Config(msg.name, msg.symbol, artist, msg.minter, msg.collectionInfo, msg.passPrice,
                       msg.passDuration, msg.gracePeriod, paymentAddress,
                       msg.housePercentage, msg.artistPercentage))
  }

  /** The configuration query of a freshly instantiated collection echoes the
      instantiate message field for field. */
  lemma ConfigEchoesInstantiate(api: Api, msg: InstantiateMsg)
    requires InstantiatedConfig(api, msg).Ok?
    ensures ConfigResponseOf(InstantiatedConfig(api, msg).value)
         == ConfigResponse(msg.name, msg.symbol, msg.artist, msg.minter, msg.collectionInfo,
                           msg.passPrice, msg.passDuration, msg.gracePeriod, msg.paymentAddress,
                           msg.housePercentage, msg.artistPercentage)
  {
  }

  /** The first id a collection hands out is its lower-cased symbol and "-1". */
  lemma FirstTokenId(symbol: string)
    ensures TokenId(symbol, 1) == Lowercase(symbol) + "-1"
  {
    assert NatToString(1) == "1";
  }

  /** `instantiate`: a new collection with the counter at zero and no tokens. */
  method Instantiate(api: Api, env: Env, info: MessageInfo, msg: InstantiateMsg)
    returns (r: Result<(PassContract, Response<BankMsg>), ContractError>)
    ensures r.Err? <==> InstantiatedConfig(api, msg).Err?
    ensures r.Err? ==> r.error == InstantiatedConfig(api, msg).error
    ensures r.Ok? ==>
              var c := r.value.0;
              && fresh(c) && c.Valid()
              && c.config == InstantiatedConfig(api, msg).value
              && c.counter == 0 && c.tokens == map[] && c.tokenCount == 0
              && c.NextTokenId() == Lowercase(msg.symbol) + "-1"
              && r.value.1.messages == []
              && r.value.1.attributes ==
                   [Attribute("method", "instantiate"), Attribute("collection_name", msg.name),
                    Attribute("collection_symbol", msg.symbol), Attribute("artist", msg.artist),
                    Attribute("payment_address", msg.paymentAddress),
                    Attribute("house_percentage", NatToString(msg.housePercentage)),
                    Attribute("artist_percentage", NatToString(msg.artistPercentage))]
  {
    var config := InstantiatedConfig(api, msg);
    if config.Err? {
      return Err(config.error);
    }
    var c := new PassContract(config.value);
    FirstTokenId(msg.symbol);
    r := Ok((c, Response([], [Attribute("method", "instantiate"), Attribute("collection_name", msg.name),
                              Attribute("collection_symbol", msg.symbol), Attribute("artist", msg.artist),
                              Attribute("payment_address", msg.paymentAddress),
                              Attribute("house_percentage", NatToString(msg.housePercentage)),
                              Attribute("artist_percentage", NatToString(msg.artistPercentage))])));
  }

  /** `execute`: only the pass messages are served. Transfers, sends,
      approvals and the base mint and burn are refused, and no call ever moves
      a pass from one owner to another. */
  method Execute(c: PassContract, api: Api, env: Env, info: MessageInfo, msg: ExecuteMsg)
    returns (r: Result<Response<BankMsg>, ContractError>)
    requires c.Valid()
    modifies c
    ensures c.Valid() && c.config == old(c.config)
    ensures r.Err? ==> c.counter == old(c.counter) && c.tokens == old(c.tokens) && c.tokenCount == old(c.tokenCount)
    ensures !msg.Extension? ==> r == Err(Custom(UNSUPPORTED))
    // the counter never goes back, so no id is issued twice
    ensures old(c.counter) <= c.counter
    // a pass that survives the call keeps its owner
    ensures forall id | id in c.tokens && id in old(c.tokens) :: c.tokens[id].owner == old(c.tokens[id].owner)
    // only a mint adds a pass, and only the next id
    ensures forall id | id in c.tokens && id !in old(c.tokens) ::
              msg.Extension? && msg.msg.MintPass? && id == TokenId(c.config.symbol, old(c.counter) + 1)
    // mint_pass
    ensures msg.Extension? && msg.msg.MintPass? ==>
              var owner := msg.msg.ownerAddress;
              var paid := ValidatePayment(info.funds, c.config.passPrice);
              var id := TokenId(c.config.symbol, old(c.counter) + 1);
              && (paid.Err? ==> r == Err(paid.error))
              && (paid.Ok? && old(c.counter) == U64_MAX ==> r == Err(Panic(ADD_OVERFLOW)))
              && (paid.Ok? && old(c.counter) < U64_MAX && id in old(c.tokens) ==> r == Err(Custom(TOKEN_EXISTS)))
              && (paid.Ok? && old(c.counter) < U64_MAX && id !in old(c.tokens) && !api.accepts(owner) ==>
                    r == Err(Std(InvalidAddress(owner))))
              && ((paid.Ok? && old(c.counter) < U64_MAX && id !in old(c.tokens) && api.accepts(owner)
                   && !SplitFits(info.funds[0], c.config.housePercentage)) ==> r == Err(Panic(MUL_OVERFLOW)))
              && (r.Ok? <==> paid.Ok? && old(c.counter) < U64_MAX && id !in old(c.tokens) && api.accepts(owner)
                             && SplitFits(info.funds[0], c.config.housePercentage))
              && (r.Ok? ==>
                    && c.counter == old(c.counter) + 1 && c.tokenCount == old(c.tokenCount) + 1
                    && c.tokens == old(c.tokens)[id := TokenInfo(owner, [], Some(c.config.collectionInfo),
                                                                 New(env.blockTime, c.config.passDuration, c.config.gracePeriod))]
                    && r.value.messages == RoyaltyMessages(c.config, info.funds[0]))
    // renew_pass
    ensures msg.Extension? && msg.msg.RenewPass? ==>
              var id := msg.msg.tokenId;
              var paid := ValidatePayment(info.funds, c.config.passPrice);
              && c.counter == old(c.counter) && c.tokenCount == old(c.tokenCount)
              && (paid.Err? ==> r == Err(paid.error))
              && (paid.Ok? && id !in old(c.tokens) ==> r == Err(Std(NotFound(TOKEN_KIND))))
              && (paid.Ok? && id in old(c.tokens) && !old(c.MayManage(info.sender, id)) ==> r == Err(Unauthorized))
              && ((paid.Ok? && id in old(c.tokens) && old(c.MayManage(info.sender, id))
                   && !SplitFits(info.funds[0], c.config.housePercentage)) ==> r == Err(Panic(MUL_OVERFLOW)))
              && (r.Ok? <==> paid.Ok? && id in old(c.tokens) && old(c.MayManage(info.sender, id))
                             && SplitFits(info.funds[0], c.config.housePercentage))
              && (r.Ok? ==>
                    var t := old(c.tokens)[id];
                    && c.tokens == old(c.tokens)[id := t.(extension := Renew(t.extension, env.blockTime,
                                                                      c.config.passDuration, c.config.gracePeriod))]
                    && r.value.messages == RoyaltyMessages(c.config, info.funds[0]))
    // burn_expired_pass
    ensures msg.Extension? && msg.msg.BurnExpiredPass? ==>
              var id := msg.msg.tokenId;
              && c.counter == old(c.counter)
              && (id !in old(c.tokens) ==> r == Err(Std(NotFound(TOKEN_KIND))))
              && (id in old(c.tokens) && !old(c.MayManage(info.sender, id)) ==> r == Err(Unauthorized))
              && ((id in old(c.tokens) && old(c.MayManage(info.sender, id))
                   && Status(old(c.tokens)[id].extension, env.blockTime) != Expired) ==> r == Err(Custom(NOT_EXPIRED)))
              && (r.Ok? <==> id in old(c.tokens) && old(c.MayManage(info.sender, id))
                             && Status(old(c.tokens)[id].extension, env.blockTime) == Expired)
              && (r.Ok? ==> c.tokens == old(c.tokens) - {id} && c.tokenCount == old(c.tokenCount) - 1
                            && r.value.messages == [])
  {
    match msg
    case Extension(m) =>
      match m {
        case MintPass(ownerAddress) => r := c.MintPass(api, env, info, ownerAddress);
        case RenewPass(tokenId) => r := c.RenewPass(env, info, tokenId);
        case BurnExpiredPass(tokenId) => r := c.BurnExpiredPass(env, info, tokenId);
      }
    case _ =>
      r := Err(Custom(UNSUPPORTED));
  }

  /** The answer to one of the collection's own queries. */
  ghost function ExtensionQuery(c: PassContract, api: Api, env: Env, q: PassQuery): Result<QueryResponse, StdError>
    reads c
  {
    match q
    case CheckValidity(tokenId) =>
      (match QueryValidity(c, env, tokenId)
       case Ok(v) => Ok(Validity(v))
       case Err(e) => Err(e))
    case GetConfig => Ok(ConfigInfo(QueryConfig(c)))
    case GetArtistInfo => Ok(ArtistInfo(QueryArtistInfo(c)))
    case GetUserPass(symbol, owner) =>
      (match PassQueries.GetUserPass(c, api, env, symbol, owner)
       case Ok(p) => Ok(UserPass(p))
       case Err(e) => Err(e))
  }

  /** `query`: the collection's own queries go to their handlers; a base query
      is converted and, when the conversion succeeds, handed to the base
      library, whose answer is not modelled. A refused conversion is reported
      as a generic error carrying the conversion error's text. */
  ghost function Query(c: PassContract, api: Api, env: Env, msg: QueryMsg): (r: Result<QueryResponse, StdError>)
    reads c
    ensures !msg.QueryExtension? ==> (r.Ok? <==> msg.OwnerOf? || msg.Approval?)
    ensures !msg.QueryExtension? && r.Ok? ==> r == Ok(Forwarded(ConvertQueryMsg(msg).value))
    ensures !msg.QueryExtension? && r.Err? ==> r == Err(GenericErr(UNSUPPORTED))
    ensures msg.QueryExtension? && msg.msg.CheckValidity? ==> (r.Ok? <==> msg.msg.tokenId in c.tokens)
    ensures msg == QueryExtension(GetConfig) ==> r == Ok(ConfigInfo(ConfigResponseOf(c.config)))
    ensures msg == QueryExtension(GetArtistInfo) ==> r.Ok? && r.value.ArtistInfo? && r.value.info.artist == c.config.artist
  {
    if msg.QueryExtension? then ExtensionQuery(c, api, env, msg.msg)
    else
      match ConvertQueryMsg(msg)
      case Ok(base) => Ok(Forwarded(base))
      case Err(e) => Err(GenericErr(e.msg))
  }
}
