/** The entry points of the collection factory
    (contracts/factory/src/contract.rs): instantiation, the execute, query and
    reply dispatch. */
module FactoryEntry {
  import opened Host
  import opened Text
  import opened FactoryMsgs
  import opened FactoryExecute
  import opened FactoryQueries

  /** The configuration `instantiate` stores, or the error it stops with:
      the percentages must add up to exactly 100 (a sum beyond 32 bits
      panics), and the caller becomes the admin. */
  function InstantiatedConfig(info: MessageInfo, msg: InstantiateMsg): (r: Result<Config, ContractError>)
    ensures msg.housePercentage + msg.artistPercentage > U32_MAX ==> r == Err(Panic(ADD_OVERFLOW))
    ensures msg.housePercentage + msg.artistPercentage <= U32_MAX
            && msg.housePercentage + msg.artistPercentage != 100 ==>
              r == Err(InvalidRoyalties)
    ensures r.Ok? <==> msg.housePercentage + msg.artistPercentage == 100
    ensures r.Ok? ==>
              && r.value.admin == info.sender
              && r.value.nftCodeId == msg.nftCodeId && r.value.price == msg.price
              && r.value.duration == msg.duration && r.value.gracePeriod == msg.gracePeriod
              && r.value.paymentAddress == msg.paymentAddress
              && r.value.housePercentage == msg.housePercentage
              && r.value.artistPercentage == msg.artistPercentage
  {
    if msg.housePercentage + msg.artistPercentage > U32_MAX then Err(Panic(ADD_OVERFLOW))
    else if msg.housePercentage + msg.artistPercentage != 100 then Err(InvalidRoyalties)
    else Ok(Config(info.sender, msg.duration, msg.gracePeriod, msg.paymentAddress, msg.price,
                   msg.nftCodeId, msg.housePercentage, msg.artistPercentage))
  }

  /** `instantiate`: an empty registry administered by the caller. */
  method Instantiate(env: Env, info: MessageInfo, msg: InstantiateMsg)
    returns (r: Result<(Registry, Response<SubMsg>), ContractError>)
    ensures r.Err? <==> InstantiatedConfig(info, msg).Err?
    ensures r.Err? ==> r.error == InstantiatedConfig(info, msg).error
    ensures r.Ok? ==>
              var reg := r.value.0;
              && fresh(reg) && reg.Valid()
              && reg.config == InstantiatedConfig(info, msg).value
              && reg.collections == map[] && reg.symbolTaken == map[] && reg.artistCollections == map[]
              && reg.collectionCount == 0
              && QueryConfig(reg) == ConfigResponse(msg.nftCodeId, info.sender, 0,
                                                    msg.housePercentage, msg.artistPercentage)
              && r.value.1.messages == []
              && r.value.1.attributes == [Attribute("method", "instantiate"), Attribute("admin", info.sender),
                                          Attribute("nft_code_id", NatToString(msg.nftCodeId))]
  {
    var config := InstantiatedConfig(info, msg);
    if config.Err? {
      return Err(config.error);
    }
    var reg := new Registry(config.value);
    r := Ok((reg, Response([], [Attribute("method", "instantiate"), Attribute("admin", info.sender),
                                Attribute("nft_code_id", NatToString(msg.nftCodeId))])));
  }

  /** `execute`: each message goes to its handler with its fields unchanged.
      (The royalty update is not modelled.) */
  method Execute(reg: Registry, env: Env, info: MessageInfo, msg: ExecuteMsg)
    returns (r: Result<Response<SubMsg>, ContractError>)
    requires reg.Valid() && !msg.UpdateRoyalties?
    modifies reg
    ensures reg.Valid()
    ensures r.Err? ==>
              && reg.config == old(reg.config) && reg.collections == old(reg.collections)
              && reg.symbolTaken == old(reg.symbolTaken) && reg.artistCollections == old(reg.artistCollections)
              && reg.collectionCount == old(reg.collectionCount)
    // only the admin changes anything
    ensures info.sender != old(reg.config).admin ==> r == Err(Unauthorized)
    ensures msg.CreateCollection? ==>
              && reg.config == old(reg.config)
              && (info.sender == reg.config.admin && !AllUppercase(msg.symbol) ==> r == Err(InvalidSymbol))
              && (info.sender == reg.config.admin && AllUppercase(msg.symbol) && old(reg.IsTaken(msg.symbol)) ==>
                    r == Err(SymbolAlreadyTaken))
              && (r.Ok? <==> info.sender == reg.config.admin && AllUppercase(msg.symbol) && !old(reg.IsTaken(msg.symbol)))
              && (r.Ok? ==>
                    && reg.collections == old(reg.collections)[msg.symbol :=
                         Collection(msg.name, msg.symbol, msg.artist, msg.minter, "", env.blockTime, msg.collectionInfo)]
                    && reg.symbolTaken == old(reg.symbolTaken)[msg.symbol := true]
                    && reg.artistCollections == old(reg.artistCollections)[msg.artist :=
                         ListedFor(old(reg.artistCollections), msg.artist) + [msg.symbol]]
                    && reg.collectionCount == old(reg.collectionCount) + 1
                    && reg.PendingSymbols() == old(reg.PendingSymbols()) + {msg.symbol}
                    && r.value.messages == [InstantiateRequest(reg.config, msg.name, msg.symbol, msg.artist, msg.minter,
                                                               msg.collectionInfo)]
                    // the `event` attribute of the source is not modelled
                    && r.value.attributes == [Attribute("action", "create_collection")])
    ensures msg.UpdateNftCodeId? ==>
              && reg.collections == old(reg.collections) && reg.collectionCount == old(reg.collectionCount)
              && (r.Ok? <==> info.sender == old(reg.config).admin)
              && (r.Ok? ==>
                    && reg.config == old(reg.config).(nftCodeId := msg.codeId)
                    && r.value.messages == []
                    && r.value.attributes == [Attribute("action", "update_nft_code_id"),
                                              Attribute("new_code_id", NatToString(msg.codeId))])
  {
    match msg
    case CreateCollection(name, symbol, artist, minter, collectionInfo) =>
      r := reg.CreateCollection(env, info, name, symbol, artist, minter, collectionInfo);
    case UpdateNftCodeId(codeId) =>
      r := reg.UpdateNftCodeId(info, codeId);
  }

  /** `reply`: id 1 is the answer to a collection's instantiation; any other
      id is refused with that id. */
  method HandleReply(reg: Registry, api: Api, env: Env, reply: Reply)
    returns (r: Result<Response<SubMsg>, ContractError>)
    requires reg.Valid()
    modifies reg
    ensures reg.Valid() && reg.config == old(reg.config)
    ensures reg.symbolTaken == old(reg.symbolTaken) && reg.artistCollections == old(reg.artistCollections)
    ensures reg.collectionCount == old(reg.collectionCount)
    ensures r.Err? ==> reg.collections == old(reg.collections)
    ensures reply.id != COLLECTION_REPLY_ID ==> r == Err(UnknownReplyId(reply.id))
    ensures reply.id == COLLECTION_REPLY_ID && reply.contractAddress.None? ==> r == Err(Panic(UNWRAP_ERR))
    ensures reply.id == COLLECTION_REPLY_ID && reply.contractAddress.Some?
            && !api.accepts(reply.contractAddress.value) ==>
              r == Err(Std(StdError.InvalidAddress(reply.contractAddress.value)))
    ensures reply.id == COLLECTION_REPLY_ID && reply.contractAddress.Some? && api.accepts(reply.contractAddress.value)
            && (old(reg.PendingSymbols()) == {} || "" in old(reg.PendingSymbols())) ==>
              r == Err(CollectionNotFound)
    ensures r.Ok? <==>
              reply.id == COLLECTION_REPLY_ID && reply.contractAddress.Some? && api.accepts(reply.contractAddress.value)
              && old(reg.PendingSymbols()) != {} && "" !in old(reg.PendingSymbols())
    ensures r.Ok? ==>
              var found := Keys.Least(old(reg.PendingSymbols()));
              var addr := reply.contractAddress.value;
              && reg.collections == old(reg.collections)[found := old(reg.collections)[found].(contractAddress := addr)]
              && reg.PendingSymbols() == old(reg.PendingSymbols()) - {found}
              && r.value.messages == []
              && r.value.attributes == [Attribute("action", "collection_created"), Attribute("symbol", found),
                                        Attribute("contract_address", addr)]
  {
    if reply.id == COLLECTION_REPLY_ID {
      r := reg.ReplyCollectionCreated(api, reply);
    } else {
      r := Err(UnknownReplyId(reply.id));
    }
  }

  /** The reply step of a creation transaction: the reply with id 1 carrying
      `contractAddress`. When it fails, the host puts back the stored items
      as they were before the transaction (`cols`, `taken`, `index`,
      `count`). */
  method ReplyOrUndo(reg: Registry, api: Api, env: Env, contractAddress: Option<string>,
                     cols: map<string, Collection>, taken: map<string, bool>, index: map<Addr, seq<string>>,
                     count: nat)
    returns (r: Result<Response<SubMsg>, ContractError>)
    requires reg.Valid() && Consistent(cols, taken, index, count)
    modifies reg
    ensures reg.Valid() && reg.config == old(reg.config)
    ensures r.Err? ==>
              && reg.collections == cols && reg.symbolTaken == taken
              && reg.artistCollections == index && reg.collectionCount == count
    ensures r.Ok? <==>
              contractAddress.Some? && api.accepts(contractAddress.value)
              && old(reg.PendingSymbols()) != {} && "" !in old(reg.PendingSymbols())
    ensures contractAddress.None? ==> r == Err(Panic(UNWRAP_ERR))
    ensures contractAddress.Some? && !api.accepts(contractAddress.value) ==>
              r == Err(Std(StdError.InvalidAddress(contractAddress.value)))
    ensures contractAddress.Some? && api.accepts(contractAddress.value)
            && (old(reg.PendingSymbols()) == {} || "" in old(reg.PendingSymbols())) ==>
              r == Err(CollectionNotFound)
    ensures r.Ok? ==>
              var found := Keys.Least(old(reg.PendingSymbols()));
              && reg.collections == old(reg.collections)[found := old(reg.collections)[found].(contractAddress := contractAddress.value)]
              && reg.symbolTaken == old(reg.symbolTaken) && reg.artistCollections == old(reg.artistCollections)
              && reg.collectionCount == old(reg.collectionCount)
              && reg.PendingSymbols() == old(reg.PendingSymbols()) - {found}
  {
    r := HandleReply(reg, api, env, Reply(COLLECTION_REPLY_ID, contractAddress));
    if r.Err? {
      reg.Restore(cols, taken, index, count);
    }
  }

  /** A collection's creation as the host commits it. The request is sent
      with "reply on success", so the host runs the new contract's
      instantiation and the factory's `reply` inside the same transaction as
      `create_collection`; when the reply fails the whole transaction is
      undone. `contractAddress` is what the host's reply carries: the new
      contract's address, or None when its data cannot be parsed. */
  method CreateCollectionTransaction(reg: Registry, api: Api, env: Env, info: MessageInfo, name: string,
                                     symbol: string, artist: Addr, minter: Addr, collectionInfo: string,
                                     contractAddress: Option<string>)
    returns (r: Result<(Response<SubMsg>, Response<SubMsg>), ContractError>)
    requires reg.Valid()
    modifies reg
    ensures reg.Valid() && reg.config == old(reg.config)
    ensures r.Err? ==>
              && reg.collections == old(reg.collections) && reg.symbolTaken == old(reg.symbolTaken)
              && reg.artistCollections == old(reg.artistCollections) && reg.collectionCount == old(reg.collectionCount)
    ensures info.sender != reg.config.admin ==> r == Err(Unauthorized)
    ensures info.sender == reg.config.admin && !AllUppercase(symbol) ==> r == Err(InvalidSymbol)
    ensures info.sender == reg.config.admin && AllUppercase(symbol) && old(reg.IsTaken(symbol)) ==>
              r == Err(SymbolAlreadyTaken)
    // the empty symbol passes the symbol rule, but its own reply cannot find it
    ensures symbol == "" ==> r.Err?
    ensures r.Ok? <==>
              && info.sender == reg.config.admin && AllUppercase(symbol) && !old(reg.IsTaken(symbol))
              && contractAddress.Some? && api.accepts(contractAddress.value)
              && symbol != "" && "" !in old(reg.PendingSymbols())
    ensures r.Ok? ==>
              && reg.symbolTaken == old(reg.symbolTaken)[symbol := true]
              && reg.artistCollections == old(reg.artistCollections)[artist := ListedFor(old(reg.artistCollections), artist) + [symbol]]
              && reg.collectionCount == old(reg.collectionCount) + 1
              && r.value.0.messages == [InstantiateRequest(reg.config, name, symbol, artist, minter, collectionInfo)]
    // the new entry is registered pending, then the reply fills in the pending
    // entry with the smallest symbol (see FillOnlyPending for the usual case)
    ensures r.Ok? ==>
              reg.collections == FillLeastPending(old(reg.collections)[symbol :=
                Collection(name, symbol, artist, minter, "", env.blockTime, collectionInfo)], contractAddress.value)
  {
    var cols, taken, index, count := reg.collections, reg.symbolTaken, reg.artistCollections, reg.collectionCount;
    var created := reg.CreateCollection(env, info, name, symbol, artist, minter, collectionInfo);
    if created.Err? {
      return Err(created.error);
    }
    var replied := ReplyOrUndo(reg, api, env, contractAddress, cols, taken, index, count);
    if replied.Err? {
      return Err(replied.error);
    }
    r := Ok((created.value, replied.value));
  }

  /** `query`. */
  ghost function Query(reg: Registry, api: Api, env: Env, msg: QueryMsg): (r: Result<QueryResponse, StdError>)
    reads reg
    ensures msg.GetConfig? ==> r == Ok(ConfigInfo(QueryConfig(reg)))
    ensures msg.AllCollections? ==> r == Ok(CollectionsInfo(QueryAllCollections(reg, msg.limit)))
    ensures msg.IsSymbolAvailable? ==> r == Ok(Available(!reg.IsTaken(msg.symbol)))
    ensures (msg.GetCollection? || msg.ArtistCollections?) ==> (r.Err? <==> !api.accepts(msg.artist))
  {
    match msg
    case GetConfig => Ok(ConfigInfo(QueryConfig(reg)))
    case GetCollection(artist) =>
      (match QueryCollection(reg, api, artist)
       case Ok(c) => Ok(CollectionInfo(c))
       case Err(e) => Err(e))
    case ArtistCollections(artist, limit) =>
      (match QueryArtistCollections(reg, api, artist, limit)
       case Ok(c) => Ok(CollectionsInfo(c))
       case Err(e) => Err(e))
    case AllCollections(limit) => Ok(CollectionsInfo(QueryAllCollections(reg, limit)))
    case IsSymbolAvailable(symbol) => Ok(Available(QueryIsSymbolAvailable(reg, symbol)))
  }
}
