/** Messages, stored records, responses and errors of the collection factory
    (contracts/factory/src/msg.rs, error.rs and the records that
    contracts/factory/src/execute.rs and query.rs use). */
module FactoryMsgs {
  import opened Host

  datatype InstantiateMsg = InstantiateMsg(
    nftCodeId: U64,
    price: U128,
    duration: U64,
    gracePeriod: U64,
    paymentAddress: Addr,
    housePercentage: U32,
    artistPercentage: U32)

  datatype ExecuteMsg =
    | CreateCollection(name: string, symbol: string, artist: Addr, minter: Addr, collectionInfo: string)
    | UpdateNftCodeId(codeId: U64)
    | UpdateRoyalties(housePercentage: U32, artistPercentage: U32)

  datatype QueryMsg =
    | GetConfig
    | GetCollection(artist: string)
    | ArtistCollections(artist: string, limit: Option<U32>)
    | AllCollections(limit: Option<U32>)
    | IsSymbolAvailable(symbol: string)

  /** The factory's configuration, with the fields the code reads and writes. */
  datatype Config = Config(
    admin: Addr,
    duration: U64,
    gracePeriod: U64,
    paymentAddress: Addr,
    price: U128,
    nftCodeId: U64,
    housePercentage: U32,
    artistPercentage: U32)

  /** One registered collection. A pending entry has an empty contract
      address until the reply for its instantiation arrives. */
  datatype Collection = Collection(
    name: string,
    symbol: string,
    artist: Addr,
    minter: Addr,
    contractAddress: Addr,
    createdAt: nat,
    collectionInfo: string)

  datatype ConfigResponse = ConfigResponse(
    nftCodeId: U64,
    admin: string,
    totalCollections: nat,
    housePercentage: U32,
    artistPercentage: U32)

  datatype CollectionResponse = CollectionResponse(collection: Option<Collection>)

  datatype CollectionsResponse = CollectionsResponse(collections: seq<Collection>)

  datatype QueryResponse =
    | ConfigInfo(config: ConfigResponse)
    | CollectionInfo(collection: CollectionResponse)
    | CollectionsInfo(collections: CollectionsResponse)
    | Available(available: bool)

  /** The instantiate message the factory sends for a new pass collection,
      with exactly the fields the factory fills in. */
  datatype NftInstantiateRequest = NftInstantiateRequest(
    name: string,
    passDuration: U64,
    symbol: string,
    collectionInfo: string,
    minter: Addr,
    passPrice: U128,
    gracePeriod: U64,
    paymentAddress: Addr,
    artist: Addr)

  /** A contract instantiation the host performs on the factory's behalf. */
  datatype WasmInstantiate = WasmInstantiate(
    admin: Option<string>,
    codeId: U64,
    msg: NftInstantiateRequest,
    funds: seq<Coin>,
    contractLabel: string)

  /** A sub-message whose successful outcome comes back to the factory's
      reply entry point with the id `replyId`. */
  datatype SubMsg = ReplyOnSuccess(replyId: U64, instantiate: WasmInstantiate)

  /** The reply to a sub-message. `contractAddress` is the address that the
      host reports in the instantiation data, or None when that data cannot be
      parsed. */
  datatype Reply = Reply(id: U64, contractAddress: Option<string>)

  /** The factory's errors. `InvalidRoyalties` is raised by `instantiate`;
      `Panic` stands for a Rust panic that aborts the call. */
  datatype ContractError =
    | Std(std: StdError)
    | Unauthorized
    | InvalidSymbol
    | InvalidSymbolA
    | InvalidSymbolB
    | SymbolAlreadyTaken
    | CollectionNotFound
    | UnknownReplyId(id: U64)
    | NoPayment
    | InvalidPayment
    | TokenExists
    | TokenNotFound
    | PassNotExpired
    | PassExpired
    | InGracePeriod
    | Soulbound
    | CustomError(val: string)
    | InvalidAddress
    | InvalidTokenId
    | InvalidPassDuration
    | InvalidGracePeriod
    | MaxSupplyReached
    | GracePeriodOperation
    | InvalidInstantiation
    | InvalidRoyalties
    | Panic(reason: string)

  /** The reply id the factory tags its instantiation requests with. */
  const COLLECTION_REPLY_ID: U64 := 1

  /** How many collections a listing returns when no limit is given. */
  const DEFAULT_LIMIT: nat := 10
}
