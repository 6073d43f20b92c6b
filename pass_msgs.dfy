/** Messages, responses and errors of the pass collection
    (contracts/pass_nft/src/msg.rs and error.rs). */
module PassMsgs {
  import opened Host
  import opened PassState

  datatype InstantiateMsg = InstantiateMsg(
    name: string,
    symbol: string,
    artist: Addr,
    minter: Addr,
    collectionInfo: string,
    passPrice: U128,
    passDuration: U64,
    gracePeriod: U64,
    paymentAddress: Addr,
    housePercentage: U32,
    artistPercentage: U32)

  /** The collection's own execute messages. */
  datatype PassMsg =
    | MintPass(ownerAddress: string)
    | RenewPass(tokenId: string)
    | BurnExpiredPass(tokenId: string)

  /** The base library's execute messages, with the pass messages as its
      extension. */
  datatype ExecuteMsg =
    | TransferNft(recipient: string, tokenId: string)
    | SendNft(contract: string, tokenId: string, payload: string)
    | Approve(spender: string, tokenId: string, expires: Option<Expiration>)
    | Revoke(spender: string, tokenId: string)
    | ApproveAll(operator: string, expires: Option<Expiration>)
    | RevokeAll(operator: string)
    | Mint(tokenId: string, owner: string, tokenUri: Option<string>, extension: PassExtension)
    | Burn(tokenId: string)
    | Extension(msg: PassMsg)

  /** The collection's own queries. */
  datatype PassQuery =
    | GetUserPass(symbol: string, owner: string)
    | CheckValidity(tokenId: string)
    | GetConfig
    | GetArtistInfo

  /** The base library's queries, with the pass queries as its extension. */
  datatype QueryMsg =
    | OwnerOf(tokenId: string, includeExpired: Option<bool>)
    | Approval(tokenId: string, spender: string, includeExpired: Option<bool>)
    | Approvals(tokenId: string, includeExpired: Option<bool>)
    | NumTokens
    | ContractInfo
    | NftInfo(tokenId: string)
    | AllNftInfo(tokenId: string, includeExpired: Option<bool>)
    | Tokens(owner: string, startAfter: Option<string>, limit: Option<U32>)
    | AllTokens(startAfter: Option<string>, limit: Option<U32>)
    | Minter
    | QueryExtension(msg: PassQuery)

  /** The base queries the collection forwards to the base library. */
  datatype BaseQueryMsg =
    | BaseOwnerOf(tokenId: string, includeExpired: Option<bool>)
    | BaseApproval(tokenId: string, spender: string, includeExpired: Option<bool>)

  datatype ValidityResponse = ValidityResponse(
    tokenId: string,
    isValid: bool,
    expiresAt: nat,
    inGracePeriod: bool,
    gracePeriodEnd: Option<nat>)

  datatype PassResponse = PassResponse(
    collectionName: string,
    contractAddress: Addr,
    tokenId: string,
    owner: string,
    isValid: bool,
    expiresAt: nat)

  datatype ConfigResponse = ConfigResponse(
    name: string,
    symbol: string,
    artist: Addr,
    minter: Addr,
    collectionInfo: string,
    passPrice: U128,
    passDuration: U64,
    gracePeriod: U64,
    paymentAddress: Addr,
    housePercentage: U32,
    artistPercentage: U32)

  datatype ArtistInfoResponse = ArtistInfoResponse(
    artist: string,
    totalPasses: nat,
    activePasses: nat)

  /** What a query answers: one of the collection's own responses, or the base
      query that is handed to the base library (whose answer is not modelled). */
  datatype QueryResponse =
    | Validity(validity: ValidityResponse)
    | ConfigInfo(config: ConfigResponse)
    | ArtistInfo(info: ArtistInfoResponse)
    | UserPass(pass: PassResponse)
    | Forwarded(query: BaseQueryMsg)

  datatype BankMsg = Send(toAddress: Addr, amount: seq<Coin>)

  /** The collection's errors. `InvalidRoyalties` is raised by `instantiate`;
      `Panic` stands for a Rust panic that aborts the call. */
  datatype ContractError =
    | Std(std: StdError)
    | Unauthorized
    | InvalidTokenId
    | Custom(msg: string)
    | InsufficientPayment(expected: U128, received: U128)
    | NoPayment
    | PassStillValid
    | PassExpiredAndGracePeriodEnded
    | PassInGracePeriod
    | PassNotFound
    | MaxSupplyReached
    | DirectMintNotAllowed
    | NoTransfer
    | InvalidRoyalties
    | Panic(reason: string)

  const UNSUPPORTED: string := "Unsupported operation"
}
