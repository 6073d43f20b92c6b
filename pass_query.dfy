/** Read-only queries of a pass collection (contracts/pass_nft/src/query.rs),
    as functions of the collection's storage. */
module PassQueries {
  import opened Host
  import opened Text
  import opened Keys
  import opened PassState
  import opened PassMsgs
  import opened PassExecute

  /** A pass counts as valid while it is active or in its grace period. */
  predicate IsValidStatus(s: PassStatus)
  {
    s == Active || s == InGracePeriod
  }

  /** `query_validity`. */
  function QueryValidity(c: PassContract, env: Env, tokenId: string): (r: Result<ValidityResponse, StdError>)
    reads c
    ensures r.Err? <==> tokenId !in c.tokens
    ensures r.Err? ==> r.error == NotFound(TOKEN_KIND)
    ensures r.Ok? ==>
              var e := c.tokens[tokenId].extension;
              var s := Status(e, env.blockTime);
              && r.value.tokenId == tokenId
              && r.value.expiresAt == e.expiresAt
              && (r.value.isValid <==> s == Active || s == InGracePeriod)
              && (r.value.inGracePeriod <==> s == InGracePeriod)
              && (r.value.gracePeriodEnd.Some? <==> r.value.isValid)
              && (r.value.isValid ==> r.value.gracePeriodEnd == Some(e.gracePeriodEnd))
  {
    if tokenId !in c.tokens then Err(NotFound(TOKEN_KIND))
    else
      var e := c.tokens[tokenId].extension;
      var status := Status(e, env.blockTime);
      var isValid := IsValidStatus(status);
      Ok(ValidityResponse(tokenId, isValid, e.expiresAt, status == InGracePeriod,
                          if isValid then Some(e.gracePeriodEnd) else None))
  }

  /** In a valid collection a pass is valid exactly until its grace period
      ends, and in its grace period exactly from its expiry to then. */
  lemma ValidityByTime(c: PassContract, env: Env, tokenId: string)
    requires c.Valid() && tokenId in c.tokens
    ensures var e := c.tokens[tokenId].extension;
            var v := QueryValidity(c, env, tokenId).value;
            && (v.isValid <==> env.blockTime <= e.gracePeriodEnd)
            && (v.inGracePeriod <==> e.expiresAt <= env.blockTime <= e.gracePeriodEnd)
  {
  }

  /** The ids `owner` holds that start with `prefix`. */
  function OwnedWithPrefix(c: PassContract, owner: Addr, prefix: string): set<string>
    reads c
  {
    set id | id in c.tokens && c.tokens[id].owner == owner && StartsWith(id, prefix)
  }

  const NO_PASS: string := "No pass found for this symbol and owner"

  /** `get_user_pass`: among the tokens `owner` holds, taken in ascending id
      order, the first whose id starts with the lower-cased symbol and a dash. */
  ghost function GetUserPass(c: PassContract, api: Api, env: Env, symbol: string, owner: string)
    : (r: Result<PassResponse, StdError>)
    reads c
    ensures !api.accepts(owner) ==> r == Err(InvalidAddress(owner))
    ensures r.Ok? <==> api.accepts(owner) && OwnedWithPrefix(c, owner, TokenPrefix(symbol)) != {}
    ensures api.accepts(owner) && OwnedWithPrefix(c, owner, TokenPrefix(symbol)) == {} ==>
              r == Err(NotFound(NO_PASS))
    ensures r.Ok? ==>
              var id := r.value.tokenId;
              && IsLeast(id, OwnedWithPrefix(c, owner, TokenPrefix(symbol)))
              && id in c.tokens
              && r.value.owner == owner
              && r.value.collectionName == c.config.name
              && r.value.contractAddress == env.contractAddress
              && (r.value.isValid <==> Status(c.tokens[id].extension, env.blockTime) != Expired)
              && r.value.expiresAt == c.tokens[id].extension.expiresAt
  {
    match AddrValidate(api, owner)
    case Err(err) => Err(err)
    case Ok(ownerAddr) =>
      var matching := OwnedWithPrefix(c, ownerAddr, TokenPrefix(symbol));
      if matching == {} then Err(NotFound(NO_PASS))
      else
        var id := Least(matching);
        var e := c.tokens[id].extension;
        Ok(PassResponse(c.config.name, env.contractAddress, id, ownerAddr,
                        IsValidStatus(Status(e, env.blockTime)), e.expiresAt))
  }

  /** Lookup round trip: once `owner` holds a pass of this collection, looking
      up `owner`'s pass under the collection's own symbol succeeds, because
      every id the collection issues carries that symbol's prefix. */
  lemma UserPassFound(c: PassContract, api: Api, env: Env, owner: Addr, id: string)
    requires c.Valid() && api.accepts(owner)
    requires id in c.tokens && c.tokens[id].owner == owner
    ensures GetUserPass(c, api, env, c.config.symbol, owner).Ok?
  {
    assert id in OwnedWithPrefix(c, owner, TokenPrefix(c.config.symbol));
  }

  /** The ids whose pass is flagged active. */
  function ActiveIds(c: PassContract): set<string>
    reads c
  {
    set id | id in c.tokens && c.tokens[id].extension.isActive
  }

  /** `query_artist_info`. */
  function QueryArtistInfo(c: PassContract): (r: ArtistInfoResponse)
    reads c
    ensures r.artist == c.config.artist
    ensures r.totalPasses == c.tokenCount
    ensures r.activePasses == |ActiveIds(c)|
  {
    ArtistInfoResponse(c.config.artist, c.tokenCount, |ActiveIds(c)|)
  }

  /** Every stored pass is flagged active, so in a valid collection the two
      counts agree and both equal the number of stored passes. */
  lemma ActiveEqualsTotal(c: PassContract)
    requires c.Valid()
    ensures QueryArtistInfo(c).activePasses == QueryArtistInfo(c).totalPasses == |c.tokens|
  {
    assert ActiveIds(c) == c.tokens.Keys;
  }

  function ConfigResponseOf(config: Config): ConfigResponse
  {
    ConfigResponse(config.name, config.symbol, config.artist, config.minter, config.collectionInfo,
                   config.passPrice, config.passDuration, config.gracePeriod, config.paymentAddress,
                   config.housePercentage, config.artistPercentage)
  }

  /** `query_config`: the stored configuration, field for field. */
  function QueryConfig(c: PassContract): (r: ConfigResponse)
    reads c
    ensures r.name == c.config.name && r.symbol == c.config.symbol && r.artist == c.config.artist
    ensures r.minter == c.config.minter && r.collectionInfo == c.config.collectionInfo
    ensures r.passPrice == c.config.passPrice && r.passDuration == c.config.passDuration
    ensures r.gracePeriod == c.config.gracePeriod && r.paymentAddress == c.config.paymentAddress
    ensures r.housePercentage == c.config.housePercentage && r.artistPercentage == c.config.artistPercentage
  {
    ConfigResponseOf(c.config)
  }
}
