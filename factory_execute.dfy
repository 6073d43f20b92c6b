/** The state-changing operations of the collection factory
    (contracts/factory/src/execute.rs): admin-gated registration of a new
    collection with the request to instantiate its contract, the code id
    update, and the reply handler that fills in the address of a pending
    collection. A failing call leaves the state as it was, as the host
    discards the writes of a failed call. */
module FactoryExecute {
  import opened Host
  import opened Text
  import opened Keys
  import opened FactoryMsgs

  /** The symbols listed for `artist`, or none. */
  function ListedFor(index: map<Addr, seq<string>>, artist: Addr): seq<string>
  {
    if artist in index then index[artist] else []
  }

  /** The instantiation request for a new collection: the collection's own
      fields from the call, the pass terms from the factory's configuration,
      reply id 1 and no funds. */
  function InstantiateRequest(config: Config, name: string, symbol: string, artist: Addr, minter: Addr,
                              collectionInfo: string): (m: SubMsg)
    ensures m.replyId == COLLECTION_REPLY_ID
    ensures m.instantiate.codeId == config.nftCodeId && m.instantiate.admin == Some(config.admin)
    ensures m.instantiate.funds == [] && m.instantiate.contractLabel == name + " Collection"
    ensures var r := m.instantiate.msg;
            && r.passPrice == config.price && r.passDuration == config.duration
            && r.gracePeriod == config.gracePeriod && r.paymentAddress == config.paymentAddress
            && r.name == name && r.symbol == symbol && r.artist == artist && r.minter == minter
            && r.collectionInfo == collectionInfo
  {
    ReplyOnSuccess(COLLECTION_REPLY_ID,
      WasmInstantiate(Some(config.admin), config.nftCodeId,
        NftInstantiateRequest(name, config.duration, symbol, collectionInfo, minter, config.price,
                              config.gracePeriod, config.paymentAddress, artist),
        [], name + " Collection"))
  }

  /** With two pending symbols, the reply resolves the smaller one first. */
  lemma SmallerPendingResolvedFirst(a: string, b: string, found: string)
    requires LexLt(a, b) && IsLeast(found, {a, b})
    ensures found == a
  {
    if found == b {
      LexLeAntisym(a, b);
    }
  }

  /** A pending entry under the empty symbol is always the one found first,
      and the empty result means "nothing found": once such an entry exists no
      reply can resolve any pending collection. */
  lemma EmptySymbolFoundFirst(pending: set<string>, found: string)
    requires "" in pending && IsLeast(found, pending)
    ensures found == ""
  {
    EmptyIsLeast(found);
    LexLeAntisym("", found);
  }

  /** The symbol rule: upper-case letters only, so lower or mixed case,
      spaces, dashes and digits are refused, and the empty symbol is accepted
      vacuously. */
  lemma SymbolExamples()
    ensures !AllUppercase("test") && !AllUppercase("Test") && !AllUppercase("TEST ") && !AllUppercase("TEST-1")
    ensures AllUppercase("") && AllUppercase("DRAKE")
  {
    assert "test"[0] == 't';
    assert "Test"[1] == 'e';
    assert "TEST "[4] == ' ';
    assert "TEST-1"[4] == '-';
  }

  // ---------------------------------------------------------------------------
  // The registry's consistency, stated on the stored values

  /** Every entry is stored under its own symbol. */
  ghost predicate KeyedBySymbol(cols: map<string, Collection>)
  {
    forall s | s in cols :: cols[s].symbol == s
  }

  /** A symbol is marked taken, and marked true, exactly when it is stored. */
  ghost predicate TakenMatches(cols: map<string, Collection>, taken: map<string, bool>)
  {
    && (forall s | s in taken :: s in cols && taken[s])
    && (forall s | s in cols :: s in taken)
  }

  /** The artist index lists only stored entries of that artist, and every
      stored entry is listed under its artist. */
  ghost predicate IndexMatches(cols: map<string, Collection>, index: map<Addr, seq<string>>)
  {
    && (forall a, i | a in index && 0 <= i < |index[a]| :: index[a][i] in cols && cols[index[a][i]].artist == a)
    && (forall s | s in cols :: s in ListedFor(index, cols[s].artist))
  }

  ghost predicate Consistent(cols: map<string, Collection>, taken: map<string, bool>,
                             index: map<Addr, seq<string>>, count: nat)
  {
    count == |cols| && KeyedBySymbol(cols) && TakenMatches(cols, taken) && IndexMatches(cols, index)
  }

  /** The symbols of the entries whose contract address is not known yet. */
  function Pending(cols: map<string, Collection>): set<string>
  {
    set s | s in cols && cols[s].contractAddress == ""
  }

  /** Registering a new entry keeps the registry consistent. */
  lemma InsertKeepsConsistent(cols: map<string, Collection>, taken: map<string, bool>,
                              index: map<Addr, seq<string>>, count: nat, col: Collection)
    requires Consistent(cols, taken, index, count) && col.symbol !in cols
    ensures Consistent(cols[col.symbol := col], taken[col.symbol := true],
                       index[col.artist := ListedFor(index, col.artist) + [col.symbol]], count + 1)
  {
    var cols' := cols[col.symbol := col];
    var index' := index[col.artist := ListedFor(index, col.artist) + [col.symbol]];
    forall a, i | a in index' && 0 <= i < |index'[a]|
      ensures index'[a][i] in cols' && cols'[index'[a][i]].artist == a
    {
      if a == col.artist && i == |ListedFor(index, col.artist)| {
        assert index'[a][i] == col.symbol;
      } else if a == col.artist {
        assert index'[a][i] == index[a][i];
      }
    }
    forall s | s in cols' ensures s in ListedFor(index', cols'[s].artist)
    {
      if s != col.symbol {
        assert s in ListedFor(index, cols[s].artist);
      }
    }
  }

  /** Registering a new entry without an address adds exactly its symbol to
      the pending ones. */
  lemma InsertPending(cols: map<string, Collection>, col: Collection)
    requires col.contractAddress == "" && col.symbol !in cols
    ensures Pending(cols[col.symbol := col]) == Pending(cols) + {col.symbol}
  {
  }

  /** Writing an address into one entry keeps the registry consistent. */
  lemma AddressKeepsConsistent(cols: map<string, Collection>, taken: map<string, bool>,
                               index: map<Addr, seq<string>>, count: nat, s: string, addr: Addr)
    requires Consistent(cols, taken, index, count) && s in cols
    ensures Consistent(cols[s := cols[s].(contractAddress := addr)], taken, index, count)
  {
    var cols' := cols[s := cols[s].(contractAddress := addr)];
    assert cols'.Keys == cols.Keys;
    assert |cols'| == |cols|;
    assert forall t | t in cols' :: cols'[t].symbol == cols[t].symbol && cols'[t].artist == cols[t].artist;
    assert TakenMatches(cols', taken);
    assert IndexMatches(cols', index);
  }

  /** Writing a non-empty address into a pending entry resolves exactly that
      one. */
  lemma AddressResolves(cols: map<string, Collection>, s: string, addr: Addr)
    requires s in cols && addr != ""
    ensures Pending(cols[s := cols[s].(contractAddress := addr)]) == Pending(cols) - {s}
  {
  }

  /** The entries after the reply's address is written into the pending entry
      with the smallest symbol (no change when nothing is pending). */
  ghost function FillLeastPending(cols: map<string, Collection>, addr: Addr): map<string, Collection>
  {
    if Pending(cols) == {} then cols
    else
      var s := Least(Pending(cols));
      cols[s := cols[s].(contractAddress := addr)]
  }

  /** When nothing else is pending, the reply fills in the entry just
      registered, and afterwards nothing is pending. */
  lemma FillOnlyPending(cols: map<string, Collection>, col: Collection, addr: Addr)
    requires Pending(cols) == {} && col.contractAddress == "" && col.symbol !in cols && addr != ""
    ensures Pending(cols[col.symbol := col]) == {col.symbol}
    ensures FillLeastPending(cols[col.symbol := col], addr) == cols[col.symbol := col.(contractAddress := addr)]
    ensures Pending(cols[col.symbol := col.(contractAddress := addr)]) == {}
  {
    InsertPending(cols, col);
    LeastOfOne(col.symbol, Least({col.symbol}));
  }

  /** The factory's storage. */
  class Registry {
    var config: Config
    var collections: map<string, Collection>
    var symbolTaken: map<string, bool>
    var artistCollections: map<Addr, seq<string>>
    var collectionCount: nat

    /** Entries are keyed by their symbol, a symbol is marked taken exactly
        when it is registered, the count matches the entries, and the artist
        index lists every entry under its artist and nothing else. */
    ghost predicate Valid()
      reads this
    {
      Consistent(collections, symbolTaken, artistCollections, collectionCount)
    }

    constructor (config: Config)
      ensures Valid()
      ensures this.config == config && collections == map[] && symbolTaken == map[]
      ensures artistCollections == map[] && collectionCount == 0
    {
      this.config := config;
      collections := map[];
      symbolTaken := map[];
      artistCollections := map[];
      collectionCount := 0;
    }

    /** `SYMBOL_TAKEN.may_load(symbol).unwrap_or(false)`. */
    predicate IsTaken(symbol: string)
      reads this
    {
      symbol in symbolTaken && symbolTaken[symbol]
    }

    /** In a valid registry a symbol is taken exactly when it is registered. */
    lemma TakenIffRegistered(symbol: string)
      requires Valid()
      ensures IsTaken(symbol) <==> symbol in collections
    {
    }

    function PendingSymbols(): set<string>
      reads this
    {
      Pending(collections)
    }

    /** The effect of `save_new_collection`, whose code is not part of this
        model. ASSUMED: it stores the entry under its symbol, marks the symbol
        taken, appends the symbol to the artist's list and counts one more
        collection. */
    method SaveNewCollection(col: Collection)
      requires Valid() && col.symbol !in collections
      modifies this
      ensures Valid() && config == old(config)
      ensures collections == old(collections)[col.symbol := col]
      ensures symbolTaken == old(symbolTaken)[col.symbol := true]
      ensures artistCollections ==
                old(artistCollections)[col.artist := ListedFor(old(artistCollections), col.artist) + [col.symbol]]
      ensures collectionCount == old(collectionCount) + 1
    {
      InsertKeepsConsistent(collections, symbolTaken, artistCollections, collectionCount, col);
      var listed := ListedFor(artistCollections, col.artist) + [col.symbol];
      collections := collections[col.symbol := col];
      symbolTaken := symbolTaken[col.symbol := true];
      artistCollections := artistCollections[col.artist := listed];
      collectionCount := collectionCount + 1;
    }

    /** The host undoing a failed transaction: every stored item goes back to
        the values it had before. */
    method Restore(cols: map<string, Collection>, taken: map<string, bool>, index: map<Addr, seq<string>>,
                   count: nat)
      requires Consistent(cols, taken, index, count)
      modifies this
      ensures Valid() && config == old(config)
      ensures collections == cols && symbolTaken == taken && artistCollections == index && collectionCount == count
    {
      collections, symbolTaken, artistCollections, collectionCount := cols, taken, index, count;
    }

    /** `create_collection`. */
    method CreateCollection(env: Env, info: MessageInfo, name: string, symbol: string, artist: Addr,
                            minter: Addr, collectionInfo: string)
      returns (r: Result<Response<SubMsg>, ContractError>)
      requires Valid()
      modifies this
      ensures Valid() && config == old(config)
      ensures r.Err? ==>
                && collections == old(collections) && symbolTaken == old(symbolTaken)
                && artistCollections == old(artistCollections) && collectionCount == old(collectionCount)
      // the checks, in the order the code makes them
      ensures info.sender != config.admin ==> r == Err(Unauthorized)
      ensures info.sender == config.admin && !AllUppercase(symbol) ==> r == Err(InvalidSymbol)
      ensures info.sender == config.admin && AllUppercase(symbol) && old(IsTaken(symbol)) ==>
                r == Err(SymbolAlreadyTaken)
      ensures r.Ok? <==> info.sender == config.admin && AllUppercase(symbol) && !old(IsTaken(symbol))
      // a pending entry, and the request to instantiate its contract
      ensures r.Ok? ==>
                var col := Collection(name, symbol, artist, minter, "", env.blockTime, collectionInfo);
                && collections == old(collections)[symbol := col]
                && symbolTaken == old(symbolTaken)[symbol := true]
                && artistCollections == old(artistCollections)[artist := ListedFor(old(artistCollections), artist) + [symbol]]
                && collectionCount == old(collectionCount) + 1
                && PendingSymbols() == old(PendingSymbols()) + {symbol}
                && r.value.messages == [InstantiateRequest(config, name, symbol, artist, minter, collectionInfo)]
                // the source's second attribute, `event` (a JSON encoding of the new
                // entry), is not modelled
                && r.value.attributes == [Attribute("action", "create_collection")]
    {
      if info.sender != config.admin {
        return Err(Unauthorized);
      }
      if !AllUppercase(symbol) {
        return Err(InvalidSymbol);
      }
      if IsTaken(symbol) {
        return Err(SymbolAlreadyTaken);
      }
      var request := InstantiateRequest(config, name, symbol, artist, minter, collectionInfo);
      var col := Collection(name, symbol, artist, minter, "", env.blockTime, collectionInfo);
      TakenIffRegistered(symbol);
      InsertPending(collections, col);
      SaveNewCollection(col);
      r := Ok(Response([request], [Attribute("action", "create_collection")]));
    }

    /** `update_nft_code_id`: admin only; no other field changes. */
    method UpdateNftCodeId(info: MessageInfo, codeId: U64)
      returns (r: Result<Response<SubMsg>, ContractError>)
      requires Valid()
      modifies this
      ensures Valid()
      ensures collections == old(collections) && symbolTaken == old(symbolTaken)
      ensures artistCollections == old(artistCollections) && collectionCount == old(collectionCount)
      ensures r.Err? <==> info.sender != old(config).admin
      ensures r.Err? ==> r.error == Unauthorized && config == old(config)
      ensures r.Ok? ==>
                && config == old(config).(nftCodeId := codeId)
                && r.value.messages == []
                && r.value.attributes == [Attribute("action", "update_nft_code_id"),
                                          Attribute("new_code_id", NatToString(codeId))]
    {
      if info.sender != config.admin {
        return Err(Unauthorized);
      }
      config := config.(nftCodeId := codeId);
      r := Ok(Response([], [Attribute("action", "update_nft_code_id"), Attribute("new_code_id", NatToString(codeId))]));
    }

    /** The scan of the reply handler: the stored symbols in ascending order,
        stopping at the first entry without an address. The empty string means
        nothing was found. */
    method FindFirstPending() returns (found: string)
      ensures PendingSymbols() == {} ==> found == ""
      ensures PendingSymbols() != {} ==> IsLeast(found, PendingSymbols())
    {
      found := "";
      var remaining := collections.Keys;
      while remaining != {}
        invariant remaining <= collections.Keys
        invariant PendingSymbols() <= remaining
        decreases |remaining|
      {
        LeastExists(remaining);
        var s :| s in remaining && forall t | t in remaining :: LexLe(s, t);
        if collections[s].contractAddress == "" {
          assert s in PendingSymbols();
          return s;
        }
        remaining := remaining - {s};
      }
    }

    /** `reply_collection_created`: the address from the reply goes to the
        pending entry with the smallest symbol, whichever request the reply
        answers. */
    method ReplyCollectionCreated(api: Api, reply: Reply)
      returns (r: Result<Response<SubMsg>, ContractError>)
      requires Valid()
      modifies this
      ensures Valid() && config == old(config)
      ensures symbolTaken == old(symbolTaken) && artistCollections == old(artistCollections)
      ensures collectionCount == old(collectionCount)
      ensures r.Err? ==> collections == old(collections)
      ensures reply.contractAddress.None? ==> r == Err(Panic(UNWRAP_ERR))
      ensures reply.contractAddress.Some? && !api.accepts(reply.contractAddress.value) ==>
                r == Err(Std(StdError.InvalidAddress(reply.contractAddress.value)))
      ensures reply.contractAddress.Some? && api.accepts(reply.contractAddress.value)
              && (old(PendingSymbols()) == {} || "" in old(PendingSymbols())) ==>
                r == Err(CollectionNotFound)
      ensures r.Ok? <==> reply.contractAddress.Some? && api.accepts(reply.contractAddress.value)
                         && old(PendingSymbols()) != {} && "" !in old(PendingSymbols())
      ensures r.Ok? ==>
                var found := Least(old(PendingSymbols()));
                var addr := reply.contractAddress.value;
                && collections == old(collections)[found := old(collections)[found].(contractAddress := addr)]
                && PendingSymbols() == old(PendingSymbols()) - {found}
                && r.value.messages == []
                && r.value.attributes == [Attribute("action", "collection_created"), Attribute("symbol", found),
                                          Attribute("contract_address", addr)]
    {
      if reply.contractAddress.None? {
        return Err(Panic(UNWRAP_ERR));
      }
      var contractAddr := AddrValidate(api, reply.contractAddress.value);
      if contractAddr.Err? {
        return Err(Std(contractAddr.error));
      }
      var addr := contractAddr.value;
      var found := FindFirstPending();
      if "" in PendingSymbols() {
        EmptySymbolFoundFirst(PendingSymbols(), found);
      }
      if found == "" {
        return Err(CollectionNotFound);
      }
      ghost var pending := PendingSymbols();
      LeastExists(pending);
      LeastUnique(found, Least(pending), pending);
      AddressKeepsConsistent(collections, symbolTaken, artistCollections, collectionCount, found, addr);
      AddressResolves(collections, found, addr);
      collections := collections[found := collections[found].(contractAddress := addr)];
      r := Ok(Response([], [Attribute("action", "collection_created"), Attribute("symbol", found),
                            Attribute("contract_address", addr)]));
    }
  }
}
