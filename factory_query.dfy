/** Read-only queries of the collection factory
    (contracts/factory/src/query.rs), as functions of the registry's storage. */
module FactoryQueries {
  import opened Host
  import opened Text
  import opened Keys
  import opened FactoryMsgs
  import opened FactoryExecute

  /** `query_config`. */
  function QueryConfig(reg: Registry): (r: ConfigResponse)
    reads reg
    ensures r.nftCodeId == reg.config.nftCodeId && r.admin == reg.config.admin
    ensures r.totalCollections == reg.collectionCount
    ensures r.housePercentage == reg.config.housePercentage && r.artistPercentage == reg.config.artistPercentage
  {
    ConfigResponse(reg.config.nftCodeId, reg.config.admin, reg.collectionCount,
                   reg.config.housePercentage, reg.config.artistPercentage)
  }

  /** In a valid registry the reported total is the number of registered
      collections. */
  lemma TotalIsRegistered(reg: Registry)
    requires reg.Valid()
    ensures QueryConfig(reg).totalCollections == |reg.collections|
  {
  }

  /** `query_collection`: the entry stored under the artist's first listed
      symbol. */
  function QueryCollection(reg: Registry, api: Api, artist: string): (r: Result<CollectionResponse, StdError>)
    reads reg
    ensures r.Err? <==> !api.accepts(artist)
    ensures r.Err? ==> r.error == StdError.InvalidAddress(artist)
    ensures r.Ok? ==>
              var listed := ListedFor(reg.artistCollections, artist);
              && (r.value.collection.Some? <==> |listed| > 0 && listed[0] in reg.collections)
              && (r.value.collection.Some? ==> r.value.collection.value == reg.collections[listed[0]])
  {
    match AddrValidate(api, artist)
    case Err(e) => Err(e)
    case Ok(artistAddr) =>
      var listed := ListedFor(reg.artistCollections, artistAddr);
      if |listed| > 0 && listed[0] in reg.collections then
        Ok(CollectionResponse(Some(reg.collections[listed[0]])))
      else Ok(CollectionResponse(None))
  }

  /** In a valid registry an artist with a registered collection always gets
      one of their own collections back, and an artist with none gets none. */
  lemma CollectionOfArtist(reg: Registry, api: Api, artist: Addr)
    requires reg.Valid() && api.accepts(artist)
    ensures var c := QueryCollection(reg, api, artist).value.collection;
            && (c.Some? <==> exists s | s in reg.collections :: reg.collections[s].artist == artist)
            && (c.Some? ==> c.value.artist == artist && c.value.symbol in reg.collections)
  {
    var listed := ListedFor(reg.artistCollections, artist);
    if exists s | s in reg.collections :: reg.collections[s].artist == artist {
      var s :| s in reg.collections && reg.collections[s].artist == artist;
      assert s in listed;
    }
    if |listed| > 0 {
      assert artist in reg.artistCollections;
      assert listed[0] in reg.collections && reg.collections[listed[0]].artist == artist;
    }
  }

  /** `filter_map` over a list of symbols: the stored entries, in list order,
      skipping symbols with nothing stored. */
  function StoredOf(cols: map<string, Collection>, syms: seq<string>): (r: seq<Collection>)
    ensures |r| <= |syms|
    ensures forall i | 0 <= i < |r| :: r[i] in cols.Values
    ensures (forall j | 0 <= j < |syms| :: syms[j] in cols) ==>
              |r| == |syms| && forall i | 0 <= i < |r| :: r[i] == cols[syms[i]]
    ensures (forall j | 0 <= j < |syms| :: syms[j] !in cols) ==> r == []
    decreases |syms|
  {
    if syms == [] then []
    else
      var rest := StoredOf(cols, syms[1..]);
      if syms[0] in cols then [cols[syms[0]]] + rest else rest
  }

  /** The number of results a listing may return. */
  function LimitOf(limit: Option<U32>): nat
  {
    match limit
    case None => DEFAULT_LIMIT
    case Some(n) => n
  }

  function Min(a: nat, b: nat): nat
  {
    if a <= b then a else b
  }

  /** `query_artist_collections`. */
  function QueryArtistCollections(reg: Registry, api: Api, artist: string, limit: Option<U32>)
    : (r: Result<CollectionsResponse, StdError>)
    reads reg
    ensures r.Err? <==> !api.accepts(artist)
    ensures r.Err? ==> r.error == StdError.InvalidAddress(artist)
    ensures r.Ok? ==>
              var all := StoredOf(reg.collections, ListedFor(reg.artistCollections, artist));
              && |r.value.collections| == Min(LimitOf(limit), |all|)
              && r.value.collections == all[..|r.value.collections|]
  {
    match AddrValidate(api, artist)
    case Err(e) => Err(e)
    case Ok(artistAddr) =>
      var all := StoredOf(reg.collections, ListedFor(reg.artistCollections, artistAddr));
      Ok(CollectionsResponse(all[..Min(LimitOf(limit), |all|)]))
  }

  /** In a valid registry the artist's listing is the first entries of the
      artist's index, in index order, and each belongs to that artist. */
  lemma ArtistListingIsIndexPrefix(reg: Registry, api: Api, artist: Addr, limit: Option<U32>)
    requires reg.Valid() && api.accepts(artist)
    ensures var listed := ListedFor(reg.artistCollections, artist);
            var got := QueryArtistCollections(reg, api, artist, limit).value.collections;
            && |got| == Min(LimitOf(limit), |listed|)
            && forall i | 0 <= i < |got| :: got[i] == reg.collections[listed[i]] && got[i].artist == artist
  {
    var listed := ListedFor(reg.artistCollections, artist);
    if artist in reg.artistCollections {
      assert forall j | 0 <= j < |listed| :: listed[j] in reg.collections && reg.collections[listed[j]].artist == artist;
    }
  }

  /** `query_all_collections`: the entries in ascending symbol order, at most
      `limit` of them. */
  ghost function QueryAllCollections(reg: Registry, limit: Option<U32>): (r: CollectionsResponse)
    reads reg
    ensures |r.collections| == Min(LimitOf(limit), |reg.collections|)
    ensures forall i | 0 <= i < |r.collections| ::
              var key := Ascending(reg.collections.Keys)[i];
              key in reg.collections && r.collections[i] == reg.collections[key]
  {
    var cols := reg.collections;
    var keys := Ascending(cols.Keys);
    var n := Min(LimitOf(limit), |keys|);
    CollectionsResponse(seq(n, i requires 0 <= i < n => cols[keys[i]]))
  }

  /** The listed entries are those of the first keys in ascending order. */
  lemma AllCollectionsSymbols(reg: Registry, limit: Option<U32>)
    requires KeyedBySymbol(reg.collections)
    ensures var got := QueryAllCollections(reg, limit).collections;
            forall i | 0 <= i < |got| :: got[i].symbol == Ascending(reg.collections.Keys)[i]
  {
  }

  /** In a valid registry the listing is in strictly ascending symbol order. */
  lemma AllCollectionsAscending(reg: Registry, limit: Option<U32>)
    requires reg.Valid()
    ensures var got := QueryAllCollections(reg, limit).collections;
            forall i, j | 0 <= i < j < |got| :: LexLt(got[i].symbol, got[j].symbol)
  {
    AllCollectionsSymbols(reg, limit);
  }

  /** In a valid registry the listing holds the smallest symbols: a registered
      symbol that is left out comes after every symbol listed. */
  lemma AllCollectionsSmallestFirst(reg: Registry, limit: Option<U32>, s: string)
    requires reg.Valid() && s in reg.collections
    requires forall i | 0 <= i < |QueryAllCollections(reg, limit).collections| ::
               QueryAllCollections(reg, limit).collections[i].symbol != s
    ensures var got := QueryAllCollections(reg, limit).collections;
            forall i | 0 <= i < |got| :: LexLt(got[i].symbol, s)
  {
    var keys := Ascending(reg.collections.Keys);
    var got := QueryAllCollections(reg, limit).collections;
    AllCollectionsSymbols(reg, limit);
    assert s !in keys[..|got|];
    AscendingPrefixIsSmallest(reg.collections.Keys, |got|, s);
  }

  /** `query_is_symbol_available`. */
  function QueryIsSymbolAvailable(reg: Registry, symbol: string): (r: bool)
    reads reg
    ensures r <==> symbol !in reg.symbolTaken || !reg.symbolTaken[symbol]
  {
    !reg.IsTaken(symbol)
  }

  /** In a valid registry a symbol is available exactly when no collection
      is registered under it. */
  lemma AvailableIffUnregistered(reg: Registry, symbol: string)
    requires reg.Valid()
    ensures QueryIsSymbolAvailable(reg, symbol) <==> symbol !in reg.collections
  {
    reg.TakenIffRegistered(symbol);
  }
}
