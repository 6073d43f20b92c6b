/** Worked runs of both contracts, following the flows of
    contracts/pass_nft/src/integration_test.rs,
    contracts/factory/src/unit_test.rs and
    contracts/factory/src/integration_tests.rs. Each step's outcome is asserted. */
module PassScenario {
  import opened Host
  import opened Text
  import opened Keys
  import opened PassState
  import opened PassMsgs
  import opened PassHelpers
  import opened PassExecute
  import opened PassQueries
  import opened PassEntry

  /** The collection of the pass flow: "TEST" priced at 10 uxion with a
      1200 s pass and a 300 s grace period, "user1" as minter, split 30/70. */
  const FLOW_CONFIG := Config("Test Pass", "TEST", "artist", "user1", "Test Collection", 10, 1200, 300,
                              "payment_addr", 30, 70)

  /** Deploying the collection of the pass flow at time `t0`. */
  method Deploy(api: Api, t0: nat) returns (c: PassContract)
    requires api.accepts("payment_addr") && api.accepts("artist")
    ensures fresh(c) && c.Valid() && c.config == FLOW_CONFIG
    ensures c.counter == 0 && c.tokens == map[] && c.tokenCount == 0
  {
    var msg := InstantiateMsg("Test Pass", "TEST", "artist", "user1", "Test Collection", 10, 1200, 300,
                              "payment_addr", 30, 70);
    assert InstantiatedConfig(api, msg).Ok?;
    var inst := Instantiate(api, Env(t0, "pass"), MessageInfo("owner", []), msg);
    c := inst.value.0;
  }

  /** "user1" and then "user2" mint at `t0` for themselves, paying exactly the
      price. The ids read back from the "token_id" attribute are "test-1" and
      "test-2", and each payment goes 3 to the payment address and 7 to the
      artist. */
  method MintBoth(api: Api, t0: nat) returns (c: PassContract, id1: string, id2: string, split: seq<BankMsg>)
    requires api.accepts("payment_addr") && api.accepts("artist") && api.accepts("user1") && api.accepts("user2")
    ensures fresh(c) && c.Valid() && c.config == FLOW_CONFIG && c.counter == 2
    ensures id1 == "test-1" && id2 == "test-2"
    ensures c.tokens == map[id1 := TokenInfo("user1", [], Some("Test Collection"), New(t0, 1200, 300)),
                            id2 := TokenInfo("user2", [], Some("Test Collection"), New(t0, 1200, 300))]
    ensures split == [Send("payment_addr", [Coin(UXION, 3)]), Send("artist", [Coin(UXION, 7)])]
  {
    c := Deploy(api, t0);
    assert Lowercase("TEST") == "test";
    assert TokenId("TEST", 1) == "test-1" by { assert NatToString(1) == "1"; }
    assert TokenId("TEST", 2) == "test-2" by { assert NatToString(2) == "2"; }
    assert ValidatePayment([Coin(UXION, 10)], 10).Ok?;

    var first := c.MintPass(api, Env(t0, "pass"), MessageInfo("user1", [Coin(UXION, 10)]), "user1");
    assert first.Ok?;
    id1 := first.value.attributes[4].value;
    split := first.value.messages;

    var second := c.MintPass(api, Env(t0, "pass"), MessageInfo("user2", [Coin(UXION, 10)]), "user2");
    assert second.Ok?;
    id2 := second.value.attributes[4].value;
  }

  /** After both mints, each owner's pass is found by the user-pass query and
      reported valid by the validity query. */
  lemma BothPassesFound(c: PassContract, api: Api, t0: nat)
    requires c.Valid() && c.config == FLOW_CONFIG && api.accepts("user1") && api.accepts("user2")
    requires c.tokens == map["test-1" := TokenInfo("user1", [], Some("Test Collection"), New(t0, 1200, 300)),
                             "test-2" := TokenInfo("user2", [], Some("Test Collection"), New(t0, 1200, 300))]
    ensures PassQueries.GetUserPass(c, api, Env(t0, "pass"), "TEST", "user1").Ok?
    ensures PassQueries.GetUserPass(c, api, Env(t0, "pass"), "TEST", "user2").Ok?
    ensures QueryValidity(c, Env(t0, "pass"), "test-1").Ok? && QueryValidity(c, Env(t0, "pass"), "test-1").value.isValid
    ensures QueryValidity(c, Env(t0, "pass"), "test-2").Ok? && QueryValidity(c, Env(t0, "pass"), "test-2").value.isValid
  {
    UserPassFound(c, api, Env(t0, "pass"), "user1", "test-1");
    UserPassFound(c, api, Env(t0, "pass"), "user2", "test-2");
  }

  /** A burn of "user2"'s pass 100 s after the mint is refused: the pass is
      still valid. */
  method EarlyBurnRefused(api: Api, t0: nat) returns (early: Result<Response<BankMsg>, ContractError>)
    requires api.accepts("payment_addr") && api.accepts("artist") && api.accepts("user1") && api.accepts("user2")
    ensures early == Err(Custom(NOT_EXPIRED))
  {
    var c, _, id2, _ := MintBoth(api, t0);
    early := c.BurnExpiredPass(Env(t0 + 100, "pass"), MessageInfo("user2", []), id2);
  }

  /** After both mints, "user1" renews their pass at `t0`, paying the price
      again; "user2"'s pass is left as it was. */
  method RenewFirst(api: Api, t0: nat) returns (c: PassContract, renewed: Result<Response<BankMsg>, ContractError>)
    requires api.accepts("payment_addr") && api.accepts("artist") && api.accepts("user1") && api.accepts("user2")
    ensures fresh(c) && c.Valid() && c.config == FLOW_CONFIG
    ensures renewed.Ok? && |renewed.value.messages| == 2
    ensures c.tokens.Keys == {"test-1", "test-2"} && c.tokens["test-1"].extension.timesRenewed == 1
    ensures c.tokens["test-2"] == TokenInfo("user2", [], Some("Test Collection"), New(t0, 1200, 300))
  {
    var id1, id2, split;
    c, id1, id2, split := MintBoth(api, t0);
    renewed := c.RenewPass(Env(t0, "pass"), MessageInfo("user1", [Coin(UXION, 10)]), id1);
  }

  /** Once the pass duration, the grace period and one more second have
      passed since the renewal, "user2" burns their own pass, leaving only
      the renewed one. */
  method RenewAndBurn(api: Api, t0: nat) returns (renewed: Result<Response<BankMsg>, ContractError>,
                                                   burned: Result<Response<BankMsg>, ContractError>,
                                                   left: set<string>)
    requires api.accepts("payment_addr") && api.accepts("artist") && api.accepts("user1") && api.accepts("user2")
    ensures renewed.Ok? && |renewed.value.messages| == 2
    ensures burned.Ok? && burned.value.messages == []
    ensures left == {"test-1"}
  {
    var c;
    c, renewed := RenewFirst(api, t0);
    var later := t0 + 1200 + 300 + 1;
    assert Status(c.tokens["test-2"].extension, later) == Expired;
    burned := c.BurnExpiredPass(Env(later, "pass"), MessageInfo("user2", []), "test-2");
    left := c.tokens.Keys;
  }

  /** An expired pass can still be renewed, and the new window starts at the
      renewal. */
  method RenewAfterExpiry(api: Api, t0: nat) returns (renewed: Result<Response<BankMsg>, ContractError>,
                                                       ext: PassExtension)
    requires api.accepts("payment_addr") && api.accepts("artist") && api.accepts("user1") && api.accepts("user2")
    ensures renewed.Ok?
    ensures ext.expiresAt == t0 + 3200 && ext.gracePeriodEnd == t0 + 3500 && ext.timesRenewed == 1
    ensures Status(ext, t0 + 2000) == Active
  {
    var c, id1, _, _ := MintBoth(api, t0);
    assert Status(c.tokens[id1].extension, t0 + 2000) == Expired;
    renewed := c.RenewPass(Env(t0 + 2000, "pass"), MessageInfo("user1", [Coin(UXION, 10)]), id1);
    ext := c.tokens[id1].extension;
  }
}

module FactoryScenario {
  import opened Host
  import opened Text
  import opened Keys
  import opened FactoryMsgs
  import opened FactoryExecute
  import opened FactoryQueries
  import opened FactoryEntry

  /** A fresh registry administered by "owner". */
  method Setup(t: nat) returns (reg: Registry)
    ensures fresh(reg) && reg.Valid() && reg.config.admin == "owner"
    ensures reg.collections == map[] && reg.symbolTaken == map[] && reg.artistCollections == map[]
    ensures reg.collectionCount == 0
  {
    var msg := InstantiateMsg(123, 10, 2592000, 259200, "owner", 30, 70);
    var inst := Instantiate(Env(t, "factory"), MessageInfo("owner", []), msg);
    assert InstantiatedConfig(MessageInfo("owner", []), msg).Ok?;
    reg := inst.value.0;
  }

  /** The factory registers "DRAKE" for the admin with one instantiation
      request answered by reply 1, then refuses a second "DRAKE", a
      lower-case symbol and a caller who is not the admin. */
  method Registration(t: nat) returns (first: Result<Response<SubMsg>, ContractError>,
                                       again: Result<Response<SubMsg>, ContractError>,
                                       lower: Result<Response<SubMsg>, ContractError>,
                                       stranger: Result<Response<SubMsg>, ContractError>)
    ensures first.Ok? && |first.value.messages| == 1 && first.value.messages[0].replyId == COLLECTION_REPLY_ID
    ensures again == Err(SymbolAlreadyTaken)
    ensures lower == Err(InvalidSymbol)
    ensures stranger == Err(Unauthorized)
  {
    var reg := Setup(t);
    var admin := MessageInfo("owner", []);
    SymbolExamples();
    first := reg.CreateCollection(Env(t, "factory"), admin, "Drake Collection", "DRAKE", "artist", "minter", "meta");
    assert reg.collections["DRAKE"].contractAddress == "";
    assert QueryIsSymbolAvailable(reg, "DRAKE") == false;
    again := reg.CreateCollection(Env(t, "factory"), admin, "Drake Again", "DRAKE", "artist", "minter", "meta");
    lower := reg.CreateCollection(Env(t, "factory"), admin, "Lower", "test", "artist", "minter", "meta");
    stranger := reg.CreateCollection(Env(t, "factory"), MessageInfo("artist", []), "X", "TEST", "artist", "minter", "meta");
  }

  /** The collection of the factory's creation flow, once its contract's
      address is known. */
  function TestCollection(t: nat): Collection
  {
    Collection("Test Collection", "TEST", "artist", "minter", "contract1", t, "Test Collection Metadata")
  }

  /** Creating "TEST" as the host commits it, with the reply carrying the new
      contract's address "contract1". */
  method CommitTest(t: nat) returns (reg: Registry, created: Result<(Response<SubMsg>, Response<SubMsg>), ContractError>)
    ensures fresh(reg) && reg.Valid() && created.Ok?
    ensures reg.collections == map["TEST" := TestCollection(t)]
    ensures reg.artistCollections == map["artist" := ["TEST"]]
  {
    var api: Api := AddrApi((s: string) => s != "");
    reg := Setup(t);
    assert AllUppercase("TEST") by { assert forall i | 0 <= i < 4 :: IsUppercase("TEST"[i]); }
    assert reg.PendingSymbols() == {};
    created := CreateCollectionTransaction(reg, api, Env(t, "factory"), MessageInfo("owner", []), "Test Collection",
                                           "TEST", "artist", "minter", "Test Collection Metadata", Some("contract1"));
    FillOnlyPending(map[], TestCollection(t).(contractAddress := ""), "contract1");
    assert ListedFor(map[], "artist") + ["TEST"] == ["TEST"];
  }

  /** After the committed creation of "TEST", the collection query for its
      artist returns it with its name, artist, minter and address. */
  method CommittedCreation(t: nat) returns (created: Result<(Response<SubMsg>, Response<SubMsg>), ContractError>,
                                            found: Option<Collection>)
    ensures created.Ok?
    ensures found == Some(TestCollection(t))
  {
    var api: Api := AddrApi((s: string) => s != "");
    var reg;
    reg, created := CommitTest(t);
    found := QueryCollection(reg, api, "artist").value.collection;
  }

  /** An empty symbol passes the symbol rule, but as the host commits a
      creation it is never registered. */
  method EmptySymbolRefused(t: nat, contractAddress: Option<string>)
    returns (created: Result<(Response<SubMsg>, Response<SubMsg>), ContractError>, available: bool)
    ensures created.Err? && available
  {
    var api: Api := AddrApi((s: string) => s != "");
    var reg := Setup(t);
    created := CreateCollectionTransaction(reg, api, Env(t, "factory"), MessageInfo("owner", []), "Empty",
                                           "", "artist", "minter", "meta", contractAddress);
    available := QueryIsSymbolAvailable(reg, "");
  }

  /** "DIFF" comes before "DRAKE" in key order. */
  lemma DiffBeforeDrake()
    ensures LexLt("DIFF", "DRAKE")
  {
    assert "DIFF"[1..] == "IFF" && "DRAKE"[1..] == "RAKE";
    assert LexLe("IFF", "RAKE");
  }

  /** The admin registers `later` and then `earlier`; both wait for their
      addresses. */
  method TwoPending(t: nat, later: string, earlier: string) returns (reg: Registry)
    requires AllUppercase(later) && AllUppercase(earlier) && earlier != "" && LexLt(earlier, later)
    ensures fresh(reg) && reg.Valid()
    ensures reg.PendingSymbols() == {earlier, later}
    ensures reg.collections.Keys == {earlier, later}
  {
    reg := Setup(t);
    var admin := MessageInfo("owner", []);
    assert reg.PendingSymbols() == {};
    var first := reg.CreateCollection(Env(t, "factory"), admin, "Later", later, "artist", "minter", "meta");
    assert first.Ok? && reg.PendingSymbols() == {later};
    var second := reg.CreateCollection(Env(t, "factory"), admin, "Earlier", earlier, "artist2", "minter", "meta");
    assert second.Ok? && reg.PendingSymbols() == {later} + {earlier};
  }

  /** With `later` and then `earlier` pending, where `earlier` comes first in
      key order (as "DIFF" does before "DRAKE"), the first reply fills in
      `earlier`, although it answers the request for `later`. The two
      handlers are called here one after the other, outside the host's
      transaction. */
  method ReplyOrder(t: nat, later: string, earlier: string) returns (earlierAddr: Addr, laterAddr: Addr)
    requires AllUppercase(later) && AllUppercase(earlier) && earlier != "" && LexLt(earlier, later)
    ensures earlierAddr == "contract1" && laterAddr == ""
  {
    var api: Api := AddrApi((s: string) => s != "");
    var reg := TwoPending(t, later, earlier);
    ghost var pending: set<string> := {earlier, later};
    SmallerPendingResolvedFirst(earlier, later, Least(pending));
    var reply := reg.ReplyCollectionCreated(api, Reply(1, Some("contract1")));
    earlierAddr := reg.collections[earlier].contractAddress;
    laterAddr := reg.collections[later].contractAddress;
  }

  /** "DRAKE" and then "DIFF" pending: the first reply, for "DRAKE", fills
      in "DIFF". */
  method DrakeThenDiff(t: nat) returns (diffAddr: Addr, drakeAddr: Addr)
    ensures diffAddr == "contract1" && drakeAddr == ""
  {
    SymbolExamples();
    assert AllUppercase("DIFF") by { assert forall i | 0 <= i < 4 :: IsUppercase("DIFF"[i]); }
    DiffBeforeDrake();
    diffAddr, drakeAddr := ReplyOrder(t, "DRAKE", "DIFF");
  }
}
