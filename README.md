# Pass collections and their factory, modelled in Dafny

This project models the two CosmWasm contracts that make up the on-chain core of
the Looop music platform.

* **`pass_nft`** is one artist's collection of time-limited, soulbound access passes.
  * Minting and renewing a pass costs a fixed price in `uxion`.
  * Each payment is split between the house and the artist by a fixed percentage.
  * A pass is *active* until it expires, then *in its grace period*, and after that *expired*.
  * Only an expired pass can be burned.
  * Pass ids are the lower-cased collection symbol, a dash and a counter value (`test-1`, `test-2`, …).
* **`factory`** keeps the registry of collections.
  * Its admin registers a collection under an upper-case symbol.
  * Registering emits a request to instantiate the collection's contract.
  * When the host replies, the factory writes the new contract's address into a pending entry.
  * Queries list collections by artist, in symbol order, and by symbol availability.

The model follows the source's own form:

* Each contract's storage is a class: `PassExecute.PassContract` and `FactoryExecute.Registry`.
  * Its fields are the stored items: configuration, counter, token map, count, collections, symbol flags and the artist index.
  * Its methods are the state-changing entry points. Each one states its error cases in the order the code checks them, an "if and only if" for success, and the whole new state.
  * Each class has a `Valid()` invariant that every method keeps. For a collection: the token count equals the number of stored tokens, and every stored id was issued by the counter. For the factory: entries are keyed by their symbol, the "taken" flags match the registered symbols, and the artist index is exact.
* Queries are functions that read that storage.
* Pure helpers (the pass window, payment validation, query conversion) are functions with lemmas.
* A call that fails leaves the storage as it was, because the host discards the writes of a failed call.
* Rust panics are modelled as the error `Panic(reason)`: a checked overflow, or an `unwrap` of an error.
* The host is abstracted in three ways:
  * address validation is a predicate `Api.accepts`, which never accepts the empty string;
  * block time is a number of seconds;
  * the storage's ascending iteration over string keys is the lexicographic order `Text.LexLe`.

## Behaviour worth knowing

Each point below is a fact about the code, and the model follows it:

* **Create and reply run together.** `create_collection` sends its instantiation request with "reply on success" (`contracts/factory/src/execute.rs:46`).
  * The host runs the new contract's instantiation and the factory's `reply` inside the same transaction as `create_collection`. When the reply fails, the whole transaction is undone.
  * `FactoryEntry.CreateCollectionTransaction` models that committed sequence, including the undo.
  * Committed state therefore never holds a pending entry. `FactoryExecute.FillOnlyPending` shows the step: from a registry with nothing pending, the reply fills in the entry just registered and leaves nothing pending.
* **Reply matching, handler by handler.** `reply_collection_created` does not match a reply to the request it answers. It writes the reply's address into the pending entry with the *smallest symbol* (`contracts/factory/src/execute.rs:111-128`).
  * Called on a registry with two entries pending, the first reply lands on the smaller symbol, whichever request it answers. `FactoryScenario.ReplyOrder` shows this.
  * Because of the transaction above, two pending entries never coexist in committed state. The point concerns the handlers in isolation.
  * A reply that finds nothing pending fails with `CollectionNotFound`.
  * Unparsable reply data panics at the `unwrap` (`contracts/factory/src/execute.rs:108`). The declared error `InvalidInstantiation` (`contracts/factory/src/error.rs:80`) is never raised.
* **The empty symbol.** The symbol rule is "every character is upper case", which the empty symbol passes.
  * In isolation, once an entry under `""` is pending, no reply can resolve any collection (`FactoryExecute.EmptySymbolFoundFirst`). The scan's result `""` doubles as "not found" (`contracts/factory/src/execute.rs:126-128`).
  * As the host commits it, a creation under `""` always fails, because its own reply finds nothing. So the empty symbol is never registered (`FactoryEntry.CreateCollectionTransaction`, `FactoryScenario.EmptySymbolRefused`).
* **Order of checks.**
  * `renew_pass` validates the payment before it looks up the token and checks authorization.
  * `burn_expired_pass` checks authorization before expiry.
* **Counter overflow.** `mint_pass` increments the counter with a plain `+ 1` (`contracts/pass_nft/src/execute.rs:32`), which panics on overflow. The declared error `MaxSupplyReached` (`contracts/pass_nft/src/error.rs:44`) is never raised.
* **Error shapes.**
  * Payment errors are custom messages.
  * A missing token is the storage's `NotFound` error.
* **Grace period boundary.** The grace period starts at `expires_at` itself, and a grace period of 0 is allowed.
* **Which coin is split.** The royalty split uses the *first* coin sent, in its own denomination. That coin need not be the uxion coin that passed the payment check.
* **The factory's instantiate request** carries no royalty percentages.
* **Stale state files.** `contracts/pass_nft/src/state.rs` and `contracts/factory/src/state.rs` declare older `Config` and `Collection` records than the code uses.
  * The model's records carry the fields the code reads and writes: `contracts/pass_nft/src/contract.rs:39-51` and `contracts/factory/src/execute.rs:59-68`.
  * The pass error `InvalidRoyalties` is likewise taken from its use.

## Model

| member | source | states |
|---|---|---|
| Host.AddrValidate | contracts/pass_nft/src/contract.rs:29-30 | validation succeeds exactly when the host accepts the string, returns it unchanged and non-empty, and otherwise reports an invalid address carrying that string |
| Text.Lowercase | contracts/pass_nft/src/execute.rs:36 | lower-casing keeps the length and maps each character on its own, leaving no upper-case letter |
| Text.ParseNatToString | contracts/pass_nft/src/execute.rs:36 | the decimal form of a counter value reads back as that value |
| Text.NatToStringInjective | contracts/pass_nft/src/execute.rs:36 | distinct counter values have distinct decimal forms |
| Keys.LeastExists | contracts/factory/src/execute.rs:112-124 | every non-empty finite set of keys has a first key in ascending order, so an ascending scan always has a first candidate |
| Keys.Ascending | contracts/factory/src/query.rs:50-51 | the keys in ascending order: as many as the set, each from the set, every key present, strictly increasing |
| Keys.AscendingPrefixIsSmallest | contracts/factory/src/query.rs:50-52 | a key left out of the first n in ascending order comes after every key among them |
| PassState.New | contracts/pass_nft/src/state.rs:39-49 | a new pass is active, never renewed, expires `duration` after creation and leaves a window of `grace` seconds after that |
| PassState.Status | contracts/pass_nft/src/state.rs:52-60 | each of the three phases holds exactly on its own time interval: before expiry, from expiry to the grace end inclusive, after the grace end |
| PassState.Renew | contracts/pass_nft/src/state.rs:63-68 | a renewed pass is active, counts one more renewal, and its window is recomputed from the renewal time |
| PassState.ExpiredIffPastGrace | contracts/pass_nft/src/state.rs:52-60 | for a well-formed window, Expired means exactly "after the grace period end" |
| PassState.StatusMonotone | contracts/pass_nft/src/state.rs:52-60 | as time passes a pass only moves forward through active, grace and expired, and never comes back |
| PassState.NewIsActive | contracts/pass_nft/src/state.rs:39-60 | a pass with a positive duration is active at the moment it is created |
| PassState.RenewRestartsWindow | contracts/pass_nft/src/state.rs:39-68 | renewal equals creating a fresh pass at the renewal time, apart from the renewal count: unused time is discarded |
| PassState.RenewWindowIdempotent | contracts/pass_nft/src/state.rs:63-68 | renewing twice at the same moment leaves the same window as renewing once |
| PassState.WindowScenario | contracts/pass_nft/src/integration_test.rs:10-11 | with duration 1200 s and grace 300 s, a pass created at t0 is active before t0+1200, in its grace period through t0+1500, and expired from t0+1501 |
| PassHelpers.FirstOfDenom | contracts/pass_nft/src/helpers.rs:47-51 | finds the first coin of the denomination, or reports that none is present |
| PassHelpers.ValidatePayment | contracts/pass_nft/src/helpers.rs:45-63 | fails "No uxion payment found" exactly when no uxion coin is sent; succeeds exactly when the first uxion coin covers the price; otherwise fails with the insufficient-payment text naming the price and the amount paid |
| PassHelpers.FirstOfDenomIgnoresOthers | contracts/pass_nft/src/helpers.rs:47-51 | inserting a coin of another denomination anywhere does not change which uxion coin is found |
| PassHelpers.FirstOfDenomPrefix | contracts/pass_nft/src/helpers.rs:47-51 | coins after the first coin of the denomination do not change the search |
| PassHelpers.OtherDenomsIrrelevant | contracts/pass_nft/src/helpers.rs:45-63 | a coin of another denomination, wherever it is inserted, never changes the outcome of the payment check |
| PassHelpers.OnlyFirstUxionCounts | contracts/pass_nft/src/helpers.rs:45-63 | once a uxion coin is present, coins appended after it never change the outcome |
| PassHelpers.OverpaymentAccepted | contracts/pass_nft/src/helpers.rs:53-62 | paying more than the price in the first uxion coin is accepted |
| PassHelpers.NoFundsNoPayment | contracts/pass_nft/src/helpers.rs:47-51 | sending no coins fails with "No uxion payment found" |
| PassHelpers.ConvertQueryMsg | contracts/pass_nft/src/helpers.rs:33-42 | exactly the owner-of and approval queries convert, with their fields unchanged; every other query is refused as unsupported |
| PassHelpers.ConvertRoundTrip | contracts/pass_nft/src/helpers.rs:33-42 | converting the query a base query came from gives that base query back |
| PassExecute.TokenId | contracts/pass_nft/src/execute.rs:36 | an id is the lower-cased symbol and a dash, followed by the decimal counter value |
| PassExecute.TokenIdInjective | contracts/pass_nft/src/execute.rs:29-36 | one collection never derives the same id from two counter values |
| PassExecute.NextIdNotIssued | contracts/pass_nft/src/execute.rs:29-51 | the id derived from the next counter value differs from every id issued so far |
| PassExecute.Split | contracts/pass_nft/src/execute.rs:69-73 | the house share is the floor of the percentage of the payment, the artist gets the rest, and the two add up to the payment |
| PassExecute.SplitScenario | contracts/pass_nft/src/execute.rs:69-73 | a payment of 10 at 30 % splits into 3 for the house and 7 for the artist |
| PassExecute.RoyaltyMessages | contracts/pass_nft/src/execute.rs:75-90 | two transfers in the payment's denomination, the house share to the payment address and the rest to the artist, adding up to the payment |
| PassExecute.PassContract.constructor | contracts/pass_nft/src/contract.rs:55-58 | a new collection stores its configuration, with the counter at 0, no tokens and a count of 0 |
| PassExecute.PassContract.NextTokenIdFree | contracts/pass_nft/src/execute.rs:47-51 | in a valid collection the next id is never stored already, so the "Token ID already exists" branch cannot be taken |
| PassExecute.PassContract.MintPass | contracts/pass_nft/src/execute.rs:17-101 | errors in the code's order, each with its own error: payment, counter overflow, existing id, invalid owner, split overflow; success exactly when none applies; on success the counter rises by one, the pass is stored under the next id for the owner with a new window, the count rises, both royalty transfers are sent and the attributes are listed |
| PassExecute.PassContract.RenewPass | contracts/pass_nft/src/execute.rs:104-168 | errors in order, each with its own error: payment, missing token, a caller who is neither owner nor minter, split overflow; success exactly when none applies, whatever the pass's status; on success only that pass changes, to its renewed window, with both royalty transfers and the new expiry attribute |
| PassExecute.PassContract.BurnExpiredPass | contracts/pass_nft/src/execute.rs:173-202 | errors in order: missing token, unauthorized caller, a pass not expired; success exactly for an expired pass burned by its owner or the minter, which removes it and lowers the count |
| PassQueries.QueryValidity | contracts/pass_nft/src/query.rs:53-67 | fails exactly for a missing token; otherwise valid iff active or in grace, in grace iff in the grace phase, and the grace end is reported exactly when valid |
| PassQueries.ValidityByTime | contracts/pass_nft/src/query.rs:53-67 | in a valid collection a pass is valid exactly until its grace end, and in grace exactly from its expiry to its grace end |
| PassQueries.GetUserPass | contracts/pass_nft/src/query.rs:9-49 | fails on an invalid owner; succeeds exactly when the owner holds an id with the symbol's prefix; then answers the first such id in ascending order, with its expiry and its validity |
| PassQueries.UserPassFound | contracts/pass_nft/src/query.rs:9-34 | an owner holding a pass of a valid collection always finds it under the collection's own symbol |
| PassQueries.QueryConfig | contracts/pass_nft/src/query.rs:94-110 | the configuration query reports every stored configuration field unchanged |
| PassQueries.QueryArtistInfo | contracts/pass_nft/src/query.rs:70-92 | reports the artist, the live-token count and the number of passes flagged active |
| PassQueries.ActiveEqualsTotal | contracts/pass_nft/src/query.rs:70-92 | in a valid collection the active count equals the total, and both equal the number of stored passes |
| PassEntry.InstantiatedConfig | contracts/pass_nft/src/contract.rs:29-52 | fails on an invalid payment address, then on an invalid artist, then on a percentage sum over 32 bits or not exactly 100; succeeds exactly otherwise, copying every field |
| PassEntry.ConfigEchoesInstantiate | contracts/pass_nft/src/query.rs:94-110 | the configuration query of a new collection echoes the instantiate message field for field |
| PassEntry.FirstTokenId | contracts/pass_nft/src/execute.rs:29-36 | the first id a collection issues is its lower-cased symbol followed by "-1" |
| PassEntry.Instantiate | contracts/pass_nft/src/contract.rs:22-79 | fails exactly as the configuration does; otherwise a fresh valid collection with no tokens, a next id of the lower-cased symbol and "-1", and the listed attributes |
| PassEntry.Execute | contracts/pass_nft/src/contract.rs:82-99 | every non-pass message is refused as unsupported; for each pass message, that handler's errors in order, its success condition, and its new tokens, counter, count and transfers; the counter never goes back; a surviving pass keeps its owner; only a mint adds a pass, and only under the next id |
| PassEntry.Query | contracts/pass_nft/src/contract.rs:103-125 | a base query succeeds exactly for owner-of and approval queries, which are forwarded; others give a generic error with the unsupported text; a validity check succeeds exactly for a stored id; the configuration and artist queries answer from storage |
| FactoryExecute.InstantiateRequest | contracts/factory/src/execute.rs:34-55 | the request carries reply id 1, the configured code id and admin, no funds, the label "<name> Collection", the pass terms from the factory's configuration and the collection's own fields |
| FactoryExecute.SymbolExamples | contracts/factory/src/execute.rs:26-28 | lower case, mixed case, spaces and dashes fail the symbol rule; "DRAKE" and the empty symbol pass it |
| FactoryExecute.SmallerPendingResolvedFirst | contracts/factory/src/execute.rs:111-128 | with two symbols pending, the scan settles on the smaller one |
| FactoryExecute.EmptySymbolFoundFirst | contracts/factory/src/execute.rs:111-128 | a pending entry under the empty symbol is always the one the scan finds |
| FactoryExecute.InsertKeepsConsistent | contracts/factory/src/execute.rs:70 | registering an entry under a new symbol keeps the entries, flags, count and artist index consistent |
| FactoryExecute.InsertPending | contracts/factory/src/execute.rs:59-70 | registering an entry without an address adds exactly its symbol to the pending ones |
| FactoryExecute.AddressKeepsConsistent | contracts/factory/src/execute.rs:130-136 | writing an address into one entry keeps the registry consistent |
| FactoryExecute.FillOnlyPending | contracts/factory/src/execute.rs:104-136 | with nothing else pending, the reply fills in the entry just registered, and afterwards nothing is pending |
| FactoryExecute.AddressResolves | contracts/factory/src/execute.rs:130-136 | writing a non-empty address into an entry removes exactly that symbol from the pending ones |
| FactoryExecute.Registry.constructor | contracts/factory/src/contract.rs:40-41 | a new registry stores its configuration, with no entries, no flags, an empty index and a count of 0 |
| FactoryExecute.Registry.TakenIffRegistered | contracts/factory/src/execute.rs:30-32 | in a valid registry a symbol is flagged taken exactly when a collection is registered under it |
| FactoryExecute.Registry.SaveNewCollection | contracts/factory/src/execute.rs:70 | the assumed storage effect: the entry stored under its symbol, the symbol flagged, the symbol appended to the artist's list, and the count raised by one |
| FactoryExecute.Registry.Restore | contracts/factory/src/execute.rs:46-55 | the host undoing a failed creation transaction: every stored item back at its earlier value, the configuration untouched, the registry still valid |
| FactoryExecute.Registry.CreateCollection | contracts/factory/src/execute.rs:11-84 | errors in order: not the admin, a symbol that is not all upper case, a taken symbol; success exactly otherwise; then a pending entry stamped with the block time, exactly one more pending symbol, and the instantiation request |
| FactoryExecute.Registry.UpdateNftCodeId | contracts/factory/src/execute.rs:86-102 | fails exactly for a caller who is not the admin; otherwise only the code id changes |
| FactoryExecute.Registry.FindFirstPending | contracts/factory/src/execute.rs:111-124 | the ascending scan yields the least pending symbol, or "" when none is pending |
| FactoryExecute.Registry.ReplyCollectionCreated | contracts/factory/src/execute.rs:104-142 | panics on unparsable data; rejects an invalid address; fails with collection-not-found when nothing is pending or "" is pending; succeeds exactly otherwise, writing the address into the least pending entry, which alone stops being pending |
| FactoryQueries.QueryConfig | contracts/factory/src/query.rs:6-15 | reports the stored code id, admin and percentages, and the collection counter |
| FactoryQueries.TotalIsRegistered | contracts/factory/src/query.rs:6-15 | in a valid registry the reported total is the number of registered collections |
| FactoryQueries.QueryCollection | contracts/factory/src/query.rs:17-25 | fails exactly on an invalid address; otherwise answers the entry under the artist's first listed symbol, when one is stored |
| FactoryQueries.CollectionOfArtist | contracts/factory/src/query.rs:17-25 | in a valid registry an artist gets a collection exactly when one is registered for them, and it is their own |
| FactoryQueries.StoredOf | contracts/factory/src/query.rs:36-38 | skipping symbols with nothing stored never lengthens the list and yields only stored entries: all of them in order when every symbol is stored, none when none is |
| FactoryQueries.QueryArtistCollections | contracts/factory/src/query.rs:27-43 | fails exactly on an invalid address; otherwise the first `limit` (default 10) stored entries of the artist's list, in list order |
| FactoryQueries.ArtistListingIsIndexPrefix | contracts/factory/src/query.rs:27-43 | in a valid registry the listing is the entries of the first symbols of the artist's index, and every one belongs to that artist |
| FactoryQueries.QueryAllCollections | contracts/factory/src/query.rs:45-57 | at most `limit` entries (default 10), those of the keys in ascending order |
| FactoryQueries.AllCollectionsSymbols | contracts/factory/src/query.rs:45-57 | the i-th entry listed is the one whose symbol is the i-th key in ascending order |
| FactoryQueries.AllCollectionsAscending | contracts/factory/src/query.rs:45-57 | in a valid registry the listing is in strictly ascending symbol order |
| FactoryQueries.AllCollectionsSmallestFirst | contracts/factory/src/query.rs:45-57 | a registered symbol left out of the listing comes after every symbol listed |
| FactoryQueries.QueryIsSymbolAvailable | contracts/factory/src/query.rs:60-63 | a symbol is available exactly when it is not flagged taken |
| FactoryQueries.AvailableIffUnregistered | contracts/factory/src/query.rs:60-63 | in a valid registry a symbol is available exactly when no collection is registered under it |
| FactoryEntry.InstantiatedConfig | contracts/factory/src/contract.rs:25-39 | panics on a percentage sum over 32 bits and fails unless the sum is exactly 100; otherwise the caller becomes the admin and every term is copied |
| FactoryEntry.Instantiate | contracts/factory/src/contract.rs:17-47 | fails exactly as the configuration does; otherwise a fresh, valid, empty registry whose configuration query reports the caller as admin and zero collections |
| FactoryEntry.Execute | contracts/factory/src/contract.rs:50-71 | only the admin changes anything; collection creation fails on a bad symbol, then on a taken one, succeeds exactly otherwise, and then registers the pending entry, flags the symbol, lists it for the artist, counts it and sends the instantiation request; the code id update succeeds exactly for the admin and changes only the code id |
| FactoryEntry.HandleReply | contracts/factory/src/contract.rs:89-95 | a reply id other than 1 is refused with that id and changes nothing; reply 1 panics on unparsable data, rejects an invalid address, fails when nothing or "" is pending, succeeds exactly otherwise, and then writes the address into the least pending entry, which alone stops being pending |
| FactoryEntry.ReplyOrUndo | contracts/factory/src/execute.rs:46-55 | the reply step of a creation: the reply's outcome as `HandleReply` states it, and on failure every stored item back at its value from before the creation |
| FactoryEntry.CreateCollectionTransaction | contracts/factory/src/execute.rs:46-55 | creation and its reply committed together: the creation's errors, a failed reply undoing everything, the empty symbol always refused, success exactly when both steps succeed, and then the symbol flagged, listed and counted and the reply's address written into the least pending entry |
| FactoryEntry.Query | contracts/factory/src/contract.rs:73-87 | each query goes to its handler; the artist queries fail exactly on an invalid address |
| PassScenario.Deploy | contracts/pass_nft/src/integration_test.rs:57-77 | deploying the flow's collection gives a valid collection with that configuration, no tokens and the counter at 0 |
| PassScenario.MintBoth | contracts/pass_nft/src/integration_test.rs:100-129 | two users mint at the price and read back "test-1" and "test-2"; each payment of 10 splits 3 to the payment address and 7 to the artist; both passes are stored with new windows |
| PassScenario.BothPassesFound | contracts/pass_nft/src/integration_test.rs:130-157 | after both mints each owner's pass is found by the user-pass query and reported valid |
| PassScenario.EarlyBurnRefused | contracts/pass_nft/src/execute.rs:173-202 | burning a pass 100 s after its mint is refused as not expired |
| PassScenario.RenewFirst | contracts/pass_nft/src/integration_test.rs:160-188 | the first user's renewal succeeds with two transfers and counts one renewal, leaving the other pass as minted |
| PassScenario.RenewAndBurn | contracts/pass_nft/src/integration_test.rs:191-224 | after duration, grace and one second, the second user burns their pass, leaving only the renewed one |
| PassScenario.RenewAfterExpiry | contracts/pass_nft/src/execute.rs:104-168 | an expired pass can be renewed, and its new window starts at the renewal |
| FactoryScenario.Setup | contracts/factory/src/unit_test.rs:56-71 | a new factory is valid and empty, with the caller as admin |
| FactoryScenario.Registration | contracts/factory/src/unit_test.rs:73-132 | "DRAKE" is registered with one request answered by reply 1; a second "DRAKE", a lower-case symbol and a caller who is not the admin are refused with their own errors |
| FactoryScenario.CommitTest | contracts/factory/src/integration_tests.rs:64-87 | the committed creation of "TEST" succeeds and stores it, with the reply's address, under the artist |
| FactoryScenario.CommittedCreation | contracts/factory/src/integration_tests.rs:64-108 | after the committed creation of "TEST", the artist's collection query returns it with its name, artist, minter and address |
| FactoryScenario.EmptySymbolRefused | contracts/factory/src/execute.rs:104-128 | a committed creation under the empty symbol always fails, and the symbol stays available |
| FactoryScenario.TwoPending | contracts/factory/src/execute.rs:11-84 | two creations in a row leave both symbols pending |
| FactoryScenario.DrakeThenDiff | contracts/factory/src/execute.rs:111-136 | with "DRAKE" and then "DIFF" pending, the first reply, though it answers "DRAKE", fills in "DIFF" and leaves "DRAKE" pending |
| FactoryScenario.ReplyOrder | contracts/factory/src/execute.rs:111-136 | with two entries pending, the first reply fills in the one with the smaller symbol and leaves the other pending |

## Left out

- The base library `cw721_base_soulbound` is not part of this model.
  - Its `instantiate` (including whatever it checks of the minter) is left out.
  - So are its own queries: a converted base query is answered only with `Forwarded(query)`.
  - Its token-count bookkeeping is reduced to a number kept beside the token map.
- `update_royalties` is not part of this model, because its code is absent from the source files.
- FactoryEntry.Execute: requires that the message is not `UpdateRoyalties`, because that handler's code is absent.
- `save_new_collection` is not part of this model. `FactoryExecute.Registry.SaveNewCollection` states its assumed effect: store the entry, flag the symbol, append it to the artist's list and count it.
- The `event` attribute of `create_collection` is not modelled, because it is a JSON encoding of the new entry. Serialization to JSON and binary in general is left out.
- The instantiate message inside the request is a record, not JSON bytes.
- Address canonicalization is left out. The host's address check is an opaque predicate, and an accepted address is stored as written.
- Case conversion covers ASCII letters only: Unicode case mapping is not modelled in `Text.Lowercase` or `Text.AllUppercase`.
- Timestamps are whole seconds.
- PassState.New: does not model the nanosecond `Timestamp` or an overflow in `plus_seconds`. `pass_duration` is an unchecked 64-bit count of seconds (`contracts/pass_nft/src/msg.rs:15`) that `plus_seconds` turns into nanoseconds. A duration above about 1.8 × 10^10 s overflows 64 bits, so every mint and renewal of such a collection panics. The model lets them succeed. The same holds for `PassState.Renew`.
- PassState.Renew: `times_renewed` is an unbounded number, so a panic after 2^32-1 renewals is not modelled.
- PassExecute.PassContract.MintPass: the base library's token count is unbounded, so its overflow is not modelled.
- Rust panics are modelled as the error `Panic(reason)`. The host reverts a panicking call exactly as it reverts an error.
- Every "panics on overflow" in this model assumes the contracts are built with overflow checks, because the counter, percentage and split arithmetic uses plain integer operators. No build configuration is among the source files. Without overflow checks those operations would wrap around instead, which the model does not cover.
- `create_collection` and `reply` are modelled as separate handlers as well as together. `FactoryEntry.CreateCollectionTransaction` is the committed sequence; the separate handlers also cover states the host never commits, such as two pending entries.
- An instantiation of the new collection contract that fails is not modelled. The host would then revert the creation without calling `reply`. `contractAddress` stands for the outcome of a successful instantiation.
- The debug calls (`deps.api.debug`) are left out.
- Recording the contract version (`set_contract_version`) is left out.
- `CwTemplateContract` in `contracts/pass_nft/src/helpers.rs` is left out, because it is a client-side wrapper that no entry point uses.
- Queries that depend on key order are ghost functions: `PassQueries.GetUserPass`, `FactoryQueries.QueryAllCollections` and the two query dispatchers. They pick the least key by choice over a finite set rather than by iterating storage.
- Storage read failures (a corrupt record) are not modelled, because the model's storage always holds well-typed values.
