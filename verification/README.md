# Patronage subgraph ledger, modelled in Dafny

This project models the event handlers of the patronage subgraph for
Harberger-tax stewards. The subgraph indexes four contract generations.
Each generation has its own handler set:

- v2 (`src/v2_mapping.ts`);
- old v1 (`src/v1_old_mapping.ts`);
- restored v1 (`src/v1_restored_mapping.ts`);
- Taiaos (`src/taiaos_mapping.ts`).

Each handler reads and writes a ledger of three record kinds: `Steward`, `Patron`, and
`PatronSteward`, the relationship between one patron and one steward. The
events are Collection, PriceChange, Buy, Foreclosure and the artwork's
ERC721 Transfer (the "mint" handler).

Layout:

- `entities.dfy` holds the records, the events, and the get-or-create
  lookups that fill in defaults.
- `alias.dfy` holds the deployment addresses and blocks. It also holds the
  canonicaliser, which merges the old v1 steward into the restored v1
  steward, and the aliased lookups used by v2 and old v1.
- `store.dfy` holds:
  - the ledger value;
  - the key discipline;
  - the accounting identity: a steward's `totalCollected` is the sum of its
    relationships' `collected`;
  - the reductions shared by the v1/v2 generations;
  - the `EntityStore` class the handlers update.
- There is one file per source file: `v2_mapping.dfy`,
  `v1_old_mapping.dfy`, `v1_restored_mapping.dfy`, `taiaos_mapping.dfy`.
  Each handler is a module-level method that takes the store object. It
  loads, edits and saves records as the source does. It is proved to leave the store in the state a pure
  function of the old state describes, and to keep the ledger invariant.
- `history.dfy` runs the v1/v2 handlers over any history of events. It
  proves that the accounting identity survives, that no record and no
  collected amount is ever lost, that the old v1 address never gets a
  record of its own, and how old v1 collections relate to restored v1 and
  v2 collections.

On-chain reads are handler parameters:

- `deposit()`;
- `timeLastCollected()`;
- `foreclosureTime()`, which is an `Option` in v2 because the call may
  revert;
- `timeHeld(address)`.

Addresses are 42-character strings; the model constrains only their
length. The relationship key `patron + steward` is therefore unambiguous
(`Entities.PsKeyInjective`).

Where the code and its design description differ, the model follows the
code:

- A mint whose receiver is a steward contract also takes the
  transfer-to-steward branch, so the steward's `previousPatron` becomes the
  zero address, not the steward itself. In v2 this holds for all three
  steward contracts, and the current patron becomes the receiver
  (`V2Mapping.MintIntoStewardRecordsZeroPrevious`). In old v1 it holds only
  for a receiver `0x74e6…2b66`, and only `previousPatron` is set
  (`V1OldMapping.MintIntoOldStewardRecordsZeroPrevious`).
- Patron ids and `currentPatron` values are never canonicalised, only
  steward ids are. A v2 transfer into the old v1 steward contract stores
  `0x74e6…2b66` as the current patron.

## Model

| member | source | states |
|---|---|---|
| Entities.GetSteward | src/v2_mapping.ts:27-43 | an existing steward is returned as stored; a missing one is self-held (current and previous patron are its id) with deposit, price, acquisition time, last collection, total collected and foreclosure time all 0 |
| Entities.GetPatron | src/v2_mapping.ts:46-55 | an existing patron is returned as stored; a missing one is created with the given id |
| Entities.GetPatronSteward | src/v1_restored_mapping.ts:37-51 | the relationship is looked up under `patron + steward`; a missing one names that patron and steward and has held nothing and collected nothing |
| Entities.PsKeyInjective | src/v2_mapping.ts:63 | two relationship keys are equal only for the same patron and the same steward |
| Entities.RelationLookup | src/v2_mapping.ts:63-75 | in a relationship map keyed by `patron + steward`, the relationship found for a pair (stored or fresh) has that key and names that patron and that steward |
| Alias.Canonical | src/v2_mapping.ts:23-25 | the old v1 steward maps to the restored v1 steward, every other address to itself; the result is never the old v1 steward |
| Alias.CanonicalIdempotent | src/v2_mapping.ts:59-61 | canonicalising twice equals canonicalising once |
| Alias.V1StewardsMerge | src/v1_old_mapping.ts:8-10 | both v1 stewards share one canonical id, distinct from the v2 steward |
| Alias.CollectionSuppressed | src/v2_mapping.ts:121 | no collection at or before block 11817708 is dropped; a dropped collection belongs to the merged restored v1 steward |
| Alias.MergedSteward | src/v2_mapping.ts:21-44 | the old v1 steward is looked up under the restored v1 id; any other steward under its own id |
| Alias.MergedPatronSteward | src/v2_mapping.ts:57-76 | the relationship is keyed by the patron and the canonical steward, with the getter's defaults when missing |
| Store.UpdateTimeHeldAndDeposit | src/v2_mapping.ts:78-109 | time held grows by the read minus the stored timeLastCollected; the steward takes the read timeLastCollected and deposit; foreclosureTime is kept or set as the generation decides; nothing else changes |
| Store.Holder | src/v2_mapping.ts:129-134 | at a non-zero price the collection belongs to the current patron; at price zero to the previous patron |
| Store.ApplyCollection | src/v2_mapping.ts:125-141 | a collection on a well-keyed ledger gives a well-keyed ledger |
| Store.ApplyCollectionEffect | src/v2_mapping.ts:129-138 | routes to the current patron while the price is non-zero and to the previous patron at price zero; that relationship's collected and the steward's totalCollected grow by the same amount; the time held follows the incremental formula; only those two records change |
| Store.ApplyCollectionSteps | src/v2_mapping.ts:125-141 | loading, refreshing, crediting and saving in the handler's order yields the collection's ledger |
| Store.CollectionKeepsStoredForeclosureTime | src/v1_old_mapping.ts:67-81 | a collection that leaves foreclosureTime alone equals one that writes back the stored foreclosureTime |
| Store.ApplyCollectionKeepsConsistent | src/v2_mapping.ts:137-138 | a collection keeps the accounting identity for every steward |
| Store.CollectionTimeHeldGrows | src/v2_mapping.ts:93-95 | when the read timeLastCollected is not behind the stored one, no relationship's time held decreases |
| Store.SaveStewardKeepsConsistent | src/v2_mapping.ts:140 | saving a steward whose totalCollected is unchanged keeps the accounting identity, also for a new steward |
| Store.SavePatronKeepsConsistent | src/v2_mapping.ts:181 | saving a patron keeps the accounting identity |
| Store.EnsureRelationKeepsConsistent | src/v2_mapping.ts:183 | saving a looked-up relationship (existing or fresh) keeps the accounting identity |
| Store.ApplyBuy | src/v2_mapping.ts:157-184 | the buyer becomes current patron at the bought price; acquisition and last-collection times are the block time; deposit and foreclosureTime are refreshed; previous patron and totalCollected are unchanged; the buyer's patron record and relationship exist; nothing else changes |
| Store.ApplyBuyKeepsConsistent | src/v2_mapping.ts:181-183 | a buy keeps the accounting identity |
| Store.ApplyPrice | src/v2_mapping.ts:147-153 | only the steward's price changes |
| Store.ApplyPriceKeepsConsistent | src/v2_mapping.ts:151-152 | a price change keeps the accounting identity |
| Store.ApplyMint | src/v2_mapping.ts:219-233 | the steward takes the block time as last collection; its own patron record and self relationship exist; nothing else changes |
| Store.ApplyMintKeepsConsistent | src/v2_mapping.ts:231-233 | a mint keeps the accounting identity |
| Store.ApplyPreviousPatron | src/v1_old_mapping.ts:204-208 | only the steward's previous patron changes |
| Store.ApplyPreviousPatronKeepsConsistent | src/v1_old_mapping.ts:205-207 | recording the previous patron keeps the accounting identity |
| Store.RetainsTrans | src/v2_mapping.ts:137-138 | never losing a record and never lowering a collected amount composes over two steps |
| Store.ApplyCollectionRetains | src/v2_mapping.ts:137-141 | a collection keeps every record and lowers no steward's totalCollected and no relationship's collected |
| Store.ApplyBuyRetains | src/v2_mapping.ts:179-183 | a buy keeps every record and leaves every collected amount as it was or higher |
| Store.ApplyPriceRetains | src/v2_mapping.ts:151-152 | a price change keeps every record and every collected amount |
| Store.ApplyMintRetains | src/v2_mapping.ts:231-233 | a mint keeps every record and every collected amount |
| Store.ApplyPreviousPatronRetains | src/v1_old_mapping.ts:205-207 | recording the previous patron keeps every record and every collected amount |
| Store.EntityStore.constructor | src/v2_mapping.ts:4 | the store starts empty and consistent |
| Store.EntityStore.PutSteward | src/v2_mapping.ts:140 | `save()` replaces the steward under its id |
| Store.EntityStore.PutPatron | src/v2_mapping.ts:181 | `save()` replaces the patron under its id |
| Store.EntityStore.PutPatronSteward | src/v2_mapping.ts:141 | `save()` replaces the relationship under its id |
| V2Mapping.Collection | src/v2_mapping.ts:112-143 | an old v1 collection after block 11817708 leaves the ledger unchanged; otherwise totalCollected grows by the amount, timeLastCollected is the read value, foreclosureTime is the read value or 4894893805 when the read reverted; the old v1 id never gets a record |
| V2Mapping.PriceChange | src/v2_mapping.ts:147-153 | the canonical steward's record equals the old one with only the price replaced |
| V2Mapping.Buy | src/v2_mapping.ts:157-184 | buyer and price are recorded on the canonical steward; foreclosureTime follows the sentinel rule; the buyer's relationship exists |
| V2Mapping.Foreclosure | src/v2_mapping.ts:188-198 | at block 11815865 nothing changes; otherwise only the canonical steward's price drops to 0 |
| V2Mapping.ForeclosureTimeOrSentinel | src/v2_mapping.ts:83-87 | a successful read is stored as read; a reverted read stores 4894893805 |
| V2Mapping.ArtworkSteward | src/v2_mapping.ts:204-208 | both v1 artworks map to the restored v1 steward and the v2 artwork to the v2 steward; any other artwork has no steward |
| V2Mapping.IsMint | src/v2_mapping.ts:215 | a mint comes from the zero address; a mint of an artwork that has a steward is of the old v1 or the v2 artwork, never of the restored v1 artwork |
| V2Mapping.ToSteward | src/v2_mapping.ts:236-238 | the receiver is one of the three steward contracts exactly when it canonicalises to the restored v1 or the v2 steward |
| V2Mapping.HandOver | src/v2_mapping.ts:236-244 | the steward's current patron becomes the receiver and its previous patron the sender; nothing else changes |
| V2Mapping.Transfer | src/v2_mapping.ts:200-245 | a mint (except of the restored artwork) creates the steward, patron and self relationship and stamps the block time; a transfer into any of the three steward contracts sets current patron to the receiver and previous patron to the sender; any other transfer changes nothing |
| V2Mapping.AliasedEventsAgree | src/v2_mapping.ts:21-25 | collection (up to the restoration block), price change, buy and foreclosure events of the old and the restored v1 steward produce the same ledger |
| V2Mapping.ForeclosureThenCollectionCreditsPrevious | src/v2_mapping.ts:129-134 | after a foreclosure, the next collection is credited to the previous patron's relationship |
| V2Mapping.ForeclosureSequenceCreditsOutgoingHolder | src/v2_mapping.ts:10-13 | transfer to the steward contract, then foreclosure, then collection credits the holder that handed the artwork back |
| V2Mapping.MintIntoStewardRecordsZeroPrevious | src/v2_mapping.ts:215-244 | a v2 mint straight into the v2 steward leaves it self-held with the zero address as previous patron |
| V2Mapping.HandleCollection | src/v2_mapping.ts:112-143 | the store ends in `Collection` of its old state and stays consistent |
| V2Mapping.HandlePriceChange | src/v2_mapping.ts:147-153 | the store ends in `PriceChange` of its old state and stays consistent |
| V2Mapping.HandleBuy | src/v2_mapping.ts:157-184 | the store ends in `Buy` of its old state and stays consistent |
| V2Mapping.HandleForeclosure | src/v2_mapping.ts:188-198 | the store ends in `Foreclosure` of its old state and stays consistent |
| V2Mapping.HandleMint | src/v2_mapping.ts:200-245 | the store ends in `Transfer` of its old state and stays consistent |
| V1OldMapping.Collection | src/v1_old_mapping.ts:92-123 | an old v1 collection after block 11817708 leaves the ledger unchanged; otherwise totalCollected grows by the amount, timeLastCollected and deposit are the reads, and foreclosureTime is untouched |
| V1OldMapping.Transfer | src/v1_old_mapping.ts:170-209 | a mint creates the restored v1 steward, its patron and self relationship; a transfer into the old steward only records the sender as previous patron, keeping the current patron; only the restored v1 steward record is ever touched |
| V1OldMapping.MintIntoOldStewardRecordsZeroPrevious | src/v1_old_mapping.ts:183-208 | a mint straight into the old v1 steward contract records the zero address as the merged steward's previous patron and keeps its current patron |
| V1OldMapping.HandleCollection | src/v1_old_mapping.ts:92-123 | the store ends in `Collection` of its old state and stays consistent |
| V1OldMapping.HandlePriceChange | src/v1_old_mapping.ts:127-133 | only the canonical steward's price changes; the store stays consistent |
| V1OldMapping.HandleBuy | src/v1_old_mapping.ts:137-158 | the store ends in the shared buy reduction on the canonical steward with foreclosureTime kept, and stays consistent |
| V1OldMapping.HandleForeclosure | src/v1_old_mapping.ts:161-168 | at every block only the canonical steward's price drops to 0; the store stays consistent |
| V1OldMapping.HandleMint | src/v1_old_mapping.ts:170-209 | the store ends in `Transfer` of its old state and stays consistent |
| V1RestoredMapping.Collection | src/v1_restored_mapping.ts:82-107 | a collection is never dropped; only the named steward's record changes among stewards; totalCollected grows by the amount; timeLastCollected, deposit and foreclosureTime are the reads |
| V1RestoredMapping.Foreclosure | src/v1_restored_mapping.ts:146-157 | at block 11815865 nothing changes; otherwise only the named steward's price drops to 0 |
| V1RestoredMapping.Transfer | src/v1_restored_mapping.ts:159-175 | a transfer into the restored steward only records the sender as previous patron; any other transfer changes nothing |
| V1RestoredMapping.HandleCollection | src/v1_restored_mapping.ts:82-107 | the store ends in `Collection` of its old state and stays consistent |
| V1RestoredMapping.HandlePriceChange | src/v1_restored_mapping.ts:111-117 | only the named steward's price changes; the store stays consistent |
| V1RestoredMapping.HandleBuy | src/v1_restored_mapping.ts:121-142 | the store ends in the shared buy reduction on the uncanonicalised steward with foreclosureTime kept, and stays consistent |
| V1RestoredMapping.HandleForeclosure | src/v1_restored_mapping.ts:146-157 | the store ends in `Foreclosure` of its old state and stays consistent |
| V1RestoredMapping.HandleMint | src/v1_restored_mapping.ts:159-175 | the store ends in `Transfer` of its old state and stays consistent |
| TaiaosMapping.GetSteward | src/taiaos_mapping.ts:6-17 | an existing steward is returned as stored; a missing one is self-held with deposit and last collection 0 and no price or acquisition time |
| TaiaosMapping.Collect | src/taiaos_mapping.ts:45-68 | the current patron's relationship (no price routing) collects the amount and takes the read time held; the steward takes the read deposit and the block time; nothing else changes; nothing is lost |
| TaiaosMapping.PriceChange | src/taiaos_mapping.ts:71-77 | only the steward's price changes |
| TaiaosMapping.Buy | src/taiaos_mapping.ts:80-97 | buyer, price, acquisition time and deposit are set; last collection time is kept; the buyer's relationship exists; no patron record is written |
| TaiaosMapping.Foreclosure | src/taiaos_mapping.ts:99-113 | the previous owner's relationship takes the read time held; the steward becomes self-held; its price is kept |
| TaiaosMapping.Mint | src/taiaos_mapping.ts:115-139 | a transfer from the zero address creates steward, patron and self relationship keyed by the receiver and stamps the block time; any other transfer changes nothing |
| TaiaosMapping.ForeclosureThenCollectCreditsSelf | src/taiaos_mapping.ts:108 | after a foreclosure, a collection credits the steward's own relationship |
| TaiaosMapping.CollectTwiceAccumulatesCollectedOnly | src/taiaos_mapping.ts:59-61 | two collections add up in collected, while time held is the last read value |
| TaiaosMapping.RetainsTrans | src/taiaos_mapping.ts:59 | keeping every record and never lowering a collected amount composes |
| TaiaosMapping.Step | src/taiaos_mapping.ts:45-139 | each handler keeps the keys well-formed and loses no record or collected amount |
| TaiaosMapping.Replay | src/taiaos_mapping.ts:45-139 | any sequence of handlers keeps the keys well-formed |
| TaiaosMapping.ReplayRetains | src/taiaos_mapping.ts:59 | no history of events loses a record or lowers a relationship's collected amount |
| TaiaosMapping.TaiaosStore.constructor | src/taiaos_mapping.ts:4 | the store starts empty and well-keyed |
| TaiaosMapping.TaiaosStore.PutSteward | src/taiaos_mapping.ts:66 | `save()` replaces the steward under its id |
| TaiaosMapping.TaiaosStore.PutPatron | src/taiaos_mapping.ts:136 | `save()` replaces the patron under its id |
| TaiaosMapping.TaiaosStore.PutPatronSteward | src/taiaos_mapping.ts:67 | `save()` replaces the relationship under its id |
| TaiaosMapping.HandleCollect | src/taiaos_mapping.ts:45-68 | the store ends in `Collect` of its old state and stays well-keyed |
| TaiaosMapping.HandlePriceChange | src/taiaos_mapping.ts:71-77 | the store ends in `PriceChange` of its old state and stays well-keyed |
| TaiaosMapping.HandleBuy | src/taiaos_mapping.ts:80-97 | the store ends in `Buy` of its old state and stays well-keyed |
| TaiaosMapping.HandleForeclosure | src/taiaos_mapping.ts:99-113 | the store ends in `Foreclosure` of its old state and stays well-keyed |
| TaiaosMapping.HandleMint | src/taiaos_mapping.ts:115-139 | the store ends in `Mint` of its old state and stays well-keyed |
| History.Step | src/v2_mapping.ts:6-19 | dispatching one event to its generation's handler keeps the keys well-formed |
| History.Replay | src/v2_mapping.ts:6-19 | applying a history of events in order keeps the keys well-formed |
| History.StepKeepsConsistent | src/v2_mapping.ts:137-138 | every v1/v2 handler keeps the accounting identity |
| History.V2StepKeepsConsistent | src/v2_mapping.ts:112-245 | every v2 handler keeps the accounting identity |
| History.OldStepKeepsConsistent | src/v1_old_mapping.ts:92-209 | every old v1 handler keeps the accounting identity |
| History.RestoredStepKeepsConsistent | src/v1_restored_mapping.ts:82-175 | every restored v1 handler keeps the accounting identity |
| History.V2TransferKeepsConsistent | src/v2_mapping.ts:215-244 | a v2 transfer keeps the accounting identity |
| History.OldTransferKeepsConsistent | src/v1_old_mapping.ts:183-208 | an old v1 transfer keeps the accounting identity |
| History.ReplayKeepsConsistent | src/v1_old_mapping.ts:117-118 | after any history of v1/v2 events each steward's totalCollected equals the sum of its relationships' collected |
| History.StepRetains | src/v2_mapping.ts:137-141 | no v1/v2 handler deletes a record or lowers a steward's totalCollected or a relationship's collected |
| History.V2StepRetains | src/v2_mapping.ts:112-245 | no v2 handler deletes a record or lowers a collected amount |
| History.OldStepRetains | src/v1_old_mapping.ts:92-209 | no old v1 handler deletes a record or lowers a collected amount |
| History.RestoredStepRetains | src/v1_restored_mapping.ts:82-175 | no restored v1 handler deletes a record or lowers a collected amount |
| History.V2CollectionRetains | src/v2_mapping.ts:121-141 | a v2 collection, suppressed or not, keeps every record and lowers no collected amount |
| History.OldCollectionRetains | src/v1_old_mapping.ts:92-123 | an old v1 collection, suppressed or not, keeps every record and lowers no collected amount |
| History.HandOverRetains | src/v2_mapping.ts:236-244 | handing the artwork to a steward contract keeps every record and every collected amount |
| History.V2TransferRetains | src/v2_mapping.ts:215-244 | a v2 transfer keeps every record and every collected amount |
| History.OldTransferRetains | src/v1_old_mapping.ts:183-208 | an old v1 transfer keeps every record and every collected amount |
| History.ReplayRetains | src/v1_old_mapping.ts:117-121 | over any history of v1/v2 events no record is lost and no collected amount goes down |
| History.StepKeepsOldStewardOut | src/v1_old_mapping.ts:7-10 | no handler creates a record under the old v1 steward address |
| History.ReplayKeepsOldStewardOut | src/v1_old_mapping.ts:43-46 | the old and restored v1 stewards stay one record over any history |
| History.OldCollectionMatchesRestored | src/v1_old_mapping.ts:100-103 | up to the restoration block, an old v1 collection equals a restored v1 collection that reads back the stored foreclosureTime |
| History.RestorationRecordsOnce | src/v1_restored_mapping.ts:86-90 | after the restoration block only the restored handler records a collection; v2 and old v1 leave the ledger unchanged |
| History.V2AndOldCollectionsAgree | src/v1_old_mapping.ts:67-81 | v2 and old v1 collections differ only in the foreclosureTime they store |

## Left out

- The contract bindings and their reads (`deposit()`, `timeLastCollected()`, `foreclosureTime()`, `timeHeld(address)`) are handler parameters. Whether a v2 `foreclosureTime()` call reverts is given as `None`.
- `log.info` calls, the graph runtime, and the generated bindings and schema are not part of this model.
- Hex formatting of addresses: an address is a 42-character string, and the zero address is a constant.
- Persistence: `save()` is one map update. Durability and the interleaving of saves with other handlers are not modelled.
- V2Mapping.Transfer and V2Mapping.HandleMint require a known artwork whenever a branch runs (`TransferHandled`). The source would then use an unassigned steward address, and the model gives that case no behaviour.
- Patron records carry only their id.
- Integers are unbounded. The source's BigInt arithmetic does not wrap, and a negative time held (read timeLastCollected behind the stored one) is kept as a negative `int`.
- Store.CollectionTimeHeldGrows: proved only when the read timeLastCollected is not behind the stored one, because the incremental formula subtracts.
- Which handler set receives which contract's events is not part of this model (the deployment manifest). History.ReplayKeepsOldStewardOut assumes restored-handler events do not come from the old v1 address.
- The Taiaos ledger is separate from the v1/v2 ledger. Its steward record has no previous patron, totals or foreclosure time, so the accounting identity does not apply to it.
