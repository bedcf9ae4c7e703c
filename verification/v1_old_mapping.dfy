/** Handlers of the old v1 deployment. Its records are merged into the
    restored v1 steward: every lookup goes through the alias, and the
    transfer handler always names the restored steward. The v1 contract
    has no foreclosureTime, so no handler here touches that field. */
module V1OldMapping {
  import opened Entities
  import opened Alias
  import opened Store

  /** handleCollection. The on-chain reads are deposit() and
      timeLastCollected(); after the restoration block the old steward's
      collections are dropped. */
  function Collection(l: Ledger, e: CollectionEvent, deposit: nat, onTimeLastCollected: nat): (r: Ledger)
    requires WellKeyed(l)
    ensures WellKeyed(r)
    ensures CollectionSuppressed(e) ==> r == l
    ensures !CollectionSuppressed(e) ==>
      var id := Canonical(e.steward);
      var s := GetSteward(l.stewards, id);
      && id in r.stewards
      && r.stewards[id].totalCollected == s.totalCollected + e.collected
      && r.stewards[id].timeLastCollected == onTimeLastCollected
      && r.stewards[id].currentDeposit == deposit
      && r.stewards[id].foreclosureTime == s.foreclosureTime
    ensures OLD_V1_STEWARD in r.stewards ==> OLD_V1_STEWARD in l.stewards
  {
    if CollectionSuppressed(e) then l
    else ApplyCollection(l, Canonical(e.steward), e.collected, deposit, onTimeLastCollected, Keep)
  }

  /** handleMint: a mint creates the merged steward, its self-held patron
      and self relationship; a transfer into the old steward contract (a
      foreclosure) records the outgoing holder as the previous patron and
      leaves the current patron as it was. Both branches name the restored
      steward whatever the artwork. */
  function Transfer(l: Ledger, e: TransferEvent): (r: Ledger)
    requires WellKeyed(l)
    ensures WellKeyed(r)
    ensures e.from != ZERO_ADDRESS && e.to != OLD_V1_STEWARD ==> r == l
    ensures e.from == ZERO_ADDRESS ==>
      && RESTORED_V1_STEWARD in r.stewards && RESTORED_V1_STEWARD in r.patrons
      && PsKey(RESTORED_V1_STEWARD, RESTORED_V1_STEWARD) in r.patronStewards
      && r.stewards[RESTORED_V1_STEWARD].timeLastCollected == e.block.timestamp
    ensures e.to == OLD_V1_STEWARD ==>
      && RESTORED_V1_STEWARD in r.stewards
      && r.stewards[RESTORED_V1_STEWARD].previousPatron == e.from
      && r.stewards[RESTORED_V1_STEWARD].currentPatron == GetSteward(l.stewards, RESTORED_V1_STEWARD).currentPatron
    ensures OnlyChangedAt(l.stewards, r.stewards, RESTORED_V1_STEWARD) || r.stewards == l.stewards
  {
    var minted := if e.from == ZERO_ADDRESS then ApplyMint(l, RESTORED_V1_STEWARD, e.block.timestamp) else l;
    if e.to == OLD_V1_STEWARD then ApplyPreviousPatron(minted, RESTORED_V1_STEWARD, e.from) else minted
  }

  /** A mint straight into the old v1 steward contract also takes the
      transfer-into-steward branch: the merged steward records the zero
      address as its previous patron, while its current patron stays as it
      was. */
  lemma MintIntoOldStewardRecordsZeroPrevious(l: Ledger, e: TransferEvent)
    requires WellKeyed(l)
    requires e.from == ZERO_ADDRESS && e.to == OLD_V1_STEWARD
    ensures
      var r := Transfer(l, e);
      && r.stewards[RESTORED_V1_STEWARD].previousPatron == ZERO_ADDRESS
      && r.stewards[RESTORED_V1_STEWARD].currentPatron == GetSteward(l.stewards, RESTORED_V1_STEWARD).currentPatron
      && r.stewards[RESTORED_V1_STEWARD].timeLastCollected == e.block.timestamp
      && PsKey(RESTORED_V1_STEWARD, RESTORED_V1_STEWARD) in r.patronStewards
  {
  }

  method HandleCollection(store: EntityStore, e: CollectionEvent, deposit: nat, onTimeLastCollected: nat)
    requires store.Valid()
    modifies store
    ensures store.Valid()
    ensures store.State() == Collection(old(store.State()), e, deposit, onTimeLastCollected)
  {
    if e.steward == OLD_V1_STEWARD && e.block.number > RESTORATION_BLOCK {
      // after the restoration the restored deployment records this collection
      return;
    }
    ghost var before := store.State();
    ghost var id := Canonical(e.steward);
    var steward := MergedSteward(store.stewards, e.steward);
    assert steward.id == id && Canonical(steward.id) == id;
    var ps: PatronSteward;
    if steward.currentPrice != 0 {
      ps := MergedPatronSteward(store.patronStewards, steward.currentPatron, steward.id);
    } else {
      // after a foreclosure the collection belongs to the previous patron
      ps := MergedPatronSteward(store.patronStewards, steward.previousPatron, steward.id);
    }
    ghost var s0, ps0 := steward, ps;
    assert ps0 == GetPatronSteward(before.patronStewards, Holder(s0), s0.id);
    var refreshed := UpdateTimeHeldAndDeposit(steward, ps, deposit, onTimeLastCollected, Keep);
    steward, ps := refreshed.0, refreshed.1;
    ps := ps.(collected := ps.collected + e.collected);
    steward := steward.(totalCollected := steward.totalCollected + e.collected);
    ApplyCollectionSteps(before, id, e.collected, deposit, onTimeLastCollected, Keep, s0, ps0, steward, ps);
    ApplyCollectionKeepsConsistent(before, id, e.collected, deposit, onTimeLastCollected, Keep);
    store.PutSteward(steward);
    store.PutPatronSteward(ps);
  }

  /** handlePriceChange: only the merged steward's price changes. */
  method HandlePriceChange(store: EntityStore, e: PriceChangeEvent)
    requires store.Valid()
    modifies store
    ensures store.Valid()
    ensures store.State() == ApplyPrice(old(store.State()), Canonical(e.steward), e.newPrice)
  {
    ApplyPriceKeepsConsistent(store.State(), Canonical(e.steward), e.newPrice);
    var steward := MergedSteward(store.stewards, e.steward);
    steward := steward.(currentPrice := e.newPrice);
    store.PutSteward(steward);
  }

  /** handleBuy: price, patron, acquisition time, collection time and the
      read deposit; the foreclosureTime stays as stored. */
  method HandleBuy(store: EntityStore, e: BuyEvent, deposit: nat)
    requires store.Valid()
    modifies store
    ensures store.Valid()
    ensures store.State() == ApplyBuy(old(store.State()), Canonical(e.steward), e.owner, e.price, e.block.timestamp, deposit, Keep)
  {
    ApplyBuyKeepsConsistent(store.State(), Canonical(e.steward), e.owner, e.price, e.block.timestamp, deposit, Keep);
    var steward := MergedSteward(store.stewards, e.steward);
    var patron := GetPatron(store.patrons, e.owner);
    steward := steward.(currentPrice := e.price, currentPatron := e.owner);
    steward := steward.(timeAcquired := e.block.timestamp, timeLastCollected := e.block.timestamp);
    steward := steward.(currentDeposit := deposit);
    var ps := MergedPatronSteward(store.patronStewards, e.owner, e.steward);
    store.PutPatron(patron);
    store.PutSteward(steward);
    store.PutPatronSteward(ps);
  }

  /** handleForeclosure: the price drops to zero, at every block. */
  method HandleForeclosure(store: EntityStore, e: ForeclosureEvent)
    requires store.Valid()
    modifies store
    ensures store.Valid()
    ensures store.State() == ApplyPrice(old(store.State()), Canonical(e.steward), 0)
  {
    ApplyPriceKeepsConsistent(store.State(), Canonical(e.steward), 0);
    var steward := MergedSteward(store.stewards, e.steward);
    steward := steward.(currentPrice := 0);
    store.PutSteward(steward);
  }

  method HandleMint(store: EntityStore, e: TransferEvent)
    requires store.Valid()
    modifies store
    ensures store.Valid()
    ensures store.State() == Transfer(old(store.State()), e)
  {
    var stewardAddress := RESTORED_V1_STEWARD;
    if e.from == ZERO_ADDRESS {
      ApplyMintKeepsConsistent(store.State(), stewardAddress, e.block.timestamp);
      var steward := MergedSteward(store.stewards, stewardAddress);
      steward := steward.(timeLastCollected := e.block.timestamp);
      var patron := GetPatron(store.patrons, stewardAddress);
      var patronSteward := MergedPatronSteward(store.patronStewards, stewardAddress, stewardAddress);
      store.PutSteward(steward);
      store.PutPatron(patron);
      store.PutPatronSteward(patronSteward);
    }
    if e.to == OLD_V1_STEWARD {
      ApplyPreviousPatronKeepsConsistent(store.State(), stewardAddress, e.from);
      var steward := MergedSteward(store.stewards, stewardAddress);
      steward := steward.(previousPatron := e.from);
      store.PutSteward(steward);
    }
  }
}
