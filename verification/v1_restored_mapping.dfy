/** Handlers of the restored v1 deployment. Its lookups take the event's
    address as it is (no alias), its collections are never dropped, it reads
    foreclosureTime straight from the contract, and it ignores the
    foreclosure that followed its own mint. */
module V1RestoredMapping {
  import opened Entities
  import opened Alias
  import opened Store

  /** handleCollection. The on-chain reads are deposit(),
      timeLastCollected() and foreclosureTime(); the declared limit block
      plays no part. */
  function Collection(l: Ledger, e: CollectionEvent, deposit: nat, onTimeLastCollected: nat, foreclosureTime: nat): (r: Ledger)
    requires WellKeyed(l)
    ensures WellKeyed(r)
    ensures
      var s := GetSteward(l.stewards, e.steward);
      && OnlyChangedAt(l.stewards, r.stewards, e.steward)
      && r.stewards[e.steward].totalCollected == s.totalCollected + e.collected
      && r.stewards[e.steward].timeLastCollected == onTimeLastCollected
      && r.stewards[e.steward].currentDeposit == deposit
      && r.stewards[e.steward].foreclosureTime == foreclosureTime
  {
    ApplyCollectionEffect(l, e.steward, e.collected, deposit, onTimeLastCollected, SetTo(foreclosureTime));
    ApplyCollection(l, e.steward, e.collected, deposit, onTimeLastCollected, SetTo(foreclosureTime))
  }

  /** handleForeclosure: the price drops to zero, except at the block of
      the foreclosure that followed the restored mint. */
  function Foreclosure(l: Ledger, e: ForeclosureEvent): (r: Ledger)
    requires WellKeyed(l)
    ensures WellKeyed(r)
    ensures e.block.number == RESTORED_MINT_FORECLOSURE_BLOCK ==> r == l
    ensures e.block.number != RESTORED_MINT_FORECLOSURE_BLOCK ==>
      && r.patrons == l.patrons && r.patronStewards == l.patronStewards
      && OnlyChangedAt(l.stewards, r.stewards, e.steward)
      && r.stewards[e.steward] == GetSteward(l.stewards, e.steward).(currentPrice := 0)
  {
    if e.block.number == RESTORED_MINT_FORECLOSURE_BLOCK then l
    else ApplyPrice(l, e.steward, 0)
  }

  /** handleMint: there is no mint branch; a transfer into the restored
      steward contract records the outgoing holder as previous patron and
      nothing else. */
  function Transfer(l: Ledger, e: TransferEvent): (r: Ledger)
    requires WellKeyed(l)
    ensures WellKeyed(r)
    ensures e.to != RESTORED_V1_STEWARD ==> r == l
    ensures e.to == RESTORED_V1_STEWARD ==>
      && r.patrons == l.patrons && r.patronStewards == l.patronStewards
      && OnlyChangedAt(l.stewards, r.stewards, RESTORED_V1_STEWARD)
      && r.stewards[RESTORED_V1_STEWARD] == GetSteward(l.stewards, RESTORED_V1_STEWARD).(previousPatron := e.from)
  {
    if e.to == RESTORED_V1_STEWARD then ApplyPreviousPatron(l, RESTORED_V1_STEWARD, e.from) else l
  }

  method HandleCollection(store: EntityStore, e: CollectionEvent, deposit: nat, onTimeLastCollected: nat, foreclosureTime: nat)
    requires store.Valid()
    modifies store
    ensures store.Valid()
    ensures store.State() == Collection(old(store.State()), e, deposit, onTimeLastCollected, foreclosureTime)
  {
    ghost var before := store.State();
    var steward := GetSteward(store.stewards, e.steward);
    var ps: PatronSteward;
    if steward.currentPrice != 0 {
      ps := GetPatronSteward(store.patronStewards, steward.currentPatron, steward.id);
    } else {
      // after a foreclosure the collection belongs to the previous patron
      ps := GetPatronSteward(store.patronStewards, steward.previousPatron, steward.id);
    }
    ghost var s0, ps0 := steward, ps;
    assert ps0 == GetPatronSteward(before.patronStewards, Holder(s0), s0.id);
    var refreshed := UpdateTimeHeldAndDeposit(steward, ps, deposit, onTimeLastCollected, SetTo(foreclosureTime));
    steward, ps := refreshed.0, refreshed.1;
    ps := ps.(collected := ps.collected + e.collected);
    steward := steward.(totalCollected := steward.totalCollected + e.collected);
    ApplyCollectionSteps(before, e.steward, e.collected, deposit, onTimeLastCollected, SetTo(foreclosureTime), s0, ps0, steward, ps);
    ApplyCollectionKeepsConsistent(before, e.steward, e.collected, deposit, onTimeLastCollected, SetTo(foreclosureTime));
    store.PutSteward(steward);
    store.PutPatronSteward(ps);
  }

  /** handlePriceChange: only the named steward's price changes. */
  method HandlePriceChange(store: EntityStore, e: PriceChangeEvent)
    requires store.Valid()
    modifies store
    ensures store.Valid()
    ensures store.State() == ApplyPrice(old(store.State()), e.steward, e.newPrice)
  {
    ApplyPriceKeepsConsistent(store.State(), e.steward, e.newPrice);
    var steward := GetSteward(store.stewards, e.steward);
    steward := steward.(currentPrice := e.newPrice);
    store.PutSteward(steward);
  }

  /** handleBuy: price, patron, acquisition time, collection time and the
      read deposit; the foreclosureTime stays as stored. */
  method HandleBuy(store: EntityStore, e: BuyEvent, deposit: nat)
    requires store.Valid()
    modifies store
    ensures store.Valid()
    ensures store.State() == ApplyBuy(old(store.State()), e.steward, e.owner, e.price, e.block.timestamp, deposit, Keep)
  {
    ApplyBuyKeepsConsistent(store.State(), e.steward, e.owner, e.price, e.block.timestamp, deposit, Keep);
    var steward := GetSteward(store.stewards, e.steward);
    var patron := GetPatron(store.patrons, e.owner);
    steward := steward.(currentPrice := e.price, currentPatron := e.owner);
    steward := steward.(timeAcquired := e.block.timestamp, timeLastCollected := e.block.timestamp);
    steward := steward.(currentDeposit := deposit);
    var ps := GetPatronSteward(store.patronStewards, e.owner, e.steward);
    store.PutPatron(patron);
    store.PutSteward(steward);
    store.PutPatronSteward(ps);
  }

  method HandleForeclosure(store: EntityStore, e: ForeclosureEvent)
    requires store.Valid()
    modifies store
    ensures store.Valid()
    ensures store.State() == Foreclosure(old(store.State()), e)
  {
    if e.block.number != RESTORED_MINT_FORECLOSURE_BLOCK {
      ApplyPriceKeepsConsistent(store.State(), e.steward, 0);
      var steward := GetSteward(store.stewards, e.steward);
      steward := steward.(currentPrice := 0);
      store.PutSteward(steward);
    }
  }

  method HandleMint(store: EntityStore, e: TransferEvent)
    requires store.Valid()
    modifies store
    ensures store.Valid()
    ensures store.State() == Transfer(old(store.State()), e)
  {
    var stewardAddress := RESTORED_V1_STEWARD;
    if e.to == RESTORED_V1_STEWARD {
      ApplyPreviousPatronKeepsConsistent(store.State(), stewardAddress, e.from);
      var steward := GetSteward(store.stewards, stewardAddress);
      steward := steward.(previousPatron := e.from);
      store.PutSteward(steward);
    }
  }
}
