/** Handlers of the v2 deployment: the steward events of the v2 steward and
    (through the alias) of the old v1 steward, and the transfers of all
    three artworks. Each handler is a function on the ledger value and a
    method that updates the store step by step, record by record. */
module V2Mapping {
  import opened Entities
  import opened Alias
  import opened Store

  /** Stored as foreclosureTime when the contract's foreclosureTime() call
      reverts. */
  const FAR_FUTURE_FORECLOSURE: nat := 4894893805

  function ForeclosureTimeOrSentinel(read: Option<nat>): (t: nat)
    ensures read.Some? ==> t == read.value
    ensures read.None? ==> t == FAR_FUTURE_FORECLOSURE
  {
    match read
    case Some(t) => t
    case None => FAR_FUTURE_FORECLOSURE
  }

  /** handleCollection. The on-chain reads are deposit(),
      timeLastCollected() and foreclosureTime() (None when it reverts). */
  function Collection(l: Ledger, e: CollectionEvent, deposit: nat, onTimeLastCollected: nat, foreclosureTime: Option<nat>): (r: Ledger)
    requires WellKeyed(l)
    ensures WellKeyed(r)
    ensures CollectionSuppressed(e) ==> r == l
    ensures !CollectionSuppressed(e) ==>
      var id := Canonical(e.steward);
      && id in r.stewards
      && r.stewards[id].totalCollected == GetSteward(l.stewards, id).totalCollected + e.collected
      && r.stewards[id].timeLastCollected == onTimeLastCollected
      && (foreclosureTime.Some? ==> r.stewards[id].foreclosureTime == foreclosureTime.value)
      && (foreclosureTime.None? ==> r.stewards[id].foreclosureTime == FAR_FUTURE_FORECLOSURE)
    ensures OLD_V1_STEWARD in r.stewards ==> OLD_V1_STEWARD in l.stewards
  {
    if CollectionSuppressed(e) then l
    else ApplyCollection(l, Canonical(e.steward), e.collected, deposit, onTimeLastCollected,
                         SetTo(ForeclosureTimeOrSentinel(foreclosureTime)))
  }

  /** handlePriceChange */
  function PriceChange(l: Ledger, e: PriceChangeEvent): (r: Ledger)
    requires WellKeyed(l)
    ensures WellKeyed(r)
    ensures Canonical(e.steward) in r.stewards
    ensures r.stewards[Canonical(e.steward)] == GetSteward(l.stewards, Canonical(e.steward)).(currentPrice := e.newPrice)
    ensures OLD_V1_STEWARD in r.stewards ==> OLD_V1_STEWARD in l.stewards
  {
    ApplyPrice(l, Canonical(e.steward), e.newPrice)
  }

  /** handleBuy. The on-chain reads are deposit() and foreclosureTime()
      (None when it reverts). */
  function Buy(l: Ledger, e: BuyEvent, deposit: nat, foreclosureTime: Option<nat>): (r: Ledger)
    requires WellKeyed(l)
    ensures WellKeyed(r)
    ensures
      var id := Canonical(e.steward);
      && id in r.stewards
      && r.stewards[id].currentPatron == e.owner && r.stewards[id].currentPrice == e.price
      && (foreclosureTime.Some? ==> r.stewards[id].foreclosureTime == foreclosureTime.value)
      && (foreclosureTime.None? ==> r.stewards[id].foreclosureTime == FAR_FUTURE_FORECLOSURE)
      && PsKey(e.owner, id) in r.patronStewards
    ensures OLD_V1_STEWARD in r.stewards ==> OLD_V1_STEWARD in l.stewards
  {
    ApplyBuy(l, Canonical(e.steward), e.owner, e.price, e.block.timestamp, deposit,
             SetTo(ForeclosureTimeOrSentinel(foreclosureTime)))
  }

  /** handleForeclosure: the steward's price drops to zero, except for the
      restored deployment's post-mint foreclosure. */
  function Foreclosure(l: Ledger, e: ForeclosureEvent): (r: Ledger)
    requires WellKeyed(l)
    ensures WellKeyed(r)
    ensures e.block.number == RESTORED_MINT_FORECLOSURE_BLOCK ==> r == l
    ensures e.block.number != RESTORED_MINT_FORECLOSURE_BLOCK ==>
      && r.patrons == l.patrons && r.patronStewards == l.patronStewards
      && OnlyChangedAt(l.stewards, r.stewards, Canonical(e.steward))
      && r.stewards[Canonical(e.steward)] == GetSteward(l.stewards, Canonical(e.steward)).(currentPrice := 0)
  {
    if e.block.number == RESTORED_MINT_FORECLOSURE_BLOCK then l
    else ApplyPrice(l, Canonical(e.steward), 0)
  }

  /** The steward contract behind each artwork contract: both v1 artworks
      belong to the restored v1 steward, the v2 artwork to the v2 steward;
      any other artwork has none. */
  function ArtworkSteward(artwork: Address): (s: Option<Address>)
    ensures s.Some? <==> artwork == OLD_V1_ARTWORK || artwork == RESTORED_V1_ARTWORK || artwork == V2_ARTWORK
    ensures s.Some? ==> Canonical(s.value) == s.value
    ensures artwork == V2_ARTWORK ==> s == Some(V2_STEWARD)
    ensures artwork != V2_ARTWORK && s.Some? ==> s == Some(RESTORED_V1_STEWARD)
  {
    if artwork == OLD_V1_ARTWORK then Some(RESTORED_V1_STEWARD)
    else if artwork == RESTORED_V1_ARTWORK then Some(RESTORED_V1_STEWARD)
    else if artwork == V2_ARTWORK then Some(V2_STEWARD)
    else None
  }

  /** A transfer from the zero address, except the restored artwork's: of
      the known artworks, only the old v1 and the v2 artwork take the mint
      branch. */
  predicate IsMint(e: TransferEvent)
    ensures IsMint(e) ==> e.from == ZERO_ADDRESS
    ensures IsMint(e) && ArtworkSteward(e.artwork).Some? ==> e.artwork == OLD_V1_ARTWORK || e.artwork == V2_ARTWORK
  {
    e.from == ZERO_ADDRESS && e.artwork != RESTORED_V1_ARTWORK
  }

  /** A transfer into one of the three steward contracts, that is, to an
      address whose canonical form is the restored v1 or the v2 steward. */
  predicate ToSteward(e: TransferEvent)
    ensures ToSteward(e) <==> Canonical(e.to) == RESTORED_V1_STEWARD || Canonical(e.to) == V2_STEWARD
  {
    e.to == OLD_V1_STEWARD || e.to == RESTORED_V1_STEWARD || e.to == V2_STEWARD
  }

  /** A transfer branch needs the artwork's steward. */
  predicate TransferHandled(e: TransferEvent)
  {
    ArtworkSteward(e.artwork).Some? || (!IsMint(e) && !ToSteward(e))
  }

  /** The transfer-to-steward branch: the steward contract is now the
      current patron and the outgoing holder the previous one. */
  function HandOver(l: Ledger, id: Address, to: Address, from: Address): (r: Ledger)
    requires WellKeyed(l)
    ensures WellKeyed(r)
    ensures r.patrons == l.patrons && r.patronStewards == l.patronStewards
    ensures OnlyChangedAt(l.stewards, r.stewards, id)
    ensures r.stewards[id] == GetSteward(l.stewards, id).(currentPatron := to, previousPatron := from)
  {
    SaveSteward(l, GetSteward(l.stewards, id).(currentPatron := to, previousPatron := from))
  }

  /** handleMint: the mint branch, then the transfer-to-steward branch;
      both key the steward of the artwork. */
  function Transfer(l: Ledger, e: TransferEvent): (r: Ledger)
    requires WellKeyed(l)
    requires TransferHandled(e)
    ensures WellKeyed(r)
    ensures !IsMint(e) && !ToSteward(e) ==> r == l
    ensures IsMint(e) ==>
      var id := ArtworkSteward(e.artwork).value;
      && id in r.stewards && id in r.patrons && PsKey(id, id) in r.patronStewards
      && r.stewards[id].timeLastCollected == e.block.timestamp
    ensures ToSteward(e) ==>
      var id := ArtworkSteward(e.artwork).value;
      && id in r.stewards
      && r.stewards[id].currentPatron == e.to && r.stewards[id].previousPatron == e.from
    ensures OLD_V1_STEWARD in r.stewards ==> OLD_V1_STEWARD in l.stewards
  {
    var minted := if IsMint(e) then ApplyMint(l, ArtworkSteward(e.artwork).value, e.block.timestamp) else l;
    if ToSteward(e) then HandOver(minted, ArtworkSteward(e.artwork).value, e.to, e.from) else minted
  }

  /** A steward event naming the old v1 steward lands on the same records
      as one naming the restored v1 steward (collections before the
      restoration included). */
  lemma AliasedEventsAgree(l: Ledger, c: CollectionEvent, p: PriceChangeEvent, b: BuyEvent, f: ForeclosureEvent,
                           deposit: nat, onTimeLastCollected: nat, foreclosureTime: Option<nat>)
    requires WellKeyed(l)
    requires c.block.number <= RESTORATION_BLOCK
    ensures Collection(l, c.(steward := OLD_V1_STEWARD), deposit, onTimeLastCollected, foreclosureTime)
         == Collection(l, c.(steward := RESTORED_V1_STEWARD), deposit, onTimeLastCollected, foreclosureTime)
    ensures PriceChange(l, p.(steward := OLD_V1_STEWARD)) == PriceChange(l, p.(steward := RESTORED_V1_STEWARD))
    ensures Buy(l, b.(steward := OLD_V1_STEWARD), deposit, foreclosureTime)
         == Buy(l, b.(steward := RESTORED_V1_STEWARD), deposit, foreclosureTime)
    ensures Foreclosure(l, f.(steward := OLD_V1_STEWARD)) == Foreclosure(l, f.(steward := RESTORED_V1_STEWARD))
  {
  }

  /** A foreclosure followed by a collection credits the collection to the
      relationship of the patron that held the steward before it. */
  lemma ForeclosureThenCollectionCreditsPrevious(l: Ledger, f: ForeclosureEvent, c: CollectionEvent,
                                                  deposit: nat, onTimeLastCollected: nat, foreclosureTime: Option<nat>)
    requires WellKeyed(l)
    requires f.block.number != RESTORED_MINT_FORECLOSURE_BLOCK && !CollectionSuppressed(c)
    requires Canonical(f.steward) == Canonical(c.steward)
    ensures
      var id := Canonical(c.steward);
      var previous := GetSteward(l.stewards, id).previousPatron;
      var foreclosed := Foreclosure(l, f);
      var r := Collection(foreclosed, c, deposit, onTimeLastCollected, foreclosureTime);
      && PsKey(previous, id) in r.patronStewards
      && r.patronStewards[PsKey(previous, id)].collected
         == GetPatronSteward(foreclosed.patronStewards, previous, id).collected + c.collected
  {
  }

  /** The order the steward contract emits a foreclosure in: the artwork
      is transferred back to the steward contract, then the foreclosure is
      logged; the next collection is credited to the holder that lost the
      artwork. */
  lemma ForeclosureSequenceCreditsOutgoingHolder(l: Ledger, t: TransferEvent, f: ForeclosureEvent, c: CollectionEvent,
                                                 deposit: nat, onTimeLastCollected: nat, foreclosureTime: Option<nat>)
    requires WellKeyed(l)
    requires ToSteward(t) && ArtworkSteward(t.artwork).Some?
    requires f.block.number != RESTORED_MINT_FORECLOSURE_BLOCK && !CollectionSuppressed(c)
    requires Canonical(f.steward) == ArtworkSteward(t.artwork).value && Canonical(c.steward) == Canonical(f.steward)
    ensures
      var id := Canonical(c.steward);
      var foreclosed := Foreclosure(Transfer(l, t), f);
      var r := Collection(foreclosed, c, deposit, onTimeLastCollected, foreclosureTime);
      && PsKey(t.from, id) in r.patronStewards
      && r.patronStewards[PsKey(t.from, id)].collected
         == GetPatronSteward(foreclosed.patronStewards, t.from, id).collected + c.collected
      && r.stewards[id].currentPatron == t.to
  {
    var id := Canonical(c.steward);
    var foreclosed := Foreclosure(Transfer(l, t), f);
    assert GetSteward(foreclosed.stewards, id).previousPatron == t.from;
    assert GetSteward(foreclosed.stewards, id).currentPrice == 0;
    ApplyCollectionEffect(foreclosed, id, c.collected, deposit, onTimeLastCollected,
                          SetTo(ForeclosureTimeOrSentinel(foreclosureTime)));
  }

  /** A mint straight into the v2 steward also takes the transfer-to-steward
      branch: the steward is its own current patron, the zero address its
      previous patron, and its self relationship exists. */
  lemma MintIntoStewardRecordsZeroPrevious(l: Ledger, e: TransferEvent)
    requires WellKeyed(l)
    requires e.artwork == V2_ARTWORK && e.from == ZERO_ADDRESS && e.to == V2_STEWARD
    ensures
      var r := Transfer(l, e);
      && r.stewards[V2_STEWARD].currentPatron == V2_STEWARD
      && r.stewards[V2_STEWARD].previousPatron == ZERO_ADDRESS
      && r.stewards[V2_STEWARD].timeLastCollected == e.block.timestamp
      && PsKey(V2_STEWARD, V2_STEWARD) in r.patronStewards
  {
  }

  method HandleCollection(store: EntityStore, e: CollectionEvent, deposit: nat, onTimeLastCollected: nat, foreclosureTime: Option<nat>)
    requires store.Valid()
    modifies store
    ensures store.Valid()
    ensures store.State() == Collection(old(store.State()), e, deposit, onTimeLastCollected, foreclosureTime)
  {
    if e.steward == OLD_V1_STEWARD && e.block.number > RESTORATION_BLOCK {
      // the restored deployment records this collection
      return;
    }
    ghost var before := store.State();
    ghost var id := Canonical(e.steward);
    var steward := MergedSteward(store.stewards, e.steward);
    assert steward.id == id && Canonical(steward.id) == id;
    var ps: PatronSteward;
    if steward.currentPrice != 0 {
      ps := MergedPatronSteward(store.patronStewards, steward.currentPatron, steward.id);
    } else {
      // after a foreclosure the collection belongs to the previous patron
      ps := MergedPatronSteward(store.patronStewards, steward.previousPatron, steward.id);
    }
    ghost var s0, ps0 := steward, ps;
    assert ps0 == GetPatronSteward(before.patronStewards, Holder(s0), s0.id);
    var refreshed := UpdateTimeHeldAndDeposit(steward, ps, deposit, onTimeLastCollected,
                                              SetTo(ForeclosureTimeOrSentinel(foreclosureTime)));
    steward, ps := refreshed.0, refreshed.1;
    ps := ps.(collected := ps.collected + e.collected);
    steward := steward.(totalCollected := steward.totalCollected + e.collected);
    ApplyCollectionSteps(before, id, e.collected, deposit, onTimeLastCollected,
                         SetTo(ForeclosureTimeOrSentinel(foreclosureTime)), s0, ps0, steward, ps);
    ApplyCollectionKeepsConsistent(before, id, e.collected, deposit, onTimeLastCollected,
                                   SetTo(ForeclosureTimeOrSentinel(foreclosureTime)));
    store.PutSteward(steward);
    store.PutPatronSteward(ps);
  }

  method HandlePriceChange(store: EntityStore, e: PriceChangeEvent)
    requires store.Valid()
    modifies store
    ensures store.Valid()
    ensures store.State() == PriceChange(old(store.State()), e)
  {
    ApplyPriceKeepsConsistent(store.State(), Canonical(e.steward), e.newPrice);
    var steward := MergedSteward(store.stewards, e.steward);
    steward := steward.(currentPrice := e.newPrice);
    store.PutSteward(steward);
  }

  method HandleBuy(store: EntityStore, e: BuyEvent, deposit: nat, foreclosureTime: Option<nat>)
    requires store.Valid()
    modifies store
    ensures store.Valid()
    ensures store.State() == Buy(old(store.State()), e, deposit, foreclosureTime)
  {
    ApplyBuyKeepsConsistent(store.State(), Canonical(e.steward), e.owner, e.price, e.block.timestamp, deposit,
                            SetTo(ForeclosureTimeOrSentinel(foreclosureTime)));
    var steward := MergedSteward(store.stewards, e.steward);
    var patron := GetPatron(store.patrons, e.owner);
    steward := steward.(currentPrice := e.price, currentPatron := e.owner);
    steward := steward.(timeAcquired := e.block.timestamp, timeLastCollected := e.block.timestamp);
    steward := steward.(currentDeposit := deposit);
    match foreclosureTime {
      case Some(t) => steward := steward.(foreclosureTime := t);
      case None => steward := steward.(foreclosureTime := FAR_FUTURE_FORECLOSURE);
    }
    var ps := MergedPatronSteward(store.patronStewards, e.owner, e.steward);
    store.PutPatron(patron);
    store.PutSteward(steward);
    store.PutPatronSteward(ps);
  }

  method HandleForeclosure(store: EntityStore, e: ForeclosureEvent)
    requires store.Valid()
    modifies store
    ensures store.Valid()
    ensures store.State() == Foreclosure(old(store.State()), e)
  {
    if e.block.number != RESTORED_MINT_FORECLOSURE_BLOCK {
      ApplyPriceKeepsConsistent(store.State(), Canonical(e.steward), 0);
      var steward := MergedSteward(store.stewards, e.steward);
      steward := steward.(currentPrice := 0);
      store.PutSteward(steward);
    }
  }

  method HandleMint(store: EntityStore, e: TransferEvent)
    requires store.Valid()
    requires TransferHandled(e)
    modifies store
    ensures store.Valid()
    ensures store.State() == Transfer(old(store.State()), e)
  {
    var stewardAddress := ArtworkSteward(e.artwork);
    if e.from == ZERO_ADDRESS && e.artwork != RESTORED_V1_ARTWORK {
      var id := stewardAddress.value;
      ApplyMintKeepsConsistent(store.State(), id, e.block.timestamp);
      var steward := MergedSteward(store.stewards, id);
      steward := steward.(timeLastCollected := e.block.timestamp);
      var patron := GetPatron(store.patrons, id);
      var patronSteward := MergedPatronSteward(store.patronStewards, id, id);
      store.PutSteward(steward);
      store.PutPatron(patron);
      store.PutPatronSteward(patronSteward);
    }
    if e.to == OLD_V1_STEWARD || e.to == RESTORED_V1_STEWARD || e.to == V2_STEWARD {
      var id := stewardAddress.value;
      SaveStewardKeepsConsistent(store.State(), GetSteward(store.stewards, id).(currentPatron := e.to, previousPatron := e.from));
      var steward := MergedSteward(store.stewards, id);
      steward := steward.(currentPatron := e.to, previousPatron := e.from);
      store.PutSteward(steward);
    }
  }
}
