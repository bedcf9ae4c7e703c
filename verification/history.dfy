/** The three v1/v2 handler sets as one indexer: they all write the same
    ledger, one event at a time in chain order. The accounting identity
    (each steward's totalCollected is the sum of its relationships'
    collected) holds after any history of their events, and an old v1
    collection before the restoration lands exactly where the matching
    restored v1 collection would. */
module History {
  import opened Entities
  import opened Alias
  import opened Store
  import V2Mapping
  import V1OldMapping
  import V1RestoredMapping

  /** One event for one of the three handler sets, together with the
      on-chain values its handler reads. */
  datatype Event =
    | V2Collection(collection: CollectionEvent, deposit: nat, onTimeLastCollected: nat, foreclosureRead: Option<nat>)
    | V2PriceChange(priceChange: PriceChangeEvent)
    | V2Buy(buy: BuyEvent, deposit: nat, foreclosureRead: Option<nat>)
    | V2Foreclosure(foreclosure: ForeclosureEvent)
    | V2Transfer(transfer: TransferEvent)
    | OldCollection(collection: CollectionEvent, deposit: nat, onTimeLastCollected: nat)
    | OldPriceChange(priceChange: PriceChangeEvent)
    | OldBuy(buy: BuyEvent, deposit: nat)
    | OldForeclosure(foreclosure: ForeclosureEvent)
    | OldTransfer(transfer: TransferEvent)
    | RestoredCollection(collection: CollectionEvent, deposit: nat, onTimeLastCollected: nat, foreclosureTime: nat)
    | RestoredPriceChange(priceChange: PriceChangeEvent)
    | RestoredBuy(buy: BuyEvent, deposit: nat)
    | RestoredForeclosure(foreclosure: ForeclosureEvent)
    | RestoredTransfer(transfer: TransferEvent)

  /** The v2 transfer handler needs a known artwork whenever it reaches one
      of its branches. */
  predicate Handled(ev: Event)
  {
    ev.V2Transfer? ==> V2Mapping.TransferHandled(ev.transfer)
  }

  /** The handler an event is dispatched to. */
  function Step(l: Ledger, ev: Event): (r: Ledger)
    requires WellKeyed(l) && Handled(ev)
    ensures WellKeyed(r)
  {
    match ev
    case V2Collection(c, d, t, f) => V2Mapping.Collection(l, c, d, t, f)
    case V2PriceChange(p) => V2Mapping.PriceChange(l, p)
    case V2Buy(b, d, f) => V2Mapping.Buy(l, b, d, f)
    case V2Foreclosure(f) => V2Mapping.Foreclosure(l, f)
    case V2Transfer(t) => V2Mapping.Transfer(l, t)
    case OldCollection(c, d, t) => V1OldMapping.Collection(l, c, d, t)
    case OldPriceChange(p) => ApplyPrice(l, Canonical(p.steward), p.newPrice)
    case OldBuy(b, d) => ApplyBuy(l, Canonical(b.steward), b.owner, b.price, b.block.timestamp, d, Keep)
    case OldForeclosure(f) => ApplyPrice(l, Canonical(f.steward), 0)
    case OldTransfer(t) => V1OldMapping.Transfer(l, t)
    case RestoredCollection(c, d, t, f) => V1RestoredMapping.Collection(l, c, d, t, f)
    case RestoredPriceChange(p) => ApplyPrice(l, p.steward, p.newPrice)
    case RestoredBuy(b, d) => ApplyBuy(l, b.steward, b.owner, b.price, b.block.timestamp, d, Keep)
    case RestoredForeclosure(f) => V1RestoredMapping.Foreclosure(l, f)
    case RestoredTransfer(t) => V1RestoredMapping.Transfer(l, t)
  }

  /** The events of a history applied in order. */
  function Replay(l: Ledger, history: seq<Event>): (r: Ledger)
    requires WellKeyed(l)
    requires forall i :: 0 <= i < |history| ==> Handled(history[i])
    ensures WellKeyed(r)
    decreases |history|
  {
    if history == [] then l else Replay(Step(l, history[0]), history[1..])
  }

  /** The handler set an event belongs to. */
  predicate FromV2(ev: Event)
  {
    ev.V2Collection? || ev.V2PriceChange? || ev.V2Buy? || ev.V2Foreclosure? || ev.V2Transfer?
  }

  predicate FromOld(ev: Event)
  {
    ev.OldCollection? || ev.OldPriceChange? || ev.OldBuy? || ev.OldForeclosure? || ev.OldTransfer?
  }

  /** Every handler keeps the accounting identity. */
  lemma StepKeepsConsistent(l: Ledger, ev: Event)
    requires Consistent(l) && Handled(ev)
    ensures Consistent(Step(l, ev))
  {
    if FromV2(ev) {
      V2StepKeepsConsistent(l, ev);
    } else if FromOld(ev) {
      OldStepKeepsConsistent(l, ev);
    } else {
      RestoredStepKeepsConsistent(l, ev);
    }
  }

  lemma V2StepKeepsConsistent(l: Ledger, ev: Event)
    requires Consistent(l) && Handled(ev) && FromV2(ev)
    ensures Consistent(Step(l, ev))
  {
    match ev
    case V2Collection(c, d, t, f) =>
      if !CollectionSuppressed(c) {
        ApplyCollectionKeepsConsistent(l, Canonical(c.steward), c.collected, d, t,
                                       SetTo(V2Mapping.ForeclosureTimeOrSentinel(f)));
      }
    case V2PriceChange(p) => ApplyPriceKeepsConsistent(l, Canonical(p.steward), p.newPrice);
    case V2Buy(b, d, f) =>
      ApplyBuyKeepsConsistent(l, Canonical(b.steward), b.owner, b.price, b.block.timestamp, d,
                              SetTo(V2Mapping.ForeclosureTimeOrSentinel(f)));
    case V2Foreclosure(f) =>
      if f.block.number != RESTORED_MINT_FORECLOSURE_BLOCK {
        ApplyPriceKeepsConsistent(l, Canonical(f.steward), 0);
      }
    case V2Transfer(t) => V2TransferKeepsConsistent(l, t);
  }

  lemma OldStepKeepsConsistent(l: Ledger, ev: Event)
    requires Consistent(l) && FromOld(ev)
    ensures Consistent(Step(l, ev))
  {
    match ev
    case OldCollection(c, d, t) =>
      if !CollectionSuppressed(c) {
        ApplyCollectionKeepsConsistent(l, Canonical(c.steward), c.collected, d, t, Keep);
      }
    case OldPriceChange(p) => ApplyPriceKeepsConsistent(l, Canonical(p.steward), p.newPrice);
    case OldBuy(b, d) => ApplyBuyKeepsConsistent(l, Canonical(b.steward), b.owner, b.price, b.block.timestamp, d, Keep);
    case OldForeclosure(f) => ApplyPriceKeepsConsistent(l, Canonical(f.steward), 0);
    case OldTransfer(t) => OldTransferKeepsConsistent(l, t);
  }

  lemma RestoredStepKeepsConsistent(l: Ledger, ev: Event)
    requires Consistent(l) && !FromV2(ev) && !FromOld(ev)
    ensures Consistent(Step(l, ev))
  {
    match ev
    case RestoredCollection(c, d, t, f) => ApplyCollectionKeepsConsistent(l, c.steward, c.collected, d, t, SetTo(f));
    case RestoredPriceChange(p) => ApplyPriceKeepsConsistent(l, p.steward, p.newPrice);
    case RestoredBuy(b, d) => ApplyBuyKeepsConsistent(l, b.steward, b.owner, b.price, b.block.timestamp, d, Keep);
    case RestoredForeclosure(f) =>
      if f.block.number != RESTORED_MINT_FORECLOSURE_BLOCK {
        ApplyPriceKeepsConsistent(l, f.steward, 0);
      }
    case RestoredTransfer(t) =>
      if t.to == RESTORED_V1_STEWARD {
        ApplyPreviousPatronKeepsConsistent(l, RESTORED_V1_STEWARD, t.from);
      }
  }

  lemma V2TransferKeepsConsistent(l: Ledger, t: TransferEvent)
    requires Consistent(l) && V2Mapping.TransferHandled(t)
    ensures Consistent(V2Mapping.Transfer(l, t))
  {
    var minted := if V2Mapping.IsMint(t) then ApplyMint(l, V2Mapping.ArtworkSteward(t.artwork).value, t.block.timestamp) else l;
    if V2Mapping.IsMint(t) {
      ApplyMintKeepsConsistent(l, V2Mapping.ArtworkSteward(t.artwork).value, t.block.timestamp);
    }
    if V2Mapping.ToSteward(t) {
      var id := V2Mapping.ArtworkSteward(t.artwork).value;
      SaveStewardKeepsConsistent(minted, GetSteward(minted.stewards, id).(currentPatron := t.to, previousPatron := t.from));
    }
  }

  lemma OldTransferKeepsConsistent(l: Ledger, t: TransferEvent)
    requires Consistent(l)
    ensures Consistent(V1OldMapping.Transfer(l, t))
  {
    var minted := if t.from == ZERO_ADDRESS then ApplyMint(l, RESTORED_V1_STEWARD, t.block.timestamp) else l;
    if t.from == ZERO_ADDRESS {
      ApplyMintKeepsConsistent(l, RESTORED_V1_STEWARD, t.block.timestamp);
    }
    if t.to == OLD_V1_STEWARD {
      ApplyPreviousPatronKeepsConsistent(minted, RESTORED_V1_STEWARD, t.from);
    }
  }

  /** The accounting identity holds after any history of handled events. */
  lemma {:induction false} ReplayKeepsConsistent(l: Ledger, history: seq<Event>)
    requires Consistent(l)
    requires forall i :: 0 <= i < |history| ==> Handled(history[i])
    ensures Consistent(Replay(l, history))
    decreases |history|
  {
    if history != [] {
      StepKeepsConsistent(l, history[0]);
      ReplayKeepsConsistent(Step(l, history[0]), history[1..]);
    }
  }

  /** No handler deletes a record or lowers a collected amount. */
  lemma StepRetains(l: Ledger, ev: Event)
    requires WellKeyed(l) && Handled(ev)
    ensures Retains(l, Step(l, ev))
  {
    if FromV2(ev) {
      V2StepRetains(l, ev);
    } else if FromOld(ev) {
      OldStepRetains(l, ev);
    } else {
      RestoredStepRetains(l, ev);
    }
  }

  lemma V2StepRetains(l: Ledger, ev: Event)
    requires WellKeyed(l) && Handled(ev) && FromV2(ev)
    ensures Retains(l, Step(l, ev))
  {
    match ev
    case V2Collection(c, d, t, f) => V2CollectionRetains(l, c, d, t, f);
    case V2PriceChange(p) => ApplyPriceRetains(l, Canonical(p.steward), p.newPrice);
    case V2Buy(b, d, f) =>
      ApplyBuyRetains(l, Canonical(b.steward), b.owner, b.price, b.block.timestamp, d,
                      SetTo(V2Mapping.ForeclosureTimeOrSentinel(f)));
    case V2Foreclosure(f) =>
      if f.block.number != RESTORED_MINT_FORECLOSURE_BLOCK {
        ApplyPriceRetains(l, Canonical(f.steward), 0);
      }
    case V2Transfer(t) => V2TransferRetains(l, t);
  }

  lemma OldStepRetains(l: Ledger, ev: Event)
    requires WellKeyed(l) && FromOld(ev)
    ensures Retains(l, Step(l, ev))
  {
    match ev
    case OldCollection(c, d, t) => OldCollectionRetains(l, c, d, t);
    case OldPriceChange(p) => ApplyPriceRetains(l, Canonical(p.steward), p.newPrice);
    case OldBuy(b, d) => ApplyBuyRetains(l, Canonical(b.steward), b.owner, b.price, b.block.timestamp, d, Keep);
    case OldForeclosure(f) => ApplyPriceRetains(l, Canonical(f.steward), 0);
    case OldTransfer(t) => OldTransferRetains(l, t);
  }

  lemma RestoredStepRetains(l: Ledger, ev: Event)
    requires WellKeyed(l) && !FromV2(ev) && !FromOld(ev)
    ensures Retains(l, Step(l, ev))
  {
    match ev
    case RestoredCollection(c, d, t, f) => ApplyCollectionRetains(l, c.steward, c.collected, d, t, SetTo(f));
    case RestoredPriceChange(p) => ApplyPriceRetains(l, p.steward, p.newPrice);
    case RestoredBuy(b, d) => ApplyBuyRetains(l, b.steward, b.owner, b.price, b.block.timestamp, d, Keep);
    case RestoredForeclosure(f) =>
      if f.block.number != RESTORED_MINT_FORECLOSURE_BLOCK {
        ApplyPriceRetains(l, f.steward, 0);
      }
    case RestoredTransfer(t) =>
      if t.to == RESTORED_V1_STEWARD {
        ApplyPreviousPatronRetains(l, RESTORED_V1_STEWARD, t.from);
      }
  }

  lemma V2CollectionRetains(l: Ledger, c: CollectionEvent, deposit: nat, onTimeLastCollected: nat, foreclosureRead: Option<nat>)
    requires WellKeyed(l)
    ensures Retains(l, V2Mapping.Collection(l, c, deposit, onTimeLastCollected, foreclosureRead))
  {
    if !CollectionSuppressed(c) {
      ApplyCollectionRetains(l, Canonical(c.steward), c.collected, deposit, onTimeLastCollected,
                             SetTo(V2Mapping.ForeclosureTimeOrSentinel(foreclosureRead)));
    }
  }

  lemma OldCollectionRetains(l: Ledger, c: CollectionEvent, deposit: nat, onTimeLastCollected: nat)
    requires WellKeyed(l)
    ensures Retains(l, V1OldMapping.Collection(l, c, deposit, onTimeLastCollected))
  {
    if !CollectionSuppressed(c) {
      ApplyCollectionRetains(l, Canonical(c.steward), c.collected, deposit, onTimeLastCollected, Keep);
    }
  }

  lemma V2TransferRetains(l: Ledger, t: TransferEvent)
    requires WellKeyed(l) && V2Mapping.TransferHandled(t)
    ensures Retains(l, V2Mapping.Transfer(l, t))
  {
    var minted := if V2Mapping.IsMint(t) then ApplyMint(l, V2Mapping.ArtworkSteward(t.artwork).value, t.block.timestamp) else l;
    if V2Mapping.IsMint(t) {
      ApplyMintRetains(l, V2Mapping.ArtworkSteward(t.artwork).value, t.block.timestamp);
    }
    if V2Mapping.ToSteward(t) {
      var id := V2Mapping.ArtworkSteward(t.artwork).value;
      HandOverRetains(minted, id, t.to, t.from);
      RetainsTrans(l, minted, V2Mapping.HandOver(minted, id, t.to, t.from));
    }
  }

  /** Handing the artwork back to a steward contract touches no amount. */
  lemma HandOverRetains(l: Ledger, id: Address, to: Address, from: Address)
    requires WellKeyed(l)
    ensures Retains(l, V2Mapping.HandOver(l, id, to, from))
  {
  }

  lemma OldTransferRetains(l: Ledger, t: TransferEvent)
    requires WellKeyed(l)
    ensures Retains(l, V1OldMapping.Transfer(l, t))
  {
    var minted := if t.from == ZERO_ADDRESS then ApplyMint(l, RESTORED_V1_STEWARD, t.block.timestamp) else l;
    if t.from == ZERO_ADDRESS {
      ApplyMintRetains(l, RESTORED_V1_STEWARD, t.block.timestamp);
    }
    if t.to == OLD_V1_STEWARD {
      ApplyPreviousPatronRetains(minted, RESTORED_V1_STEWARD, t.from);
      RetainsTrans(l, minted, V1OldMapping.Transfer(l, t));
    }
  }

  /** Over any history of handled events no record disappears, and no
      steward's totalCollected and no relationship's collected goes down. */
  lemma {:induction false} ReplayRetains(l: Ledger, history: seq<Event>)
    requires WellKeyed(l)
    requires forall i :: 0 <= i < |history| ==> Handled(history[i])
    ensures Retains(l, Replay(l, history))
    decreases |history|
  {
    if history != [] {
      var next := Step(l, history[0]);
      StepRetains(l, history[0]);
      ReplayRetains(next, history[1..]);
      RetainsTrans(l, next, Replay(next, history[1..]));
    }
  }

  /** An event of the restored handlers does not come from the old
      steward contract. */
  predicate AvoidsOldSteward(ev: Event)
  {
    match ev
    case RestoredCollection(c, _, _, _) => c.steward != OLD_V1_STEWARD
    case RestoredPriceChange(p) => p.steward != OLD_V1_STEWARD
    case RestoredBuy(b, _) => b.steward != OLD_V1_STEWARD
    case RestoredForeclosure(f) => f.steward != OLD_V1_STEWARD
    case _ => true
  }

  /** No handler creates a steward record under the old v1 address. */
  lemma StepKeepsOldStewardOut(l: Ledger, ev: Event)
    requires WellKeyed(l) && Handled(ev) && AvoidsOldSteward(ev)
    ensures OLD_V1_STEWARD in Step(l, ev).stewards ==> OLD_V1_STEWARD in l.stewards
  {
  }

  /** The old and the restored v1 steward end up as one record: starting
      without a record under the old address, no history creates one. */
  lemma {:induction false} ReplayKeepsOldStewardOut(l: Ledger, history: seq<Event>)
    requires WellKeyed(l) && OLD_V1_STEWARD !in l.stewards
    requires forall i :: 0 <= i < |history| ==> Handled(history[i]) && AvoidsOldSteward(history[i])
    ensures OLD_V1_STEWARD !in Replay(l, history).stewards
    decreases |history|
  {
    if history != [] {
      StepKeepsOldStewardOut(l, history[0]);
      ReplayKeepsOldStewardOut(Step(l, history[0]), history[1..]);
    }
  }

  /** Before the restoration, an old v1 collection and a restored v1
      collection that reads back the stored foreclosureTime have the same
      effect: both credit the restored steward's records. */
  lemma OldCollectionMatchesRestored(l: Ledger, c: CollectionEvent, deposit: nat, onTimeLastCollected: nat)
    requires WellKeyed(l)
    requires c.block.number <= RESTORATION_BLOCK
    ensures V1OldMapping.Collection(l, c.(steward := OLD_V1_STEWARD), deposit, onTimeLastCollected)
         == V1RestoredMapping.Collection(l, c.(steward := RESTORED_V1_STEWARD), deposit, onTimeLastCollected,
                                         GetSteward(l.stewards, RESTORED_V1_STEWARD).foreclosureTime)
  {
    assert !CollectionSuppressed(c.(steward := OLD_V1_STEWARD));
    assert Canonical(OLD_V1_STEWARD) == RESTORED_V1_STEWARD;
    CollectionKeepsStoredForeclosureTime(l, RESTORED_V1_STEWARD, c.collected, deposit, onTimeLastCollected);
  }

  /** After the restoration, only the restored handler records a collection
      made through the old steward address: the v2 and old v1 handlers leave
      the ledger as it was. */
  lemma RestorationRecordsOnce(l: Ledger, c: CollectionEvent, deposit: nat, onTimeLastCollected: nat, foreclosureRead: Option<nat>)
    requires WellKeyed(l)
    requires c.steward == OLD_V1_STEWARD && c.block.number > RESTORATION_BLOCK
    ensures V2Mapping.Collection(l, c, deposit, onTimeLastCollected, foreclosureRead) == l
    ensures V1OldMapping.Collection(l, c, deposit, onTimeLastCollected) == l
  {
  }

  /** The v2 and old v1 collection handlers differ only in the
      foreclosureTime they store. */
  lemma V2AndOldCollectionsAgree(l: Ledger, c: CollectionEvent, deposit: nat, onTimeLastCollected: nat)
    requires WellKeyed(l)
    ensures V2Mapping.Collection(l, c, deposit, onTimeLastCollected,
                                 Some(GetSteward(l.stewards, Canonical(c.steward)).foreclosureTime))
         == V1OldMapping.Collection(l, c, deposit, onTimeLastCollected)
  {
    if !CollectionSuppressed(c) {
      CollectionKeepsStoredForeclosureTime(l, Canonical(c.steward), c.collected, deposit, onTimeLastCollected);
    }
  }
}
