/** Handlers of the Taiaos deployment. Its Steward record is leaner than the
    v1/v2 one: no previous patron, no totals, no foreclosure time, and a
    price and acquisition time that stay unset until the first buy. A
    collection always credits the current patron and takes the time held
    from the contract instead of accumulating it. */
module TaiaosMapping {
  import opened Entities

  datatype TaiaosSteward = TaiaosSteward(
    id: Address,
    currentPatron: Address,
    currentDeposit: nat,
    currentPrice: Option<nat>,
    timeAcquired: Option<nat>,
    timeLastCollected: nat)

  datatype TaiaosLedger = TaiaosLedger(
    stewards: map<Address, TaiaosSteward>,
    patrons: map<Address, Patron>,
    patronStewards: map<string, PatronSteward>)

  /** Every record sits under its own id, and a relationship under the key
      of its patron and steward. */
  ghost predicate WellKeyed(l: TaiaosLedger)
  {
    && (forall a :: a in l.stewards ==> l.stewards[a].id == a)
    && (forall a :: a in l.patrons ==> l.patrons[a].id == a)
    && KeyedByPair(l.patronStewards)
  }

  /** Everything a ledger held is still there, and no relationship's
      collected amount went down. */
  ghost predicate Retains(l: TaiaosLedger, r: TaiaosLedger)
  {
    && l.stewards.Keys <= r.stewards.Keys
    && l.patrons.Keys <= r.patrons.Keys
    && (forall k :: k in l.patronStewards ==>
          k in r.patronStewards && r.patronStewards[k].collected >= l.patronStewards[k].collected)
  }

  /** getSteward: a missing steward is self-held with no deposit and no
      collection yet; its price and acquisition time are unset. */
  function GetSteward(stewards: map<Address, TaiaosSteward>, id: Address): (s: TaiaosSteward)
    ensures id in stewards ==> s == stewards[id]
    ensures id !in stewards ==>
      && s.id == id && s.currentPatron == id && s.currentDeposit == 0 && s.timeLastCollected == 0
      && s.currentPrice.None? && s.timeAcquired.None?
  {
    if id in stewards then stewards[id] else TaiaosSteward(id, id, 0, None, None, 0)
  }

  function SaveSteward(l: TaiaosLedger, s: TaiaosSteward): TaiaosLedger
  {
    l.(stewards := l.stewards[s.id := s])
  }

  function SavePatron(l: TaiaosLedger, p: Patron): TaiaosLedger
  {
    l.(patrons := l.patrons[p.id := p])
  }

  function SavePatronSteward(l: TaiaosLedger, ps: PatronSteward): TaiaosLedger
  {
    l.(patronStewards := l.patronStewards[ps.id := ps])
  }

  /** handleCollect. The on-chain reads are deposit() and timeHeld() of the
      current patron. The current patron's relationship collects the amount
      and takes the read time held; the steward takes the read deposit and
      the block time as its last collection. */
  function Collect(l: TaiaosLedger, e: CollectionEvent, deposit: nat, timeHeld: nat): (r: TaiaosLedger)
    requires WellKeyed(l)
    ensures WellKeyed(r)
    ensures Retains(l, r)
    ensures
      var s := GetSteward(l.stewards, e.steward);
      var key := PsKey(s.currentPatron, e.steward);
      && r.patrons == l.patrons
      && OnlyChangedAt(l.stewards, r.stewards, e.steward)
      && r.stewards[e.steward] == s.(currentDeposit := deposit, timeLastCollected := e.block.timestamp)
      && OnlyChangedAt(l.patronStewards, r.patronStewards, key)
      && r.patronStewards[key].collected == GetPatronSteward(l.patronStewards, s.currentPatron, e.steward).collected + e.collected
      && r.patronStewards[key].timeHeld == timeHeld
      && r.patronStewards[key].patron == s.currentPatron
  {
    var s := GetSteward(l.stewards, e.steward);
    RelationLookup(l.patronStewards, s.currentPatron, e.steward);
    var ps := GetPatronSteward(l.patronStewards, s.currentPatron, e.steward);
    var ps' := ps.(collected := ps.collected + e.collected, timeHeld := timeHeld);
    var s' := s.(currentDeposit := deposit, timeLastCollected := e.block.timestamp);
    SavePatronSteward(SaveSteward(l, s'), ps')
  }

  /** handlePriceChange: the steward's price is set and nothing else
      changes. */
  function PriceChange(l: TaiaosLedger, e: PriceChangeEvent): (r: TaiaosLedger)
    requires WellKeyed(l)
    ensures WellKeyed(r)
    ensures Retains(l, r)
    ensures r.patrons == l.patrons && r.patronStewards == l.patronStewards
    ensures OnlyChangedAt(l.stewards, r.stewards, e.steward)
    ensures r.stewards[e.steward] == GetSteward(l.stewards, e.steward).(currentPrice := Some(e.newPrice))
  {
    SaveSteward(l, GetSteward(l.stewards, e.steward).(currentPrice := Some(e.newPrice)))
  }

  /** handleBuy. The on-chain read is deposit(). The buyer becomes the
      current patron at the bought price, and its relationship exists; the
      last collection time stays, and no patron record is written. */
  function Buy(l: TaiaosLedger, e: BuyEvent, deposit: nat): (r: TaiaosLedger)
    requires WellKeyed(l)
    ensures WellKeyed(r)
    ensures Retains(l, r)
    ensures
      var s := GetSteward(l.stewards, e.steward);
      && r.patrons == l.patrons
      && OnlyChangedAt(l.stewards, r.stewards, e.steward)
      && r.stewards[e.steward].currentPatron == e.owner
      && r.stewards[e.steward].currentPrice == Some(e.price)
      && r.stewards[e.steward].timeAcquired == Some(e.block.timestamp)
      && r.stewards[e.steward].currentDeposit == deposit
      && r.stewards[e.steward].timeLastCollected == s.timeLastCollected
      && r.patronStewards == l.patronStewards[PsKey(e.owner, e.steward) := GetPatronSteward(l.patronStewards, e.owner, e.steward)]
  {
    var s := GetSteward(l.stewards, e.steward);
    var s' := s.(currentPrice := Some(e.price), currentPatron := e.owner, timeAcquired := Some(e.block.timestamp),
                 currentDeposit := deposit);
    SavePatronSteward(SaveSteward(l, s'), GetPatronSteward(l.patronStewards, e.owner, e.steward))
  }

  /** handleForeclosure. The on-chain read is timeHeld() of the previous
      owner. The previous owner's relationship takes the read time held and
      the steward becomes self-held again; its price is left as it was. */
  function Foreclosure(l: TaiaosLedger, e: ForeclosureEvent, timeHeld: nat): (r: TaiaosLedger)
    requires WellKeyed(l)
    ensures WellKeyed(r)
    ensures Retains(l, r)
    ensures
      var key := PsKey(e.prevOwner, e.steward);
      var previous := GetPatronSteward(l.patronStewards, e.prevOwner, e.steward);
      && r.patrons == l.patrons
      && OnlyChangedAt(l.stewards, r.stewards, e.steward)
      && r.stewards[e.steward] == GetSteward(l.stewards, e.steward).(currentPatron := e.steward)
      && r.patronStewards == l.patronStewards[key := previous.(timeHeld := timeHeld)]
  {
    RelationLookup(l.patronStewards, e.prevOwner, e.steward);
    var previous := GetPatronSteward(l.patronStewards, e.prevOwner, e.steward);
    var s := GetSteward(l.stewards, e.steward);
    SaveSteward(SavePatronSteward(l, previous.(timeHeld := timeHeld)), s.(currentPatron := e.steward))
  }

  /** handleMint: a transfer from the zero address creates the steward, the
      patron and the self relationship under the receiving address (the
      first transfer of each edition goes to its steward) and stamps the
      block time as the last collection; any other transfer changes
      nothing. */
  function Mint(l: TaiaosLedger, e: TransferEvent): (r: TaiaosLedger)
    requires WellKeyed(l)
    ensures WellKeyed(r)
    ensures Retains(l, r)
    ensures e.from != ZERO_ADDRESS ==> r == l
    ensures e.from == ZERO_ADDRESS ==>
      && r.patrons == l.patrons[e.to := Patron(e.to)]
      && OnlyChangedAt(l.stewards, r.stewards, e.to)
      && r.stewards[e.to] == GetSteward(l.stewards, e.to).(timeLastCollected := e.block.timestamp)
      && r.patronStewards == l.patronStewards[PsKey(e.to, e.to) := GetPatronSteward(l.patronStewards, e.to, e.to)]
  {
    if e.from == ZERO_ADDRESS then
      var s := GetSteward(l.stewards, e.to).(timeLastCollected := e.block.timestamp);
      SavePatronSteward(SavePatron(SaveSteward(l, s), GetPatron(l.patrons, e.to)),
                        GetPatronSteward(l.patronStewards, e.to, e.to))
    else l
  }

  /** After a foreclosure, collections on that steward go to the steward's
      own relationship: there is no price-based routing here. */
  lemma ForeclosureThenCollectCreditsSelf(l: TaiaosLedger, f: ForeclosureEvent, c: CollectionEvent,
                                          timeHeldBefore: nat, deposit: nat, timeHeldAfter: nat)
    requires WellKeyed(l) && f.steward == c.steward
    ensures
      var foreclosed := Foreclosure(l, f, timeHeldBefore);
      var r := Collect(foreclosed, c, deposit, timeHeldAfter);
      && PsKey(c.steward, c.steward) in r.patronStewards
      && r.patronStewards[PsKey(c.steward, c.steward)].collected
         == GetPatronSteward(foreclosed.patronStewards, c.steward, c.steward).collected + c.collected
  {
    var foreclosed := Foreclosure(l, f, timeHeldBefore);
    assert GetSteward(foreclosed.stewards, c.steward).currentPatron == c.steward;
  }

  /** Two collections in a row on one steward: the relationship's collected
      amounts add up, while its time held is the last read value. */
  lemma CollectTwiceAccumulatesCollectedOnly(l: TaiaosLedger, c1: CollectionEvent, c2: CollectionEvent,
                                             deposit1: nat, timeHeld1: nat, deposit2: nat, timeHeld2: nat)
    requires WellKeyed(l) && c1.steward == c2.steward
    ensures
      var patron := GetSteward(l.stewards, c1.steward).currentPatron;
      var key := PsKey(patron, c1.steward);
      var r := Collect(Collect(l, c1, deposit1, timeHeld1), c2, deposit2, timeHeld2);
      && key in r.patronStewards
      && r.patronStewards[key].collected
         == GetPatronSteward(l.patronStewards, patron, c1.steward).collected + c1.collected + c2.collected
      && r.patronStewards[key].timeHeld == timeHeld2
  {
    var mid := Collect(l, c1, deposit1, timeHeld1);
    assert GetSteward(mid.stewards, c2.steward).currentPatron == GetSteward(l.stewards, c1.steward).currentPatron;
  }

  /** Retaining is transitive. */
  lemma RetainsTrans(a: TaiaosLedger, b: TaiaosLedger, c: TaiaosLedger)
    requires Retains(a, b) && Retains(b, c)
    ensures Retains(a, c)
  {
  }

  /** One Taiaos event together with the on-chain values its handler
      reads. */
  datatype TaiaosEvent =
    | CollectOf(collection: CollectionEvent, deposit: nat, timeHeld: nat)
    | PriceChangeOf(priceChange: PriceChangeEvent)
    | BuyOf(buy: BuyEvent, buyDeposit: nat)
    | ForeclosureOf(foreclosure: ForeclosureEvent, finalTimeHeld: nat)
    | MintOf(transfer: TransferEvent)

  function Step(l: TaiaosLedger, ev: TaiaosEvent): (r: TaiaosLedger)
    requires WellKeyed(l)
    ensures WellKeyed(r) && Retains(l, r)
  {
    match ev
    case CollectOf(c, d, t) => Collect(l, c, d, t)
    case PriceChangeOf(p) => PriceChange(l, p)
    case BuyOf(b, d) => Buy(l, b, d)
    case ForeclosureOf(f, t) => Foreclosure(l, f, t)
    case MintOf(t) => Mint(l, t)
  }

  /** The handlers applied to a history of events in order. */
  function Replay(l: TaiaosLedger, history: seq<TaiaosEvent>): (r: TaiaosLedger)
    requires WellKeyed(l)
    ensures WellKeyed(r)
    decreases |history|
  {
    if history == [] then l else Replay(Step(l, history[0]), history[1..])
  }

  /** No history of events loses a record or lowers any relationship's
      collected amount. */
  lemma {:induction false} ReplayRetains(l: TaiaosLedger, history: seq<TaiaosEvent>)
    requires WellKeyed(l)
    ensures Retains(l, Replay(l, history))
    decreases |history|
  {
    if history != [] {
      var next := Step(l, history[0]);
      ReplayRetains(next, history[1..]);
      RetainsTrans(l, next, Replay(next, history[1..]));
    }
  }

  /** The Taiaos entity store. */
  class TaiaosStore {
    var stewards: map<Address, TaiaosSteward>
    var patrons: map<Address, Patron>
    var patronStewards: map<string, PatronSteward>

    function State(): TaiaosLedger
      reads this
    {
      TaiaosLedger(stewards, patrons, patronStewards)
    }

    ghost predicate Valid()
      reads this
    {
      WellKeyed(State())
    }

    constructor ()
      ensures Valid()
      ensures stewards == map[] && patrons == map[] && patronStewards == map[]
    {
      stewards, patrons, patronStewards := map[], map[], map[];
    }

    // The Put methods are the records' save(): like save(), they keep no
    // invariant of their own; each handler restores Valid() once its saves
    // are done.

    method PutSteward(s: TaiaosSteward)
      modifies this
      ensures State() == SaveSteward(old(State()), s)
    {
      stewards := stewards[s.id := s];
    }

    method PutPatron(p: Patron)
      modifies this
      ensures State() == SavePatron(old(State()), p)
    {
      patrons := patrons[p.id := p];
    }

    method PutPatronSteward(ps: PatronSteward)
      modifies this
      ensures State() == SavePatronSteward(old(State()), ps)
    {
      patronStewards := patronStewards[ps.id := ps];
    }
  }

  method HandleCollect(store: TaiaosStore, e: CollectionEvent, deposit: nat, timeHeld: nat)
    requires store.Valid()
    modifies store
    ensures store.Valid()
    ensures store.State() == Collect(old(store.State()), e, deposit, timeHeld)
  {
    var steward := GetSteward(store.stewards, e.steward);
    var currentPatronAddress := steward.currentPatron;
    var ps := GetPatronSteward(store.patronStewards, currentPatronAddress, e.steward);
    ps := ps.(collected := ps.collected + e.collected);
    ps := ps.(timeHeld := timeHeld);
    steward := steward.(currentDeposit := deposit);
    steward := steward.(timeLastCollected := e.block.timestamp);
    store.PutSteward(steward);
    store.PutPatronSteward(ps);
  }

  method HandlePriceChange(store: TaiaosStore, e: PriceChangeEvent)
    requires store.Valid()
    modifies store
    ensures store.Valid()
    ensures store.State() == PriceChange(old(store.State()), e)
  {
    var steward := GetSteward(store.stewards, e.steward);
    steward := steward.(currentPrice := Some(e.newPrice));
    store.PutSteward(steward);
  }

  method HandleBuy(store: TaiaosStore, e: BuyEvent, deposit: nat)
    requires store.Valid()
    modifies store
    ensures store.Valid()
    ensures store.State() == Buy(old(store.State()), e, deposit)
  {
    var steward := GetSteward(store.stewards, e.steward);
    steward := steward.(currentPrice := Some(e.price));
    steward := steward.(currentPatron := e.owner);
    steward := steward.(timeAcquired := Some(e.block.timestamp));
    steward := steward.(currentDeposit := deposit);
    var ps := GetPatronSteward(store.patronStewards, e.owner, e.steward);
    store.PutSteward(steward);
    store.PutPatronSteward(ps);
  }

  method HandleForeclosure(store: TaiaosStore, e: ForeclosureEvent, timeHeld: nat)
    requires store.Valid()
    modifies store
    ensures store.Valid()
    ensures store.State() == Foreclosure(old(store.State()), e, timeHeld)
  {
    var steward := GetSteward(store.stewards, e.steward);
    var previousPS := GetPatronSteward(store.patronStewards, e.prevOwner, e.steward);
    previousPS := previousPS.(timeHeld := timeHeld);
    steward := steward.(currentPatron := e.steward);
    store.PutPatronSteward(previousPS);
    store.PutSteward(steward);
  }

  method HandleMint(store: TaiaosStore, e: TransferEvent)
    requires store.Valid()
    modifies store
    ensures store.Valid()
    ensures store.State() == Mint(old(store.State()), e)
  {
    if e.from == ZERO_ADDRESS {
      var steward := GetSteward(store.stewards, e.to);
      steward := steward.(timeLastCollected := e.block.timestamp);
      var patron := GetPatron(store.patrons, e.to);
      var patronSteward := GetPatronSteward(store.patronStewards, e.to, e.to);
      store.PutSteward(steward);
      store.PutPatron(patron);
      store.PutPatronSteward(patronSteward);
    }
  }
}
