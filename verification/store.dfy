/** The ledger the reducers read and write: three maps of records keyed by
    string ids, the invariants every reduction keeps (records stored under
    their own ids; a steward's totalCollected is the sum of what its
    relationships collected), the reductions shared by several contract
    generations, and the store object the handlers update in place. */
module Store {
  import opened Entities

  datatype Ledger = Ledger(
    stewards: map<Address, Steward>,
    patrons: map<Address, Patron>,
    patronStewards: map<string, PatronSteward>)

  /** Every record sits under its own id, every relationship under
      `patron + steward`, and every relationship names a recorded steward. */
  ghost predicate WellKeyed(l: Ledger)
  {
    && (forall a :: a in l.stewards ==> l.stewards[a].id == a)
    && (forall a :: a in l.patrons ==> l.patrons[a].id == a)
    && (forall k :: k in l.patronStewards ==>
          && l.patronStewards[k].id == k
          && k == PsKey(l.patronStewards[k].patron, l.patronStewards[k].steward)
          && l.patronStewards[k].steward in l.stewards)
  }

  /** What one relationship contributes to the total of steward `a`. */
  function Share(ps: PatronSteward, a: Address): nat
  {
    if ps.steward == a then ps.collected else 0
  }

  /** The sum of `collected` over the relationships of steward `a`. */
  ghost function CollectedFor(patronStewards: map<string, PatronSteward>, a: Address): nat
    decreases |patronStewards|
  {
    if patronStewards == map[] then 0
    else
      var k :| k in patronStewards;
      assert |patronStewards - {k}| < |patronStewards| by {
        assert (patronStewards - {k}).Keys == patronStewards.Keys - {k};
      }
      Share(patronStewards[k], a) + CollectedFor(patronStewards - {k}, a)
  }

  /** The accounting identity: each steward's totalCollected is what its
      relationships collected. */
  ghost predicate Balanced(l: Ledger)
  {
    forall a :: a in l.stewards ==> l.stewards[a].totalCollected == CollectedFor(l.patronStewards, a)
  }

  ghost predicate Consistent(l: Ledger)
  {
    WellKeyed(l) && Balanced(l)
  }

  /** Records are only ever added: everything `l` held is still in `r`, and
      no steward's totalCollected and no relationship's collected went
      down. */
  ghost predicate Retains(l: Ledger, r: Ledger)
  {
    && l.patrons.Keys <= r.patrons.Keys
    && (forall a :: a in l.stewards ==>
          a in r.stewards && r.stewards[a].totalCollected >= l.stewards[a].totalCollected)
    && (forall k :: k in l.patronStewards ==>
          k in r.patronStewards && r.patronStewards[k].collected >= l.patronStewards[k].collected)
  }

  /** Retaining composes. */
  lemma RetainsTrans(a: Ledger, b: Ledger, c: Ledger)
    requires Retains(a, b) && Retains(b, c)
    ensures Retains(a, c)
  {
  }

  /** The sum does not depend on the order in which records are visited:
      any one record can be taken out first. */
  lemma {:induction false} CollectedForRemove(patronStewards: map<string, PatronSteward>, k: string, a: Address)
    requires k in patronStewards
    ensures CollectedFor(patronStewards, a) == Share(patronStewards[k], a) + CollectedFor(patronStewards - {k}, a)
    decreases |patronStewards|
  {
    var j :| j in patronStewards && CollectedFor(patronStewards, a) == Share(patronStewards[j], a) + CollectedFor(patronStewards - {j}, a);
    if j != k {
      var rest := patronStewards - {j} - {k};
      assert (patronStewards - {j}).Keys == patronStewards.Keys - {j};
      assert (patronStewards - {k}).Keys == patronStewards.Keys - {k};
      CollectedForRemove(patronStewards - {j}, k, a);
      CollectedForRemove(patronStewards - {k}, j, a);
      assert patronStewards - {k} - {j} == rest;
    }
  }

  /** Storing a relationship under `k` replaces whatever `k` contributed. */
  lemma CollectedForPut(patronStewards: map<string, PatronSteward>, k: string, ps: PatronSteward, a: Address)
    ensures CollectedFor(patronStewards[k := ps], a) == Share(ps, a) + CollectedFor(patronStewards - {k}, a)
  {
    CollectedForRemove(patronStewards[k := ps], k, a);
    assert patronStewards[k := ps] - {k} == patronStewards - {k};
  }

  /** A steward no relationship refers to has collected nothing. */
  lemma {:induction false} CollectedForUnreferenced(patronStewards: map<string, PatronSteward>, a: Address)
    requires forall k :: k in patronStewards ==> patronStewards[k].steward != a
    ensures CollectedFor(patronStewards, a) == 0
    decreases |patronStewards|
  {
    if patronStewards != map[] {
      var k :| k in patronStewards;
      assert (patronStewards - {k}).Keys == patronStewards.Keys - {k};
      CollectedForRemove(patronStewards, k, a);
      CollectedForUnreferenced(patronStewards - {k}, a);
    }
  }

  /** steward.save(): a steward record replaces the one under its id. */
  function SaveSteward(l: Ledger, s: Steward): Ledger
  {
    l.(stewards := l.stewards[s.id := s])
  }

  /** patron.save() */
  function SavePatron(l: Ledger, p: Patron): Ledger
  {
    l.(patrons := l.patrons[p.id := p])
  }

  /** ps.save() */
  function SavePatronSteward(l: Ledger, ps: PatronSteward): Ledger
  {
    l.(patronStewards := l.patronStewards[ps.id := ps])
  }

  /** Saving a steward whose totalCollected is untouched keeps the ledger
      consistent, also when the steward is new. */
  lemma SaveStewardKeepsConsistent(l: Ledger, s: Steward)
    requires Consistent(l)
    requires s.totalCollected == GetSteward(l.stewards, s.id).totalCollected
    ensures Consistent(SaveSteward(l, s))
  {
    if s.id !in l.stewards {
      CollectedForUnreferenced(l.patronStewards, s.id);
    }
  }

  lemma SavePatronKeepsConsistent(l: Ledger, p: Address)
    requires Consistent(l)
    ensures Consistent(SavePatron(l, GetPatron(l.patrons, p)))
  {
  }

  /** Making sure a relationship exists keeps the ledger consistent: an
      existing record is written back unchanged, a new one collected
      nothing. */
  lemma EnsureRelationKeepsConsistent(l: Ledger, patron: Address, steward: Address)
    requires Consistent(l) && steward in l.stewards
    ensures Consistent(SavePatronSteward(l, GetPatronSteward(l.patronStewards, patron, steward)))
  {
    var key := PsKey(patron, steward);
    var ps := GetPatronSteward(l.patronStewards, patron, steward);
    if key in l.patronStewards {
      assert l.patronStewards[key := ps] == l.patronStewards;
    } else {
      forall a | a in l.stewards
        ensures CollectedFor(l.patronStewards[key := ps], a) == CollectedFor(l.patronStewards, a)
      {
        CollectedForPut(l.patronStewards, key, ps, a);
        assert l.patronStewards - {key} == l.patronStewards;
      }
    }
  }

  /** How a handler treats the steward's foreclosureTime when it refreshes
      the on-chain state. */
  datatype ForeclosureUpdate = Keep | SetTo(time: nat)

  function Updated(fu: ForeclosureUpdate, current: nat): nat
  {
    match fu
    case Keep => current
    case SetTo(t) => t
  }

  /** updateTimeHeldAndDeposit: the relationship is credited with the time
      between the recorded and the freshly read timeLastCollected, and the
      steward takes the read timeLastCollected and deposit. */
  function UpdateTimeHeldAndDeposit(s: Steward, ps: PatronSteward, deposit: nat, onTimeLastCollected: nat, fu: ForeclosureUpdate): (r: (Steward, PatronSteward))
    ensures r.1.timeHeld - ps.timeHeld == onTimeLastCollected - s.timeLastCollected
    ensures r.1 == ps.(timeHeld := r.1.timeHeld)
    ensures r.0.timeLastCollected == onTimeLastCollected && r.0.currentDeposit == deposit
    ensures fu.Keep? ==> r.0.foreclosureTime == s.foreclosureTime
    ensures fu.SetTo? ==> r.0.foreclosureTime == fu.time
    ensures r.0 == s.(timeLastCollected := r.0.timeLastCollected, currentDeposit := r.0.currentDeposit, foreclosureTime := r.0.foreclosureTime)
  {
    var newTimeHeld := ps.timeHeld + (onTimeLastCollected - s.timeLastCollected);
    (s.(timeLastCollected := onTimeLastCollected, currentDeposit := deposit, foreclosureTime := Updated(fu, s.foreclosureTime)),
     ps.(timeHeld := newTimeHeld))
  }

  /** Who a collection on steward `s` is credited to: the current patron
      while the steward is priced, the previous patron once a foreclosure
      has set the price to zero. */
  function Holder(s: Steward): (holder: Address)
    ensures s.currentPrice != 0 ==> holder == s.currentPatron
    ensures s.currentPrice == 0 ==> holder == s.previousPatron
  {
    if s.currentPrice != 0 then s.currentPatron else s.previousPatron
  }

  /** handleCollection after the steward is chosen: route to the holder's
      relationship, apply updateTimeHeldAndDeposit, and add the collected
      amount to both the relationship and the steward. */
  function ApplyCollection(l: Ledger, id: Address, amount: nat, deposit: nat, onTimeLastCollected: nat, fu: ForeclosureUpdate): (r: Ledger)
    requires WellKeyed(l)
    ensures WellKeyed(r)
  {
    var s := GetSteward(l.stewards, id);
    RelationLookup(l.patronStewards, Holder(s), s.id);
    var ps := GetPatronSteward(l.patronStewards, Holder(s), s.id);
    var updated := UpdateTimeHeldAndDeposit(s, ps, deposit, onTimeLastCollected, fu);
    var ps' := updated.1.(collected := updated.1.collected + amount);
    var s' := updated.0.(totalCollected := updated.0.totalCollected + amount);
    SavePatronSteward(SaveSteward(l, s'), ps')
  }

  /** A collection that keeps the foreclosureTime equals one that writes
      back the stored foreclosureTime. */
  lemma CollectionKeepsStoredForeclosureTime(l: Ledger, id: Address, amount: nat, deposit: nat, onTimeLastCollected: nat)
    requires WellKeyed(l)
    ensures ApplyCollection(l, id, amount, deposit, onTimeLastCollected, Keep)
         == ApplyCollection(l, id, amount, deposit, onTimeLastCollected, SetTo(GetSteward(l.stewards, id).foreclosureTime))
  {
    var s := GetSteward(l.stewards, id);
    var ps := GetPatronSteward(l.patronStewards, Holder(s), s.id);
    assert UpdateTimeHeldAndDeposit(s, ps, deposit, onTimeLastCollected, Keep)
        == UpdateTimeHeldAndDeposit(s, ps, deposit, onTimeLastCollected, SetTo(s.foreclosureTime));
  }

  /** What a collection does: the steward's totalCollected and the credited
      relationship's collected grow by the same amount; the relationship is
      the current patron's while the steward is priced and the previous
      patron's once a foreclosure set the price to zero; its time held grows
      by the distance between the read and the recorded timeLastCollected;
      the steward takes the read timeLastCollected, deposit and (as the
      handler decides) foreclosureTime; nothing else changes. */
  lemma ApplyCollectionEffect(l: Ledger, id: Address, amount: nat, deposit: nat, onTimeLastCollected: nat, fu: ForeclosureUpdate)
    requires WellKeyed(l)
    ensures
      var r := ApplyCollection(l, id, amount, deposit, onTimeLastCollected, fu);
      var s := GetSteward(l.stewards, id);
      var holder := if s.currentPrice != 0 then s.currentPatron else s.previousPatron;
      var ps := GetPatronSteward(l.patronStewards, holder, id);
      && r.patrons == l.patrons
      && OnlyChangedAt(l.stewards, r.stewards, id)
      && OnlyChangedAt(l.patronStewards, r.patronStewards, PsKey(holder, id))
      && r.stewards[id].totalCollected == s.totalCollected + amount
      && r.patronStewards[PsKey(holder, id)].collected == ps.collected + amount
      && r.patronStewards[PsKey(holder, id)].timeHeld == ps.timeHeld + (onTimeLastCollected - s.timeLastCollected)
      && r.patronStewards[PsKey(holder, id)].patron == holder
      && r.patronStewards[PsKey(holder, id)].steward == id
      && r.stewards[id].timeLastCollected == onTimeLastCollected
      && r.stewards[id].currentDeposit == deposit
      && r.stewards[id].foreclosureTime == Updated(fu, s.foreclosureTime)
      && r.stewards[id] == s.(totalCollected := r.stewards[id].totalCollected,
                              timeLastCollected := onTimeLastCollected, currentDeposit := deposit,
                              foreclosureTime := r.stewards[id].foreclosureTime)
  {
    var s := GetSteward(l.stewards, id);
    RelationLookup(l.patronStewards, Holder(s), id);
  }

  /** ApplyCollection spelled out as the handlers perform it: load, refresh,
      credit, save. */
  lemma ApplyCollectionSteps(l: Ledger, id: Address, amount: nat, deposit: nat, onTimeLastCollected: nat, fu: ForeclosureUpdate,
                             s: Steward, ps: PatronSteward, s': Steward, ps': PatronSteward)
    requires WellKeyed(l)
    requires s == GetSteward(l.stewards, id)
    requires ps == GetPatronSteward(l.patronStewards, Holder(s), s.id)
    requires var refreshed := UpdateTimeHeldAndDeposit(s, ps, deposit, onTimeLastCollected, fu);
      && s' == refreshed.0.(totalCollected := refreshed.0.totalCollected + amount)
      && ps' == refreshed.1.(collected := refreshed.1.collected + amount)
    ensures ApplyCollection(l, id, amount, deposit, onTimeLastCollected, fu) == SavePatronSteward(SaveSteward(l, s'), ps')
  {
  }

  /** A collection credits the same amount to the steward and to exactly
      one of its relationships, so the accounting identity survives. */
  lemma ApplyCollectionKeepsConsistent(l: Ledger, id: Address, amount: nat, deposit: nat, onTimeLastCollected: nat, fu: ForeclosureUpdate)
    requires Consistent(l)
    ensures Consistent(ApplyCollection(l, id, amount, deposit, onTimeLastCollected, fu))
  {
    var r := ApplyCollection(l, id, amount, deposit, onTimeLastCollected, fu);
    var s := GetSteward(l.stewards, id);
    var key := PsKey(Holder(s), id);
    RelationLookup(l.patronStewards, Holder(s), id);
    var ps := GetPatronSteward(l.patronStewards, Holder(s), id);
    var ps' := r.patronStewards[key];
    assert r.patronStewards == l.patronStewards[key := ps'];
    if id !in l.stewards {
      CollectedForUnreferenced(l.patronStewards, id);
    }
    forall a | a in r.stewards
      ensures r.stewards[a].totalCollected == CollectedFor(r.patronStewards, a)
    {
      CollectedForReplace(l.patronStewards, key, ps', a);
    }
  }

  /** Replacing the record under `key` changes the sum by the difference of
      the two records' shares. */
  lemma CollectedForReplace(patronStewards: map<string, PatronSteward>, key: string, ps: PatronSteward, a: Address)
    ensures CollectedFor(patronStewards[key := ps], a) + (if key in patronStewards then Share(patronStewards[key], a) else 0)
         == CollectedFor(patronStewards, a) + Share(ps, a)
  {
    CollectedForPut(patronStewards, key, ps, a);
    if key in patronStewards {
      CollectedForRemove(patronStewards, key, a);
    } else {
      assert patronStewards - {key} == patronStewards;
    }
  }

  /** handleBuy of the v1 and v2 handlers: the buyer becomes the priced
      current patron from the event's timestamp, the deposit is refreshed,
      the buyer's patron record and relationship exist afterwards, and the
      previous patron and the collected total are untouched. */
  function ApplyBuy(l: Ledger, id: Address, owner: Address, price: nat, timestamp: nat, deposit: nat, fu: ForeclosureUpdate): (r: Ledger)
    requires WellKeyed(l)
    ensures WellKeyed(r)
    ensures r.patrons == l.patrons[owner := Patron(owner)]
    ensures OnlyChangedAt(l.stewards, r.stewards, id)
    ensures
      var s, s' := GetSteward(l.stewards, id), r.stewards[id];
      && s'.currentPrice == price && s'.currentPatron == owner
      && s'.timeAcquired == timestamp && s'.timeLastCollected == timestamp
      && s'.currentDeposit == deposit && s'.foreclosureTime == Updated(fu, s.foreclosureTime)
      && s'.id == id && s'.previousPatron == s.previousPatron && s'.totalCollected == s.totalCollected
    ensures PsKey(owner, id) in r.patronStewards
    ensures r.patronStewards == l.patronStewards[PsKey(owner, id) := GetPatronSteward(l.patronStewards, owner, id)]
  {
    var s := GetSteward(l.stewards, id);
    var patron := GetPatron(l.patrons, owner);
    var s' := s.(currentPrice := price, currentPatron := owner, timeAcquired := timestamp,
                 timeLastCollected := timestamp, currentDeposit := deposit,
                 foreclosureTime := Updated(fu, s.foreclosureTime));
    var ps := GetPatronSteward(l.patronStewards, owner, id);
    SavePatronSteward(SaveSteward(SavePatron(l, patron), s'), ps)
  }

  lemma ApplyBuyKeepsConsistent(l: Ledger, id: Address, owner: Address, price: nat, timestamp: nat, deposit: nat, fu: ForeclosureUpdate)
    requires Consistent(l)
    ensures Consistent(ApplyBuy(l, id, owner, price, timestamp, deposit, fu))
  {
    var s := GetSteward(l.stewards, id);
    var s' := s.(currentPrice := price, currentPatron := owner, timeAcquired := timestamp,
                 timeLastCollected := timestamp, currentDeposit := deposit,
                 foreclosureTime := Updated(fu, s.foreclosureTime));
    var l1 := SavePatron(l, GetPatron(l.patrons, owner));
    SavePatronKeepsConsistent(l, owner);
    SaveStewardKeepsConsistent(l1, s');
    var l2 := SaveSteward(l1, s');
    EnsureRelationKeepsConsistent(l2, owner, id);
  }

  /** handlePriceChange, and handleForeclosure with price zero: only the
      steward's price changes (the steward is created if missing). */
  function ApplyPrice(l: Ledger, id: Address, price: nat): (r: Ledger)
    requires WellKeyed(l)
    ensures WellKeyed(r)
    ensures r.patrons == l.patrons && r.patronStewards == l.patronStewards
    ensures OnlyChangedAt(l.stewards, r.stewards, id)
    ensures r.stewards[id] == GetSteward(l.stewards, id).(currentPrice := price)
  {
    var s := GetSteward(l.stewards, id);
    SaveSteward(l, s.(currentPrice := price))
  }

  lemma ApplyPriceKeepsConsistent(l: Ledger, id: Address, price: nat)
    requires Consistent(l)
    ensures Consistent(ApplyPrice(l, id, price))
  {
    SaveStewardKeepsConsistent(l, GetSteward(l.stewards, id).(currentPrice := price));
  }

  /** The mint branch of handleMint: the steward is its own first patron,
      with a self relationship, and its collection baseline is the mint's
      timestamp. */
  function ApplyMint(l: Ledger, id: Address, timestamp: nat): (r: Ledger)
    requires WellKeyed(l)
    ensures WellKeyed(r)
    ensures r.patrons == l.patrons[id := Patron(id)]
    ensures OnlyChangedAt(l.stewards, r.stewards, id)
    ensures r.stewards[id] == GetSteward(l.stewards, id).(timeLastCollected := timestamp)
    ensures PsKey(id, id) in r.patronStewards
    ensures r.patronStewards == l.patronStewards[PsKey(id, id) := GetPatronSteward(l.patronStewards, id, id)]
  {
    var s := GetSteward(l.stewards, id).(timeLastCollected := timestamp);
    var patron := GetPatron(l.patrons, id);
    var ps := GetPatronSteward(l.patronStewards, id, id);
    SavePatronSteward(SavePatron(SaveSteward(l, s), patron), ps)
  }

  lemma ApplyMintKeepsConsistent(l: Ledger, id: Address, timestamp: nat)
    requires Consistent(l)
    ensures Consistent(ApplyMint(l, id, timestamp))
  {
    var s := GetSteward(l.stewards, id).(timeLastCollected := timestamp);
    SaveStewardKeepsConsistent(l, s);
    var l1 := SaveSteward(l, s);
    SavePatronKeepsConsistent(l1, id);
    var l2 := SavePatron(l1, GetPatron(l1.patrons, id));
    EnsureRelationKeepsConsistent(l2, id, id);
  }

  /** The transfer-to-steward branch of the v1 handleMint: a transfer into
      the steward contract (a foreclosure) records the outgoing holder as
      the previous patron and changes nothing else. */
  function ApplyPreviousPatron(l: Ledger, id: Address, previous: Address): (r: Ledger)
    requires WellKeyed(l)
    ensures WellKeyed(r)
    ensures r.patrons == l.patrons && r.patronStewards == l.patronStewards
    ensures OnlyChangedAt(l.stewards, r.stewards, id)
    ensures r.stewards[id] == GetSteward(l.stewards, id).(previousPatron := previous)
  {
    SaveSteward(l, GetSteward(l.stewards, id).(previousPatron := previous))
  }

  lemma ApplyPreviousPatronKeepsConsistent(l: Ledger, id: Address, previous: Address)
    requires Consistent(l)
    ensures Consistent(ApplyPreviousPatron(l, id, previous))
  {
    SaveStewardKeepsConsistent(l, GetSteward(l.stewards, id).(previousPatron := previous));
  }

  /** A collection only adds: the credited steward and relationship grow by
      the collected amount and every other record stays. */
  lemma ApplyCollectionRetains(l: Ledger, id: Address, amount: nat, deposit: nat, onTimeLastCollected: nat, fu: ForeclosureUpdate)
    requires WellKeyed(l)
    ensures Retains(l, ApplyCollection(l, id, amount, deposit, onTimeLastCollected, fu))
  {
    ApplyCollectionEffect(l, id, amount, deposit, onTimeLastCollected, fu);
  }

  /** A buy only adds: it keeps totals and writes an existing relationship
      back unchanged. */
  lemma ApplyBuyRetains(l: Ledger, id: Address, owner: Address, price: nat, timestamp: nat, deposit: nat, fu: ForeclosureUpdate)
    requires WellKeyed(l)
    ensures Retains(l, ApplyBuy(l, id, owner, price, timestamp, deposit, fu))
  {
  }

  lemma ApplyPriceRetains(l: Ledger, id: Address, price: nat)
    requires WellKeyed(l)
    ensures Retains(l, ApplyPrice(l, id, price))
  {
  }

  lemma ApplyMintRetains(l: Ledger, id: Address, timestamp: nat)
    requires WellKeyed(l)
    ensures Retains(l, ApplyMint(l, id, timestamp))
  {
  }

  lemma ApplyPreviousPatronRetains(l: Ledger, id: Address, previous: Address)
    requires WellKeyed(l)
    ensures Retains(l, ApplyPreviousPatron(l, id, previous))
  {
  }

  /** When the freshly read timeLastCollected is not behind the recorded
      one, a collection never lowers the credited relationship's time held. */
  lemma CollectionTimeHeldGrows(l: Ledger, id: Address, amount: nat, deposit: nat, onTimeLastCollected: nat, fu: ForeclosureUpdate)
    requires WellKeyed(l)
    requires onTimeLastCollected >= GetSteward(l.stewards, id).timeLastCollected
    ensures var r := ApplyCollection(l, id, amount, deposit, onTimeLastCollected, fu);
      forall k :: k in l.patronStewards ==> k in r.patronStewards && r.patronStewards[k].timeHeld >= l.patronStewards[k].timeHeld
  {
  }

  /** The store the handlers update in place: one map per record kind. */
  class EntityStore {
    var stewards: map<Address, Steward>
    var patrons: map<Address, Patron>
    var patronStewards: map<string, PatronSteward>

    function State(): Ledger
      reads this
    {
      Ledger(stewards, patrons, patronStewards)
    }

    ghost predicate Valid()
      reads this
    {
      Consistent(State())
    }

    constructor ()
      ensures Valid()
      ensures stewards == map[] && patrons == map[] && patronStewards == map[]
    {
      stewards, patrons, patronStewards := map[], map[], map[];
    }

    // The Put methods are the records' save(): like save(), they keep no
    // invariant of their own; each handler restores Valid() once its saves
    // are done.

    method PutSteward(s: Steward)
      modifies this
      ensures State() == SaveSteward(old(State()), s)
    {
      stewards := stewards[s.id := s];
    }

    method PutPatron(p: Patron)
      modifies this
      ensures State() == SavePatron(old(State()), p)
    {
      patrons := patrons[p.id := p];
    }

    method PutPatronSteward(ps: PatronSteward)
      modifies this
      ensures State() == SavePatronSteward(old(State()), ps)
    {
      patronStewards := patronStewards[ps.id := ps];
    }
  }
}
