/** The records of the patronage ledger (Steward, Patron, PatronSteward),
    the addresses that key them, the events the reducers consume and the
    get-or-create lookups that fill in a missing record with its defaults. */
module Entities {

  datatype Option<+T> = None | Some(value: T)

  /** An address as the indexer renders it: "0x" followed by forty hex
      digits. Only the length matters to this model: it makes the
      relationship key `patron + steward` unambiguous. */
  type Address = s: string | |s| == 42 witness "0x0000000000000000000000000000000000000000"

  const ZERO_ADDRESS: Address := "0x0000000000000000000000000000000000000000"

  /** One stewardable asset. */
  datatype Steward = Steward(
    id: Address,
    currentPatron: Address,
    previousPatron: Address,
    currentDeposit: nat,
    currentPrice: nat,
    timeAcquired: nat,
    timeLastCollected: nat,
    totalCollected: nat,
    foreclosureTime: nat)

  /** An address that can hold a steward; it carries no fields. */
  datatype Patron = Patron(id: Address)

  /** What one patron accumulated while holding one steward. The time held
      is an unbounded integer: the incremental formula may subtract. */
  datatype PatronSteward = PatronSteward(
    id: string,
    patron: Address,
    steward: Address,
    timeHeld: int,
    collected: nat)

  /** The key of a relationship record: the two addresses concatenated. */
  function PsKey(patron: Address, steward: Address): string
  {
    patron + steward
  }

  /** Two relationship keys coincide only for the same pair of addresses. */
  lemma PsKeyInjective(p1: Address, s1: Address, p2: Address, s2: Address)
    requires PsKey(p1, s1) == PsKey(p2, s2)
    ensures p1 == p2 && s1 == s2
  {
    var k := PsKey(p1, s1);
    assert p1 == k[..42] == p2;
    assert s1 == k[42..] == s2;
  }

  /** `m'` is `m` with the entry at `k` added or replaced and every other
      entry as it was. */
  ghost predicate OnlyChangedAt<K, V>(m: map<K, V>, m': map<K, V>, k: K)
  {
    && m'.Keys == m.Keys + {k}
    && forall x :: x in m && x != k ==> m'[x] == m[x]
  }

  /** Every relationship sits under its own id, and that id is the key of
      its patron and steward. */
  ghost predicate KeyedByPair(patronStewards: map<string, PatronSteward>)
  {
    forall k :: k in patronStewards ==>
      patronStewards[k].id == k && k == PsKey(patronStewards[k].patron, patronStewards[k].steward)
  }

  /** When relationships are keyed by their pair, the one found under
      `patron + steward` is the record of exactly that pair. */
  lemma RelationLookup(patronStewards: map<string, PatronSteward>, patron: Address, steward: Address)
    requires KeyedByPair(patronStewards)
    ensures var ps := GetPatronSteward(patronStewards, patron, steward);
      ps.id == PsKey(patron, steward) && ps.patron == patron && ps.steward == steward
  {
    var key := PsKey(patron, steward);
    if key in patronStewards {
      var ps := patronStewards[key];
      PsKeyInjective(patron, steward, ps.patron, ps.steward);
    }
  }

  /** Looks up a steward; a missing one is self-held with every amount and
      time zero. */
  function GetSteward(stewards: map<Address, Steward>, id: Address): (s: Steward)
    ensures id in stewards ==> s == stewards[id]
    ensures id !in stewards ==>
      && s.id == id && s.currentPatron == id && s.previousPatron == id
      && s.currentDeposit == 0 && s.currentPrice == 0 && s.timeAcquired == 0
      && s.timeLastCollected == 0 && s.totalCollected == 0 && s.foreclosureTime == 0
  {
    if id in stewards then stewards[id] else Steward(id, id, id, 0, 0, 0, 0, 0, 0)
  }

  /** Looks up a patron, creating it when missing. */
  function GetPatron(patrons: map<Address, Patron>, id: Address): (p: Patron)
    ensures id in patrons ==> p == patrons[id]
    ensures id !in patrons ==> p.id == id
  {
    if id in patrons then patrons[id] else Patron(id)
  }

  /** Looks up the relationship of `patron` and `steward` under the key
      `patron + steward`; a missing one starts with nothing held or
      collected. */
  function GetPatronSteward(patronStewards: map<string, PatronSteward>, patron: Address, steward: Address): (ps: PatronSteward)
    ensures PsKey(patron, steward) in patronStewards ==> ps == patronStewards[PsKey(patron, steward)]
    ensures PsKey(patron, steward) !in patronStewards ==>
      && ps.id == PsKey(patron, steward) && ps.patron == patron && ps.steward == steward
      && ps.timeHeld == 0 && ps.collected == 0
  {
    var key := PsKey(patron, steward);
    if key in patronStewards then patronStewards[key] else PatronSteward(key, patron, steward, 0, 0)
  }

  /** Block context of an event. */
  datatype Block = Block(number: nat, timestamp: nat)

  /** LogCollection(collected), emitted by the steward contract `steward`. */
  datatype CollectionEvent = CollectionEvent(steward: Address, collected: nat, block: Block)

  /** LogPriceChange(newPrice). */
  datatype PriceChangeEvent = PriceChangeEvent(steward: Address, newPrice: nat)

  /** LogBuy(owner, price). */
  datatype BuyEvent = BuyEvent(steward: Address, owner: Address, price: nat, block: Block)

  /** LogForeclosure(prevOwner). */
  datatype ForeclosureEvent = ForeclosureEvent(steward: Address, prevOwner: Address, block: Block)

  /** ERC721 Transfer(from, to), emitted by the artwork contract `artwork`. */
  datatype TransferEvent = TransferEvent(artwork: Address, from: Address, to: Address, block: Block)
}
