/** The deployment addresses and blocks, the address canonicaliser that merges the
    old v1 steward into the restored v1 steward, together with the
    get-or-create lookups of the v2 and old v1 handlers, which key steward
    records by the canonical address. */
module Alias {
  import opened Entities

  const OLD_V1_STEWARD: Address := "0x74e6ab057f8a9fd9355398a17579cd4c90ab2b66"
  const RESTORED_V1_STEWARD: Address := "0xb602c0bbfab973422b91c8dfc8302b7b47550fc0"
  const V2_STEWARD: Address := "0x595f2c4e9e3e35b0946394a714c2cd6875c04988"

  const OLD_V1_ARTWORK: Address := "0x6d7c26f2e77d0ccc200464c8b2040c0b840b28a2"
  const RESTORED_V1_ARTWORK: Address := "0x2b4fa931adc5d6b58674230208787a3df0bd2121"
  const V2_ARTWORK: Address := "0xe51a7572323040792ba69b2dc4096e8e6b22fdd4"

  /** The block of the restoration: from the next block on, the old v1
      steward's collections are recorded through the restored deployment. */
  const RESTORATION_BLOCK: nat := 11817708

  /** The block of the restored deployment's foreclosure right after its
      mint; it is a migration artefact, not a foreclosure. */
  const RESTORED_MINT_FORECLOSURE_BLOCK: nat := 11815865

  /** A collection of the old v1 steward after the restoration block: the
      v2 and old v1 handlers drop it, since the restored deployment records
      the same collection. */
  predicate CollectionSuppressed(e: CollectionEvent)
    ensures CollectionSuppressed(e) ==> Canonical(e.steward) == RESTORED_V1_STEWARD
    ensures e.block.number <= RESTORATION_BLOCK ==> !CollectionSuppressed(e)
  {
    e.steward == OLD_V1_STEWARD && e.block.number > RESTORATION_BLOCK
  }

  /** The canonical steward address: the old v1 steward is recorded under
      the restored v1 steward; every other address stands for itself. */
  function Canonical(a: Address): (c: Address)
    ensures c != OLD_V1_STEWARD
    ensures a == OLD_V1_STEWARD ==> c == RESTORED_V1_STEWARD
    ensures a != OLD_V1_STEWARD ==> c == a
  {
    if a == OLD_V1_STEWARD then RESTORED_V1_STEWARD else a
  }

  /** Canonicalising twice is canonicalising once. */
  lemma CanonicalIdempotent(a: Address)
    ensures Canonical(Canonical(a)) == Canonical(a)
  {
  }

  /** The two v1 stewards share one canonical identity, and it is not the
      v2 steward's. */
  lemma V1StewardsMerge()
    ensures Canonical(OLD_V1_STEWARD) == Canonical(RESTORED_V1_STEWARD)
    ensures Canonical(V2_STEWARD) != Canonical(RESTORED_V1_STEWARD)
  {
  }

  /** getSteward of the v2 and old v1 handlers: the record kept under the
      canonical address. */
  function MergedSteward(stewards: map<Address, Steward>, raw: Address): (s: Steward)
    ensures raw != OLD_V1_STEWARD ==> s == GetSteward(stewards, raw)
    ensures raw == OLD_V1_STEWARD ==> s == GetSteward(stewards, RESTORED_V1_STEWARD)
  {
    GetSteward(stewards, Canonical(raw))
  }

  /** getPatronSteward of the v2 and old v1 handlers: keyed by the patron
      followed by the canonical steward address. */
  function MergedPatronSteward(patronStewards: map<string, PatronSteward>, patron: Address, raw: Address): (ps: PatronSteward)
    ensures PsKey(patron, Canonical(raw)) in patronStewards ==> ps == patronStewards[PsKey(patron, Canonical(raw))]
    ensures PsKey(patron, Canonical(raw)) !in patronStewards ==>
      && ps.id == PsKey(patron, Canonical(raw)) && ps.patron == patron && ps.steward == Canonical(raw)
      && ps.timeHeld == 0 && ps.collected == 0
  {
    GetPatronSteward(patronStewards, patron, Canonical(raw))
  }
}
