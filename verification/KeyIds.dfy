/**
Key ids on the wire: a generation above, a slot below, in one 64-bit word.

Ids that differ give words that differ, and no id handed out is the administrator's.
*/
module KeyIds {
  import opened Wrappers
  import opened Lifecycle
  import opened KeyLives
  import opened ActorRuns
  import opened Recovery

  const U32: nat := 0x1_0000_0000
  const ADMIN: nat := 0

  predicate Packable(k: KeyId) {
    k.generation < U32 && k.slot < U32
  }

  /** `(generation << 32) | slot`: the halves do not overlap. */
  function Word(k: KeyId): nat {
    k.generation * U32 + k.slot
  }

  /** The halves again, the slot by a truncating cast. */
  function FromWord(w: nat): KeyId {
    KeyId(w / U32, w % U32)
  }

  lemma WordRoundTrip(k: KeyId, w: nat)
    ensures Packable(k) <==> FromWord(Word(k)) == k && Word(k) < U32 * U32
    ensures w < U32 * U32 ==> Packable(FromWord(w)) && Word(FromWord(w)) == w
  {
  }

  /** Every id a run hands out fits in a word, and that word is not the administrator's. */
  lemma HandedWord(a: Actor, c: Command)
    requires Handed(a, c).Some? && |a.life.table.slots| <= U32
    ensures Packable(Handed(a, c).value) && Word(Handed(a, c).value) != ADMIN
  {
  }

  /** Distinct ids are distinct words, so no word is handed out twice either. */
  lemma WordsDistinct(j: KeyId, k: KeyId)
    requires Packable(j) && Packable(k)
    ensures Word(j) == Word(k) <==> j == k
  {
    WordRoundTrip(j, 0);
    WordRoundTrip(k, 0);
  }
}
