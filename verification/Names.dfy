/**
 Entry names: the two case-folding tables, the comparison under a table, and the
 hash that chooses a directory's slot.
 */
module Names {
  import opened Disk

  function ClassicUpper(c: Byte): Byte {
    if 0x61 <= c <= 0x7A then c - 0x20 else c
  }

  function IntlUpper(c: Byte): Byte {
    if 0x61 <= c <= 0x7A || (0xE0 <= c <= 0xFE && c != 0xF7) then c - 0x20 else c
  }

  function Fold(intl: bool, c: Byte): Byte {
    if intl then IntlUpper(c) else ClassicUpper(c)
  }

  /** The same name as far as a directory is concerned. */
  predicate SameName(a: Bytes, b: Bytes, intl: bool) {
    |a| == |b| && forall i :: 0 <= i < |a| ==> Fold(intl, a[i]) == Fold(intl, b[i])
  }

  /** The hash accumulated over the first `n` bytes of a name. */
  function HashOf(name: Bytes, intl: bool, n: nat): nat
    requires n <= |name|
  {
    if n == 0 then |name| else (HashOf(name, intl, n - 1) * 13 + Fold(intl, name[n - 1])) % 0x800
  }

  function SlotOf(name: Bytes, intl: bool, slots: nat): (slot: nat)
    requires slots > 0
    ensures slot < slots
  {
    HashOf(name, intl, |name|) % slots
  }

  /** `name_hash`: the 32-bit product wraps, which the mask to 11 bits makes no
      difference to. */
  method NameHash(name: Bytes, intl: bool, slots: nat) returns (slot: nat)
    requires slots > 0 && |name| < 0x1_0000_0000
    ensures slot == SlotOf(name, intl, slots)
  {
    var hash := |name|;
    var i := 0;
    while i < |name|
      invariant 0 <= i <= |name| && hash == HashOf(name, intl, i)
    {
      hash := (hash * 13 % 0x1_0000_0000 + Fold(intl, name[i])) % 0x1_0000_0000 % 0x800;
      WrapIsHarmless(HashOf(name, intl, i) * 13, Fold(intl, name[i]));
      i := i + 1;
    }
    slot := hash % slots;
  }

  lemma WrapIsHarmless(a: nat, c: nat)
    ensures (a % 0x1_0000_0000 + c) % 0x1_0000_0000 % 0x800 == (a + c) % 0x800
  {}

  lemma {:induction false} SameNameSameHash(a: Bytes, b: Bytes, intl: bool, n: nat)
    requires SameName(a, b, intl) && n <= |a|
    ensures HashOf(a, intl, n) == HashOf(b, intl, n)
  {
    if n > 0 { SameNameSameHash(a, b, intl, n - 1); }
  }

  /** Two spellings of one name share a slot, on either folding table. */
  lemma SameNameSameSlot(a: Bytes, b: Bytes, intl: bool, slots: nat)
    requires SameName(a, b, intl) && slots > 0
    ensures SlotOf(a, intl, slots) == SlotOf(b, intl, slots)
  {
    SameNameSameHash(a, b, intl, |a|);
  }
}
