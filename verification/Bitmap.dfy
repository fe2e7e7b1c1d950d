/** The priority bitmap search: __rt_ffs (src/kservice.c) on the number a set of bits
    makes, and the one- and two-level indexes of the scheduler (src/scheduler.c). */
module Bitmap {
  import opened Lists

  // ------------------------------------------------------------------ first set bit

  /** __lowest_bit_bitmap: rows of sixteen that differ only in their first entry. */
  const ROW: seq<nat> := [0, 0, 1, 0, 2, 0, 1, 0, 3, 0, 1, 0, 2, 0, 1, 0]
  const FIRST: seq<nat> := [0, 4, 5, 4, 6, 4, 5, 4, 7, 4, 5, 4, 6, 4, 5, 4]

  function Lowest(b: nat): nat
    requires b < 256
  {
    if b % 16 == 0 then FIRST[b / 16] else ROW[b % 16]
  }

  /** __rt_ffs: one more than the number of the first set bit, or zero. */
  function Ffs(value: nat): (r: nat)
    requires value < 0x1_0000_0000
  {
    if value == 0 then 0
    else if value % 256 != 0 then Lowest(value % 256) + 1
    else if value / 256 % 256 != 0 then Lowest(value / 256 % 256) + 9
    else if value / 65536 % 256 != 0 then Lowest(value / 65536 % 256) + 17
    else Lowest(value / 16777216 % 256) + 25
  }

  function Bit(s: Bits, k: nat): nat { if k in s then 1 else 0 }

  /** Four and eight bits of the word, as numbers. */
  function Nibble(s: Bits, k: nat): (n: nat)
    ensures n < 16
  {
    Bit(s, k) + 2 * Bit(s, k + 1) + 4 * Bit(s, k + 2) + 8 * Bit(s, k + 3)
  }

  function Byte(s: Bits, k: nat): (n: nat)
    ensures n < 256
  {
    Nibble(s, k) + 16 * Nibble(s, k + 4)
  }

  /** The word with these bits set. */
  function Word(s: Bits): (n: nat)
    ensures n < 0x1_0000_0000
  {
    Byte(s, 0) + 256 * Byte(s, 8) + 65536 * Byte(s, 16) + 16777216 * Byte(s, 24)
  }

  /** i is the first element of s from k on, and it is below top. */
  predicate IsFirst(s: Bits, k: nat, top: nat, i: nat)
  {
    k <= i < top && i in s && forall j :: k <= j < i ==> j !in s
  }

  lemma NibbleFirst(s: Bits, k: nat)
    ensures Nibble(s, k) == 0 ==> k !in s && k + 1 !in s && k + 2 !in s && k + 3 !in s
    ensures Nibble(s, k) > 0 ==> IsFirst(s, k, k + 4, k + ROW[Nibble(s, k)])
  {
  }

  lemma ByteFirst(s: Bits, k: nat)
    ensures Byte(s, k) == 0 ==> forall j :: k <= j < k + 8 ==> j !in s
    ensures Byte(s, k) > 0 ==> IsFirst(s, k, k + 8, k + Lowest(Byte(s, k)))
  {
    NibbleFirst(s, k);
    NibbleFirst(s, k + 4);
    var lo, hi := Nibble(s, k), Nibble(s, k + 4);
    hide Nibble;
    assert Byte(s, k) % 16 == lo && Byte(s, k) / 16 == hi;
    if lo == 0 && hi > 0 { HighRow(hi); }
  }

  lemma HighRow(n: nat)
    requires 0 < n < 16
    ensures FIRST[n] == 4 + ROW[n]
  {
  }

  /** The bitmap search finds the least element. */
  lemma FfsFirst(s: Bits)
    requires (forall k :: k in s ==> k < 32) && s != {}
    ensures Ffs(Word(s)) > 0 && IsFirst(s, 0, 32, Ffs(Word(s)) - 1)
  {
    var a, b, c, d := Byte(s, 0), Byte(s, 8), Byte(s, 16), Byte(s, 24);
    ByteFirst(s, 0);
    ByteFirst(s, 8);
    ByteFirst(s, 16);
    ByteFirst(s, 24);
    hide Byte, Lowest;
    BytesOf(a, b, c, d);
    if a == 0 && b == 0 && c == 0 {
      if d == 0 {
        NoneBelow(s);
      }
    }
  }

  lemma NoneBelow(s: Bits)
    requires (forall k :: k in s ==> k < 32) && forall j: nat :: j < 32 ==> j !in s
    ensures s == {}
  {
  }

  lemma BytesOf(a: nat, b: nat, c: nat, d: nat)
    requires a < 256 && b < 256 && c < 256 && d < 256
    ensures var v := a + 256 * b + 65536 * c + 16777216 * d;
            v % 256 == a && v / 256 % 256 == b && v / 65536 % 256 == c && v / 16777216 % 256 == d
  {
    var v := a + 256 * b + 65536 * c + 16777216 * d;
    Split256(v, a, b + 256 * c + 65536 * d);
    Split256(b + 256 * c + 65536 * d, b, c + 256 * d);
    Split256(c + 256 * d, c, d);
    Split65536(v, a + 256 * b, c + 256 * d);
    SplitTop(v, a + 256 * b + 65536 * c, d);
  }

  lemma Split256(v: nat, lo: nat, hi: nat)
    requires lo < 256 && v == lo + 256 * hi
    ensures v % 256 == lo && v / 256 == hi
  {
  }

  lemma Split65536(v: nat, lo: nat, hi: nat)
    requires lo < 65536 && v == lo + 65536 * hi
    ensures v / 65536 == hi
  {
  }

  lemma SplitTop(v: nat, lo: nat, hi: nat)
    requires lo < 16777216 && v == lo + 16777216 * hi
    ensures v / 16777216 == hi
  {
  }
}
