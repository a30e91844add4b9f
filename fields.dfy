/**
 * The bit-field view of a 32-bit register that the driver's register library
 * provides. A register word is its 32 bits, bit 0 first. A field is a run of
 * `width` bits starting at bit `shift` (the library's OFFSET and NUMBITS). A
 * field value names the bits an update replaces and their new contents;
 * `modify` on a register writes back the word it read with only those bits
 * replaced.
 */
module Fields {

  const WIDTH: nat := 32

  /** A 32-bit register word, bit k at index k. */
  type Word = w: seq<bool> | |w| == WIDTH witness Zero()

  function Zero(): (z: seq<bool>)
    ensures |z| == WIDTH
  {
    seq(WIDTH, k => false)
  }

  // ---------------------------------------------------------------------------
  // Bitwise operators on words
  // ---------------------------------------------------------------------------

  function Or(a: Word, b: Word): Word
  {
    seq(WIDTH, k requires 0 <= k < WIDTH => a[k] || b[k])
  }

  /** `a & !b`: the bits of `a` that `b` does not have. */
  function AndNot(a: Word, b: Word): Word
  {
    seq(WIDTH, k requires 0 <= k < WIDTH => a[k] && !b[k])
  }

  /** `1 << i`. */
  function Bit(i: nat): Word
    requires i < WIDTH
  {
    seq(WIDTH, k => k == i)
  }

  /** `bool as u32`: bit 0 holds the flag. */
  function FromBool(b: bool): Word
  {
    seq(WIDTH, k => k == 0 && b)
  }

  // ---------------------------------------------------------------------------
  // Fields and field values
  // ---------------------------------------------------------------------------

  datatype Field = Field(shift: nat, width: nat) {
    /** The field is non-empty and lies inside the word. */
    predicate Valid() { 0 < width && shift + width <= WIDTH }
    /** Bit `k` belongs to the field. */
    predicate Has(k: nat) { shift <= k < shift + width }
  }

  /** The value held in field `f`, shifted down to bit 0 (`read`). */
  function Read(w: Word, f: Field): Word
    requires f.Valid()
  {
    seq(WIDTH, k requires 0 <= k < WIDTH => k < f.width && w[f.shift + k])
  }

  /** Whether any bit of field `f` is set in `w` (`is_set`). */
  predicate IsSet(w: Word, f: Field)
    requires f.Valid()
  {
    exists k :: f.shift <= k < f.shift + f.width && w[k]
  }

  /** An update of some bits of a word: `mask` selects them, `value` holds their new contents. */
  datatype FieldValue = FieldValue(mask: Word, value: Word)

  /** An update sets only bits it selects. */
  predicate WellFormed(fv: FieldValue)
  {
    forall k :: 0 <= k < WIDTH && fv.value[k] ==> fv.mask[k]
  }

  /** Field `f` set to `v`, cut to the field's width (`val`). */
  function Val(f: Field, v: Word): FieldValue
    requires f.Valid()
  {
    FieldValue(
      seq(WIDTH, k requires 0 <= k < WIDTH => f.Has(k)),
      seq(WIDTH, k requires 0 <= k < WIDTH => f.Has(k) && v[k - f.shift]))
  }

  /** Every bit of field `f` set (`SET`). */
  function SetField(f: Field): FieldValue
    requires f.Valid()
  {
    Val(f, seq(WIDTH, k => true))
  }

  /** Every bit of field `f` cleared (`CLEAR`). */
  function ClearField(f: Field): FieldValue
    requires f.Valid()
  {
    Val(f, Zero())
  }

  /** Two updates applied by one write (`+` on field values). */
  function Combine(a: FieldValue, b: FieldValue): FieldValue
  {
    FieldValue(Or(a.mask, b.mask), Or(a.value, b.value))
  }

  /** The word a read-modify-write writes back after reading `w` (`modify`). */
  function Apply(w: Word, fv: FieldValue): Word
  {
    Or(AndNot(w, fv.mask), fv.value)
  }

  /** The word a plain write of an update stores (`write`): the update's bits, zero elsewhere. */
  function WriteValue(fv: FieldValue): Word
  {
    fv.value
  }

  /**
   * A well-formed update leaves every bit outside its mask as it was read and
   * puts its value in the bits it selects.
   */
  lemma ApplyEffect(w: Word, fv: FieldValue)
    ensures forall k :: 0 <= k < WIDTH && fv.mask[k] ==> Apply(w, fv)[k] == fv.value[k]
    ensures WellFormed(fv) ==> forall k :: 0 <= k < WIDTH && !fv.mask[k] ==> Apply(w, fv)[k] == w[k]
  {
  }

  /** `val` never spills outside its field. */
  lemma ValWellFormed(f: Field, v: Word)
    requires f.Valid()
    ensures WellFormed(Val(f, v))
  {
  }

  /**
   * Writing field `f` with `v`: the bits outside the field are those read,
   * and the field reads back `v` cut to the field's width.
   */
  lemma ValEffect(w: Word, f: Field, v: Word)
    requires f.Valid()
    ensures var r := Apply(w, Val(f, v));
      && (forall k :: 0 <= k < WIDTH && !f.Has(k) ==> r[k] == w[k])
      && Read(r, f) == Read(v, Field(0, f.width))
  {
  }

  /** Applying the same update twice is applying it once. */
  lemma ApplyIdempotent(w: Word, fv: FieldValue)
    ensures Apply(Apply(w, fv), fv) == Apply(w, fv)
  {
  }

  // ---------------------------------------------------------------------------
  // Words as numbers
  // ---------------------------------------------------------------------------

  function Pow2(n: nat): (p: nat)
    ensures p > 0
  {
    if n == 0 then 1 else 2 * Pow2(n - 1)
  }

  /** The `n` low bits of `v`, bit 0 first. */
  function Bits(v: nat, n: nat): (s: seq<bool>)
    ensures |s| == n
  {
    if n == 0 then [] else [v % 2 == 1] + Bits(v / 2, n - 1)
  }

  /** `v >> n`. */
  function Shr(v: nat, n: nat): nat
  {
    if n == 0 then v else Shr(v / 2, n - 1)
  }

  /** The number a bit sequence holds, bit 0 first. */
  function ValueOf(s: seq<bool>): nat
  {
    if |s| == 0 then 0 else (if s[0] then 1 else 0) + 2 * ValueOf(s[1..])
  }

  /** `v as u32`: the word holding the 32 low bits of `v`. */
  function FromNat(v: nat): Word
  {
    Bits(v, WIDTH)
  }

  lemma {:induction false} ValueOfBitsBound(v: nat, n: nat)
    ensures ValueOf(Bits(v, n)) < Pow2(n)
  {
    if n > 0 {
      var s, t := Bits(v, n), Bits(v / 2, n - 1);
      assert s[1..] == t;
      ValueOfBitsBound(v / 2, n - 1);
    }
  }

  /** The low `n` bits and the rest of `v` make up `v`. */
  lemma {:induction false} ValueOfBits(v: nat, n: nat)
    ensures ValueOf(Bits(v, n)) + Pow2(n) * Shr(v, n) == v
  {
    if n > 0 {
      var s, t := Bits(v, n), Bits(v / 2, n - 1);
      assert s[1..] == t;
      ValueOfBits(v / 2, n - 1);
      var p, h := Pow2(n - 1), Shr(v / 2, n - 1);
      assert Pow2(n) * Shr(v, n) == 2 * (p * h);
    }
  }

  lemma {:induction false} Pow2Add(a: nat, b: nat)
    ensures Pow2(a + b) == Pow2(a) * Pow2(b)
  {
    if a > 0 {
      Pow2Add(a - 1, b);
    }
  }

  lemma Pow2Width()
    ensures Pow2(WIDTH) == 0x1_0000_0000
  {
    assert Pow2(2) == 4;
    Pow2Add(2, 2);
    Pow2Add(4, 4);
    Pow2Add(8, 8);
    Pow2Add(16, 16);
  }

  /** `as u32` keeps the value modulo 2^32. */
  lemma FromNatValue(v: nat)
    ensures ValueOf(FromNat(v)) == v % 0x1_0000_0000
  {
    ValueOfBits(v, WIDTH);
    ValueOfBitsBound(v, WIDTH);
    Pow2Width();
    var x, h := ValueOf(FromNat(v)), Shr(v, WIDTH);
    assert v == 0x1_0000_0000 * h + x && x < 0x1_0000_0000;
  }
}
