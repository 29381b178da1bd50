/**
 * `isAlignedToSlot`: a value is aligned when it is a valid Date whose
 * millisecond timestamp is a multiple of the slot length.
 */
module SlotAlignment {
  import opened Values

  /**
   * `timestamp % slotMs === 0`. JavaScript's `%` truncates toward zero while
   * Dafny's is Euclidean, but the two remainders are zero for the same
   * operands; `x % 0` is NaN in JavaScript and never equals 0.
   */
  predicate IsAlignedInstant(ms: int, slotMs: int) {
    slotMs != 0 && ms % slotMs == 0
  }

  /** `isAlignedToSlot(value)`: anything but a valid Date is not aligned. */
  predicate IsAlignedToSlot(v: Value, slotMs: int) {
    v.VDate? && IsAlignedInstant(v.ms, slotMs)
  }

  // ---- Euclidean division facts used by the slot proofs ----

  lemma MulLe(a: int, b: int, d: int)
    requires a <= b && d >= 0
    ensures a * d <= b * d
  {
    assert b * d - a * d == (b - a) * d;
  }

  /** Quotient and remainder are unique. */
  lemma DivModUnique(x: int, d: int, q: int, m: int)
    requires d > 0 && 0 <= m < d && x == q * d + m
    ensures x / d == q && x % d == m
  {
    var q', m' := x / d, x % d;
    assert x == q' * d + m';
    if q' < q {
      assert (q' + 1) * d == q' * d + d;
      MulLe(q' + 1, q, d);
    } else if q' > q {
      assert (q + 1) * d == q * d + d;
      MulLe(q + 1, q', d);
    }
  }

  /** Every multiple of `d` is aligned to `d`. */
  lemma MultipleAligned(k: int, d: int)
    requires d > 0
    ensures (k * d) % d == 0
  {
    DivModUnique(k * d, d, k, 0);
  }

  /** Two distinct aligned instants are at least one slot apart. */
  lemma AlignedGap(t: int, x: int, d: int)
    requires d > 0 && t % d == 0 && x % d == 0 && t < x
    ensures t + d <= x
  {
    var a, b := x / d, t / d;
    assert x == a * d && t == b * d;
    if a <= b {
      MulLe(a, b, d);
      assert false;
    }
    assert (b + 1) * d == b * d + d;
    MulLe(b + 1, a, d);
  }

  // ---- Properties of isAlignedToSlot ----

  /** Shifting an aligned instant by whole slots keeps it aligned. */
  lemma AlignedShift(t: int, k: int, slotMs: int)
    requires slotMs > 0 && IsAlignedInstant(t, slotMs)
    ensures IsAlignedInstant(t + k * slotMs, slotMs)
  {
    var q := t / slotMs;
    assert t == q * slotMs;
    assert t + k * slotMs == (q + k) * slotMs;
    MultipleAligned(q + k, slotMs);
  }

  /** An aligned instant moved by less than one slot is not aligned. */
  lemma OffsetNotAligned(t: int, off: int, slotMs: int)
    requires slotMs > 0 && IsAlignedInstant(t, slotMs) && 0 < off < slotMs
    ensures !IsAlignedInstant(t + off, slotMs)
  {
    if IsAlignedInstant(t + off, slotMs) {
      AlignedGap(t, t + off, slotMs);
    }
  }

  /** Only a Date can be aligned: null, undefined, strings, numbers and objects are not. */
  lemma NonDateNotAligned(v: Value, slotMs: int)
    requires !v.VDate?
    ensures !IsAlignedToSlot(v, slotMs)
  {
  }
}
