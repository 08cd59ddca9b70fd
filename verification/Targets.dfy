/** Compact difficulty targets and their adjustment. A compact target packs a byte length and a 23-bit
    mantissa into 32 bits. */
module Targets {
  import opened Util

  const BYTE_24: nat := 0x100_0000
  const SIGN_BIT: nat := 0x80_0000

  function Pow256(k: nat): (p: nat)
    ensures p >= 1
  {
    if k == 0 then 1 else 256 * Pow256(k - 1)
  }

  function BitLen(t: nat): nat {
    if t == 0 then 0 else 1 + BitLen(t / 2)
  }

  /** `(target.bits() + 7) / 8` */
  function ByteSize(t: nat): nat {
    (BitLen(t) + 7) / 8
  }

  function ShiftLeft(t: nat, bytes: nat): nat {
    if bytes == 0 then t else 256 * ShiftLeft(t, bytes - 1)
  }

  function ShiftRight(t: nat, bytes: nat): nat {
    if bytes == 0 then t else ShiftRight(t / 256, bytes - 1)
  }

  /** `uint256_target_from_compact` before the shift drops bits above the 256th. */
  function Unpacked(bits: nat): nat {
    var e, m := bits / BYTE_24, bits % BYTE_24;
    var mant := if e <= 3 then ShiftRight(m, 3 - e) else m;
    if mant >= SIGN_BIT then 0 else ShiftLeft(mant, if e <= 3 then 0 else e - 3)
  }

  function Decode(bits: nat): nat {
    Unpacked(bits) % Pow256(32)
  }

  /** `target_to_compact_lossy` */
  function Encode(target: nat): nat {
    var size := ByteSize(target);
    var compact := if size <= 3 then ShiftLeft(target, 3 - size) else ShiftRight(target, size - 3);
    if compact / SIGN_BIT % 2 == 1 then compact / 256 + (size + 1) * BYTE_24
    else compact + size * BYTE_24
  }

  // ---- Reference: what survives the packing

  /** Drops low bytes until the value fits in 23 bits, and puts zero bytes back. */
  function Truncated(t: nat): nat {
    if t < SIGN_BIT then t else 256 * Truncated(t / 256)
  }

  function DroppedBytes(t: nat): nat {
    if t < SIGN_BIT then 0 else 1 + DroppedBytes(t / 256)
  }

  // ---- Sizes

  lemma DivideBy256(t: nat)
    ensures t / 2 / 2 / 2 / 2 / 2 / 2 / 2 / 2 == t / 256
  {}

  lemma ByteSizeStep(t: nat)
    requires t >= 256
    ensures ByteSize(t) == 1 + ByteSize(t / 256)
  {
    DivideBy256(t);
    var t1 := t / 2;
    var t2 := t1 / 2;
    var t3 := t2 / 2;
    var t4 := t3 / 2;
    var t5 := t4 / 2;
    var t6 := t5 / 2;
    var t7 := t6 / 2;
    assert t7 >= 1;
    assert BitLen(t) == 1 + BitLen(t1) && BitLen(t1) == 1 + BitLen(t2);
    assert BitLen(t2) == 1 + BitLen(t3) && BitLen(t3) == 1 + BitLen(t4);
    assert BitLen(t4) == 1 + BitLen(t5) && BitLen(t5) == 1 + BitLen(t6);
    assert BitLen(t6) == 1 + BitLen(t7) && BitLen(t7) == 1 + BitLen(t / 256);
  }

  lemma SmallByteSizes(t: nat)
    ensures t == 0 ==> ByteSize(t) == 0
    ensures 1 <= t < 256 ==> ByteSize(t) == 1
  {
    if 1 <= t < 256 {
      var t2 := t / 2 / 2;
      var t4 := t2 / 2 / 2;
      var t6 := t4 / 2 / 2;
      assert BitLen(t6) <= 2;
      assert BitLen(t4) <= 2 + BitLen(t6);
      assert BitLen(t2) <= 2 + BitLen(t4);
      assert BitLen(t) <= 2 + BitLen(t2);
    }
  }

  lemma {:induction false} ByteSizeBounds(t: nat)
    requires t > 0
    ensures ByteSize(t) >= 1
    ensures Pow256(ByteSize(t) - 1) <= t < Pow256(ByteSize(t))
  {
    if t < 256 {
      SmallByteSizes(t);
    } else {
      ByteSizeStep(t);
      ByteSizeBounds(t / 256);
    }
  }

  // ---- Packing is truncation

  lemma EncodeStepSmall(t: nat)
    requires SIGN_BIT <= t < BYTE_24
    ensures Encode(t) == Encode(t / 256) + BYTE_24
  {
    TwoByteEncode(t / 256);
    ByteSizeStep(t);
    ByteSizeStep(t / 256);
    SmallByteSizes(t / 256 / 256);
    assert ShiftLeft(t, 0) == t;
  }

  /** A target too large for its mantissa is packed like its quotient by 256, one byte longer. */
  lemma EncodeStep(t: nat)
    requires t >= SIGN_BIT
    ensures Encode(t) == Encode(t / 256) + BYTE_24
  {
    if t < BYTE_24 {
      EncodeStepSmall(t);
    } else {
      ByteSizeStep(t);
      ByteSizeStep(t / 256);
      ByteSizeStep(t / 256 / 256);
      ByteSizeBounds(t / 256 / 256 / 256);
      assert ShiftRight(t, ByteSize(t) - 3) == ShiftRight(t / 256, ByteSize(t) - 4);
    }
  }

  lemma OneByteEncode(t: nat)
    requires 0 < t < 256
    ensures Encode(t) == if t < 0x80 then t * 0x1_0000 + BYTE_24 else t * 0x100 + 2 * BYTE_24
  {
    SmallByteSizes(t);
    assert ShiftLeft(t, 1) == 256 * t;
    assert ShiftLeft(t, 2) == 0x1_0000 * t;
  }

  lemma TwoByteEncode(t: nat)
    requires 256 <= t < 0x1_0000
    ensures Encode(t) == if t < 0x8000 then t * 0x100 + 2 * BYTE_24 else t + 3 * BYTE_24
  {
    ByteSizeStep(t);
    SmallByteSizes(t / 256);
    assert ShiftLeft(t, 1) == 256 * t;
  }

  lemma ThreeByteEncode(t: nat)
    requires 0x1_0000 <= t < SIGN_BIT
    ensures Encode(t) == t + 3 * BYTE_24
  {
    ByteSizeStep(t);
    ByteSizeStep(t / 256);
    SmallByteSizes(t / 256 / 256);
  }

  lemma SmallEncode(t: nat)
    requires t < SIGN_BIT
    ensures Encode(t) == if t == 0 then 0
                         else if t < 0x80 then t * 0x1_0000 + BYTE_24
                         else if t < 0x8000 then t * 0x100 + 2 * BYTE_24
                         else t + 3 * BYTE_24
  {
    if t == 0 {
      SmallByteSizes(t);
      assert ShiftLeft(0, 3) == 256 * ShiftLeft(0, 2) && ShiftLeft(0, 2) == 256 * ShiftLeft(0, 1);
    } else if t < 256 {
      OneByteEncode(t);
    } else if t < 0x1_0000 {
      TwoByteEncode(t);
    } else {
      ThreeByteEncode(t);
    }
  }

  lemma UnpackedParts(m: nat, e: nat)
    requires m < BYTE_24
    ensures var bits := m + e * BYTE_24;
            bits / BYTE_24 == e && bits % BYTE_24 == m
  {}

  lemma SmallDecode(t: nat)
    requires t < SIGN_BIT
    ensures Unpacked(Encode(t)) == t
  {
    SmallEncode(t);
    if t == 0 {
    } else if t < 0x80 {
      UnpackedParts(t * 0x1_0000, 1);
      assert ShiftRight(t * 0x1_0000, 2) == ShiftRight(t * 0x100, 1) == t;
    } else if t < 0x8000 {
      UnpackedParts(t * 0x100, 2);
      assert ShiftRight(t * 0x100, 1) == t;
    } else {
      UnpackedParts(t, 3);
    }
  }

  /** The packed form of a target needing at least 15 bits has a full-width exponent and a mantissa below
      the sign bit. */
  lemma {:induction false} LargeEncode(t: nat)
    requires t >= 0x8000
    ensures Encode(t) / BYTE_24 == 3 + DroppedBytes(t)
    ensures Encode(t) % BYTE_24 < SIGN_BIT
  {
    if t < SIGN_BIT {
      SmallEncode(t);
    } else {
      EncodeStep(t);
      LargeEncode(t / 256);
    }
  }

  lemma UnpackedStep(bits: nat)
    requires bits / BYTE_24 >= 3 && bits % BYTE_24 < SIGN_BIT
    ensures Unpacked(bits + BYTE_24) == 256 * Unpacked(bits)
  {}

  lemma {:induction false} UnpackedEncode(t: nat)
    ensures Unpacked(Encode(t)) == Truncated(t)
  {
    if t < SIGN_BIT {
      SmallDecode(t);
    } else {
      UnpackedEncode(t / 256);
      EncodeStep(t);
      LargeEncode(t / 256);
      UnpackedStep(Encode(t / 256));
    }
  }

  lemma {:induction false} TruncatedBounds(t: nat)
    ensures Truncated(t) <= t < Truncated(t) + Pow256(DroppedBytes(t))
    ensures t >= 0x8000 ==> Truncated(t) >= 0x8000
    ensures t >= SIGN_BIT ==> t >= ShiftLeft(0x8000, DroppedBytes(t))
  {
    if t >= SIGN_BIT {
      TruncatedBounds(t / 256);
      if t / 256 < SIGN_BIT { assert ShiftLeft(0x8000, 1) == 256 * ShiftLeft(0x8000, 0); }
    }
  }

  lemma {:induction false} ShiftLeftIsPow(t: nat, k: nat)
    ensures ShiftLeft(t, k) == t * Pow256(k)
  {
    if k > 0 {
      ShiftLeftIsPow(t, k - 1);
      assert 256 * (t * Pow256(k - 1)) == t * (256 * Pow256(k - 1));
    }
  }

  lemma TruncationError(t: nat)
    ensures Truncated(t) <= t
    ensures (t - Truncated(t)) * 0x8000 <= t
  {
    TruncatedBounds(t);
    if t >= SIGN_BIT {
      ShiftLeftIsPow(0x8000, DroppedBytes(t));
      var p, lost := Pow256(DroppedBytes(t)), t - Truncated(t);
      assert lost * 0x8000 <= p * 0x8000;
    }
  }

  lemma SmallMod(x: nat, m: nat)
    requires x < m
    ensures x % m == x
  {}

  /** Unpacking a packed target truncates it, without overflowing 256 bits: the result is at most the
      target, exact below 2^23, and short by at most one part in 2^15. */
  lemma DecodeEncode(t: nat)
    requires t < Pow256(32)
    ensures Decode(Encode(t)) == Truncated(t) <= t
    ensures t < SIGN_BIT ==> Decode(Encode(t)) == t
    ensures (t - Decode(Encode(t))) * 0x8000 <= t
  {
    UnpackedEncode(t);
    TruncationError(t);
    SmallMod(Truncated(t), Pow256(32));
  }

  lemma {:induction false} TruncatedMonotone(t: nat, u: nat)
    requires t <= u
    ensures Truncated(t) <= Truncated(u)
  {
    if t >= SIGN_BIT {
      TruncatedMonotone(t / 256, u / 256);
    } else if u >= SIGN_BIT {
      TruncatedBounds(u / 256);
    }
  }

  /** Packing is monotone as seen after unpacking. */
  lemma PackingMonotone(t: nat, u: nat)
    requires t <= u < Pow256(32)
    ensures Decode(Encode(t)) <= Decode(Encode(u))
  {
    DecodeEncode(t);
    DecodeEncode(u);
    TruncatedMonotone(t, u);
  }

  lemma {:induction false} EncodeTruncated(t: nat)
    ensures Encode(Truncated(t)) == Encode(t)
  {
    if t >= SIGN_BIT {
      EncodeTruncated(t / 256);
      TruncatedBounds(t / 256);
      assert Truncated(t) / 256 == Truncated(t / 256);
      EncodeStep(Truncated(t));
      EncodeStep(t);
    }
  }

  /** Packing is idempotent: a target that went through it once is not changed by going through again. */
  lemma PackingIdempotent(t: nat)
    requires t < Pow256(32)
    ensures Encode(Decode(Encode(t))) == Encode(t)
  {
    DecodeEncode(t);
    EncodeTruncated(t);
  }

  lemma {:induction false} EncodeBound(t: nat, n: nat)
    requires n >= 2 && t < Pow256(n)
    ensures Encode(t) < (n + 2) * BYTE_24
  {
    if t < SIGN_BIT {
      SmallEncode(t);
    } else {
      EncodeStep(t);
      assert Pow256(2) == 0x1_0000;
      EncodeBound(t / 256, n - 1);
    }
  }

  /** Every 256-bit target packs into 32 bits. */
  lemma EncodeFits(t: nat)
    requires t < Pow256(32)
    ensures Encode(t) < 0x1_0000_0000
  {
    EncodeBound(t, 32);
  }

  // ---- Adjustment

  /** `max_pow_adjustment` is a whole percentage. */
  datatype Params = Params(targetTimespan: nat, targetSpacing: nat, noRetargeting: bool, maxAdjustment: nat)

  /** Decimal rounding to a whole number, ties to even. */
  function RoundHalfEven(n: nat, d: nat): nat
    requires d > 0
  {
    var q, r := n / d, n % d;
    if 2 * r < d then q else if 2 * r > d then q + 1 else q + q % 2
  }

  /** The ratio of the height gap to the target spacing, in percent: rounded to two decimals, then
      clamped below 1 by the maximal adjustment and above 1 by one plus it. */
  function AdjustmentPercentage(gap: nat, params: Params): nat
    requires params.targetSpacing > 0
  {
    var ratio := RoundHalfEven(100 * (if gap == 0 then 1 else gap), params.targetSpacing);
    if ratio < 100 then Min(ratio, params.maxAdjustment)
    else if ratio > 100 then Min(ratio, 100 + params.maxAdjustment)
    else ratio
  }

  function Scaled(single: nat, percentage: nat): nat {
    single * percentage
  }

  /** The adjusted target, or nothing when the percentage does not fit in a byte. */
  function AdjustedTarget(gap: nat, lastBits: nat, params: Params): Option<nat>
    requires params.targetSpacing > 0
  {
    var percentage := AdjustmentPercentage(gap, params);
    if percentage > 255 then None
    else Some(Min(Scaled(Decode(lastBits) / 100, percentage), Pow256(32) - 1))
  }

  /** `calculate_next_work_required` */
  function NextWork(gap: nat, lastBits: nat, params: Params): Option<nat>
    requires params.targetSpacing > 0
  {
    match AdjustedTarget(gap, lastBits, params) case None => None case Some(t) => Some(Encode(t))
  }

  /** `q` is the whole number nearest to `n / d`, the even one if two are. */
  predicate Nearest(n: nat, d: nat, q: nat) {
    && 2 * (d * q) <= 2 * n + d && 2 * n <= 2 * (d * q) + d
    && (2 * (d * q) == 2 * n + d || 2 * n == 2 * (d * q) + d ==> q % 2 == 0)
  }

  lemma NearestIsUnique(n: nat, d: nat, p: nat, q: nat)
    requires d > 0 && Nearest(n, d, p) && Nearest(n, d, q)
    ensures p == q
  {
    if p != q {
      var low, high := Min(p, q), Max(p, q);
      Apart(d, low, high, 1);
      if high >= low + 2 { Apart(d, low, high, 2); }
    }
  }

  lemma Apart(d: nat, low: nat, high: nat, gap: nat)
    requires low + gap <= high
    ensures d * low + d * gap <= d * high
  {
    MulMonotone(d, low + gap, high);
    assert d * (low + gap) == d * low + d * gap;
  }

  lemma RoundsToNearest(n: nat, d: nat)
    requires d > 0
    ensures Nearest(n, d, RoundHalfEven(n, d))
  {
    var q, r := n / d, n % d;
    assert n == d * q + r;
    assert d * (q + 1) == d * q + d;
  }

  /** The adjustment in percent: the height gap over the target spacing to the nearest percent, which the maximum
      caps when it is below one hundred, and one hundred plus the maximum when it is above. */
  lemma PercentageIs(gap: nat, params: Params, ratio: nat)
    requires params.targetSpacing > 0 && Nearest(100 * Max(gap, 1), params.targetSpacing, ratio)
    ensures AdjustmentPercentage(gap, params) ==
            if ratio == 100 then 100
            else if ratio < 100 then Min(ratio, params.maxAdjustment)
            else Min(ratio, 100 + params.maxAdjustment)
  {
    RoundsToNearest(100 * Max(gap, 1), params.targetSpacing);
    NearestIsUnique(100 * Max(gap, 1), params.targetSpacing, ratio,
                    RoundHalfEven(100 * Max(gap, 1), params.targetSpacing));
  }

  lemma AdjustedTargetIs(gap: nat, lastBits: nat, params: Params, exact: nat)
    requires params.targetSpacing > 0 && AdjustedTarget(gap, lastBits, params).Some?
    requires exact == Decode(lastBits) / 100 * AdjustmentPercentage(gap, params)
    ensures var t := AdjustedTarget(gap, lastBits, params).value;
            t < Pow256(32) && (exact < Pow256(32) ==> t == exact) && (exact >= Pow256(32) ==> t == Pow256(32) - 1)
  {}

  /** The next target is the last one, in whole hundredths, times the percentage, or the greatest one if that
      does not fit in 256 bits, and less than one part in 2^15 below that. */
  lemma NextWorkIs(gap: nat, lastBits: nat, params: Params, exact: nat)
    requires params.targetSpacing > 0 && NextWork(gap, lastBits, params).Some?
    requires exact == Decode(lastBits) / 100 * AdjustmentPercentage(gap, params)
    ensures var t, next := AdjustedTarget(gap, lastBits, params).value, Decode(NextWork(gap, lastBits, params).value);
            && (exact < Pow256(32) ==> t == exact) && (exact >= Pow256(32) ==> t == Pow256(32) - 1)
            && next <= t && (t - next) * 0x8000 <= t
  {
    AdjustedTargetIs(gap, lastBits, params, exact);
    DecodeEncode(AdjustedTarget(gap, lastBits, params).value);
  }

  /** When the blocks came exactly at the target spacing the target is kept, up to rounding. */
  lemma OnScheduleKeepsTarget(lastBits: nat, params: Params)
    requires params.targetSpacing > 0
    ensures var next, last := NextWork(params.targetSpacing, lastBits, params), Decode(lastBits);
            next.Some? && Decode(next.value) <= last && (last - Decode(next.value)) * 0x8000 <= last + 99 * 0x8000
  {
    var gap, last := params.targetSpacing, Decode(lastBits);
    assert 2 * (gap * 100) == 2 * (100 * Max(gap, 1));
    PercentageIs(gap, params, 100);
    var exact := last / 100 * 100;
    assert exact <= last < exact + 100;
    NextWorkIs(gap, lastBits, params, exact);
  }

  lemma MulMonotone(d: nat, a: nat, b: nat)
    requires a <= b
    ensures d * a <= d * b
  {}

  lemma DivisionMonotone(n: nat, m: nat, d: nat)
    requires d > 0 && n <= m
    ensures n / d <= m / d
  {
    var q, q' := n / d, m / d;
    assert n == d * q + n % d;
    assert m == d * q' + m % d;
    assert d * (q' + 1) == d * q' + d;
    if q > q' {
      MulMonotone(d, q' + 1, q);
      assert false;
    }
  }

  lemma RoundMonotone(n: nat, m: nat, d: nat)
    requires d > 0 && n <= m
    ensures RoundHalfEven(n, d) <= RoundHalfEven(m, d)
  {
    var q, q' := n / d, m / d;
    assert n == d * q + n % d && m == d * q' + m % d;
    assert q <= q' by { DivisionMonotone(n, m, d); }
  }

  lemma PercentageMonotone(gap: nat, gap': nat, params: Params)
    requires params.targetSpacing > 0 && gap <= gap'
    ensures AdjustmentPercentage(gap, params) <= AdjustmentPercentage(gap', params) <= 100 + params.maxAdjustment
  {
    RoundMonotone(100 * (if gap == 0 then 1 else gap), 100 * (if gap' == 0 then 1 else gap'), params.targetSpacing);
  }

  /** The percentage overflows a byte exactly when the limit allows it and the ratio reaches it. */
  lemma ConversionFailsIff(gap: nat, lastBits: nat, params: Params)
    requires params.targetSpacing > 0
    ensures NextWork(gap, lastBits, params).None? <==>
            params.maxAdjustment > 155
            && RoundHalfEven(100 * (if gap == 0 then 1 else gap), params.targetSpacing) > 255
  {}

  lemma ScaledMonotone(single: nat, p: nat, q: nat)
    requires p <= q
    ensures Scaled(single, p) <= Scaled(single, q)
  {}

  lemma ScaledBound(t: nat, q: nat)
    ensures 100 * Scaled(t / 100, q) <= t * q
  {}

  lemma CappedMonotone(a: nat, b: nat, cap: nat)
    requires a <= b
    ensures Min(a, cap) <= Min(b, cap) <= b && Min(b, cap) <= cap
  {}

  lemma AdjustedTargetMonotone(gap: nat, gap': nat, lastBits: nat, params: Params)
    requires params.targetSpacing > 0 && gap <= gap' && AdjustedTarget(gap', lastBits, params).Some?
    ensures var t, t' := AdjustedTarget(gap, lastBits, params), AdjustedTarget(gap', lastBits, params);
            && t.Some? && t.value <= t'.value < Pow256(32)
            && 100 * t'.value <= Decode(lastBits) * (100 + params.maxAdjustment)
  {
    PercentageMonotone(gap, gap', params);
    var target := Decode(lastBits);
    var p, p' := AdjustmentPercentage(gap, params), AdjustmentPercentage(gap', params);
    ScaledMonotone(target / 100, p, p');
    ScaledMonotone(target / 100, p', 100 + params.maxAdjustment);
    ScaledBound(target, 100 + params.maxAdjustment);
    CappedMonotone(Scaled(target / 100, p), Scaled(target / 100, p'), Pow256(32) - 1);
  }

  /** With an adjustment of at most 155 percent the next target always exists. Where it exists it grows with
      the height gap, and never exceeds the last target by more than the allowed percentage. */
  lemma NextWorkMonotoneAndBounded(gap: nat, gap': nat, lastBits: nat, params: Params)
    requires params.targetSpacing > 0 && gap <= gap'
    ensures params.maxAdjustment <= 155 ==> NextWork(gap', lastBits, params).Some?
    ensures var w, w' := NextWork(gap, lastBits, params), NextWork(gap', lastBits, params);
            w'.Some? ==>
              && w.Some? && Decode(w.value) <= Decode(w'.value)
              && 100 * Decode(w'.value) <= Decode(lastBits) * (100 + params.maxAdjustment)
  {
    ConversionFailsIff(gap', lastBits, params);
    if NextWork(gap', lastBits, params).Some? {
      AdjustedTargetMonotone(gap, gap', lastBits, params);
      var t, t' := AdjustedTarget(gap, lastBits, params).value, AdjustedTarget(gap', lastBits, params).value;
      PackingMonotone(t, t');
      DecodeEncode(t');
    }
  }

  // ---- When to adjust

  /** The height difference, cut to 32 bits. */
  function Gap(lastHeight: nat, headHeight: nat): nat
    requires lastHeight <= headHeight + 1
  {
    (headHeight + 1 - lastHeight) % 0x1_0000_0000
  }

  /** `get_next_work_required`; the interval must be positive, since the height is reduced modulo it. */
  function NextWorkRequired(lastHeight: nat, lastBits: nat, headHeight: nat, params: Params): Option<nat>
    requires params.targetSpacing > 0 && params.targetTimespan / params.targetSpacing > 0
    requires lastHeight <= headHeight + 1
  {
    var gap := Gap(lastHeight, headHeight);
    var interval := params.targetTimespan / params.targetSpacing;
    if params.noRetargeting || (headHeight % interval != 0 && gap <= interval % 0x1_0000_0000)
    then Some(lastBits)
    else NextWork(gap, lastBits, params)
  }

  /** At every height the required target exceeds the last one by at most the allowed percentage. */
  lemma RequiredWorkIsBounded(lastHeight: nat, lastBits: nat, headHeight: nat, params: Params)
    requires params.targetSpacing > 0 && params.targetTimespan / params.targetSpacing > 0
    requires lastHeight <= headHeight + 1
    ensures var next := NextWorkRequired(lastHeight, lastBits, headHeight, params);
            && (params.maxAdjustment <= 155 ==> next.Some?)
            && (next.Some? ==> 100 * Decode(next.value) <= Decode(lastBits) * (100 + params.maxAdjustment))
  {
    NextWorkMonotoneAndBounded(Gap(lastHeight, headHeight), Gap(lastHeight, headHeight), lastBits, params);
    MulMonotone(Decode(lastBits), 100, 100 + params.maxAdjustment);
  }

  lemma QuotientIs(h: nat, d: nat, k: nat)
    requires d > 0 && d * k <= h < d * k + d
    ensures h / d == k && h % d == h - d * k
  {
    var q := h / d;
    assert h == d * q + h % d;
    if q < k { Apart(d, q, k, 1); }
    if k < q { Apart(d, k, q, 1); }
  }

  /** When the target is adjusted: retargeting is on, and the head is at a multiple of the interval or more blocks
      than that have passed since the last header; `k` intervals have passed at the head. */
  lemma RetargetsIff(lastHeight: nat, lastBits: nat, headHeight: nat, params: Params, k: nat)
    requires params.targetSpacing > 0 && 0 < params.targetTimespan / params.targetSpacing < 0x1_0000_0000
    requires lastHeight <= headHeight + 1 < lastHeight + 0x1_0000_0000
    requires var interval := params.targetTimespan / params.targetSpacing;
             interval * k <= headHeight < interval * k + interval
    ensures var interval, gap := params.targetTimespan / params.targetSpacing, headHeight + 1 - lastHeight;
            NextWorkRequired(lastHeight, lastBits, headHeight, params) ==
            if !params.noRetargeting && (headHeight == interval * k || gap > interval)
            then NextWork(gap, lastBits, params) else Some(lastBits)
  {
    var interval, gap := params.targetTimespan / params.targetSpacing, headHeight + 1 - lastHeight;
    QuotientIs(headHeight, interval, k);
    SmallMod(gap, 0x1_0000_0000);
    SmallMod(interval, 0x1_0000_0000);
    RequiredWorkIs(lastHeight, lastBits, headHeight, params, interval, gap);
  }

  lemma RequiredWorkIs(
      lastHeight: nat, lastBits: nat, headHeight: nat, params: Params, interval: nat, gap: nat)
    requires params.targetSpacing > 0 && 0 < interval == params.targetTimespan / params.targetSpacing
    requires interval == interval % 0x1_0000_0000 && lastHeight <= headHeight + 1
    requires gap == Gap(lastHeight, headHeight)
    ensures NextWorkRequired(lastHeight, lastBits, headHeight, params) ==
            if !params.noRetargeting && (headHeight % interval == 0 || gap > interval)
            then NextWork(gap, lastBits, params) else Some(lastBits)
  {}
}
