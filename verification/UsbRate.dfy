/** The size of the packets that uac2Tx sends to the USB host. Packets have the nominal size or one
    frame more or less; once a second the fill level of the ring buffer is compared with its target,
    and single frames, evenly spread, take back half of the difference during the next second. */
module UsbRate {
  import opened Arithmetic

  const SAMPLE_RATE: nat := 48000
  const BLOCK_SIZE: nat := 64
  const RING_FRAMES: nat := 6 * BLOCK_SIZE
  const RING_FILL: nat := RING_FRAMES / 2

  function Abs(x: int): nat { if x < 0 then -x else x }

  /** C's division by two. */
  function Half(d: int): int { if d < 0 then -(-d / 2) else d / 2 }

  /** Every how many packets a frame is added or removed, for a difference of d frames; 0 is never. */
  function Thresh(d: int, uacFrames: nat): nat
    requires uacFrames > 0
  {
    if Half(d) == 0 then 0
    else
      MulLe(1, uacFrames, Abs(Half(d)));
      SAMPLE_RATE / (uacFrames * Abs(Half(d)))
  }

  function Sign(d: int, uacFrames: nat): int
    requires uacFrames > 0
  {
    if Thresh(d, uacFrames) == 0 then 0 else if Half(d) < 0 then -1 else 1
  }

  /** The adjustment due with packet number p after an update. */
  function Due(d: int, uacFrames: nat, p: nat): int
    requires uacFrames > 0
  {
    if Sign(d, uacFrames) == 0 then 0
    else if p % Thresh(d, uacFrames) == 0 then Sign(d, uacFrames) else 0
  }

  lemma NothingMeasured(uacFrames: nat)
    requires uacFrames > 0
    ensures Thresh(0, uacFrames) == 0
  {
  }

  // ---------------------------------------------------------------- arithmetic

  /** Dividing by a product is dividing twice. */
  lemma DivTwice(x: nat, n: nat, e: nat)
    requires n > 0 && e > 0
    ensures n * e > 0 && x / (n * e) == x / n / e
  {
    var p, q := x / n, x / n / e;
    MulLe(1, e, n);
    DivBounds(x, n);
    DivBounds(p, e);
    MulLe(q * e, p, n);
    MulLe(p + 1, (q + 1) * e, n);
    Assoc(q, n, e);
    Assoc(q + 1, n, e);
    Quotient(x, n * e, q);
  }

  lemma Assoc(q: nat, n: nat, e: nat)
    ensures q * (n * e) == q * e * n
  {
  }

  /** The heart of the schedule: k adjustments, one every n / e packets, within n packets are fewer
      than 2e. */
  lemma FewAdjustments(n: nat, e: nat, k: nat)
    requires e > 0 && n / e >= 1 && k * (n / e) <= n
    ensures k < 2 * e
  {
    var q := n / e;
    DivBounds(n, e);
    MulLe(1, q, e);
    assert (q + 1) * e == q * e + e;
    assert 2 * e * q == q * e + q * e;
    if 2 * e <= k {
      MulLe(2 * e, k, q);
      assert false;
    }
  }

  lemma HalfOf(d: int)
    ensures 2 * Abs(Half(d)) <= Abs(d) && (Half(d) == 0 <==> Abs(Half(d)) == 0)
  {
  }

  /** Over n packets after an update, n at most one second's worth, the frames added or removed are
      fewer than the measured difference: no overshoot. */
  lemma NoOvershoot(d: int, uacFrames: nat, packets: nat)
    requires uacFrames > 0 && Thresh(d, uacFrames) > 0 && packets <= SAMPLE_RATE / uacFrames
    ensures packets / Thresh(d, uacFrames) < Abs(d)
  {
    HalfOf(d);
    hide Half;
    hide Abs;
    OneSecond(SAMPLE_RATE, uacFrames, Abs(Half(d)), Thresh(d, uacFrames), packets);
  }

  /** Over one second after an update, the whole interval, at least half of the measured difference is
      taken back. */
  lemma HalfTakenBack(d: int, uacFrames: nat)
    requires uacFrames > 0 && Thresh(d, uacFrames) > 0
    ensures SAMPLE_RATE / uacFrames / Thresh(d, uacFrames) >= Abs(Half(d))
  {
    HalfOf(d);
    hide Half;
    hide Abs;
    AtLeast(SAMPLE_RATE, uacFrames, Abs(Half(d)), Thresh(d, uacFrames));
  }

  lemma AtLeast(rate: nat, n: nat, e: nat, t: nat)
    requires n > 0 && e > 0 && n * e > 0 && t == rate / (n * e) && t > 0
    ensures rate / n / t >= e
  {
    DivTwice(rate, n, e);
    DivBounds(rate / n, e);
    DivBounds(rate / n, t);
    if rate / n / t + 1 <= e {
      MulLe(rate / n / t + 1, e, t);
      assert false;
    }
  }

  lemma OneSecond(rate: nat, n: nat, e: nat, t: nat, packets: nat)
    requires n > 0 && e > 0 && n * e > 0 && t == rate / (n * e) && t > 0 && packets <= rate / n
    ensures packets / t < 2 * e
  {
    DivTwice(rate, n, e);
    DivBounds(packets, t);
    FewAdjustments(rate / n, e, packets / t);
  }

  /** Frames added for a ring that is too full, or left out for one that is too empty, and not more
      than it takes. */
  predicate Toward(adjusted: int, d: int) {
    && (d >= 0 ==> 0 <= adjusted <= d) && (d <= 0 ==> d <= adjusted <= 0)
    && (adjusted != 0 ==> Abs(adjusted) < Abs(d))
  }

  /** A difference of at least two frames, half of which can be spread over one second. */
  predicate Curable(d: int, uacFrames: nat) { Abs(d) >= 2 && uacFrames * (Abs(d) / 2) <= SAMPLE_RATE }

  /** Packets grow for a ring that is too full and shrink for one that is too empty, exactly when the
      difference can be treated at all. */
  lemma WhenAdjusted(d: int, uacFrames: nat)
    requires uacFrames > 0
    ensures Abs(Half(d)) == Abs(d) / 2
    ensures Curable(d, uacFrames) <==> Thresh(d, uacFrames) > 0
    ensures Sign(d, uacFrames) == if !Curable(d, uacFrames) then 0 else if d > 0 then 1 else -1
  {
    var e := Abs(Half(d));
    assert e == Abs(d) / 2;
    if e > 0 {
      MulLe(1, uacFrames, e);
      DivBounds(SAMPLE_RATE, uacFrames * e);
      if SAMPLE_RATE < uacFrames * e {
        Quotient(SAMPLE_RATE, uacFrames * e, 0);
      } else if SAMPLE_RATE / (uacFrames * e) == 0 {
        assert false;
      }
    }
  }

  /** The adjustments of at most one second, one with every threshold-th packet. */
  lemma Evenly(d: int, uacFrames: nat, packets: nat, adjusted: int)
    requires uacFrames > 0 && Curable(d, uacFrames) && packets <= SAMPLE_RATE / uacFrames
    requires Thresh(d, uacFrames) > 0 && adjusted == Sign(d, uacFrames) * (packets / Thresh(d, uacFrames))
    ensures Toward(adjusted, d)
    ensures packets == SAMPLE_RATE / uacFrames ==> Abs(d - adjusted) <= Abs(d) - Abs(d) / 2
  {
    WhenAdjusted(d, uacFrames);
    NoOvershoot(d, uacFrames, packets);
    HalfTakenBack(d, uacFrames);
    hide Thresh;
    hide Sign;
    hide Half;
    Signed(Sign(d, uacFrames), packets / Thresh(d, uacFrames));
    Lands(d, adjusted, packets / Thresh(d, uacFrames), packets == SAMPLE_RATE / uacFrames);
    hide *;
  }

  lemma Lands(d: int, adjusted: int, k: int, whole: bool)
    requires 0 <= k < Abs(d) && (whole ==> k >= Abs(d) / 2) && adjusted == if d > 0 then k else -k
    ensures Toward(adjusted, d) && (whole ==> Abs(d - adjusted) <= Abs(d) - Abs(d) / 2)
  {
  }

  lemma Signed(sign: int, k: int)
    requires sign == 1 || sign == -1
    ensures sign * k == if sign == 1 then k else -k
  {
  }

  class InEndpoint {
    const frameBytes: nat      // usbInChannels * usbWordSize
    const uacFrames: nat       // nominal frames per packet

    // the static variables of uac2Tx
    var txPreRoll: bool
    var adjustCountCurr: nat
    var adjustCountThresh: nat
    var adjustValue: int

    ghost var measured: int     // difference found by the last update
    ghost var packets: nat      // data packets since then, that of the update included
    ghost var adjusted: int     // frames added since then

    ghost predicate Valid()
      reads this
    {
      && frameBytes > 0 && uacFrames >= 2 && (uacFrames + 1) * frameBytes <= 0xFFFF
      && (txPreRoll || Scheduled())
    }

    /** The adjustments so far are evenly spread: one with every adjustCountThresh-th packet. */
    ghost predicate Scheduled()
      reads this
      requires uacFrames > 0
    {
      && adjustValue == Sign(measured, uacFrames)
      && if adjustValue == 0 then adjusted == 0
         else
           && adjustCountThresh == Thresh(measured, uacFrames)
           && adjustCountCurr == packets % adjustCountThresh
           && adjusted == adjustValue * (packets / adjustCountThresh)
    }

    constructor (frameBytes: nat, uacFrames: nat)
      requires frameBytes > 0 && uacFrames >= 2 && (uacFrames + 1) * frameBytes <= 0xFFFF
      ensures Valid() && txPreRoll
    {
      this.frameBytes, this.uacFrames := frameBytes, uacFrames;
      txPreRoll, adjustCountCurr, adjustCountThresh, adjustValue := true, 0, 0, 0;
      measured, packets, adjusted := 0, 0, 0;
    }

    lemma NominalFrames(minSize: nat, maxSize: nat)
      requires Valid() && minSize == (uacFrames - 1) * frameBytes && maxSize == (uacFrames + 1) * frameBytes
      ensures minSize > 0 && (minSize + maxSize) / 2 == uacFrames * frameBytes
      ensures (minSize + maxSize) / 2 / frameBytes == uacFrames
    {
      assert minSize + maxSize == 2 * (uacFrames * frameBytes);
      MulLe(1, uacFrames - 1, frameBytes);
      Quotient(uacFrames * frameBytes, frameBytes, uacFrames);
    }

    /** One packet. The endpoint is configured with sizes one frame below and above the nominal one,
        or not at all; ringFrames is the present fill level, and average that of the last interval
        when the interval is over. The packet carries data, or silence until the ring is filled. */
    method Tx(minSize: nat, maxSize: nat, ringFrames: nat, update: bool, average: nat)
      returns (size: nat, data: bool, ghost change: int)
      requires Valid() && average <= RING_FRAMES
      requires minSize == 0 || maxSize == 0 ||
               (minSize == (uacFrames - 1) * frameBytes && maxSize == (uacFrames + 1) * frameBytes)
      modifies this
      ensures Valid()
      ensures if minSize == 0 || maxSize == 0 then size == 0 && !data && txPreRoll == old(txPreRoll)
              else
                && data == (ringFrames >= if old(txPreRoll) then RING_FILL else uacFrames)
                && txPreRoll == !data
                && -1 <= change <= 1 && (!data ==> change == 0)
                && size == (uacFrames + change) * frameBytes && minSize <= size <= maxSize
      ensures data ==>
                var restart := update || old(txPreRoll);
                && measured == (if update then average - RING_FILL else if restart then 0 else old(measured))
                && packets == (if restart then 0 else old(packets)) + 1
                && adjusted == (if restart then 0 else old(adjusted)) + change
                && change == Due(measured, uacFrames, packets)
      ensures data ==> change == 0 || (change > 0 <==> measured > 0)
      ensures !txPreRoll && packets <= SAMPLE_RATE / uacFrames ==> Toward(adjusted, measured)
      ensures !txPreRoll && packets == SAMPLE_RATE / uacFrames && Curable(measured, uacFrames) ==>
                Abs(measured - adjusted) <= Abs(measured) - Abs(measured) / 2
    {
      change, data := 0, false;
      hide Thresh;
      if minSize == 0 || maxSize == 0 {
        Bounded();
        return 0, false, 0;
      }
      NominalFrames(minSize, maxSize);
      size := (minSize + maxSize) / 2;
      var frames := size / frameBytes;
      if txPreRoll {
        if ringFrames < RING_FILL {
          return;
        }
        adjustCountCurr, adjustCountThresh, adjustValue, txPreRoll := 0, 0, 0, false;
        measured, packets, adjusted := 0, 0, 0;
        NothingMeasured(uacFrames);
      } else if ringFrames < frames {
        txPreRoll := true;
        return;
      }
      data := true;
      if update {
        Measure(average);
      }
      WhenAdjusted(measured, uacFrames);
      var step := Adjust();
      change, frames := step, frames + step;
      hide Scheduled;
      Bounded();
      size := frames * frameBytes;
    }

    /** The frame that the next packet has more or less. */
    method Adjust() returns (step: int)
      requires uacFrames > 0 && Scheduled()
      modifies `adjustCountCurr, `packets, `adjusted
      ensures Scheduled() && packets == old(packets) + 1 && adjusted == old(adjusted) + step
      ensures step == Due(measured, uacFrames, packets) && -1 <= step <= 1
    {
      hide Thresh;
      NextPacket();
      step := 0;
      if adjustValue != 0 {
        adjustCountCurr := adjustCountCurr + 1;
        if adjustCountCurr == adjustCountThresh {
          step := adjustValue;
          adjustCountCurr := 0;
        }
      }
      packets, adjusted := packets + 1, adjusted + step;
    }

    /** A new difference, and a new schedule for half of it. */
    method Measure(average: nat)
      requires uacFrames > 0 && average <= RING_FRAMES
      modifies this
      ensures txPreRoll == old(txPreRoll)
      ensures measured == average - RING_FILL && packets == adjusted == adjustCountCurr == 0
      ensures adjustValue == Sign(measured, uacFrames) && adjustCountThresh == Thresh(measured, uacFrames)
    {
      var error := Half(average - RING_FILL);
      if error != 0 {
        MulLe(1, uacFrames, Abs(error));
        adjustCountThresh := SAMPLE_RATE / (uacFrames * Abs(error));
        adjustValue := if adjustCountThresh != 0 then (if error < 0 then -1 else 1) else 0;
      } else {
        adjustCountThresh := 0;
        adjustValue := 0;
      }
      adjustCountCurr := 0;
      measured, packets, adjusted := average - RING_FILL, 0, 0;
    }

    lemma NextPacket()
      requires uacFrames > 0 && Scheduled()
      ensures adjustValue != 0 ==>
        var t := adjustCountThresh;
        && t > 0
        && (adjustCountCurr + 1 == t <==> (packets + 1) % t == 0)
        && (packets + 1) % t == (if adjustCountCurr + 1 == t then 0 else adjustCountCurr + 1)
        && (packets + 1) / t == packets / t + (if adjustCountCurr + 1 == t then 1 else 0)
    {
      if adjustValue != 0 {
        StepDiv(packets, adjustCountThresh);
      }
    }

    lemma Bounded()
      requires uacFrames > 0 && (txPreRoll || Scheduled())
      ensures !txPreRoll && packets <= SAMPLE_RATE / uacFrames ==> Toward(adjusted, measured)
      ensures !txPreRoll && packets == SAMPLE_RATE / uacFrames && Curable(measured, uacFrames) ==>
                Abs(measured - adjusted) <= Abs(measured) - Abs(measured) / 2
    {
      if !txPreRoll && packets <= SAMPLE_RATE / uacFrames {
        WhenAdjusted(measured, uacFrames);
        if adjustValue != 0 {
          Evenly(measured, uacFrames, packets, adjusted);
        }
        hide Thresh;
        hide Sign;
      }
    }
  }
}
