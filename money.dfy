/** Prices and GST. Amounts are whole paise (1/100 rupee); the script's
    `Number(x.toFixed(2))` is rounding to a whole paisa, half up. */
module Money {

  /** The GST rate, 18%, as a whole percentage. */
  const GstPercent: nat := 18

  /** `Number(x.toFixed(2))` for an amount `u` counted in hundredths of a paisa:
      the whole number of paise nearest to `u / 100`, a half rounding up. */
  function Round2(u: nat): (p: nat)
    ensures 100 * p <= u + 50 < 100 * p + 100
  {
    (u + 50) / 100
  }

  /** A whole number of paise is unchanged by rounding to paise. */
  lemma Round2Whole(p: nat)
    ensures Round2(100 * p) == p
  {
  }

  /** The GST on a subtotal: `round2(subtotal * 0.18)`. */
  function Gst(subtotal: nat): (g: nat)
    ensures 100 * g <= GstPercent * subtotal + 50 < 100 * g + 100
  {
    Round2(GstPercent * subtotal)
  }

  /** The amount payable: `round2(subtotal + gst)`. With amounts in whole
      paise the second rounding is exact: the payable amount is the subtotal
      plus the GST, to the paisa. */
  function TotalWithGst(subtotal: nat): (t: nat)
    ensures t == subtotal + Gst(subtotal)
  {
    Round2Whole(subtotal + Gst(subtotal));
    Round2(100 * (subtotal + Gst(subtotal)))
  }

  /** More in the cart never means less tax. */
  lemma {:induction false} GstMonotone(a: nat, b: nat)
    requires a <= b
    ensures Gst(a) <= Gst(b)
  {
    assert 100 * Gst(a) <= GstPercent * b + 50;
  }

  /** GST never exceeds the subtotal, and a positive subtotal of at least
      3 paise draws some tax (0.18 * 3 = 0.54 rounds up to 1). */
  lemma GstBounds(subtotal: nat)
    ensures Gst(subtotal) <= subtotal
    ensures subtotal >= 3 ==> Gst(subtotal) >= 1
  {
  }

  /** A cart of 7.00 rupees: GST 1.26, total 8.26. */
  lemma SevenRupeeOrder()
    ensures Gst(700) == 126 && TotalWithGst(700) == 826
  {
  }
}
