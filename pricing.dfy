/** The AOS (agreement of sale) chain that the Unit, the Cost Sheet and the
    two recompute patches all run once the AOS value is known. */
module Pricing {
  import opened Frappe

  /** The six header figures: AOS value, GST on it, AOS + GST, TDS on it,
      net payable and the effective rate per square foot. */
  datatype Header = Header(
    aosValue: real,
    aosGst: real,
    aosValueGst: real,
    tdsAmount: real,
    netPayable: real,
    effectiveRate: real)

  const ZeroHeader := Header(0.0, 0.0, 0.0, 0.0, 0.0, 0.0)

  /** `flt(rate * area, 2)`: a per-square-foot charge, to cents. */
  function PerSft(rate: real, area: real): real
  {
    Round2(rate * area)
  }

  lemma PerSftBounds(rate: real, area: real)
    ensures -0.005 < PerSft(rate, area) - rate * area <= 0.005
  {
    Round2Bounds(rate * area);
  }

  /** GST and TDS are percentages of the AOS value, each figure is rounded
      to cents, net payable is AOS + GST - TDS and the effective rate is net
      payable per square foot. */
  function AosHeader(aos: real, area: real, gst: real, tds: real): (h: Header)
    requires area > 0.0
    ensures h.aosValue == aos
    ensures IsCents(h.aosGst) && IsCents(h.aosValueGst) && IsCents(h.tdsAmount)
    ensures IsCents(h.netPayable) && IsCents(h.effectiveRate)
  {
    var aosGst := Round2(aos * gst / 100.0);
    var withGst := Round2(aos + aosGst);
    var tdsAmount := Round2(aos * tds / 100.0);
    var net := Round2(withGst - tdsAmount);
    Header(aos, aosGst, withGst, tdsAmount, net, Round2(net / area))
  }

  /** The rounding drift of the AOS chain: net payable stays within two
      paise of the unrounded formula and the effective rate times the area
      stays within half a paisa per square foot of net payable. */
  lemma AosHeaderBounds(aos: real, area: real, gst: real, tds: real)
    requires area > 0.0
    ensures var h := AosHeader(aos, area, gst, tds);
            && -0.02 < h.netPayable - aos * (100.0 + gst - tds) / 100.0 < 0.02
            && -0.005 * area < h.effectiveRate * area - h.netPayable <= 0.005 * area
  {
    var h := AosHeader(aos, area, gst, tds);
    Round2Bounds(aos * gst / 100.0);
    Round2Bounds(aos + h.aosGst);
    Round2Bounds(aos * tds / 100.0);
    Round2Bounds(h.aosValueGst - h.tdsAmount);
    Round2Bounds(h.netPayable / area);
    EffectiveRateBound(h.netPayable, area, h.effectiveRate);
  }

  /** The unit base amount: base price times area, to cents. */
  function BaseAmount(area: real, base: real): (b: real)
    ensures -0.005 < b - area * base <= 0.005
  {
    Round2Bounds(area * base);
    Round2(area * base)
  }

  /** The AOS value: base price times area plus value excluding base
      price, to cents. */
  function AosValue(base: real, area: real, exBp: real): real
  {
    Round2(base * area + exBp)
  }

  /** The AOS value is within half a paisa of base price times area plus
      value excluding base price. */
  lemma AosValueBounds(base: real, area: real, exBp: real)
    ensures -0.005 < AosValue(base, area, exBp) - (base * area + exBp) <= 0.005
  {
    Round2Bounds(base * area + exBp);
  }

  /** Full unit value, value excluding base price and the AOS header. */
  datatype Figures = Figures(full: real, exBp: real, header: Header)

  /** The price breakdown shared by the Unit's save and the two recompute
      patches, given the area, the base rate, the sum of the per-square-foot
      premiums and the sum of the flat amounts (each variant sums different
      inputs). */
  function Recompute(area: real, base: real, premiums: real, flat: real, gst: real, tds: real): (f: Figures)
    requires area > 0.0
    ensures IsCents(f.full) && IsCents(f.exBp) && IsCents(f.header.aosValue) && IsCents(f.header.netPayable)
  {
    var exBp := Round2(area * premiums + flat);
    Figures(Round2(area * (base + premiums) + flat), exBp, AosHeader(AosValue(base, area, exBp), area, gst, tds))
  }

  /** Value excluding base price is the premiums times the area plus the
      flat amounts, full unit value adds the base amount, and the AOS value
      is the base amount plus the value excluding base price, so it stays
      within rounding of the full unit value. */
  lemma RecomputeBounds(area: real, base: real, premiums: real, flat: real, gst: real, tds: real)
    requires area > 0.0
    ensures var f := Recompute(area, base, premiums, flat, gst, tds);
            && -0.005 < f.exBp - (area * premiums + flat) <= 0.005
            && -0.005 < f.full - (area * (base + premiums) + flat) <= 0.005
            && -0.01 < f.full - f.exBp - area * base < 0.01
            && -0.015 < f.header.aosValue - f.full < 0.015
  {
    var f := Recompute(area, base, premiums, flat, gst, tds);
    Round2Bounds(area * premiums + flat);
    Round2Bounds(area * (base + premiums) + flat);
    Round2Bounds(base * area + f.exBp);
    assert area * (base + premiums) == area * base + area * premiums;
  }

  /** The header is the AOS chain run on the base amount plus the value
      excluding base price, to cents. */
  lemma RecomputeHeader(area: real, base: real, premiums: real, flat: real, gst: real, tds: real)
    requires area > 0.0
    ensures var f := Recompute(area, base, premiums, flat, gst, tds);
            && f.header.aosValue == AosValue(base, area, f.exBp)
            && f.header == AosHeader(f.header.aosValue, area, gst, tds)
  {
  }

  lemma EffectiveRateBound(net: real, area: real, eff: real)
    requires area > 0.0
    requires net / area - 0.005 < eff <= net / area + 0.005
    ensures -0.005 * area < eff * area - net <= 0.005 * area
  {
    var d := eff - net / area;
    assert (net / area) * area == net;
    assert eff * area - net == d * area;
    assert (d + 0.005) * area > 0.0;
    assert (0.005 - d) * area >= 0.0;
  }

  /** A zero AOS value gives a zero header, whatever the rates. */
  lemma AosHeaderOfZero(area: real, gst: real, tds: real)
    requires area > 0.0
    ensures AosHeader(0.0, area, gst, tds) == ZeroHeader
  {
    Round2Zero();
    assert 0.0 / area == 0.0;
  }
}
