/** The ranking bar's fill: `top` values are percentages already, every
    other type is scaled against a reference of 5000. Nothing is clamped. */
module ProgressBar {
  import opened Common

  /** The reference value that maps to a full bar for rising queries. */
  const RisingReference: real := 5000.0

  /** `type = 'top'`: an omitted type is `top`. */
  function TypeOrDefault(kind: Option<string>): (t: string)
    ensures kind.None? ==> t == "top"
    ensures kind.Some? ==> t == kind.value
  {
    if kind.Some? then kind.value else "top"
  }

  /** `type === 'top' ? value : (value / 5000) * 100`. */
  function Percentage(value: real, kind: Option<string>): (p: real)
    ensures TypeOrDefault(kind) == "top" ==> p == value
    ensures TypeOrDefault(kind) != "top" ==> p * RisingReference == value * 100.0
  {
    if TypeOrDefault(kind) == "top" then value else value / RisingReference * 100.0
  }

  /** For `top` (and for an omitted type) the value is the percentage; for any
      other type it is the value divided by 50. */
  lemma PercentageByType(value: real, kind: Option<string>)
    ensures TypeOrDefault(kind) == "top" ==> Percentage(value, kind) == value
    ensures TypeOrDefault(kind) != "top" ==> Percentage(value, kind) == value / 50.0
    ensures Percentage(value, None) == value
  {
  }

  /** The rising scale is not clamped: 2500 fills half the bar, 10000 fills
      twice the bar, and a negative value stays negative. */
  lemma RisingUnclamped()
    ensures Percentage(2500.0, Some("rising")) == 50.0
    ensures Percentage(10000.0, Some("rising")) == 200.0
    ensures Percentage(-100.0, Some("rising")) == -2.0
  {
  }

  /** The rising scale preserves order: a larger value never gets a shorter bar. */
  lemma RisingMonotone(a: real, b: real, kind: string)
    requires kind != "top" && a <= b
    ensures Percentage(a, Some(kind)) <= Percentage(b, Some(kind))
  {
    assert Percentage(a, Some(kind)) == a / 50.0;
    assert Percentage(b, Some(kind)) == b / 50.0;
  }

  /** Reading any computed percentage back as a `top` value leaves it
      unchanged, whatever type produced it. */
  lemma TopIdempotent(value: real, kind: Option<string>)
    ensures Percentage(Percentage(value, kind), Some("top")) == Percentage(value, kind)
  {
  }

  /** The animation's two widths: from 0 to the percentage followed by '%'.
      `show` is the number-to-text conversion of the template literal. */
  datatype BarVariants = BarVariants(hiddenWidth: real, visibleWidth: string)

  function Variants(value: real, kind: Option<string>, show: real -> string): (v: BarVariants)
    ensures v.hiddenWidth == 0.0
    ensures v.visibleWidth == show(Percentage(value, kind)) + "%"
  {
    BarVariants(0.0, show(Percentage(value, kind)) + "%")
  }
}
