/**
 * The gap view of the gallery variant
 * (app/github-repo/components/PersonaDiffPanel.tsx): for each of the five
 * dimensions, the gap from the current value to the target persona's, whether
 * it counts as aligned, the sign prefix and the bar colour.
 *
 * The memoised computeDimensionDiff result is never rendered and its source
 * is not part of this model; the rows are what the render loop computes.
 */
module PersonaDiff {
  import opened Types
  import opened Wrappers

  /** A gap smaller than this in magnitude counts as aligned. */
  const AlignedBand: real := 0.1

  const Grey := "#D6D3D1"
  const Yellow := "#FAFF00"
  const Lime := "#CCFF00"

  /** One rendered row. */
  datatype GapRow = GapRow(key: Dimension, current: real, target: real, gap: real,
                           aligned: bool, prefix: string, barColor: string)

  /** The row of key `k`. */
  function RowFor(current: PersonaDimensions, target: PersonaDimensions, k: Dimension): GapRow {
    var currentVal := Get(current, k);
    var targetVal := Get(target, k);
    var diff := targetVal - currentVal;
    var isAligned := Abs(diff) < AlignedBand;
    GapRow(k, currentVal, targetVal, diff, isAligned,
           if diff > 0.0 then "+" else "",
           if isAligned then Grey else if diff > 0.0 then Yellow else Lime)
  }

  /** What the panel shows. */
  datatype DiffView = NoSeeds | NoTarget | Gaps(rows: seq<GapRow>)

  /** The panel: no current dimensions takes precedence over no target; otherwise one row per key. */
  function DiffPanel(current: Option<PersonaDimensions>, target: Option<TargetPersona>): (view: DiffView)
    ensures current.None? ==> view == NoSeeds
    ensures current.Some? && target.None? ==> view == NoTarget
    ensures view.Gaps? ==> current.Some? && target.Some?
  {
    if current.None? then NoSeeds
    else if target.None? then NoTarget
    else Gaps(seq(5, i requires 0 <= i < 5 => RowFor(current.value, target.value.dimensions, DimensionKeys[i])))
  }

  /** Row `i` is the gap of key `i`: target minus current, with the two values it came from. */
  lemma RowsByKey(current: PersonaDimensions, target: TargetPersona, i: nat)
    requires i < 5
    ensures var view := DiffPanel(Some(current), Some(target));
      && view.Gaps? && |view.rows| == 5
      && view.rows[i].key == DimensionKeys[i]
      && view.rows[i].current == Get(current, DimensionKeys[i])
      && view.rows[i].target == Get(target.dimensions, DimensionKeys[i])
      && view.rows[i].gap == view.rows[i].target - view.rows[i].current
  {
  }

  /**
   * The bar is grey exactly when aligned, yellow exactly when the target is
   * more than 0.1 above the current value, lime exactly when it is at least
   * 0.1 below; the prefix is '+' exactly when the gap is positive.
   */
  lemma RowColours(current: PersonaDimensions, target: PersonaDimensions, k: Dimension)
    ensures var row := RowFor(current, target, k);
      var t := Get(target, k);
      var c := Get(current, k);
      && (row.barColor == Grey <==> c - 0.1 < t < c + 0.1)
      && (row.barColor == Yellow <==> t >= c + 0.1)
      && (row.barColor == Lime <==> t <= c - 0.1)
      && (row.prefix == "+" <==> t > c)
  {
  }

  /** A persona compared with itself is aligned on all five dimensions, every bar grey. */
  lemma SelfComparisonAligned(d: PersonaDimensions, target: TargetPersona, i: nat)
    requires target.dimensions == d && i < 5
    ensures DiffPanel(Some(d), Some(target)).rows[i].aligned
    ensures DiffPanel(Some(d), Some(target)).rows[i].barColor == Grey
  {
  }

  /** Swapping current and target negates the gap and keeps whether it is aligned. */
  lemma GapAntisymmetric(a: PersonaDimensions, b: PersonaDimensions, k: Dimension)
    ensures RowFor(a, b, k).gap == -RowFor(b, a, k).gap
    ensures RowFor(a, b, k).aligned == RowFor(b, a, k).aligned
    ensures !RowFor(a, b, k).aligned ==> (RowFor(a, b, k).barColor == Yellow <==> RowFor(b, a, k).barColor == Lime)
  {
  }
}
