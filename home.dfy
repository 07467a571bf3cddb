/**
 * The home page's data adapter (src/app/pages/home/home.component.ts): the
 * zip of the service's two parallel sequences into chart points, and the two
 * string formatters handed to the pie chart.
 */
module Home {
  import opened Models
  import opened Decimal
  import Olympics

  /** The medal glyph of the site's icon font (private-use code point E001). */
  const MedalGlyph: char := '\U{E001}'

  /** The pie labels are padded with EN SPACE, because ordinary spaces are clipped. */
  const EnSpace: char := '\U{2002}'

  /**
   * `countryNames.map((name, i) => ({ name, value: countryTotalMedals[i] }))`:
   * one point per name, in name order, paired with the total at the same index.
   */
  function ChartData(countryNames: seq<string>, countryTotalMedals: seq<int>): (r: seq<ChartPoint>)
    requires |countryNames| <= |countryTotalMedals|
    ensures |r| == |countryNames|
    ensures forall i :: 0 <= i < |r| ==>
      r[i].name == countryNames[i] && r[i].value == countryTotalMedals[i]
  {
    if countryNames == [] then []
    else [ChartPoint(countryNames[0], countryTotalMedals[0])] + ChartData(countryNames[1..], countryTotalMedals[1..])
  }

  function ChartNames(points: seq<ChartPoint>): seq<string>
  {
    if points == [] then [] else [points[0].name] + ChartNames(points[1..])
  }

  function ChartValues(points: seq<ChartPoint>): seq<int>
  {
    if points == [] then [] else [points[0].value] + ChartValues(points[1..])
  }

  /** Unzipping the chart data gives back the names and the totals that were used. */
  lemma {:induction false} ChartDataUnzip(countryNames: seq<string>, countryTotalMedals: seq<int>)
    requires |countryNames| <= |countryTotalMedals|
    ensures ChartNames(ChartData(countryNames, countryTotalMedals)) == countryNames
    ensures ChartValues(ChartData(countryNames, countryTotalMedals)) == countryTotalMedals[..|countryNames|]
    decreases |countryNames|
  {
    if countryNames != [] {
      ChartDataUnzip(countryNames[1..], countryTotalMedals[1..]);
      assert countryTotalMedals[..|countryNames|]
          == [countryTotalMedals[0]] + countryTotalMedals[1..][..|countryNames| - 1];
    }
  }

  /**
   * The home page's chart data chained after the service: no data gives an
   * empty chart; a loaded list gives one point per country, in list order,
   * carrying its name and medal total.
   */
  lemma ChartOfHolder(h: Olympics.Holder)
    ensures var t := Olympics.MedalsByCountry(h);
      |t.countryNames| <= |t.countryTotalMedals| &&
      (!h.Loaded? ==> ChartData(t.countryNames, t.countryTotalMedals) == []) &&
      (h.Loaded? ==>
        |ChartData(t.countryNames, t.countryTotalMedals)| == |h.list| &&
        forall i :: 0 <= i < |h.list| ==>
          ChartData(t.countryNames, t.countryTotalMedals)[i]
            == ChartPoint(h.list[i].country, Olympics.TotalMedals(h.list[i].participations)))
  {
    Olympics.MedalsByCountryAt(h);
  }

  /** The tooltip text: the name, a line break, the medal glyph and the value. */
  function FormatTooltip(data: ChartPoint): string
  {
    data.name + "<br>" + [MedalGlyph] + IntToString(data.value)
  }

  /** A tooltip splits back into its name, the separator and its value. */
  lemma TooltipParts(data: ChartPoint)
    ensures var r := FormatTooltip(data); var n := |data.name|;
      |r| > n + 5 &&
      r[..n] == data.name &&
      r[n..n + 5] == "<br>" + [MedalGlyph] &&
      ParseInt(r[n + 5..]) == Some(data.value)
  {
    var r := FormatTooltip(data);
    var n := |data.name|;
    assert r[n + 5..] == IntToString(data.value);
    ParseIntToString(data.value);
  }

  /** The glyph after the name is the last one in the tooltip. */
  lemma SeparatorIsLastGlyph(data: ChartPoint)
    ensures var r := FormatTooltip(data); var n := |data.name|;
      |r| > n + 5 && r[n + 4] == MedalGlyph &&
      forall k :: n + 4 < k < |r| ==> r[k] != MedalGlyph
  {
  }

  /** Two chart points with the same tooltip are the same point. */
  lemma TooltipInjective(a: ChartPoint, b: ChartPoint)
    ensures FormatTooltip(a) == FormatTooltip(b) ==> a == b
  {
    if FormatTooltip(a) == FormatTooltip(b) {
      var s := FormatTooltip(a);
      var na, nb := |a.name|, |b.name|;
      // The separator's glyph is the last glyph: a rendered number has none.
      SeparatorIsLastGlyph(a);
      SeparatorIsLastGlyph(b);
      assert na == nb;
      assert a.name == s[..na] == b.name;
      assert IntToString(a.value) == s[na + 5..] == IntToString(b.value);
      IntToStringInjective(a.value, b.value);
    }
  }

  /** The pie labelText with one en space on each side. */
  function LabelFormatting(labelText: string): string
  {
    [EnSpace] + labelText + [EnSpace]
  }

  /** Strips one en space from each end; `None` when the text is not so padded. */
  function StripLabelPadding(s: string): Option<string>
  {
    if |s| >= 2 && s[0] == EnSpace && s[|s| - 1] == EnSpace then Some(s[1..|s| - 1]) else None
  }

  /** A padded labelText is two characters longer and strips back to the label. */
  lemma LabelRoundTrip(labelText: string)
    ensures |LabelFormatting(labelText)| == |labelText| + 2
    ensures StripLabelPadding(LabelFormatting(labelText)) == Some(labelText)
  {
  }
}
