/**
 * The range labels of `colorSchemes` against the thresholds of
 * `getColorForFeature`: every label is written with the formatted
 * thresholds of its level, so the legend names the boundaries the colouring
 * uses.
 */
module SchemeLabels {
  import opened Options
  import opened NumberFormat
  import opened Classification

  /**
   * The legend labels of a level read off its thresholds: "< t0", then
   * "t(i-1) - t(i)", then "> t3", each threshold formatted by `formatNumber`.
   */
  predicate LabelsFormatted(r: seq<string>, t: seq<int>)
    requires |r| == 5 && |t| == 4
  {
    r[0] == "< " + FormatNumber(Some(t[0])) &&
    r[1] == FormatNumber(Some(t[0])) + " - " + FormatNumber(Some(t[1])) &&
    r[2] == FormatNumber(Some(t[1])) + " - " + FormatNumber(Some(t[2])) &&
    r[3] == FormatNumber(Some(t[2])) + " - " + FormatNumber(Some(t[3])) &&
    r[4] == "> " + FormatNumber(Some(t[3]))
  }

  // The formatted thresholds, one per lemma so that each proof stays small.

  lemma Text500000()
    ensures FormatNumber(Some(500000)) == "500,000"
  {
    FormatsSmall(500, "500");
    FormatsThousands(500, "500");
  }

  lemma Text800000()
    ensures FormatNumber(Some(800000)) == "800,000"
  {
    FormatsSmall(800, "800");
    FormatsThousands(800, "800");
  }

  lemma Text30000()
    ensures FormatNumber(Some(30000)) == "30,000"
  {
    FormatsSmall(30, "30");
    FormatsThousands(30, "30");
  }

  lemma Text80000()
    ensures FormatNumber(Some(80000)) == "80,000"
  {
    FormatsSmall(80, "80");
    FormatsThousands(80, "80");
  }

  lemma Text150000()
    ensures FormatNumber(Some(150000)) == "150,000"
  {
    FormatsSmall(150, "150");
    FormatsThousands(150, "150");
  }

  lemma Text250000()
    ensures FormatNumber(Some(250000)) == "250,000"
  {
    FormatsSmall(250, "250");
    FormatsThousands(250, "250");
  }

  lemma Text5000()
    ensures FormatNumber(Some(5000)) == "5,000"
  {
    FormatsSmall(5, "5");
    FormatsThousands(5, "5");
  }

  lemma Text15000()
    ensures FormatNumber(Some(15000)) == "15,000"
  {
    FormatsSmall(15, "15");
    FormatsThousands(15, "15");
  }

  lemma Text60000()
    ensures FormatNumber(Some(60000)) == "60,000"
  {
    FormatsSmall(60, "60");
    FormatsThousands(60, "60");
  }

  lemma Text1200000()
    ensures FormatNumber(Some(1200000)) == "1,200,000"
  {
    FormatsSmall(1, "1");
    FormatThousands(1, 200);
    assert Block3(200) == "200";
    FormatsThousands(1200, "1,200");
  }

  lemma Text1500000()
    ensures FormatNumber(Some(1500000)) == "1,500,000"
  {
    FormatsSmall(1, "1");
    FormatThousands(1, 500);
    assert Block3(500) == "500";
    FormatsThousands(1500, "1,500");
  }

  /** The province thresholds, and the province range labels split at the threshold texts. */
  lemma ProvinciaRanges()
    ensures Thresholds(Provincia) == [500000, 800000, 1200000, 1500000]
    ensures SchemeOf(Provincia).ranges ==
      ["< " + "500,000", "500,000" + " - " + "800,000", "800,000" + " - " + "1,200,000",
       "1,200,000" + " - " + "1,500,000", "> " + "1,500,000"]
  {
    var r := SchemeOf(Provincia).ranges;
    assert r[0] == "< " + "500,000";
    assert r[1] == "500,000" + " - " + "800,000";
    assert r[2] == "800,000" + " - " + "1,200,000";
    assert r[3] == "1,200,000" + " - " + "1,500,000";
    assert r[4] == "> " + "1,500,000";
  }

  /** The province range labels are the formatted province thresholds. */
  lemma ProvinciaLabels()
    ensures LabelsFormatted(SchemeOf(Provincia).ranges, Thresholds(Provincia))
  {
    ProvinciaRanges();
    Text500000();
    Text800000();
    Text1200000();
    Text1500000();
  }

  /** The canton thresholds, and the canton range labels split at the threshold texts. */
  lemma CantonRanges()
    ensures Thresholds(Canton) == [30000, 80000, 150000, 250000]
    ensures SchemeOf(Canton).ranges ==
      ["< " + "30,000", "30,000" + " - " + "80,000", "80,000" + " - " + "150,000",
       "150,000" + " - " + "250,000", "> " + "250,000"]
  {
    var r := SchemeOf(Canton).ranges;
    assert r[0] == "< " + "30,000";
    assert r[1] == "30,000" + " - " + "80,000";
    assert r[2] == "80,000" + " - " + "150,000";
    assert r[3] == "150,000" + " - " + "250,000";
    assert r[4] == "> " + "250,000";
  }

  /** The canton range labels are the formatted canton thresholds. */
  lemma CantonLabels()
    ensures LabelsFormatted(SchemeOf(Canton).ranges, Thresholds(Canton))
  {
    CantonRanges();
    Text30000();
    Text80000();
    Text150000();
    Text250000();
  }

  /** The district thresholds, and the district range labels split at the threshold texts. */
  lemma DistritoRanges()
    ensures Thresholds(Distrito) == [5000, 15000, 30000, 60000]
    ensures SchemeOf(Distrito).ranges ==
      ["< " + "5,000", "5,000" + " - " + "15,000", "15,000" + " - " + "30,000",
       "30,000" + " - " + "60,000", "> " + "60,000"]
  {
    var r := SchemeOf(Distrito).ranges;
    assert r[0] == "< " + "5,000";
    assert r[1] == "5,000" + " - " + "15,000";
    assert r[2] == "15,000" + " - " + "30,000";
    assert r[3] == "30,000" + " - " + "60,000";
    assert r[4] == "> " + "60,000";
  }

  /** The district range labels are the formatted district thresholds. */
  lemma DistritoLabels()
    ensures LabelsFormatted(SchemeOf(Distrito).ranges, Thresholds(Distrito))
  {
    DistritoRanges();
    Text5000();
    Text15000();
    Text30000();
    Text60000();
  }

  /**
   * Every level's five range labels are "< t0", "t0 - t1", "t1 - t2",
   * "t2 - t3" and "> t3" with its thresholds formatted as `formatNumber`
   * formats a population.
   */
  lemma RangeLabels(l: Level)
    ensures LabelsFormatted(SchemeOf(l).ranges, Thresholds(l))
  {
    match l
    case Provincia => ProvinciaLabels();
    case Canton => CantonLabels();
    case Distrito => DistritoLabels();
  }

  /**
   * The top label reads "> t3", yet a population of exactly t3 is coloured
   * with the top bucket's colour.
   */
  lemma TopLabelIncludesThreshold(l: Level)
    ensures SchemeOf(l).ranges[4] == "> " + FormatNumber(Some(Thresholds(l)[3]))
    ensures Bucket(l, Thresholds(l)[3]) == 4
  {
    RangeLabels(l);
    ThresholdGoesUp(l, 3);
  }
}
