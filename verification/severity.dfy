/** What the overwrite passes of `plot_histogram` leave on each bar, stated
    region by region, for the clinical borders and for the legend. */
module Severity {
  import opened Results
  import opened Histogram

  /** The last pass raises IndexError exactly when the border is -390 or
      lower (its first index is then below -39); otherwise there are 39 colours. */
  lemma PaintFailsIff(border: int)
    ensures Paint(border).Err? <==> border <= -390
    ensures Paint(border).Err? ==> Paint(border).error == IndexError(BandStart(border))
    ensures Paint(border).Ok? ==> |Paint(border).value| == NumBins
  {
    if border >= 0 {
      assert TruncDiv10(border) >= 0;
    } else {
      assert TruncDiv10(border) == -((-border) / 10);
      assert BandStart(border) < -39 <==> (-border) / 10 >= 39;
    }
  }

  /** A border of at least 10 makes the band start at a non-negative bar. */
  lemma BandStartNonNegative(border: int)
    ensures BandStart(border) >= 0 <==> border >= 10
    ensures border >= 10 ==> BandStart(border) == border / 10 - 1
  {
  }

  /** Bars 4 and 5 end orange for every border the passes accept: no later
      pass writes anything but orange. */
  lemma FixedOrangeBins(border: int)
    requires BandStart(border) >= -(NumBins as int)
    ensures FinalColour(4, border) == Orange && FinalColour(5, border) == Orange
  {
  }

  /** For a border of at least 10 the final colour of every bar, region by
      region: orange exactly on 4, 5 and the band `[border/10 - 1, 19)`; red
      exactly on the bars 0..3 below the band and on 19..38; green exactly on
      the bars from 6 up to the band. */
  lemma ColourRegions(border: int, k: int)
    requires border >= 10
    requires 0 <= k < NumBins
    ensures FinalColour(k, border) == Orange
        <==> k == 4 || k == 5 || border / 10 - 1 <= k < HighZone
    ensures FinalColour(k, border) == Red
        <==> (k < 4 && k < border / 10 - 1) || HighZone <= k
    ensures FinalColour(k, border) == Green
        <==> 6 <= k < border / 10 - 1 && k < HighZone
  {
    BandStartNonNegative(border);
  }

  /** Bar 38 stays red exactly when the border is at least 10; a smaller
      border makes the band's negative indices reach back to the top bars. */
  lemma TopBinRedIff(border: int)
    requires border > -390
    ensures Paint(border).Ok?
    ensures Paint(border).value[NumBins - 1] == Red <==> border >= 10
  {
    PaintFailsIff(border);
    BandStartNonNegative(border);
  }

  /** Below a border of 10 every bar the band reaches from the end turns
      orange: the top `-(border/10 - 1)` bars of the red zone. */
  lemma LowBorderWrapsAround(border: int, k: int)
    requires -390 < border < 10
    requires NumBins + BandStart(border) <= k < NumBins
    ensures Paint(border).Ok? && Paint(border).value[k] == Orange
  {
    PaintFailsIff(border);
  }

  /** The legend samples bars 0, 4 and 6 as "life at risk", "abnormal" and
      "normal"; they show red, orange and green exactly when the border is at
      least 80. */
  lemma LegendFaithfulIff(border: int)
    requires border > -390
    ensures Paint(border).Ok?
    ensures (Paint(border).value[0] == Red && Paint(border).value[4] == Orange
             && Paint(border).value[6] == Green) <==> border >= 80
  {
    PaintFailsIff(border);
    BandStartNonNegative(border);
    if border >= 10 {
      ColourRegions(border, 0);
      ColourRegions(border, 6);
    }
  }

  /** For a border in [10, 400) the band starts at the bar whose value range
      holds the border itself. */
  lemma BandStartsAtBorderBin(border: int)
    requires 10 <= border < 400
    ensures 0 <= BandStart(border) < NumBins
    ensures Edge(BandStart(border)) <= border < Edge(BandStart(border) + 1)
  {
    BandStartNonNegative(border);
  }

  /** The whole layout for the fasting border 100: band from bar 9. */
  lemma FastingLayout()
    ensures Paint(100) == Ok([Red, Red, Red, Red, Orange, Orange, Green, Green, Green]
                             + seq(10, _ => Orange) + seq(20, _ => Red))
  {
    var expected := [Red, Red, Red, Red, Orange, Orange, Green, Green, Green]
                    + seq(10, _ => Orange) + seq(20, _ => Red);
    assert BandStart(100) == 9;
    assert Paint(100).Ok? && |Paint(100).value| == |expected| == NumBins;
    assert forall k :: 0 <= k < NumBins ==> Paint(100).value[k] == expected[k];
    assert Paint(100).value == expected;
  }

  /** The whole layout for the after-eating border 140: band from bar 13. */
  lemma AfterEatingLayout()
    ensures Paint(140) == Ok([Red, Red, Red, Red, Orange, Orange]
                             + seq(7, _ => Green) + seq(6, _ => Orange) + seq(20, _ => Red))
  {
    var expected := [Red, Red, Red, Red, Orange, Orange]
                    + seq(7, _ => Green) + seq(6, _ => Orange) + seq(20, _ => Red);
    assert BandStart(140) == 13;
    assert Paint(140).Ok? && |Paint(140).value| == |expected| == NumBins;
    assert forall k :: 0 <= k < NumBins ==> Paint(140).value[k] == expected[k];
    assert Paint(140).value == expected;
  }
}
