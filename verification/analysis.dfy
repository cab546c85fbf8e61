/** `SecondPage.analise`: the mode combo chooses a filter label and a
    clinical border, two filtering steps may end the analysis early, and only
    a non-empty result reaches the statistics, the list widget and the plot.
    The measurement-store helpers are not part of this model; they are
    carried as uninterpreted functions. */
module Analysis {
  import opened Results
  import Histogram
  import Labels
  import Severity

  /** What the measurement-store helper `analise_measurements` reports. */
  datatype Stats = Stats(average: real, minimum: int, maximum: int)

  /** The measurement-store helpers `analise` calls, as opaque functions over
      measurements of type `M`. */
  datatype Helpers<!M> = Helpers(
    startDate: (int, string) -> string,          // return_start_date, then "%d.%m.%Y"
    withMode: (string, seq<M>) -> seq<M>,        // find_measurements_with_specific_mode
    fromPeriod: (int, string, seq<M>) -> seq<M>, // find_measurements_from_period
    statistics: seq<M> -> Stats,                 // analise_measurements
    sortChronologically: seq<M> -> seq<M>,       // return_sorted_chronologically
    describe: seq<M> -> seq<string>,             // string_measurement_list
    sugarValues: seq<M> -> seq<int>)             // return_sugar_values

  /** The mode filter chosen by a mode code: the label the store filters on
      and the border value handed to the histogram. */
  datatype ModeFilter = ModeFilter(name: string, border: int)

  /** The arguments `analise` passes to `plot_histogram`. */
  datatype PlotCall = PlotCall(values: seq<int>, border: int, mode: int, startDate: string, endDate: string)

  /** The widgets `analise` writes: the measurement list, the three
      statistics labels (None while they show no number) and the image label. */
  datatype View = View(listing: seq<string>, stats: Option<Stats>, image: Option<PlotCall>)

  /** The message box text shown when a filter leaves nothing. */
  const NoSuchMeasurements: string := "There aren't such measurements"

  /** The view after `analise` and the message box it opened, if any. */
  datatype Outcome = Outcome(view: View, message: Option<string>)

  /** The mode branch: code 1 ("All") filters nothing and has no border,
      code 3 is "after eating" with 140, every other code is "fasting" with 100. */
  function ModeChoice(mode: int): (f: Option<ModeFilter>)
    ensures f.None? <==> mode == 1
    ensures f.Some? ==> (f.value.name == "after eating" <==> mode == 3)
    ensures f.Some? ==> (f.value.border == 140 <==> mode == 3)
    ensures f.Some? && mode != 3 ==> f.value == ModeFilter("fasting", 100)
  {
    if mode != 1 then
      if mode == 3 then Some(ModeFilter("after eating", 140))
      else Some(ModeFilter("fasting", 100))
    else None
  }

  /** The measurements left after the mode branch. */
  function ModeStage<M>(h: Helpers<M>, mode: int, stored: seq<M>): seq<M> {
    match ModeChoice(mode)
    case None => stored
    case Some(f) => h.withMode(f.name, stored)
  }

  /** The measurements left after both filters. */
  function PeriodStage<M>(h: Helpers<M>, period: int, mode: int, endDate: string, stored: seq<M>): seq<M> {
    h.fromPeriod(period, endDate, ModeStage(h, mode, stored))
  }

  /** One press of the Analysis button, from the combo indices, the displayed
      end date and the stored measurements. */
  function Analise<M>(h: Helpers<M>, before: View, periodIndex: int, modeIndex: int,
                      endDate: string, stored: seq<M>): (r: Outcome)
    // a message box exactly when a filter step leaves nothing
    ensures r.message.Some? <==>
      |ModeStage(h, modeIndex + 1, stored)| == 0
      || |PeriodStage(h, periodIndex + 1, modeIndex + 1, endDate, stored)| == 0
    // an early return clears only the image; list and labels keep the last analysis
    ensures r.message.Some? ==>
      r.message.value == NoSuchMeasurements
      && r.view.listing == before.listing && r.view.stats == before.stats
      && r.view.image.None?
    // statistics and the list come from the non-empty doubly filtered measurements
    ensures r.message.None? ==>
      var selected := PeriodStage(h, periodIndex + 1, modeIndex + 1, endDate, stored);
      |selected| > 0
      && r.view.stats == Some(h.statistics(selected))
      && r.view.listing == h.describe(h.sortChronologically(selected))
    // a plot exactly for a successful analysis in a filtering mode
    ensures r.view.image.Some? <==> r.message.None? && modeIndex + 1 != 1
    ensures r.view.image.Some? ==>
      var call := r.view.image.value;
      var selected := PeriodStage(h, periodIndex + 1, modeIndex + 1, endDate, stored);
      call.border == (if modeIndex + 1 == 3 then 140 else 100)
      && call.mode == modeIndex + 1
      && call.values == h.sugarValues(h.sortChronologically(selected))
      && call.startDate == h.startDate(periodIndex + 1, endDate)
      && call.endDate == endDate
  {
    var period := periodIndex + 1;
    var mode := modeIndex + 1;
    var startDate := h.startDate(period, endDate);
    var cleared := before.(image := None);
    var choice := ModeChoice(mode);
    var filtered := match choice
      case None => stored
      case Some(f) => h.withMode(f.name, stored);
    if |filtered| == 0 then Outcome(cleared, Some(NoSuchMeasurements))
    else
      var selected := h.fromPeriod(period, endDate, filtered);
      if |selected| == 0 then Outcome(cleared, Some(NoSuchMeasurements))
      else
        var stats := h.statistics(selected);
        var sorted := h.sortChronologically(selected);
        var image := match choice
          case None => None
          case Some(f) => Some(PlotCall(h.sugarValues(sorted), f.border, mode, startDate, endDate));
        Outcome(View(h.describe(sorted), Some(stats), image), None)
  }

  /** For the codes the combo offers, the title names the same mode the
      filter used: "fasting" for code 2, "after eating" for code 3. */
  lemma TitleMatchesFilter(mode: int)
    requires mode == 2 || mode == 3
    ensures ModeChoice(mode).Some?
    ensures Labels.ModeLabel(mode) == ModeChoice(mode).value.name
  {
  }

  /** A code outside the combo's three would filter on "fasting" with border
      100 but title the plot "after eating". */
  lemma UnofferedCodeMislabels()
    ensures ModeChoice(4) == Some(ModeFilter("fasting", 100))
    ensures Labels.ModeLabel(4) == "after eating"
  {
  }

  /** Every plot `analise` requests renders: its border is 100 or 140, so the
      colour passes raise nothing, the legend bars are red, orange and green,
      and the title names the filter's mode. */
  lemma RequestedPlotsRender<M>(h: Helpers<M>, before: View, periodIndex: int, modeIndex: int,
                                endDate: string, stored: seq<M>)
    requires 0 <= modeIndex < 3
    requires Analise(h, before, periodIndex, modeIndex, endDate, stored).view.image.Some?
    ensures
      var call := Analise(h, before, periodIndex, modeIndex, endDate, stored).view.image.value;
      var fig := Histogram.PlotHistogram(call.values, call.border, call.mode, call.startDate, call.endDate);
      fig.Ok?
      && fig.value.colours[0] == Histogram.Red
      && fig.value.colours[4] == Histogram.Orange
      && fig.value.colours[6] == Histogram.Green
      && fig.value.title == Labels.Title(call.mode, call.startDate, call.endDate)
      && Labels.ModeLabel(call.mode) == ModeChoice(modeIndex + 1).value.name
  {
    var call := Analise(h, before, periodIndex, modeIndex, endDate, stored).view.image.value;
    if call.border == 100 {
      Severity.FastingLayout();
    } else {
      Severity.AfterEatingLayout();
    }
  }
}
