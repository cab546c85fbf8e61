# Blood-sugar analysis screen: histogram colouring and analysis flow

This project models the domain logic of the second page of a blood-sugar
tracking application (`secondPage.py`). It covers three parts.

- **Histogram layout and severity colouring** (`plot_histogram`). The bin
  edges are 10, 20, ..., 400, which gives 39 bars. Every bar starts green.
  Four overwrite passes then recolour the bars: red for bars 0–3, orange for
  bars 4 and 5, red for bars 19–38, and orange for the border band
  `int(border_value/10)-1 .. 18`. The last write to a bar decides its colour.
  `Histogram.PaintBins` performs these passes on a 39-slot array, exactly as
  the source does. It is proved equal to the closed form
  `Histogram.Paint` / `Histogram.FinalColour`. The lemmas in `Severity` state
  the result region by region.
- **Title strings.** Mode code 2 gives the label "fasting" and every other
  code gives "after eating". The end date loses its last six characters
  (Python's `s[:-6]`). For a date shown in the editor's `dd.MM.yyyy hh:mm`
  format, that trim leaves exactly the date.
- **`SecondPage.analise`.** The mode index selects a filter label and a
  clinical border. The early returns happen when a filter leaves no
  measurements. Statistics, the list widget and the plot are only reached
  with a non-empty selection.

Python semantics are modelled explicitly wherever they matter:

- `int(b/10)` truncates toward zero (`Histogram.TruncDiv10`).
- A negative list index counts from the end, and an index below -39 raises
  IndexError (`Histogram.PyIndex`, `Histogram.PlotError`). The colouring is
  therefore defined for every integer border, not only the clinical ones.
  - A border below 10 makes the band wrap around and turn the top bars
    orange.
  - A border of -390 or lower raises IndexError.
- `s[:-6]` on a string shorter than six characters gives the empty string.

The measurement store's helpers (`find_measurements_with_specific_mode`,
`find_measurements_from_period`, `analise_measurements`, and the others) are
not part of this model. `Analysis.Helpers` carries them as uninterpreted
function parameters. Every property about `analise` therefore holds whatever
those helpers compute.

Modules: `Results` (Option/Result), `Histogram` (edges, passes, closed form,
figure), `Severity` (colour facts), `Labels` (mode label, date trim, title),
`Analysis` (mode dispatch and `analise`).

## Model

| member | source | states |
|---|---|---|
| Histogram.BinEdges | secondPage.py:24-28 | The edge loop produces 40 edges. They start at 10, end at 400 and step by 10, with edge k equal to 10 + 10k. That gives 39 bars. |
| Histogram.PaintBins | secondPage.py:30-38 | Running the four passes in place on an all-green 39-bar array gives the closed-form colours `Paint(border)` for every integer border. This includes the Python wrap-around for negative indices and the IndexError when the first band index is below -39. |
| Histogram.PlotHistogram | secondPage.py:24-49 | The figure exists exactly when the colour passes raise nothing. When it exists, it carries the 40 edges and the colours of `Paint(border)`. |
| Severity.PaintFailsIff | secondPage.py:37-38 | The last pass raises IndexError, naming its first index, exactly when the border is at most -390. Otherwise there are 39 colours. |
| Severity.BandStartNonNegative | secondPage.py:37 | The band's first index is non-negative exactly when the border is at least 10. In that case it equals border/10 - 1. |
| Severity.FixedOrangeBins | secondPage.py:33-38 | Bars 4 and 5 end orange for every accepted border, because no later pass writes anything but orange. |
| Severity.ColourRegions | secondPage.py:30-38 | For border >= 10 the characterisation holds in both directions. A bar is orange exactly on 4, 5 and [border/10-1, 19). It is red exactly on bars 0–3 below the band and on 19–38. It is green exactly from 6 up to the band. |
| Severity.TopBinRedIff | secondPage.py:35-38 | Bar 38 ends red exactly when the border is at least 10. Below that, the band's negative index -1 recolours it. |
| Severity.LowBorderWrapsAround | secondPage.py:37-38 | For -390 < border < 10, every bar from 39 + (band start) to 38 ends orange. |
| Severity.LegendFaithfulIff | secondPage.py:30-41 | The legend samples bars 0, 4 and 6. They show red, orange and green exactly when the border is at least 80. |
| Severity.BandStartsAtBorderBin | secondPage.py:24-38 | For 10 <= border < 400, the band starts at the bar whose range [edge k, edge k+1) contains the border. |
| Severity.FastingLayout | secondPage.py:30-38 | Border 100 gives 4 red, 2 orange, 3 green (bars 6–8), 10 orange (bars 9–18) and 20 red bars. |
| Severity.AfterEatingLayout | secondPage.py:30-38 | Border 140 gives 4 red, 2 orange, 7 green (bars 6–12), 6 orange (bars 13–18) and 20 red bars. |
| Labels.ModeLabel | secondPage.py:44-47 | The label is "fasting" exactly for mode code 2. Every other code gives "after eating". |
| Labels.TrimTime | secondPage.py:48 | The result is the prefix of the input that is six characters shorter, or empty for an input under six characters. |
| Labels.TrimTimeKeepsDate | secondPage.py:48 | For a date-time shown in the editor's `dd.MM.yyyy hh:mm` format (set at line 73), dropping six characters leaves exactly the `dd.MM.yyyy` date. |
| Labels.TitleShowsDates | secondPage.py:44-49 | For an end date in display format, the title is the mode label, the start date and the end date with no time of day. |
| Analysis.ModeChoice | secondPage.py:130-136 | Code 1 chooses no filter and no border. Code 3 chooses "after eating" with 140. Every other code chooses "fasting" with 100. |
| Analysis.Analise | secondPage.py:122-158 | A message box appears exactly when the mode filter or the period filter leaves nothing. In that case the list and the statistics labels keep their old contents and only the image is cleared. Otherwise the statistics and the list come from the non-empty filtered selection. A plot is requested exactly on success in modes 2 and 3, with border 140 for code 3 and 100 otherwise. |
| Analysis.TitleMatchesFilter | secondPage.py:44-47 | For the codes the combo offers (2 and 3), the title label equals the label the filter used at lines 130-136. |
| Analysis.UnofferedCodeMislabels | secondPage.py:130-136 | Code 4 would filter on "fasting" with border 100 but title the plot "after eating". The 3-item combo never produces this code. |
| Analysis.RequestedPlotsRender | secondPage.py:156-157 | Every plot that `analise` requests renders without IndexError. Its legend bars are red, orange and green, and its title names the filter's mode. |

## Left out

- Qt widget construction, layouts, combo boxes and message-box display are not modelled; they are presentation only. The message box is modelled by its text, and the image label by the plot request it shows.
- The `measurements_database` helpers are uninterpreted parameters. Their filtering, sorting, statistics and formatting are not modelled because their source is not part of this model. Date arithmetic and `strftime` are covered by the `startDate` helper.
- matplotlib is not modelled: how `plt.hist` counts values into bars, drawing, the legend rendering, and saving to `plot.png`. These are foreign calls and file I/O. `Histogram.Figure` carries the values, edges, colours and title, but not bar heights.
- Histogram.TruncDiv10: models `int(b/10)` as exact truncation toward zero. Rounding of the float quotient is ignored, which is exact for borders of realistic magnitude.
- The float average and the text formatting of the statistics labels (`str(avg_sugar)`) are not modelled.
- Labels.FormatDateTime: assumes Qt writes `yyyy` as four digits for years 0–9999. Locale effects are not modelled.
