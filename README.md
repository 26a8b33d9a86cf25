# P13 impact visualiser — verified model of its calculator and chart rules

The P13 visualiser is a one-page Streamlit app for a project that treats
organic waste to produce biogas energy and biofertilizer. Seven sidebar
sliders set the scenario. The app computes a fixed set of annual indicators.
It then draws three comparison bar charts, each with a baseline bar and a
projected bar, and offers each chart as a PNG download.

This project models the non-visual part of that script, as Dafny functions
and lemmas. That part is straight-line computation: the loops that put a
label above each bar become the `labels` sequences of `BarChart` and
`ExportChart`, and the figures the script builds and mutates through
Matplotlib become `Chart` values.

- `sliders.dfy` (`Sliders`): the seven sliders (bounds, step, default) and
  the parameter set. The two fractional sliders move in steps of 0.01, so
  they are held as whole hundredths (0.90 is 90). This makes every slider
  position an integer, exactly.
- `indicators.dfy` (`Indicators`): the baseline constants and the indicator
  formulas. Valorised waste and avoided agrochemicals are whole hundredths of
  a ton. Revenues are whole CLP.
- `number_format.dfy` (`NumberFormat`): the two label formats, Python's
  `,.2f` and `,.0f`. Digits are grouped in threes with `,`, and a negative
  value gets a leading `-`. Its partner `ReadSigned` reads a label back into
  the number it shows.
- `charts.dfy` (`Charts`): for each of the three families (waste, energy,
  revenue) it gives the bar values, the y-axis rule, the bar labels, the
  combined figure, the standalone exports and their file names.

## Model

| member | source | states |
|---|---|---|
| `Sliders.InRange` | app_p13.py:45-108 | A parameter set every slider admits has its coarse sliders on multiples of their steps: tons on multiples of 5, kWh of 1,000, the energy price of 10 CLP and the biofertilizer price of 10,000 CLP. |
| `Sliders.Defaults` | app_p13.py:45-108 | The starting parameter set (every slider at its default) is admitted by every slider's bounds and step. |
| `Sliders.SlidersWellFormed` | app_p13.py:45-108 | Each slider has a positive step, a non-empty range, and a default that is one of its positions. |
| `Sliders.ExtremesInRange` | app_p13.py:45-108 | All sliders at their minimum form an admitted parameter set, and so do all sliders at their maximum. |
| `Indicators.WasteValorized` | app_p13.py:111 | The result, read in hundredths of a ton, equals treated tons times the rate (the rate read as a fraction). |
| `Indicators.AvoidedAgrochemicals` | app_p13.py:112 | The result, read in hundredths of a ton, equals biofertilizer tons times 0.1. |
| `Indicators.Compute` | app_p13.py:111-117 | Total revenue is exactly energy revenue plus biofertilizer revenue. Trained people are 30 and alliances 4 for every input. |
| `Indicators.RevenueBounds` | app_p13.py:64-115 | For admitted sliders: energy revenue is in [1,500,000, 15,000,000], biofertilizer revenue in [3,000,000, 40,000,000], and total revenue in [4,500,000, 55,000,000]. |
| `Indicators.RevenueBoundsAttained` | app_p13.py:64-115 | The bounds are tight. All sliders at minimum give a total of 4,500,000. All sliders at maximum give 55,000,000, of which 80 × 500,000 = 40,000,000 is biofertilizer revenue. |
| `Indicators.RevenueMonotone` | app_p13.py:113-115 | Between admitted parameter sets, raising energy, biofertilizer tonnage or either price never lowers any revenue. |
| `Indicators.WasteValorizedBounds` | app_p13.py:45-111 | For admitted sliders, 0.70 × treated ≤ valorised ≤ treated. Valorised waste therefore lies between 56.00 and 200.00 tons. |
| `Indicators.UpperWasteScenario` | app_p13.py:45-111 | With 200 tons treated at a rate of 1.00, the valorised waste is 200.00 tons. |
| `Indicators.AvoidedAgrochemicalsTenth` | app_p13.py:40-112 | Avoided agrochemicals are one tenth of the biofertilizer tonnage. The baseline value is 3.50 tons. |
| `Indicators.DefaultScenario` | app_p13.py:45-117 | At the defaults: 81.00 t valorised, 3.50 t avoided, CLP 3,000,000 energy, CLP 7,000,000 biofertilizer, CLP 10,000,000 total, 30 people, 4 alliances. |
| `Indicators.RecycledMaterialsInert` | app_p13.py:82-117 | Changing the recycled-materials slider changes no indicator. |
| `NumberFormat.FixedTwo` | app_p13.py:173 | The `,.2f` label ends in a point and exactly two digits. It starts with `-` exactly when the value is negative. Its integral part is stated by `FixedTwoShape`. |
| `NumberFormat.Unsigned2` | app_p13.py:173 | For a non-negative value: the label starts with a digit, ends in a point and two digits, and its integral part is grouped in threes with no leading zero. |
| `NumberFormat.WholeGrouped` | app_p13.py:190 | The `,.0f` label is grouped in threes, with no leading zero, after an optional `-`. The `-` appears exactly for negative values. |
| `NumberFormat.DigitsShape` | app_p13.py:190 | The plain digits of a number are one to three characters below 1,000, and start with `0` only for 0. |
| `NumberFormat.GroupedShape` | app_p13.py:190 | The thousands-grouped digits are well grouped and start with a digit. They start with `0` only for the value 0. |
| `NumberFormat.FixedTwoShape` | app_p13.py:173 | Every `,.2f` label is an optional `-`, an integral part grouped in threes with no leading zero, a point and two digits. |
| `NumberFormat.SignedUnsignedTwo` | app_p13.py:173 | A `-` or nothing in front of a well-shaped unsigned two-decimal label gives a well-shaped `,.2f` label. |
| `NumberFormat.MalformedLabelsRejected` | app_p13.py:173-190 | Texts Python never prints fail the shape predicates: `0,123`, `0,000`, `-0,123`, `081.00` and `0,001.23`. |
| `NumberFormat.GroupedRoundTrip` | app_p13.py:190 | Reading the grouped digits while skipping the separators gives back the number. |
| `NumberFormat.WholeGroupedRoundTrip` | app_p13.py:190 | Every `,.0f` label reads back as its value, so distinct values get distinct labels. |
| `NumberFormat.Unsigned2RoundTrip` | app_p13.py:173 | The unsigned two-decimal label of a count of hundredths reads back as that count. |
| `NumberFormat.FixedTwoRoundTrip` | app_p13.py:173 | Every `,.2f` label reads back as its value in hundredths, so distinct values get distinct labels. |
| `NumberFormat.DigitsUnique` | app_p13.py:190 | A digit string with no leading zero is exactly the plain rendering of the number it reads as. |
| `NumberFormat.GroupedUnique` | app_p13.py:190 | A well-grouped text is exactly the grouped rendering of the number it reads as. |
| `NumberFormat.WholeGroupedUnique` | app_p13.py:190 | A text of the `,.0f` shape, with the sign of v, that reads as v is exactly the `,.0f` label of v. |
| `NumberFormat.Unsigned2Unique` | app_p13.py:173 | A text of the unsigned two-decimal shape is exactly the rendering of the hundredths it reads as. |
| `NumberFormat.FixedTwoUnique` | app_p13.py:173 | A text of the `,.2f` shape, with the sign of h, that reads as h is exactly the `,.2f` label of h. |
| `Charts.Scale` | app_p13.py:159-207 | Each family's unit-to-height factor (100 hundredths per ton, 1 kWh, 1 CLP) is positive. |
| `Charts.AxisFloor` | app_p13.py:170-204 | The y-axis floor of each family (1 t, 1,000 kWh, CLP 1,000,000, at lines 170, 187 and 204) is positive. |
| `Charts.Baseline` | app_p13.py:36-39 | No contract. The first bar of each family (90 t, 20,000 kWh, CLP 9,000,000) is pinned by `PanelLayout`, `BaselineClearsFloor` and the default-scenario lemmas. |
| `Charts.Projected` | app_p13.py:64-115 | No contract. The second bar (valorised waste from line 111, the energy slider itself from line 64, total revenue from line 115) is pinned by `PanelLayout` and `DefaultScenarioCharts`. |
| `Charts.BarValues` | app_p13.py:159-193 | No contract. The pairs `residuos_values`, `energia_values` and `ingresos_values` (lines 159, 176, 193) are pinned by `PanelLayout`. |
| `Charts.HeightScale` | app_p13.py:159-160 | A bar drawn at a value's height stands for exactly that many units of its family. |
| `Charts.MaxOf` | app_p13.py:169 | The result is one of the bar values, and no bar value exceeds it. |
| `Charts.YTop` | app_p13.py:169-170 | The axis top is at least the family floor and at least 1.15 × every bar, so it is positive. It equals the floor or 1.15 × some bar, which makes it the least such value. |
| `Charts.Label` | app_p13.py:173-207 | Waste labels end in a point and two digits. Revenue labels start with `CLP `. The full format of each family is stated by `LabelHasFormat`. |
| `Charts.LabelHasFormat` | app_p13.py:173-207 | Waste labels have the `,.2f` shape, energy labels the `,.0f` shape, and revenue labels are `CLP ` then the `,.0f` shape; each number carries `-` exactly for a negative value. |
| `Charts.LabelRoundTrip` | app_p13.py:171-173 | Every bar label in every family reads back as its bar's value (the same holds for the loops at lines 188-190 and 205-207). |
| `Charts.LabelUnique` | app_p13.py:173-207 | A text of the family's label format, with the value's sign, that reads back as v is exactly the label of v. |
| `Charts.BarChart` | app_p13.py:150-173 | A drawn panel keeps the family, the categories and the bar values. Its y-axis runs from 0 to `YTop`. It has one height and one label per bar, and each height stands for its bar's value. |
| `Charts.HeightsDepict` | app_p13.py:159-160 | Every bar of a list is drawn at the height that stands for its value. |
| `Charts.LabelsShowValues` | app_p13.py:171-173 | Every label of a drawn panel reads back as its bar's value. |
| `Charts.Panel` | app_p13.py:159-207 | A family's panel is drawn for that family from its baseline and projected values. |
| `Charts.CombinedFigure` | app_p13.py:155-207 | The combined figure has three panels: waste, energy and revenue, in that order. |
| `Charts.PanelIndex` | app_p13.py:155 | Each family has a place among the three panels. |
| `Charts.PanelPlace` | app_p13.py:155-207 | Each family's panel sits at its family's place in the combined figure. |
| `Charts.PanelLayout` | app_p13.py:150-173 | Every panel has two bars, baseline then projection, under "Línea Base" and "Proyección". The y-axis starts at 0, and its top clears the floor and 1.15 × each bar. Each label shows its bar's value. |
| `Charts.TwoBars` | app_p13.py:159-173 | A two-bar panel has the two heights and the two labels in bar order. |
| `Charts.TwoBarHeights` | app_p13.py:159-160 | A two-bar panel's heights are those of its bars, in order. |
| `Charts.TwoBarLabels` | app_p13.py:171-173 | A two-bar panel's labels are those of its bars, in order. |
| `Charts.PanelLabels` | app_p13.py:171-173 | A panel's labels are the baseline bar's label, then the projected bar's label. |
| `Charts.ZeroBarsUseFloor` | app_p13.py:170 | If both bars are 0, the axis top is exactly the family floor (1, 1,000 or 1,000,000). |
| `Charts.FloorNeverDecides` | app_p13.py:169-204 | For every parameter set, the top of each panel is exactly 1.15 × its taller bar. Each baseline bar alone clears its floor (lines 170, 187, 204), so the floor never decides the top. |
| `Charts.BaselineClearsFloor` | app_p13.py:169-204 | For bars that start with the family's baseline, the axis top is exactly 1.15 × the tallest bar. |
| `Charts.HeightClearsFloor` | app_p13.py:170-204 | A bar at least as tall as the baseline, times 1.15, is above the family's floor. |
| `Charts.DownloadFileName` | app_p13.py:217-226 | The offered file name is the stem followed by exactly `.png` (line 223). |
| `Charts.ExportFileName` | app_p13.py:245-283 | A family's export file name (the stems at lines 245, 264 and 283) ends in `.png`. |
| `Charts.FileStem` | app_p13.py:245-283 | No contract. The stems at lines 245, 264 and 283 are pinned by `ExportFileNames`. |
| `Charts.ExportLabel` | app_p13.py:243-281 | No contract. The f-strings at lines 243, 262 and 281 are pinned by `ExportLabelIsLabel`. |
| `Charts.ExportAxisFloor` | app_p13.py:240-278 | The standalone figure's own axis floor (lines 240, 259 and 278) is positive. |
| `Charts.ExportChart` | app_p13.py:228-284 | A standalone chart is drawn for its family from the given bar values, with one label per bar. Its own floor and format are tied to the panel's by `ExportChartIsBarChart`. |
| `Charts.StandaloneExport` | app_p13.py:228-284 | A family's standalone export is offered under that family's file name and draws that family's bar values. |
| `Charts.ExportChartIsBarChart` | app_p13.py:170-281 | From the same bar values, the standalone chart, with its own floor (lines 240, 259, 278) and label format (lines 243, 262, 281), is exactly the combined figure's panel. |
| `Charts.ExportLabelIsLabel` | app_p13.py:173-281 | The standalone figure's label text for a bar equals the combined figure's, in every family. |
| `Charts.ExportMatchesPanel` | app_p13.py:228-284 | Each standalone export holds exactly the combined figure's panel for its family: same bars, axis limits and labels. It is offered under that family's file name. |
| `Charts.ExportFileNames` | app_p13.py:217-283 | From the `.png` rule at line 223 and the stems at lines 245, 264 and 283, the export files are exactly `Residuos_Valorizados.png`, `Energia_Generada.png` and `Ingresos_Totales.png`, and all three differ. |
| `Charts.RecycledMaterialsInertInCharts` | app_p13.py:150-207 | Changing the recycled-materials slider changes no chart. |
| `Charts.DefaultScenarioCharts` | app_p13.py:159-204 | At the defaults the axis tops are 103.5 t, 23,000 kWh and CLP 11,500,000. |
| `Charts.DefaultTallestBars` | app_p13.py:169-204 | The taller default bar of each family and 1.15 × its height: 103.5, 23,000 and 11,500,000. |
| `Charts.DefaultWasteLabels` | app_p13.py:173 | At the defaults the waste bars read `90.00` and `81.00`. |
| `Charts.DefaultEnergyLabels` | app_p13.py:190 | At the defaults both energy bars read `20,000`. |
| `Charts.DefaultRevenueLabels` | app_p13.py:207 | At the defaults the revenue bars read `CLP 9,000,000` and `CLP 10,000,000`. |
| `Charts.RevenueLabel9000000` | app_p13.py:207 | The baseline revenue label is `CLP 9,000,000`. |
| `Charts.RevenueLabel10000000` | app_p13.py:207 | The default projected revenue label is `CLP 10,000,000`. |
| `Charts.RevenueLabelText` | app_p13.py:207 | A non-negative revenue label is `CLP ` followed by the grouped digits. |

## Left out

- Page layout, widgets, metric cards, captions and the descriptive text (app_p13.py:24-31, 119-147, 286-324) are presentation only.
- Matplotlib drawing is not modelled: colours, figure sizes, spines, ticks, label placement (`yval + 0.05*yval`) and `tight_layout`. The model keeps what the drawing is given: bar values, heights, y-limits and label text.
- PNG encoding, DPI, `bbox_inches` and `st.download_button` (app_p13.py:217-226) are I/O through foreign libraries. Only the file-name rule `<stem>.png` is kept.
- Fetching the two logos over the network, and the error messages shown when that fails (app_p13.py:299-318), are network I/O.
- Binary floating point is not modelled. Fractional sliders are exact hundredths, and heights and axis limits are exact reals (1.15 is exactly 115/100). Float rounding, such as the product 90 × 0.9, is therefore not captured. Neither is rounding inside the `,.2f` / `,.0f` formatting of float bar heights: every modelled bar value is an exact whole number of its family's unit.
- The `'%.1f%%'` display format of the two fractional sliders (app_p13.py:60, 88) only affects how the slider is shown.
- Streamlit re-runs the whole script on every slider change. That rerun is framework behaviour, not code in the script. The model instead states that every indicator and chart is a function of the current parameter set alone.
- Input validation: the script never checks slider values, because Streamlit keeps them within bounds and step. The calculator functions therefore take any integers, and only the bound lemmas assume admitted sliders (`InRange`).
- Charts.Label: its own contract gives only the waste ending (a point and two digits) and the revenue `CLP ` prefix. The full per-family format is the ensures of `Charts.LabelHasFormat`, and exactness is in `Charts.LabelUnique`. Keeping them out of `Label` keeps every proof that unfolds a label small.
- NumberFormat.FixedTwo: likewise, the grouping of its integral part is stated by `NumberFormat.FixedTwoShape`, not by its own contract.
- Charts.BarChart: that each label reads back as its bar's value is stated for every chart by `Charts.LabelsShowValues`, not by its own contract, for the same reason.
