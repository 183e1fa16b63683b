# Soil-health decision logic, modelled in Dafny

This project models the decision logic of a crop-monitoring web app. In the app, this logic lives inside React components. A grower enters nitrogen, pH and moisture readings for a crop. The app keeps the readings in a newest-first log. It then shows two views:

- a dashboard: the latest reading, the mean of each property, a chronological trend series and the five most recent readings;
- a recommendations panel: it classifies the latest reading against the crop's optimal ranges. It then lists alerts, confirmations ("positives"), prioritized recommendations, and fertilizer and pest-management products.

The model lifts this logic out as pure functions over immutable datatypes. Sensor values are `real`.

| file | module | models |
|---|---|---|
| `wrappers.dfy` | `Wrappers` | `Option`, standing in for `T \| null` |
| `soil_data.dfy` | `SoilData` | the `SoilData` record, the form payload, the three properties, the sensor domains |
| `knowledge_base.dfy` | `KnowledgeBase` | the per-crop range table, the default profile, the fertilizer and pesticide catalogs |
| `recommendations.dfy` | `Recommendations` | classification and list building of the recommendations panel |
| `sequences.dfy` | `Sequences` | reversal and prefix helpers |
| `dashboard.dfy` | `Dashboard` | the empty-log branch, chart series, averages, trend and recent-list gating |
| `soil_form.dfy` | `SoilForm` | the submit-button rule, the submit handler, the crop selector |
| `index_page.dfy` | `IndexPage` | the add handler, the latest-reading accessor, what each view receives |

The lists keep the code's names, `positives` and `recommendations`. The knowledge base is a Dafny `map` with an explicit default. `Recommendations.Assess` runs lines 47-144 of the panel against any crop profile. `Recommendations.Analyse` runs it against the knowledge-base entry of the reading's crop. Most lemmas about the analysis hold for every profile, and so for every entry. Alerts and positives are tags: a property plus, for an alert, a direction. They are not translated strings. A recommendation also carries its title, the English literal the source uses, and its priority. The id and date of a new entry are parameters. The number parser is a parameter `parse: string -> Option<real>`, where `None` stands for `NaN`. A faithful `parse` also maps ±Infinity (`parseFloat("1e400")`) to `None`: the source rejects that value through the domain test at SoilDataForm.tsx:37, and `None` gives the same outcome, nothing submitted and the form unchanged. Every operation is a pure function, so calling it twice on the same input gives the same result.

Product names are compared as exact strings, as the source's lists are. Two catalogs name an overwatering product under another string than the triggered one. Beans lists `"Copper fungicide"` (RecommendationsPanel.tsx:138) next to the triggered `"Copper Fungicide"`. Tomato lists `"Mancozeb (for blight)"` (line 134) next to the triggered `"Mancozeb"`. So an overwatered reading of either crop lists that product twice, as the source does.

## Model

| member | source | states |
|---|---|---|
| `KnowledgeBase.RequirementsFor` | src/components/RecommendationsPanel.tsx:32-45 | a listed crop gets its table ranges; any other string gets nitrogen [2.0,4.0], pH [6.0,7.0], moisture [60,80]; every result has low <= high |
| `KnowledgeBase.FertilizerCatalog` | src/components/RecommendationsPanel.tsx:116-143 | a listed crop gets its fertilizer catalog; an unlisted crop gets the empty list |
| `KnowledgeBase.PesticideCatalog` | src/components/RecommendationsPanel.tsx:130-144 | a listed crop gets its pest-management catalog; an unlisted crop gets the empty list |
| `KnowledgeBase.TablesAgree` | src/components/RecommendationsPanel.tsx:32-141 | the range, fertilizer and pesticide tables have exactly the same ten crop keys |
| `KnowledgeBase.UnknownCropProfile` | src/components/RecommendationsPanel.tsx:45-144 | a crop outside the ten gets the default ranges and two empty catalogs, so the lookup never fails |
| `KnowledgeBase.ProfileFor` | src/components/RecommendationsPanel.tsx:45-144 | a crop's ranges and both catalogs, looked up under the same name; `UnknownCropProfile` gives the fallback for any other name, `TablesAgree` that the three lookups agree on which names are known |
| `Recommendations.Classify` | src/components/RecommendationsPanel.tsx:55-113 | deficient iff value < low; excess iff low <= value and value > high; optimal iff low <= value <= high (bounds inclusive) |
| `Recommendations.ClassifyMonotone` | src/components/RecommendationsPanel.tsx:55-113 | for every range, a larger value never gets a lower classification |
| `Recommendations.AnalyzeProperty` | src/components/RecommendationsPanel.tsx:55-113 | one property's branch yields exactly one alert or one positive; an alert comes with one recommendation; an optimal value adds no products |
| `Recommendations.TitleOf` | src/components/RecommendationsPanel.tsx:58-108 | the six title literals, one per property and direction; `RecommendationPerAlert` pairs each alert with its title |
| `Recommendations.PriorityOf` | src/components/RecommendationsPanel.tsx:60-108 | nitrogen and moisture excess are medium, every other deviation high; `PriorityTable` states this of every recommendation in the output |
| `Recommendations.TriggeredFertilizers` | src/components/RecommendationsPanel.tsx:62-90 | nitrogen deficiency adds the three nitrogen fertilizers, acidic soil the three liming materials, alkaline soil the three acidifying amendments, anything else nothing; the Urea, Lime and Sulfur trigger lemmas turn this into iffs on the output |
| `Recommendations.TriggeredPesticides` | src/components/RecommendationsPanel.tsx:103-110 | only moisture excess adds pest-management entries; `FungicideTrigger` makes this an iff on the output |
| `Recommendations.Assess` | src/components/RecommendationsPanel.tsx:47-144 | the three property branches, in order, then the profile's catalogs; `OneVerdictPerProperty`, `VerdictsInPropertyOrder`, `RecommendationPerAlert` and `ProductLists` fix its output for every profile |
| `Recommendations.Analyse` | src/components/RecommendationsPanel.tsx:45-144 | the analysis against the reading's own crop entry, or the default ranges and empty catalogs; `TriggeredProducts`, `RiceExample` and `UnknownCropExample` are stated of it |
| `Recommendations.OneVerdictPerProperty` | src/components/RecommendationsPanel.tsx:54-113 | \|alerts\| + \|positives\| = 3; a property is a positive iff it is in range; an alert (p, level) is present iff level is p's actual, non-optimal classification |
| `Recommendations.VerdictsInPropertyOrder` | src/components/RecommendationsPanel.tsx:54-113 | alerts and positives are each in strict nitrogen, pH, moisture order |
| `Recommendations.RecommendationPerAlert` | src/components/RecommendationsPanel.tsx:55-109 | \|recommendations\| = \|alerts\|; the i-th recommendation has the i-th alert's property and direction, with that case's title and priority |
| `Recommendations.PriorityTable` | src/components/RecommendationsPanel.tsx:60-108 | priority is medium iff the deviation is an excess of nitrogen or moisture; it is high iff the deviation is a deficiency or concerns pH |
| `Recommendations.ProductLists` | src/components/RecommendationsPanel.tsx:62-144 | fertilizers are the nitrogen-triggered, then the pH-triggered entries, then the whole crop catalog; pesticides are the moisture-triggered entries, then the crop catalog; nothing is deduplicated |
| `Recommendations.CatalogsAvoidTriggeredProducts` | src/components/RecommendationsPanel.tsx:116-141 | no crop catalog contains any of the triggered strings, compared exactly |
| `Recommendations.UreaTrigger` | src/components/RecommendationsPanel.tsx:55-62 | for a catalog free of the triggered strings, `"Urea (46-0-0)"` is listed iff nitrogen is below range |
| `Recommendations.LimeTrigger` | src/components/RecommendationsPanel.tsx:75-82 | for such a catalog, `"Agricultural Lime"` is listed iff the pH is below range |
| `Recommendations.SulfurTrigger` | src/components/RecommendationsPanel.tsx:83-90 | for such a catalog, `"Sulfur"` is listed iff the pH is above range |
| `Recommendations.FungicideTrigger` | src/components/RecommendationsPanel.tsx:103-110 | for a pest catalog free of the triggered overwatering strings, `"Copper Fungicide"` is listed iff moisture is above range |
| `Recommendations.TriggeredProducts` | src/components/RecommendationsPanel.tsx:62-144 | with the knowledge base's catalogs, for every crop string: `"Urea (46-0-0)"` is listed iff nitrogen is low; `"Agricultural Lime"` iff the soil is acidic; `"Sulfur"` iff it is alkaline; `"Copper Fungicide"` iff moisture is excessive |
| `Recommendations.OverwateredBeans` | src/components/RecommendationsPanel.tsx:103-144 | a beans reading with moisture above 80 lists both `"Copper Fungicide"` (triggered) and `"Copper fungicide"` (the beans catalog, line 138) |
| `Recommendations.SilentDeviations` | src/components/RecommendationsPanel.tsx:63-102 | with nitrogen in excess the fertilizers are just the pH products then the catalog; with moisture low the pest-management list is just the catalog |
| `Recommendations.BoundsAreInclusive` | src/components/RecommendationsPanel.tsx:55-103 | a value equal to either bound of its range is a positive and has no alert |
| `Recommendations.RiceExample` | src/components/RecommendationsPanel.tsx:33-117 | rice with N 1.0, pH 6.5, moisture 70: nitrogen and moisture deficiency alerts with high priority; a pH positive; urea-class products before the rice catalog |
| `Recommendations.UnknownCropExample` | src/components/RecommendationsPanel.tsx:45-144 | an unknown crop with N 3.0, pH 9.0, moisture 50: an alkaline alert and a low-moisture alert, both high; a nitrogen positive; only sulfur, peat and compost; no pesticides |
| `Recommendations.Diagnose` | src/components/RecommendationsPanel.tsx:13-29 | no reading gives no diagnosis; a reading always gives one, for its own crop |
| `Sequences.Reverse` | src/components/Dashboard.tsx:31-33 | the result has the same length, and entry i is entry n-1-i of the input |
| `Sequences.Take` | src/components/Dashboard.tsx:203 | the result has min(k, n) entries, equal to the input's first entries |
| `Dashboard.ChartData` | src/components/Dashboard.tsx:31-40 | one point per reading; point i is reading number i+1 and carries the date and values of log[n-1-i] |
| `Dashboard.ChartIsReversedLog` | src/components/Dashboard.tsx:31-39 | the chart is the reversed log, numbered 1, 2, ... |
| `Dashboard.ChartOldestFirst` | src/components/Dashboard.tsx:31-35 | the first point is the oldest reading (the last log entry) numbered 1; the last point is the newest numbered n |
| `Dashboard.Total` | src/components/Dashboard.tsx:44-46 | the front-to-back reduce loop computes the field's sum |
| `Dashboard.Sum` | src/components/Dashboard.tsx:44-46 | the `reduce` total of one field; `Total` computes it by the source's loop and `SumBounds` bounds it by n·lo and n·hi |
| `Dashboard.Mean` | src/components/Dashboard.tsx:44-46 | the mean times the number of readings is the field's total |
| `Dashboard.SumBounds` | src/components/Dashboard.tsx:43-46 | if every value lies in [lo, hi], the sum lies in [lo*n, hi*n] |
| `Dashboard.MinValue` | src/components/Dashboard.tsx:43-46 | the minimum is a value of the log and bounds every value from below |
| `Dashboard.MaxValue` | src/components/Dashboard.tsx:43-46 | the maximum is a value of the log and bounds every value from above |
| `Dashboard.MeanBetweenMinAndMax` | src/components/Dashboard.tsx:43-46 | each unrounded average lies between that field's minimum and maximum over the log |
| `Dashboard.MeanExample` | src/components/Dashboard.tsx:44 | nitrogen values 2.0 and 4.0 average to 3.0 |
| `Dashboard.Summarize` | src/components/Dashboard.tsx:14-47 | the no-data branch is taken iff the log is empty; otherwise latest is log[0], averages are sum / length, and the chart has one point per reading |
| `Dashboard.TrendChartGating` | src/components/Dashboard.tsx:132 | the trend chart is shown iff there is more than one reading; a single reading still gets a one-point series |
| `Dashboard.RecentReadingsList` | src/components/Dashboard.tsx:203 | the recent list is the first min(5, n) log entries in log order, headed by the latest |
| `SoilForm.IsValid` | src/components/SoilDataForm.tsx:57 | the submit button's rule: no field is empty; `SubmittedFormWasValid` shows every form the handler accepts satisfies it |
| `SoilForm.HandleSubmit` | src/components/SoilDataForm.tsx:25-55 | a reading is submitted iff all three texts parse, a plant is chosen and 0<=N<=100, 0<=pH<=14, 0<=moisture<=100; the payload is exactly the parsed values and the plant; the form is cleared on submit and unchanged on rejection |
| `SoilForm.SubmittedFormWasValid` | src/components/SoilDataForm.tsx:33-57 | when the empty text does not parse, every submitted form had all four fields non-empty (button enabled), and the cleared form disables the button |
| `SoilForm.SubmittedReadingInDomain` | src/components/SoilDataForm.tsx:37-46 | every submitted reading lies in the sensor domains |
| `SoilForm.SelectablePlantsHaveProfiles` | src/components/SoilDataForm.tsx:146-155 | the selector offers exactly the ten crops with a range entry and both catalogs |
| `IndexPage.NewEntry` | src/pages/Index.tsx:82-86 | the new entry carries the submitted nitrogen, pH, moisture and plant unchanged, with the supplied id and date |
| `IndexPage.AddEntry` | src/pages/Index.tsx:88 | the log grows by one; the new entry is first; the old log follows unchanged and in order |
| `IndexPage.HandleAddSoilData` | src/pages/Index.tsx:81-90 | the handler puts the stamped entry in front and moves every earlier entry back by one place |
| `IndexPage.LatestSoilData` | src/pages/Index.tsx:92-94 | the result is none iff the log is empty; otherwise it is log[0] |
| `IndexPage.LatestAfterAdd` | src/pages/Index.tsx:88-94 | right after an add, the latest reading is the entry just added |
| `IndexPage.Replay` | src/pages/Index.tsx:81-89 | the log after adding a history of readings one at a time; `ReplayIsNewestFirst` proves it is the history reversed |
| `IndexPage.ReplayIsNewestFirst` | src/pages/Index.tsx:88 | a log built by successive adds is the addition history reversed, so it is newest first |
| `IndexPage.ChartFollowsHistory` | src/pages/Index.tsx:88 | with the chart of Dashboard.tsx:31-40, a log built by successive adds charts its readings in the order they were added, numbered from 1 |
| `IndexPage.ChartAfterAdd` | src/pages/Index.tsx:88 | after an add, the chart is the old chart plus one last point for the new entry, numbered n+1 |
| `IndexPage.Render` | src/pages/Index.tsx:207-211 | the dashboard shows no data iff the panel gets no reading; otherwise both concern the same crop |
| `IndexPage.ViewsAgreeOnLatest` | src/pages/Index.tsx:207-211 | the dashboard's latest reading and the reading the panel analyses are both log[0] |

## Left out

- JSX rendering, cards, badges, icons, recharts and all translated message text. Alerts and positives are (property, direction) tags. Recommendation descriptions interpolate JavaScript numbers into English text and are not modelled.
- `toFixed(1)` rounding of the averages and `toLocaleDateString` of dates (Dashboard.tsx:36, 44-46). These are presentation. The model exposes the unrounded mean and carries the raw date string.
- Dashboard.Total: sums exactly over `real`. The source adds IEEE doubles, whose rounding is not modelled.
- Dashboard.MeanBetweenMinAndMax: holds of the exact mean over `real` only. With doubles it can fail: `(0.1 + 0.1 + 0.1) / 3` is `0.10000000000000002`, above the maximum 0.1.
- Progress-bar widths (Dashboard.tsx:83, 104, 125) and the `slice(0, 6)` display truncation of product lists (RecommendationsPanel.tsx:224, 247). Both are presentation; the engine returns the full lists.
- `parseFloat` itself. It is a library call and becomes the `parse` parameter. NaN comparisons are not modelled because the validator rejects NaN first.
- Prototype-chain lookups of the `Record` tables (a crop named `constructor`). The tables are Dafny maps with an explicit default.
- localStorage load and save, the auth redirect, online/offline listeners, toasts, and the generation of ids and dates from `Date.now()` / `new Date()` (Index.tsx:42-79, 84-85). The id and date are parameters.
- React state updates. The form's reset and the log's update are modelled as returned values.
- The weather widget (src/components/WeatherWidget.tsx). It is mock data built from random numbers, plus caching.
- The report generator and language switcher are not part of this model.
