# ROI estimator and testimonial carousel of the AutoOps landing page

This project is a Dafny model of the two pieces of `script.js` that hold logic.

**The ROI estimator** (`calculateROI`, `resetCalculator`, `clamp`). The visitor enters six figures: leads, cars sold, gross profit per car, salespeople, the after-hours share and the response time in minutes. The estimator runs them through a fixed pipeline:

- a tiered recovery rate chosen by response time;
- an after-hours boost `1 + share * 0.35`;
- a clamp of recovered deals into `[0.3, max(1.2, cars * 0.12)]`;
- the recovered money, the risk-adjusted value (`* 1.15`) and the ROI multiple (`/ 6500`);
- hours saved, at `clamp(leads / 250 * 3, 6, 14)` hours per salesperson.

The page then rounds the results for display. A reset writes fixed default inputs and zeroed results.

- `estimator.dfy` (module `Estimator`) holds the pipeline as pure functions over exact `real`s. It also holds the rounding to the displayed figures and the lemmas about both.
- `calculator_page.dfy` (module `CalculatorPage`) holds the page state as a class, `Calculator`. Its methods `Reset` and `CalculateRoi` overwrite the fields in place. They are specified by the state functions `AfterReset` and `AfterCalculate`, and the lemmas about the page are proved over those functions.

**The testimonial carousel** (`initTestimonialCarousel`, `updateTestimonialDots`). `carousel.dfy` (module `Carousel`) holds the class `Testimonials`. Its fields are the current index and three arrays: a hidden flag per slide, an entry-animation class per slide, and a highlight flag per dot. The methods do the following:

- `Show` hides every slide and then shows one.
- `Step` is the next/previous/rotation index update.
- `HighlightDot` highlights exactly one dot.
- `VisibleIndex` finds the last slide that is not hidden.
- `Click` and `ClickDot` model the button and dot handlers.

The model keeps three behaviours of the code as they are:

- A dot click shows its slide but does not move the carousel's current index, so the next step starts from the old index.
- The rotation timer steps the carousel without updating the dots. Only the button `onclick` wrappers resynchronise them.
- With no slides, a step throws in the page. The model reports that as `ok == false` and leaves the state unchanged.

Each input is read as `Number(value || 0)`: an empty field reads as 0, and any other text goes through `Number`. The model reads `Blank` as 0 and a field holding a number as that number.

## Model

| member | source | states |
|---|---|---|
| `Estimator.FieldValue` | script.js:84-89 | `value \|\| 0`: an empty field reads as 0, a field holding a number reads as that number |
| `Estimator.ReadInputs` | script.js:84-89 | each of the six figures is its own field read through `FieldValue` (leads, cars, gross, salespeople, after-hours share, response time) |
| `Estimator.Max` | script.js:106 | `Math.max`: at least both arguments and equal to one of them |
| `Estimator.Min` | script.js:165 | `Math.min`: at most both arguments and equal to one of them |
| `Estimator.AfterHoursBoost` | script.js:102 | the boost is 1 with no after-hours share, at least 1 for a non-negative share, and at most 1.35 for a share in `[0, 1]` |
| `Estimator.UnclampedDeals` | script.js:99-103 | deals before the clamp are 0 with no cars and non-negative for non-negative cars and share |
| `Estimator.TimeSaved` | script.js:113 | no hours are saved without salespeople (bounds and monotonicity in the lemmas below) |
| `Estimator.Clamp` | script.js:164-166 | result is never below `lo`; with `lo <= hi` it lies in `[lo, hi]`, equals `v` when `v` is in range, `lo` below it and `hi` above it; with `hi < lo` it is `lo` |
| `Estimator.Round` | script.js:119-122 | `Math.round`: the integer within half a unit of `x`, halves going up |
| `Estimator.SpeedFactor` | script.js:92-97 | the recovery rate always lies in `[0.01, 0.08]` |
| `Estimator.SpeedFactorIsTierLookup` | script.js:92-97 | for every response time the rate equals the first tier of the table (5→0.01, 15→0.02, 60→0.035, 180→0.06, else 0.08) whose inclusive bound admits it |
| `Estimator.SpeedFactorTiers` | script.js:93-97 | the rate of each range of response times; 5, 15, 60 and 180 fall in the lower tier |
| `Estimator.SpeedFactorMonotone` | script.js:92-97 | a slower response never gets a smaller rate |
| `Estimator.DealsCap` | script.js:106 | the upper clamp bound is at least 1.2 and at least `cars * 0.12`, and is one of the two |
| `Estimator.RecoveredDeals` | script.js:99-106 | recovered deals lie in `[0.3, max(1.2, cars * 0.12)]` for every input; they equal `cars * rate * boost` when that is in range and the nearer bound otherwise; with no cars they are exactly 0.3 |
| `Estimator.TimePerSalesperson` | script.js:112 | hours per salesperson lie in `[6, 14]`; they are `leads / 250 * 3` when that is in range, 6 for up to 500 leads and 14 from 3500/3 leads, where `leads / 250 * 3` reaches 14 |
| `Estimator.TimeSavedBounds` | script.js:112-113 | for a team of `s >= 0`, hours saved lie between `6 * s` and `14 * s`; they are 0 with no team |
| `Estimator.TimeSavedMonotone` | script.js:113 | hours saved never decrease as the team grows |
| `Estimator.TimeSavedMonotoneInLeads` | script.js:112-113 | hours saved never decrease as lead volume grows, for a team of `s >= 0` |
| `Estimator.Calculate` | script.js:82-115 | deals within the clamp bounds; money is deals times gross; risk is 1.15 times money; ROI times 6500 is money; with zero gross all three are 0 |
| `Estimator.RecoveredMoneyBounds` | script.js:106-108 | with `gross >= 0`, money lies between `0.3 * gross` and the deals cap times gross |
| `Estimator.AllZeroInputs` | script.js:84-115 | all-zero figures give the 0.3 deals floor and zero money, risk, hours and ROI |
| `Estimator.BlankActsAsZero` | script.js:84-89 | turning every empty field into an explicit 0 changes neither the figures read nor the estimate |
| `Estimator.Render` | script.js:118-125 | every displayed figure is within half a unit of the exact one (deals and ROI in tenths), and the summary carries the same rounded figures as the result fields |
| `CalculatorPage.AfterReset` | script.js:137-153 | after a reset the inputs are 1500, 30, 35000, 5, 0.30 and 180, the results are zero with the prompt, and the visibility of the results panel is unchanged |
| `CalculatorPage.AfterCalculate` | script.js:82-134 | after a calculation the inputs are unchanged, the results are the rendered estimate of the inputs, and the results panel is shown |
| `CalculatorPage.Calculator.Reset` | script.js:137-153 | the page's fields become `AfterReset` of the old ones: fixed defaults whatever was there before |
| `CalculatorPage.Calculator.CalculateRoi` | script.js:82-135 | the page's fields become `AfterCalculate` of the old ones; at least 0.3 deals are displayed; the summary agrees with the result fields |
| `CalculatorPage.ResetIdempotent` | script.js:137-153 | resetting twice gives the same page as resetting once |
| `CalculatorPage.ResetForgetsFields` | script.js:137-153 | any two pages with the same panel visibility are identical after a reset |
| `CalculatorPage.CalculateIdempotent` | script.js:82-134 | calculating twice gives the same page as calculating once |
| `CalculatorPage.DefaultsEstimate` | script.js:84-125 | the default figures give 1.989 deals, 69615 money, 80057.25 risk-adjusted, 70 hours and ROI 69615/6500, displayed as 2.0, R69615, 70 hrs, R80057 and 10.7 |
| `CalculatorPage.ResetThenCalculate` | script.js:82-153 | reset followed by calculate shows the default figures' results, whatever the page held before |
| `Carousel.EntryAnim` | script.js:184 | every direction gets a slide-in class: from the right exactly for next, from the left exactly for previous |
| `Carousel.NextIndex` | script.js:189 | the next index stays in `[0, n)`: one more, or 0 after the last slide |
| `Carousel.PrevIndex` | script.js:196 | the previous index stays in `[0, n)`: one less, or `n - 1` before the first slide |
| `Carousel.Advance` | script.js:202-205 | any number of rotation steps keeps the index in `[0, n)` |
| `Carousel.PrevUndoesNext` | script.js:189-196 | previous undoes next, and next undoes previous |
| `Carousel.AdvanceWithinRow` | script.js:202-205 | `k` steps that do not reach the end of the row move exactly `k` slides on |
| `Carousel.AdvanceCompose` | script.js:202-205 | `a + b` steps are `a` steps followed by `b` steps |
| `Carousel.FullTurn` | script.js:202-205 | `n` steps return to the starting slide |
| `Carousel.AdvancePeriodic` | script.js:202-205 | `k + n` steps end where `k` steps end |
| `Carousel.LastVisible` | script.js:314-319 | the scan's index is within the row (0 for no slides); it is 0 or a shown slide; every later slide is hidden; with every slide hidden it is 0 |
| `Carousel.LastVisibleOfSingle` | script.js:314-321 | when exactly slide `i` is shown, the scan finds `i` |
| `Carousel.Testimonials.constructor` | script.js:169-225 | the carousel starts at index 0; when there are slides, only the first is shown, entering from the right |
| `Carousel.Testimonials.Show` | script.js:175-185 | exactly slide `index` is shown; it carries the entry animation of the direction and every other slide carries none |
| `Carousel.Testimonials.Step` | script.js:187-205 | with slides, the index moves to `NextIndex` or `PrevIndex` of the old one and exactly that slide is shown; with none, the step fails and the index is unchanged |
| `Carousel.Testimonials.HighlightDot` | script.js:279-289 | exactly dot `index` is highlighted and every other dot is not |
| `Carousel.Testimonials.VisibleIndex` | script.js:313-319 | returns `LastVisible` of the slides' hidden flags, an index within the row |
| `Carousel.Testimonials.SyncDots` | script.js:313-321 | exactly the dot of the last shown slide is highlighted |
| `Carousel.Testimonials.Click` | script.js:308-340 | a button click: the listener's step (script.js:187-199) moves the index as `Step` does and shows exactly that slide with the direction's entry animation, every other slide carrying none; the `onclick` wrapper then highlights exactly its dot; with no slides nothing changes |
| `Carousel.Testimonials.ClickDot` | script.js:292-305 | every slide is hidden and then slide `index` is shown with dot `index` highlighted; with fewer slides than `index + 1` the handler fails with every slide hidden and the dots untouched |

## Left out

- DOM access is not modelled: element lookups, `classList`, `textContent`/`innerHTML` and event registration. Fields and classes are record fields and arrays.
- Number-to-text rendering is not modelled: `toFixed(1)`, the `" hrs"` and `"×"` suffixes, and the HTML sentence of the summary. The model stops at the rounded figures the page shows. Money and risk are in whole rand, deals and ROI in tenths, hours in whole hours.
- `formatCurrency` is modelled only as `Math.round` of the amount. The locale-dependent digit grouping of `toLocaleString` and the `"R"` prefix are left out. So is its fall-back branch, which gives the same number.
- Input parsing is reduced to `Field`: an empty field reads as 0, and a field holding a number reads as that number. The text-to-number step of `Number` is not modelled: non-numeric text becomes `NaN` in the page, and whitespace-only text, which is truthy but converts to 0, reads as 0 there. A field holding such text is represented only by the number it yields (`Entered(0.0)` for whitespace). The default `"0.30"` and `"180"` are held as their values 0.30 and 180.
- Arithmetic uses exact reals, not IEEE-754 doubles. For example, `30 * 0.06` is exactly 1.8 here, not 1.7999999999999998.
- `Carousel.Testimonials.Step`: with no slides, the page sets the index to `NaN` and then throws. The model reports failure and keeps the old index.
- The 8-second `setInterval` schedule and the hover pause/resume are not modelled; they are timer behaviour. The step the timer performs is `Step(Forward)`.
- `Carousel.Testimonials.Show`: the `direction` argument is a `Direction` value, not the strings `'next'`/`'prev'`. Any string other than `'next'` selects the left slide-in, which `Backward` covers.
- `Carousel.Testimonials.Click` and `Carousel.Testimonials.ClickDot` assume the dot handlers were installed. On page load `updateTestimonialDots` runs after `initFaqAccordion`. When Alpine.js is absent, that function's selector contains a bare `/` after JavaScript unescapes `\/`, and `querySelectorAll` rejects such a selector. The dots would then never be wired. The model assumes Alpine.js is present, or that the wiring otherwise completes.
- The mobile menu toggle, smooth scrolling to anchors, the reveal-on-scroll geometry, the footer year and the FAQ accordion fallback are not modelled. They are two-state toggles or layout-dependent wiring.
