# Olympic dashboard: verified model of the data and state layer

This project models the part of the Olympic dashboard that holds logic. The rest is
Angular, RxJS, DOM and chart wiring. The model has three parts:

- **The Olympic data service** (`olympics.dfy`, module `Olympics`). It holds the dataset in a
  three-state holder. `NotLoaded` stands for `undefined`, `LoadFailed` for `null` and
  `Loaded(list)` for a loaded list. `LoadInitialData` moves the holder between these states.
  `TotalMedalsByCountry` is the `map` body that turns the holder into two parallel sequences:
  country names and medal totals. It is written as the source's loop, which pushes onto two
  local sequences. It is proved equal to the function `MedalsByCountry`. A country's total,
  `TotalMedals`, is the `reduce` left fold over its participations, with an absent count read
  as 0.
- **The home page adapter** (`home.dfy`, module `Home`). `ChartData` zips the two sequences
  into `{name, value}` points. `FormatTooltip` builds the tooltip text: the name, `<br>`, the
  medal glyph U+E001 and the value. `LabelFormatting` pads a pie label with one EN SPACE
  (U+2002) on each side.
- **The country detail page** (`country_details.dfy`, module `CountryDetailsPage`). It is a
  class with the component's fields `loading`, `loadError`, `errorMessage`, `countryId` and
  `details`. `NgOnInit` checks the route id. `OnDetailsOutcome` is the request's `next`/`error`
  callbacks. Pure functions `AfterInit` and `AfterOutcome` on a `ViewState` value specify both
  methods. The lemmas show that every completed path ends "settled": not loading, with an
  error exactly when there are no details.

`models.dfy` holds the record shapes (`OlympicCountry`, `Participation`, `CountryDetails` and
the `{name, value}` pair `ChartPoint`). `decimal.dfy` states how a template literal renders an
integer of magnitude below 2^53 and gives the parse that inverts it.

The service keeps the dataset in a stateful holder (src/app/core/services/olympic.service.ts:16),
and the model keeps it as a field of a class. Medal-history entries are `{name, value}` pairs
(src/app/core/models/CountryDetails.ts:7).

External effects are parameters:
- the HTTP result for the dataset is a `FetchResult`;
- the result of the details request is an `Outcome` (`NotFound`, `Found(details)` or `Failed`);
- the route id, after numeric coercion, is a `RouteId`: an integer, or a non-integer number
  together with its rendered text. An integer id is rendered by `Decimal.IntToString`.

## Model

| member | source | states |
|---|---|---|
| `Olympics.TotalMedalsAppend` | src/app/core/services/olympic.service.ts:53-56 | the total of a concatenation is the sum of the two totals |
| `Olympics.TotalMedalsCons` | src/app/core/services/olympic.service.ts:53-56 | a total is the first participation's count (0 when absent) plus the total of the rest |
| `Olympics.TotalMedalsNonNegative` | src/app/core/services/olympic.service.ts:53-56 | if no present count is negative, the total is not negative |
| `Olympics.MedalsByCountryOfAt` | src/app/core/services/olympic.service.ts:46-61 | for a loaded list, both sequences have one entry per country; entry i is country i's name and the sum of its counts, in list order |
| `Olympics.MedalsByCountryAt` | src/app/core/services/olympic.service.ts:43-62 | for `undefined` or `null` the result is two empty sequences; for a loaded list it is as in `MedalsByCountryOfAt` |
| `Olympics.TotalMedalsByCountry` | src/app/core/services/olympic.service.ts:43-62 | the push loop gives exactly `MedalsByCountry`: empty for no data, otherwise names and totals index by index |
| `Olympics.MedalsOrZero` | src/app/core/services/olympic.service.ts:54 | a participation's count, 0 when absent; its use in the sum is stated by `Olympics.TotalMedalsCons` |
| `Olympics.TotalMedals` | src/app/core/services/olympic.service.ts:53-56 | the `reduce` left fold from 0; its properties are stated by `Olympics.TotalMedalsAppend`, `Olympics.TotalMedalsCons` and `Olympics.TotalMedalsNonNegative` |
| `Olympics.MedalsByCountry` | src/app/core/services/olympic.service.ts:43-62 | the `map` body as a function of the holder; its contents are stated by `Olympics.MedalsByCountryAt` |
| `Home.FormatTooltip` | src/app/pages/home/home.component.ts:75-77 | the tooltip text; its layout is stated by `Home.TooltipParts`, and `Home.TooltipInjective` shows it identifies the point |
| `Home.LabelFormatting` | src/app/pages/home/home.component.ts:80-82 | the padded pie label; its length and content are stated by `Home.LabelRoundTrip` |
| `Decimal.IntToString` | src/app/pages/home/home.component.ts:76 | the decimal text of an integer: non-empty, made only of digits and a minus sign; `Decimal.ParseIntToString` shows it parses back |
| `CountryDetailsPage.AfterInit` | src/app/pages/country-details/country-details.component.ts:72-76 | the effect of the id check; stated by `CountryDetailsPage.InvalidIdSettles` and `CountryDetailsPage.OutcomeSettles` |
| `CountryDetailsPage.AfterOutcome` | src/app/pages/country-details/country-details.component.ts:82-115 | the effect of the `next`/`error` callbacks; stated by `CountryDetailsPage.OutcomeSettles` |
| `Olympics.TotalMedalsEmpty` | src/app/core/services/olympic.service.ts:53-56 | a country with no participations has a total of 0, the `reduce` seed |
| `Olympics.MedalsByCountryOf` | src/app/core/services/olympic.service.ts:46-59 | the loop over a loaded list as a function of the list; its lengths and contents are stated by `Olympics.MedalsByCountryOfAt` |
| `CountryDetailsPage.IsValidId` | src/app/pages/country-details/country-details.component.ts:72 | the negation of the id test: a positive integer; its effect is stated by `CountryDetailsPage.InvalidIdSettles` and `CountryDetailsPage.OutcomeSettles` |
| `CountryDetailsPage.RenderId` | src/app/pages/country-details/country-details.component.ts:75-87 | the id as `${this.countryId}` renders it; `CountryDetailsPage.MessagesNameTheId` shows both id messages contain it |
| `CountryDetailsPage.InvalidIdMessage` | src/app/pages/country-details/country-details.component.ts:75 | the invalid-id message; `CountryDetailsPage.MessagesNameTheId` and `CountryDetailsPage.MessagesDistinct` state its properties |
| `CountryDetailsPage.NotFoundMessage` | src/app/pages/country-details/country-details.component.ts:87 | the not-found message; `CountryDetailsPage.MessagesNameTheId` and `CountryDetailsPage.MessagesDistinct` state its properties |
| `CountryDetailsPage.GenericErrorMessage` | src/app/pages/country-details/country-details.component.ts:114 | the fixed message for a failed request; `CountryDetailsPage.MessagesDistinct` and `CountryDetailsPage.OutcomeSettles` state its properties |
| `CountryDetailsPage.InitialState` | src/app/pages/country-details/country-details.component.ts:16-26 | the field initialisers: loading, no error, empty message, no details; `CountryDetailsPage.InvalidIdSettles` and `CountryDetailsPage.OutcomeSettles` start from it |
| `Olympics.OlympicService.constructor` | src/app/core/services/olympic.service.ts:12-16 | the holder starts out "not loaded" |
| `Olympics.OlympicService.LoadInitialData` | src/app/core/services/olympic.service.ts:23-33 | success stores exactly the fetched list and emits it; failure stores `null` (`LoadFailed`) and completes with no value and no error |
| `Olympics.OlympicService.GetTotalMedalsByCountry` | src/app/core/services/olympic.service.ts:41-64 | the names and totals computed from the holder's current state |
| `Home.ChartData` | src/app/pages/home/home.component.ts:25-27 | one chart point per country name, in order; point i has name `countryNames[i]` and value `countryTotalMedals[i]` |
| `Home.ChartDataUnzip` | src/app/pages/home/home.component.ts:25-27 | unzipping the chart points gives back the names and the totals used |
| `Home.ChartOfHolder` | src/app/pages/home/home.component.ts:22-28 | after the service, no data gives empty chart data; a loaded list gives point i = (country i, its medal total) |
| `Home.TooltipParts` | src/app/pages/home/home.component.ts:75-77 | the tooltip is the name, then `<br>` and the medal glyph, then text that parses back to the value |
| `Home.SeparatorIsLastGlyph` | src/app/pages/home/home.component.ts:76 | the glyph after the name is the last medal glyph in the tooltip |
| `Home.TooltipInjective` | src/app/pages/home/home.component.ts:75-77 | two chart points with the same tooltip are equal |
| `Home.LabelRoundTrip` | src/app/pages/home/home.component.ts:80-82 | a padded label is two characters longer, has an en space at each end, and strips back to the label |
| `Decimal.ParseIntToString` | src/app/pages/home/home.component.ts:76 | an integer rendered in decimal parses back to itself |
| `Decimal.IntToStringInjective` | src/app/pages/home/home.component.ts:76 | distinct integers render as distinct texts |
| `CountryDetailsPage.CountryDetailsComponent.constructor` | src/app/pages/country-details/country-details.component.ts:14-26 | initially `loading` is true, `loadError` is false, the message is empty and there are no details |
| `CountryDetailsPage.CountryDetailsComponent.NgOnInit` | src/app/pages/country-details/country-details.component.ts:67-77 | stores the id; a non-integer or non-positive id ends loading with an error and no request; a valid id is requested and the flags stay as they were |
| `CountryDetailsPage.CountryDetailsComponent.OnDetailsOutcome` | src/app/pages/country-details/country-details.component.ts:80-116 | the new flags, message and details are exactly those `AfterOutcome` gives for the delivered outcome |
| `CountryDetailsPage.MessagesNameTheId` | src/app/pages/country-details/country-details.component.ts:72-89 | the invalid-id message and the not-found message both contain the id as rendered |
| `CountryDetailsPage.MessagesDistinct` | src/app/pages/country-details/country-details.component.ts:75-114 | the invalid-id, not-found and generic messages always differ from each other |
| `CountryDetailsPage.InvalidIdSettles` | src/app/pages/country-details/country-details.component.ts:72-76 | an invalid id gives `loading` false, `loadError` true, no details, and a message naming the id |
| `CountryDetailsPage.OutcomeSettles` | src/app/pages/country-details/country-details.component.ts:80-116 | with a valid id: not found gives an error naming the id; found stores the details unchanged with no error; a failed request gives the generic message; every path ends with `loading` false and `loadError` set exactly when there are no details |
| `CountryDetailsPage.VisitPage` | src/app/pages/country-details/country-details.component.ts:65-117 | creating the page, running `ngOnInit` and delivering the outcome (if a request was made) always leaves the page settled |

## Left out

- HTTP and RxJS plumbing (`http.get`, `pipe`, `tap`, `catchError`, `BehaviorSubject`, subscriptions and `unsubscribe`) is not modelled. Request results are parameters. A stream that emits once or not at all is an `Option`. A fresh emission of the holder is a new call to `GetTotalMedalsByCountry`.
- `console.error` is logging only and is not modelled.
- `getGlobalStats` and `getCountryDetailsById` are called by the pages, but their bodies are not part of this model, so the global statistics and the details lookup are not modelled.
- Chart sizing (`updateChartSize`, `chartView`, the resize listeners, `setTimeout`) is left out. It is DOM measurement and floating-point layout.
- The y-axis padding (`yScaleMin`, `yScaleMax`) and `yAxisTickFormatting` are left out. They are floating-point arithmetic over the medal history.
- The random choice of the line colour is left out. It is nondeterministic and cosmetic.
- The `Number(...)` coercion of the route parameter is not modelled. Its result is the abstract `RouteId`. A non-integer id carries the text used in the message; an integer id is rendered by `Decimal.IntToString`, which is exact only below 2^53.
- Numbers are unbounded integers. Fractional or very large medal counts, floating-point rounding in the sum, and the rendering of non-integral values in the tooltip are not modelled.
- `Home.ChartData`: requires at least as many totals as names. The only producer gives equally long sequences. With fewer totals, the source would produce points whose value is `undefined`.
- `Decimal.IntToString`: gives the plain decimal digits for every integer. JavaScript renders integers of magnitude 1e21 or more in exponent form (`1e+21`), and above 2^53 it pads rounded digits with zeros. The model therefore does not capture how such large route ids appear in the invalid-id and not-found messages, or how such large values appear in a tooltip.
- `CountryDetailsPage.VisitPage`: assumes the details request delivers exactly one of `NotFound`, `Found` or `Failed`, once. The subscription has no `complete` handler. A stream that completes without a value would leave `loading` true, and the model does not cover it. Neither does it cover a stream that emits twice.
- `Participation` carries only `medalsCount`, the only field the modelled code reads. src/app/core/models/Participation.ts is not part of this model.
- src/app/app.module.ts is module wiring only and is not modelled.
