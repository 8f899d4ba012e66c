# Weather dashboard: daily digest and visibility formatting

A Dafny model of the computational core of a browser weather dashboard. The
page fetches a 5-day forecast as a list of 3-hour samples. It reduces that
list to one representative sample per UTC calendar day, keeping at most five
days. It then turns each chosen sample into the props of one forecast card.
One of those props is the visibility, rendered by `metersToKilometers`.

Modules:

- `Wrappers`: `Option` (JavaScript's `undefined`) and `Result` (a value or a thrown error).
- `Distance`: `metersToKilometers` over natural-number metres. This covers the rounding that `toFixed(0)` does, the decimal rendering of the count, and its inverse `DecimalValue`.
- `Weather`: the response shape (`WeatherData`, `WeatherDetail`) and the UTC date key of a sample.
- `Digest`: `uniqueDates`, the distinct date keys in first-occurrence order. It also covers `firstDataForEachDate`, the first sample of each of the first five dates.
- `Cards`: the props of each forecast card, with their fallbacks when no sample is present, and the errors that building them can throw.

Modelling choices:

- The date key of a sample is `dt / 86400`, the UTC day number. For every date JavaScript can represent, it corresponds one-for-one to the date part before `T` of `new Date(dt * 1000).toISOString()`. Dafny's `/` rounds down, as the calendar does for timestamps before 1970.
- `[...new Set(xs)]` is `InsertionOrder`: the elements are added one by one, and a repeat is dropped.
- `Array.prototype.find` is `Find`, which returns an `Option`.
- A response that is absent (`data` undefined) gives an empty `Set`, so the page shows no cards.
- `firstDataForEachDate` keeps `find`'s optional results, as the source does. A lemma shows that none of them is absent.
- `d?.weather[0].description` throws when the sample is present but its `weather` array is empty. `CardFor` returns `Failure(TypeError)` in that case.
- The date and day labels come from a date-formatting library. They are passed in as the partial functions `dateLabel` and `dayLabel`, applied to the sample's `dt_txt`. A label that is absent stands for the `RangeError` that formatting an invalid date throws.
- The cards are built by one `.map` during rendering. A throw in any card stops the whole map and escapes the page's render, so the whole page, navigation bar included, fails to render. The map runs only when no city lookup is in progress; while one is, the page shows a skeleton and no card error can occur. `RenderCards` returns either all the cards or the error of the first card that throws.
- The four temperatures are `real` values passed through to the card unchanged. Pressure, humidity and wind speed are carried as opaque `real` values and are not rendered.

Two behaviours of the code are easy to miss:

- The digest lists dates in the order they first occur in the list. It is guaranteed to be in date order when the list is sorted by time (`Digest.DigestChronological` proves this); for an unsorted list, first-occurrence order need not be date order.
- The visibility prop repeats the unit: `" km"` is appended to a string that already ends in `"km"`, so a card shows for example `"10km km"`. `Cards.VisibilityLabel` states this.

## Model

| member | source | states |
|---|---|---|
| `Distance.NatToDecimal` | src/utils/metersToKilometers.ts:5 | the rendered number is a non-empty digit string with no leading zero; it starts with '0' exactly when the number is 0 |
| `Distance.DecimalRoundTrip` | src/utils/metersToKilometers.ts:5 | reading a rendered count back gives the count |
| `Distance.DecimalCanonical` | src/utils/metersToKilometers.ts:5 | every canonical digit string is the rendering of its value, so rendering is a bijection onto canonical strings |
| `Distance.RoundedKilometers` | src/utils/metersToKilometers.ts:4-5 | the count k is d/1000 rounded to the nearest integer, with exact halves rounding up: 1000k <= d + 500 < 1000k + 1000 |
| `Distance.MetersToKilometers` | src/utils/metersToKilometers.ts:3-6 | the result ends in "km"; the part before it is canonical digits with no decimal point; its value k satisfies 1000k <= d + 500 < 1000k + 1000 |
| `Distance.MetersToKilometersMonotone` | src/utils/metersToKilometers.ts:4-5 | a larger distance never shows a smaller kilometre count |
| `Distance.ExactKilometres` | src/utils/metersToKilometers.ts:4-5 | 1000k metres render as exactly k followed by "km" |
| `Distance.ShortDistanceIsZero` | src/utils/metersToKilometers.ts:4-5 | every distance under 500 m renders as "0km" |
| `Distance.MetersToKilometersExamples` | src/utils/metersToKilometers.ts:4-5 | 500 → "1km", 1499 → "1km", 1500 → "2km", 10000 → "10km" |
| `Weather.DateKey` | src/app/page.tsx:78 | the key is the UTC day containing the timestamp: 86400·key <= dt < 86400·key + 86400 |
| `Weather.DateKeyIsUtcDay` | src/app/page.tsx:78 | a timestamp has key `day` if and only if it lies inside that UTC day, so samples of one day share one bucket |
| `Weather.DateKeyMonotone` | src/app/page.tsx:78 | a later timestamp never has an earlier date key |
| `Digest.InsertionOrder` | src/app/page.tsx:75-81 | `[...new Set(xs)]` contains exactly the elements of xs, each once |
| `Digest.InsertionOrderFollowsFirstOccurrence` | src/app/page.tsx:75-81 | `[...new Set(xs)]` lists the elements in the order of their first occurrence in xs |
| `Digest.DateKeys` | src/app/page.tsx:77-79 | the mapped list has one key per sample, key i being the date of sample i, and a key occurs in it exactly when some sample falls on that date |
| `Digest.UniqueDates` | src/app/page.tsx:75-81 | `uniqueDates` holds a key exactly when some sample has it, holds no key twice, and lists keys in first-occurrence order; an absent response gives none |
| `Digest.UniqueDatesIncreasing` | src/app/page.tsx:75-81 | for a list sorted by `dt`, `uniqueDates` is strictly increasing |
| `Digest.Find` | src/app/page.tsx:84-87 | `find` fails exactly when no sample has the date; otherwise it returns a sample of that date with no earlier sample of that date |
| `Digest.FindIn` | src/app/page.tsx:84-87 | `data?.list.find` is absent exactly when no sample of the response has the date; otherwise it returns the first sample of the list on that date |
| `Digest.FindsEveryKey` | src/app/page.tsx:83-87 | searching for any key of `uniqueDates` always finds a sample, so `find` never yields undefined here |
| `Digest.FirstDataForEachDate` | src/app/page.tsx:83-88 | the digest has min(length of `uniqueDates`, 5) entries; entry i is present, belongs to the list, and has date `uniqueDates[i]` |
| `Digest.DigestLength` | src/app/page.tsx:75-83 | the digest length is min(number of distinct date keys, 5); an absent response or an empty list gives an empty digest |
| `Digest.DigestDatesDistinct` | src/app/page.tsx:83-87 | no two digest entries share a date |
| `Digest.DigestEntriesAreFirstOfDay` | src/app/page.tsx:84-87 | each digest entry is a sample of the list, and no earlier sample in the list has its date |
| `Digest.DigestChronological` | src/app/page.tsx:75-88 | for a list sorted by `dt`, digest entries have strictly increasing dates and timestamps |
| `Cards.VisibilityLabel` | src/app/page.tsx:131-133 | the visibility prop ends in "km km", so the unit appears twice; before that is the canonical rendering of the rounded kilometre count |
| `Cards.CardFor` | src/app/page.tsx:116-133 | for a present sample, building the card throws `TypeError` exactly when its `weather` array is empty; otherwise it throws `RangeError` exactly when its date or day label cannot be formatted; a card that is built shows visibility ending in "km km" |
| `Cards.RenderCards` | src/app/page.tsx:112-135 | the map fails exactly when some entry's card throws, and then with the error of the first such entry; otherwise it gives one card per entry, in order, each the card of its entry |
| `Cards.DigestCards` | src/app/page.tsx:112-135 | when the forecast section renders, it has exactly one card per digest entry, so at most five |
| `Cards.AbsentSampleFallbacks` | src/app/page.tsx:116-133 | with no sample, the modelled text props (description, icon, date, day) are "", the temperatures are 0, and visibility is "0km km" |
| `Cards.CardsShowTheirEntries` | src/app/page.tsx:112-133 | for a list of present samples, the map throws exactly when some sample has no weather condition or an unformattable date; otherwise card i shows sample i's description, icon, labels, temperatures and visibility |
| `Cards.DigestCardsUseTheirEntries` | src/app/page.tsx:112-135 | the forecast section throws, and shows no card, exactly when some digest entry has no weather condition or an unformattable date; otherwise it shows one card per entry, at most five, each with its own entry's fields and never a fallback |

## Left out

- Data fetching: `useQuery`, the `axios.get` request, `refetch` when the place changes, and the loading and error screens (src/app/page.tsx:47-73). These are network I/O and framework-driven asynchronous state.
- The `placeAtom` and `loadingCityAtom` store cells (src/app/page.tsx:44-45). They are shared UI state; src/app/atom.ts is not part of this model.
- JSX rendering and the `Navbar`, `ForecastWeatherDetail` and `WeatherSkeleton` components. These are presentation only.
- The date-fns calls (`format(parseISO(d.dt_txt), ...)`, and the sunrise and sunset `H:mm` strings). They are foreign library calls whose output depends on the local timezone. The per-sample date and day labels are parameters of `CardFor`; the sunrise and sunset props are not modelled. The model assumes that the sunrise, sunset and wind-speed props never throw. This excludes a `city.sunrise` or `city.sunset` more than 8.64·10^12 seconds from the epoch: `fromUnixTime` would give an Invalid Date, `format` would throw `RangeError`, and every card would throw. Whether `convertWindSpeed` can throw is outside this model. So the "exactly when" of `Cards.CardFor`, `Cards.RenderCards`, `Cards.CardsShowTheirEntries` and `Cards.DigestCardsUseTheirEntries` holds only for in-range sunrise and sunset values.
- `convertWindSpeed` and the wind-speed prop. src/utils/convertWindSpeed.ts is not part of this model, and the conversion is floating-point.
- The pressure and humidity props (`${d?.main.pressure} hPa `, `${d?.main.humidity}% `). They are JavaScript number-to-string conversions of floating-point values. For an absent sample they do not fall back to "": they read `"undefined hPa "` and `"undefined% "`.
- `metersToKilometers` on negative, fractional or non-finite inputs. Visibility is a natural number of metres.
- `Distance.MetersToKilometers` is faithful only up to 2^53 - 1 metres. Above that, the floating-point quotient can round differently from `(d + 500) / 1000`. From 10^24 metres on, `toFixed` writes exponent notation such as `"1e+21"`, so the result can even contain a '.'. The model keeps the exact integer rule for every natural number.
- `Cards.CardFor` does not model the `RangeError` that an out-of-range `city.sunrise` or `city.sunset` would raise in every card, as described above. Its error conditions cover only the sample's own `weather` array and labels.
- `Cards.CardFor` assumes that every present sample has a `dt_txt` string. A missing `dt_txt` is not modelled; an unparseable one is the `RangeError` case.
- Absence of an individual field of a present sample. The response interface declares every field required, so the `??` fallbacks are modelled only for a missing sample.
- `toISOString` throws a `RangeError` for timestamps outside JavaScript's date range (more than 8.64·10^12 seconds from the epoch). `Weather.DateKey` is defined for all integers.
