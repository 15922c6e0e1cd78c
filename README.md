# Service-provider marketplace: client-side logic in Dafny

This project models the client-side logic of a React Native marketplace app:

- the **provider list screen** (`app/index.tsx`): normalising the fetched providers and
  categories, filtering providers by the selected category, the category chips, and which
  provider rows the list renders;
- the **rating filter dialog** (`components/FilterRating.tsx`): a text buffer, the committed
  rating filter and the dialog's visibility, with the Apply, Clear, increment, decrement,
  typed-input and quick-select handlers;
- the **booking form** (`components/BookingModal.tsx`): the clamped hour count, the total,
  and the confirm handler that builds a pending booking and hands it to `onConfirm`;
- the **session store** (`store/useStore.ts`): providers, selected provider and bookings,
  with replace-style setters and an append-only `addBooking`.

The records of `types/type.d.ts` are datatypes in `types.dfy`. JavaScript's number built-ins
(`Number`, `parseFloat`, `toString`, `toFixed(1)`, `||` and `===` on numbers) are modelled
in `js_numbers.dfy`. A JavaScript number is `JsNum`: NaN or a real. Ratings with one decimal
are carried as whole counts of tenths.

Files and modules:

| file | module | source |
|---|---|---|
| types.dfy | `Types` | types/type.d.ts |
| js_numbers.dfy | `JsNumbers` | JavaScript built-ins used by the core |
| home.dfy | `Home` | app/index.tsx |
| filter_rating.dfy | `FilterRating` | components/FilterRating.tsx |
| booking_modal.dfy | `BookingModal` | components/BookingModal.tsx |
| store.dfy | `Store` | store/useStore.ts |

The home screen only calls single-cell state setters. Its handlers are therefore functions
from one `HomeState` to the next. The dialog, the form and the store change fields one step
at a time, so each is a class with one method per handler. Each method's `ensures` gives the
whole new state in terms of the old one. The contracts with the most content are on the
functions and lemmas beside those classes.

Choices made while modelling:

- `Provider.categoryId` and `Category.id` have type `Scalar`, a number or a piece of text.
  The code coerces both with `Number(...)` after the fetch, so values on the wire may be text.
  With this type, normalisation is a single field update, and "nothing else changes" can be
  stated as `r[i] == ps[i].(categoryId := ...)`.
- A selection of `null`, `0` or `NaN` is falsy and shows every provider.
  `Number("abc")` is NaN, and NaN `===` anything is false. So a provider with such a category
  id never matches a selection and never finds a category to render with.
- The chip handler compares `category.id === selectedCat` without `Number(...)`. The model
  does the same: an id still held as text never clears the selection.
- `Booking.hours` is a `number`, and the hours clamp keeps whatever `Number(val)` yields
  when it is at least 1: `"2.5"` stays 2.5 hours (`BookingModal.FractionalHoursKept`).
- The provider list in app/index.tsx:46-48 filters by category only; `ratingFilter` plays
  no part in it.
- Every draft booking carries `userId: 1` as a literal (components/BookingModal.tsx:36),
  modelled as `PlaceholderUserId`.
- The comment above the typed-input gate says "up to 1 decimal place". The regex
  `^\d*\.?\d*$` puts no limit on decimals, and the model follows the regex
  (`FilterRating.InputAllowsTwoDecimals`).

## Model

| member | source | states |
|---|---|---|
| `JsNumbers.ParseFloat` | components/FilterRating.tsx:29 | `parseFloat` of decimal text: a finite result is never negative |
| `JsNumbers.NumberOf` | components/BookingModal.tsx:114 | `Number(text)`: `""` is 0; a whole numeral reads as `parseFloat` reads it; unsigned text that is not a numeral is NaN; a `+` or `-` before a numeral gives its value or its negation, and before anything else gives NaN |
| `JsNumbers.RoundToTenths` | components/FilterRating.tsx:31 | `toFixed(1)` picks the nearest tenth, within half a tenth of the value |
| `JsNumbers.RoundToTenthsExact` | components/FilterRating.tsx:41 | a value that already has one decimal is written back unchanged |
| `JsNumbers.ParseFloatToFixed1` | components/FilterRating.tsx:41 | `parseFloat` reads back exactly the value `toFixed(1)` wrote, and that text passes the input gate |
| `JsNumbers.ParseFloatTenthsToString` | components/FilterRating.tsx:24 | `parseFloat` reads back what `toString` writes for a one-decimal value, and that text passes the gate |
| `JsNumbers.ParseFloatNat` | components/FilterRating.tsx:58 | `parseFloat` reads back a whole number's text, and that text passes the gate |
| `Home.NormaliseProvidersOnlyCoerces` | app/index.tsx:29-34 | normalising providers keeps length and order; each record changes only in `categoryId`, which becomes `Number(categoryId)` |
| `Home.NormaliseCategoriesOnlyCoerces` | app/index.tsx:35-37 | normalising categories keeps length and order; each record changes only in `id`, which becomes `Number(id)` |
| `Home.NormaliseProvidersIdempotent` | app/index.tsx:30-33 | normalising providers twice gives the same list as once |
| `Home.NormaliseCategoriesIdempotent` | app/index.tsx:36 | normalising categories twice gives the same list as once |
| `Home.Mount` | app/index.tsx:17-20 | on mount: the store's providers, no categories, nothing selected, and the spinner is shown |
| `Home.FinishLoad` | app/index.tsx:22-44 | a failed fetch keeps both previous collections; a successful one replaces them with exactly `NormaliseProviders` and `NormaliseCategories` of the fetched records (same length, numeric ids); either way `loading` ends false and the selection is kept |
| `Home.FilterByCategory` | app/index.tsx:47 | the filter keeps exactly the providers whose `Number(categoryId)` is `===` the category, and is never longer than its input |
| `Home.FilteredProviders` | app/index.tsx:46-48 | a falsy selection (`null`, 0 or NaN) yields the list itself; a non-zero one yields exactly the providers in that category |
| `Home.FilterIsSubsequence` | app/index.tsx:47 | the filtered list is a subsequence of the providers: relative order is kept |
| `Home.FilterMultiplicity` | app/index.tsx:47 | a matching provider is kept as often as it occurs; any other provider is kept 0 times |
| `Home.FilterIdempotent` | app/index.tsx:46-48 | filtering again by the same category changes nothing |
| `Home.SelectAll` | app/index.tsx:77 | "All" clears the selection, and the list then shows every provider |
| `Home.Toggle` | app/index.tsx:94-98 | the chip handler clears the selection only when something is selected and the id is already a number; otherwise it selects `Number(category.id)`; an id held as text never clears |
| `Home.TapCategory` | app/index.tsx:94-98 | a chip tap changes only the selection: providers, categories and `loading` are kept; it clears only a non-null selection |
| `Home.ToggleClearsOnlySelected` | app/index.tsx:94-98 | on a numeric id, a tap clears the selection exactly when that chip is selected, and otherwise selects its id; a NaN id never clears |
| `Home.TapTwiceClears` | app/index.tsx:94-98 | two taps on a chip with a finite id clear the selection, unless that chip was selected before the first tap |
| `Home.TapShowsCategory` | app/index.tsx:94-98 | tapping an unselected chip with a non-zero id lists exactly that category's providers |
| `Home.FindCategory` | app/index.tsx:127-129 | `categories.find`: None exactly when no category has the id; otherwise the first category that has it |
| `Home.RenderRows` | app/index.tsx:126-135 | at most one row per filtered provider; every row pairs a provider of the list with one of the categories |
| `Home.RowsUseFirstMatch` | app/index.tsx:126-135 | every rendered row pairs a listed provider with the first category whose id matches its `categoryId` |
| `Home.RowsDropOnlyUnmatched` | app/index.tsx:127-130 | a provider is rendered exactly when some category's id matches its `categoryId`; rows keep the list's order |
| `Home.View` | app/index.tsx:50-64 | the spinner shows exactly while loading; "No providers available" shows exactly when loading is over and the store is empty |
| `Home.ListingShowsSelectedKnown` | app/index.tsx:123-146 | a listed provider is exactly one from the store that lies in the selected category (when a non-zero one is selected) and has a matching category |
| `FilterRating.InputAccepted` | components/FilterRating.tsx:52 | the typed-input regex `^\d*\.?\d*$` accepts exactly the strings of digits with at most one `.`, in both directions |
| `FilterRating.DecimalShapeIff` | components/FilterRating.tsx:52 | the regex shape (leading digits, then optionally one `.` and digits) is the same set as "digits and at most one `.`" |
| `FilterRating.InputAllowsTwoDecimals` | components/FilterRating.tsx:51-53 | `"4.56"` passes the gate despite the comment, and Apply rounds it to 4.6 |
| `FilterRating.ResetText` | components/FilterRating.tsx:18-26 | the reset text is `""` for a null or 0 filter, and otherwise text that reads back as the filter; it always passes the gate |
| `FilterRating.ApplyValue` | components/FilterRating.tsx:28-34 | a value is committed exactly when the buffer parses to a number in [1, 5]; it lies in [1.0, 5.0] and within half a tenth of the parsed value; otherwise null |
| `FilterRating.IncrementTenths` | components/FilterRating.tsx:38-42 | increment writes between 0.1 and 5.0; its exact value is stated by `IncrementByTenth` and `IncrementFromNaN` |
| `FilterRating.DecrementTenths` | components/FilterRating.tsx:44-48 | decrement writes at least 1.0; its exact value is stated by `DecrementByTenth` and `DecrementFromNaN` |
| `FilterRating.ApplyToFixed1` | components/FilterRating.tsx:29-34 | Apply commits a one-decimal buffer unchanged when it is in [1, 5], and null otherwise |
| `FilterRating.ReopenThenApplyKeepsFilter` | components/FilterRating.tsx:22-34 | opening the dialog and applying straight away keeps null, and keeps any filter Apply can commit |
| `FilterRating.IncrementByTenth` | components/FilterRating.tsx:38-42 | on any buffer that parseFloat reads as k/10 (`"4"`, `"4.0"`, `"4.5"`, `"0"`), increment writes `min(k/10 + 0.1, 5)`: (k+1)/10, capped at 5.0; a buffer reading 0 counts as 0 |
| `FilterRating.DecrementByTenth` | components/FilterRating.tsx:44-48 | on any buffer that parseFloat reads as k/10, decrement writes `max(k/10 - 0.1, 1)`: (k-1)/10, floored at 1.0; a buffer reading 0 counts as 1 |
| `FilterRating.IncrementNearNextTenth` | components/FilterRating.tsx:38-42 | on any numeric buffer, typed text such as `"4.56"` included, increment writes the tenth nearest to `min(v + 0.1, 5)` |
| `FilterRating.DecrementNearPreviousTenth` | components/FilterRating.tsx:44-48 | on any numeric buffer (including 0, which counts as 1), decrement writes the tenth nearest to `max(v - 0.1, 1)` |
| `FilterRating.IncrementFromNaN` | components/FilterRating.tsx:39-41 | a buffer that is not a number (`""`, `"."`) counts as 0, so increment writes 0.1 |
| `FilterRating.DecrementFromNaN` | components/FilterRating.tsx:45-47 | a buffer that is not a number (`""`, `"."`) counts as 1, so decrement writes 1.0 |
| `FilterRating.IncrementAfterQuickSelect` | components/FilterRating.tsx:38-42 | after a quick-select of v in 1..5 (buffer `"v"`), increment writes v + 0.1, and 5 stays 5.0 |
| `FilterRating.IncrementFromEmptyIsRejected` | components/FilterRating.tsx:28-42 | from an empty buffer, increment writes `"0.1"`, which a later Apply rejects (commits null) |
| `FilterRating.DecrementFromEmpty` | components/FilterRating.tsx:44-48 | from an empty buffer, decrement writes 1.0 |
| `FilterRating.QuickSelectApplies` | components/FilterRating.tsx:120-128 | a quick-select value 1..5 reads back `===` itself (its button is highlighted) and applies as itself |
| `FilterRating.RatingDialog.constructor` | components/FilterRating.tsx:18-20 | the initial buffer is the committed filter's text, or `""` |
| `FilterRating.RatingDialog.Open` | components/FilterRating.tsx:22-26 | a hidden dialog becoming visible resets the buffer to the committed filter's text (`""` for null or 0); the filter is unchanged |
| `FilterRating.RatingDialog.Dismiss` | components/FilterRating.tsx:82 | the close controls only hide the dialog |
| `FilterRating.RatingDialog.Apply` | components/FilterRating.tsx:28-36 | commits `ApplyValue` of the buffer (null or a value in [1, 5]), closes the dialog, and keeps the buffer |
| `FilterRating.RatingDialog.Increment` | components/FilterRating.tsx:38-42 | the buffer becomes the `toFixed(1)` text of the incremented value, which is never above 5 |
| `FilterRating.RatingDialog.Decrement` | components/FilterRating.tsx:44-48 | the buffer becomes the `toFixed(1)` text of the decremented value, which is never below 1 |
| `FilterRating.RatingDialog.InputChange` | components/FilterRating.tsx:50-55 | typed text replaces the buffer if the gate accepts it; otherwise the buffer stays |
| `FilterRating.RatingDialog.QuickSelect` | components/FilterRating.tsx:57-59 | the buffer becomes the chosen value's text, which parses back to that value |
| `FilterRating.RatingDialog.Clear` | components/FilterRating.tsx:146-149 | empty buffer, null filter, dialog closed |
| `BookingModal.ClampHours` | components/BookingModal.tsx:113-115 | the count is at least 1; it is the typed number when that number is at least 1, and exactly 1 for empty, non-numeric, zero, negative or sub-1 input |
| `BookingModal.DraftBooking` | components/BookingModal.tsx:34-42 | the draft's total is the price times the draft's own hours; it is pending, has no id, carries the provider's id and user 1, and the picked date and clock time |
| `BookingModal.DraftCostUsesClampedHours` | components/BookingModal.tsx:26-42 | a draft from typed hours has hours ≥ 1 and total = price × clamped hours (so never below one hour's price); it has status pending, no id, user 1 and the provider's id |
| `BookingModal.ZeroHoursCostsOneHour` | components/BookingModal.tsx:113-114 | `"0"` gives 1 hour and costs one hour's price |
| `BookingModal.ThreeHoursCostThreeTimes` | components/BookingModal.tsx:113-114 | `"3"` gives 3 hours and costs three times the price |
| `BookingModal.NegativeHoursGiveOne` | components/BookingModal.tsx:113-114 | a negative whole count gives exactly 1 hour |
| `BookingModal.FractionalHoursKept` | components/BookingModal.tsx:113-114 | `"2.5"` gives 2.5 hours: fractional counts are not rounded |
| `BookingModal.BookingForm.Total` | components/BookingModal.tsx:26 | with the clamp in force (hours ≥ 1) and a non-negative price, the total is never below one hour's price |
| `BookingModal.BookingForm.constructor` | components/BookingModal.tsx:21-26 | the form opens at the given moment with 1 hour, total = one hour's price, and nothing confirmed |
| `BookingModal.BookingForm.SetHoursFromText` | components/BookingModal.tsx:113-115 | the count becomes the clamp of the text and stays ≥ 1 |
| `BookingModal.BookingForm.OpenPicker` | components/BookingModal.tsx:80-81 | the date field shows the picker |
| `BookingModal.BookingForm.PickMoment` | components/BookingModal.tsx:96-99 | a picked moment replaces the current one, no pick keeps it, and the picker closes either way |
| `BookingModal.BookingForm.Confirm` | components/BookingModal.tsx:28-47 | below one hour nothing is sent and nothing changes; otherwise the pending draft is sent to `onConfirm` exactly once (appended to `confirmed`); its total is `Total()`; `loading` ends false; with the clamp in force the guard never refuses |
| `Store.AfterAddsAppends` | store/useStore.ts:12-15 | N `addBooking` calls append the N bookings in call order |
| `Store.AddingTwiceKeepsBoth` | store/useStore.ts:12-15 | adding the same booking twice keeps both copies: there is no deduplication |
| `Store.SessionStore.constructor` | store/useStore.ts:3-16 | initially no providers, no selected provider, no bookings |
| `Store.SessionStore.SetProviders` | store/useStore.ts:5 | replaces the providers wholesale; the other two fields are unchanged |
| `Store.SessionStore.SetSelectedProvider` | store/useStore.ts:8 | replaces only the selected provider |
| `Store.SessionStore.SetBookings` | store/useStore.ts:11 | replaces only the bookings |
| `Store.SessionStore.AddBooking` | store/useStore.ts:12-15 | appends the booking; length grows by one, the old bookings form an unchanged prefix, and the other fields are unchanged |
| `Store.DuplicateBookingKept` | store/useStore.ts:12-15 | a fresh store given the same booking twice holds `[b, b]` |

## Left out

- Network I/O (`api/api.ts`: the axios client, base-URL switching, the 5000 ms timeout). A fetch
  result is an `Option<FetchResult>` input, with None standing for a rejected `Promise.all`.
- `components/ProviderCard.tsx`, JSX rendering, styling and the highlight classes of the chips,
  as well as `Alert`, `console.log` and `router.push` navigation. These are presentation.
- `async`/`Promise.all` orchestration, React re-rendering and effect scheduling, and zustand
  subscriptions. Each handler and effect is modelled as one atomic step.
- JavaScript `Date`. The date field of a booking is `toISOString().split("T")[0]` (UTC) and the
  time field is `toTimeString().slice(0, 5)` (local). Both are opaque strings in `Moment`.
- IEEE floating point. Numbers are exact reals, so `current + 0.1` is exact, and `toFixed(1)`
  rounds the exact value half up. Binary rounding can change a tie (JavaScript writes
  `(4.55).toFixed(1)` as "4.5"), and the model does not reproduce that.
- `JsNumbers.NumberOf`: does not model leading or trailing whitespace, exponents, hexadecimal,
  `Infinity` or `-0`. JavaScript reads `" 3"` and `"1e1"` as numbers, and the model reads them as
  NaN, so the hours clamp gives 1 for them.
- `JsNumbers.ParseFloat`: does not model a leading sign, whitespace, exponents or `Infinity`.
  Signs and whitespace cannot enter the rating buffer, because the input gate refuses them.
  Exponent notation and `Infinity` can enter it only through the `toFixed(1)` case below.
- `JsNumbers.ToFixed1`: for values of 1e21 or more, JavaScript's `toFixed(1)` writes exponent
  notation (`"1e+21"`) or `"Infinity"`. The model writes digits for every value.
- `FilterRating.RatingDialog.Decrement`: a typed buffer of 22 or more digits followed by −
  reaches the exponent case above. The program's buffer then leaves the input gate, and typing
  is refused until −, +, a quick-select, Clear or a full replacement. The model's buffer always
  passes the gate (`RatingDialog.Valid`). Apply, increment and decrement give the same values
  either way.
- `FilterRating.RatingDialog`: `ratingFilter` is held as a whole number of tenths. A parent
  passing a negative value or one with more than one decimal cannot be represented. The only
  parent shown passes null at first and afterwards only what Apply commits.
- The combined category-and-rating filter in `app/(root)/(tabs)/home.tsx` is not part of this
  model. No core file applies `ratingFilter` to the provider list.
- `BookingModal.BookingForm.Confirm`: the model has no intermediate state in which `loading`
  is true. `onConfirm` is not awaited (components/BookingModal.tsx:45), and both `setLoading`
  calls run in one handler, so `loading` is never shown as true. The button is therefore never
  disabled while the parent posts the booking: a second tap sends a second draft, as a second
  `Confirm` appends a second booking to `confirmed`.
- What the provider screens do with `onConfirm` (posting the booking and adding the server's
  copy to the store). Those screens lie outside this core.
