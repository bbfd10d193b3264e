# Experience booking storefront — verified model of its client-side logic

The storefront is a React client over a remote booking API. A visitor filters a list
of experiences, opens one, picks a date, a slot and a number of tickets, and checks out
with contact details, an optional promo code and the terms accepted. This project
models the logic behind those steps and proves what it promises:

- `Validators` (`src/utils/validators.ts`): the email, phone and name checks and
  `validateBookingForm`, which builds an error map keyed by field.
- `Formatters` (`src/utils/formatters.ts`): `formatTime` (24-hour `H:MM` to
  12-hour `H:MM AM/PM`) and `formatDateForInput` (`YYYY-MM-DD`). The date is a
  `(year, month0, day)` triple.
- `JsString`: the JavaScript built-ins those functions are written with. These are
  the `\s` and `\d` classes, `trim`, `split` on one character, `toUpperCase`,
  `padStart(2, '0')`, `String(n)` for integers, and `parseInt` without a radix
  (leading whitespace, sign, `0x`, and `NaN` as `None`).
- `Types` (`src/types/index.ts`): the records exchanged with the API.
- `Pricing`: the subtotal, the 6% tax and the discount of both booking pages.
- `ExperienceApi` (`src/api/experienceApi.ts`): the ordered query parameters of
  `getAllExperiences`, the request URL, and the normalisation of the records it
  returns.
- `Details` (`src/pages/DetailsPage.tsx`): the details page as a class
  `DetailsView`. It holds the fetched details, the selected date, slot and quantity,
  and the click handlers. Its invariant is that the quantity is at least 1 and a
  selected slot stays selectable for it.
- `Checkout` (`src/pages/CheckoutPage.tsx`): the checkout page as a class
  `CheckoutView`. It holds the form, the promo fields, the terms flag, the errors and
  the navigation, and has the handlers. Answers from the promo and booking services
  are parameters of the handlers that wait for them. A missing navigation state
  redirects home.

Amounts are exact reals, so the 6% tax has no rounding. The price filters of the experience list are whole numbers. Lengths that JavaScript reads with `length` on free text count UTF-16 code units. Object keys in insertion
order (`availableSlots`) are a sequence of `(date, slots)` pairs. Checks that JavaScript
writes with falsy values (`||`, `if (x)`) are spelled out: an empty string, a zero
amount and a missing value each take the fallback branch.

## Model

| member | source | states |
|---|---|---|
| Validators.IsValidEmail | src/utils/validators.ts:2-5 | the email check: no whitespace, exactly one `@` that is not first, and after it a `.` that is neither first nor last of the domain |
| Validators.EmailPredicateIsPattern | src/utils/validators.ts:3-4 | `IsValidEmail(s)` holds iff `s` is `a@b.c` with each of `a`, `b`, `c` a non-empty run without whitespace or `@`, which is what the regular expression `^[^\s@]+@[^\s@]+\.[^\s@]+$` matches |
| Validators.IndexOf | src/utils/validators.ts:3 | the first index of a character, or the length when it is absent; every earlier character differs from it |
| Validators.CountConcat | src/utils/validators.ts:3 | the count of a character in a concatenation is the sum of the counts of the parts |
| Validators.CountZero | src/utils/validators.ts:3 | a character has count 0 iff it does not occur |
| Validators.DigitsOf | src/utils/validators.ts:10 | `replace(/\D/g, '')` keeps no more characters than the input has, and only digits; `DigitsOfKeepsEveryDigit` and `DigitsOfConcat` state that it keeps all of them in order |
| Validators.DigitsOfKeepsEveryDigit | src/utils/validators.ts:10 | every digit of the input is kept as often as it occurs, and nothing that is not a digit |
| Validators.DigitsOfConcat | src/utils/validators.ts:10 | the digits of a concatenation are the digits of the first part followed by those of the second |
| Validators.PhoneNeedsTenDigits | src/utils/validators.ts:9-10 | a string with fewer than ten digits is never a valid phone, whatever else it holds; a valid phone has at least ten characters |
| Validators.AllPhoneCharsConcat | src/utils/validators.ts:9 | a concatenation is made of phone characters iff both parts are |
| Validators.PhoneIgnoresSeparators | src/utils/validators.ts:9-10 | inserting or deleting one non-digit phone character (space, `-`, `+`, `(`, `)`) never changes the verdict, for every string |
| Validators.IsValidPhone | src/utils/validators.ts:8-11 | `isValidPhone`: non-empty, only digits, whitespace, `-`, `+`, `(` and `)`, and at least ten digits; its properties are the phone lemmas above |
| Validators.IsValidName | src/utils/validators.ts:14-16 | `isValidName`: the UTF-16 length of the trimmed name is at least 2; `NameNeedsTwoVisibleCharacters` characterises it |
| Validators.NameNeedsTwoVisibleCharacters | src/utils/validators.ts:14-16 | a name is valid (`trim().length >= 2`, counted in UTF-16 code units) iff it contains two characters that are not whitespace, or one character above U+FFFF |
| Validators.ErrorMessage | src/utils/validators.ts:31-45 | the fixed message for each field key; none of them is empty |
| Validators.ValidateBookingForm | src/utils/validators.ts:23-48 | each of `name`, `email` and `phone` is a key iff its check fails, and `number_of_people` iff the count is below 1; no other key occurs; each key holds its fixed message; the map is empty iff all four checks pass |
| Validators.CollectErrors | src/utils/validators.ts:29-47 | the four `if` statements over the check results: one key per failed check, with its message, and the empty map exactly when none failed |
| JsString.WhitespaceRunEnd | src/utils/validators.ts:15 | the whitespace run from a position ends at the first character that is not whitespace, or at the end |
| JsString.WhitespaceRunStart | src/utils/validators.ts:15 | the whitespace run up to a position starts just after the last character that is not whitespace, or at the lower bound |
| JsString.Trim | src/utils/validators.ts:15 | `trim()`: the text between the leading and the trailing whitespace run; `TrimShape` and `TrimIsEmptyIffBlank` state it |
| JsString.Utf16Length | src/utils/validators.ts:15 | `length` in UTF-16 code units: between the number of characters and twice that |
| JsString.Utf16LengthAtLeastTwo | src/utils/validators.ts:15 | a length of at least 2 code units means two characters, or one character above U+FFFF |
| JsString.TrimShape | src/utils/validators.ts:15 | `trim()` is the contiguous part of the input between a leading and a trailing run of whitespace, and it neither starts nor ends with whitespace |
| JsString.TrimIsEmptyIffBlank | src/pages/CheckoutPage.tsx:65 | `s.trim()` is empty iff every character of `s` is whitespace |
| JsString.Split | src/utils/formatters.ts:33 | `split(':')` returns at least one piece, and no piece contains the separator |
| JsString.JoinSplit | src/utils/formatters.ts:33 | joining the pieces of a split with the separator gives back the original string |
| JsString.SplitJoin | src/utils/formatters.ts:33 | splitting a join of separator-free pieces gives back the pieces |
| JsString.SplitWithoutSeparator | src/utils/formatters.ts:33 | a string without the separator splits into itself alone |
| JsString.SplitAfterPiece | src/utils/formatters.ts:33 | a separator-free piece followed by the separator splits off as the first piece |
| JsString.ToUpper | src/pages/CheckoutPage.tsx:72 | `toUpperCase` keeps the length and upper-cases each character on its own |
| JsString.ToUpperIdempotent | src/pages/CheckoutPage.tsx:276 | upper-casing twice is the same as upper-casing once |
| JsString.NatToString | src/utils/formatters.ts:43 | `String(n)` of a natural number is a non-empty run of digits, one digit long iff `n < 10` |
| JsString.NumeralValue | src/utils/formatters.ts:43 | the decimal value of `String(n)` is `n` |
| JsString.NumeralLeadingDigit | src/utils/formatters.ts:43-44 | `String(n)` starts with `0` iff `n` is 0 |
| JsString.IntToString | src/utils/formatters.ts:37 | `String(n)` for an integer: a `-` in front of the numeral of `-n` when `n` is negative |
| JsString.ParseIntOfString | src/utils/formatters.ts:34 | `parseInt(String(n)) == n` for every integer `n` |
| JsString.ParseInt | src/utils/formatters.ts:34 | `parseInt` without a radix: leading whitespace skipped, an optional sign, `0x` for base 16, the longest digit run, `NaN` when there is none; `ParseIntOfString` and `ParseIntOfDigits` state it |
| JsString.ParseIntOfDigits | src/utils/formatters.ts:34 | `parseInt` of a run of decimal digits, leading zeros included, is the run's value |
| JsString.PadStart2 | src/utils/formatters.ts:43-44 | `padStart(2, '0')` has length 2 or the length of `s` if longer, ends with `s`, and has only zeros in front of it |
| JsString.DigitValue | src/utils/formatters.ts:34 | the value of a digit (decimal, or hexadecimal after `0x`) is below its base |
| JsString.LeadingZero | src/utils/formatters.ts:34 | a leading `0` adds nothing to a decimal value |
| Formatters.JsRemainder12 | src/utils/formatters.ts:36 | JavaScript's `hour % 12`, which truncates toward zero: it differs from `hour` by a multiple of 12, lies in 0..11 for `hour >= 0` and in -11..0 below zero |
| Formatters.DisplayHour | src/utils/formatters.ts:36 | `hour % 12`, or 12 when that is 0 or `NaN`: 12 for a `NaN` hour; otherwise congruent to the hour modulo 12, in 1..12 for a non-negative hour, and 12 or in -11..-1 for a negative one |
| Formatters.Meridiem | src/utils/formatters.ts:35 | `hour >= 12 ? 'PM' : 'AM'`: `PM` for a read hour of 12 or more, `AM` otherwise and for a `NaN` hour |
| Formatters.ShowTime | src/utils/formatters.ts:37 | the template `${displayHour}:${minutes} ${ampm}`: the display hour's numeral, `:`, the minutes, a space and the meridiem |
| Formatters.FormatTime | src/utils/formatters.ts:32-38 | `formatTime`: the hour `parseInt` reads before the first `:`, the text up to the second `:` as minutes, shown as `displayHour:minutes AM/PM`; the lemmas below state it |
| Formatters.HourTexts | src/utils/formatters.ts:33-34 | hour `h` in 0..23, written plain (`9`) or padded to two digits (`09`), holds no `:` and `parseInt` reads it as `h` |
| Formatters.FormatClockTime | src/utils/formatters.ts:32-38 | for hour `h` in 0..23 written in any colon-free text `parseInt` reads as `h` (so `9` and `09` alike) and minutes `m` without `:`, `formatTime` gives the clock-face hour (12 for 0, `h-12` after noon), `:`, `m` unchanged, and `PM` iff `h >= 12`, otherwise `AM` |
| Formatters.FormatTwoDigitTime | src/utils/formatters.ts:32-38 | the same for the two-digit `HH:MM` form: `00:15` is `12:15 AM`, `09:30` is `9:30 AM`, `13:05` is `1:05 PM` |
| Formatters.MidnightAndNoon | src/utils/formatters.ts:35-36 | hour 0 (whether written `0` or `00`) is shown as `12:MM AM` and hour 12 as `12:MM PM` |
| Formatters.FormatTimeRoundTrip | src/utils/formatters.ts:32-38 | for any hour text of an hour in 0..23, padded or not, reading the 12-hour text back gives the original 24-hour hour and minutes, so `formatTime` loses nothing |
| Formatters.FormatTimeFields | src/utils/formatters.ts:33-37 | for colon-free hours and minutes, `formatTime(hours + ":" + minutes)` shows `parseInt(hours)` and keeps `minutes` verbatim |
| Formatters.ClockHour | src/utils/formatters.ts:36 | on hours 0..23, `hour % 12` with 0 replaced by 12 is the clock-face reading |
| Formatters.FormatTimeIgnoresSeconds | src/utils/formatters.ts:33 | text after a second `:` (seconds) does not change the output |
| Formatters.FormatTimeOfUnreadableHour | src/utils/formatters.ts:34-37 | when `parseInt` gives `NaN`, the output is `12:<minutes> AM`, and the minutes are the word `undefined` when there is no `:` |
| Formatters.PadTwoDigits | src/utils/formatters.ts:43-44 | a number below 100, padded, is two digits with the same value, with a `0` in front iff the number is below 10 |
| Formatters.FormatDateForInput | src/utils/formatters.ts:41-46 | `formatDateForInput`: the year, the month counted from 1 and the day, the last two padded to two digits, joined by `-`; `DateFields`, `FormatDateRoundTrip` and `FormatDateWidth` state it |
| Formatters.DateFields | src/utils/formatters.ts:41-46 | for a calendar date, the output is the year numeral, `-`, the two-digit month `month0 + 1`, `-`, the two-digit day, and each field holds its value |
| Formatters.FormatDateRoundTrip | src/utils/formatters.ts:41-46 | reading `YYYY-MM-DD` back gives the original `(year, month0, day)` for every calendar date with a non-negative year |
| Formatters.FormatDateWidth | src/utils/formatters.ts:42-45 | for a four-digit year the output is 10 characters, with `-` at positions 4 and 7 |
| Formatters.TwoDigitNumeral | src/utils/formatters.ts:43-44 | numbers 10..99 have two-digit numerals, so padding leaves them as they are |
| Formatters.FourDigitNumeral | src/utils/formatters.ts:42 | years 1000..9999 have four-digit numerals |
| Types.Dates | src/types/index.ts:32-34 | the keys of the availability object, in order, one per entry |
| Types.SlotsOn | src/pages/DetailsPage.tsx:68 | `availableSlots[date]` is defined iff `date` is a key, and then it is the slot list stored under it |
| Types.SlotsOnDistinct | src/pages/DetailsPage.tsx:68 | with distinct dates, as an object's keys are, looking up the date of an entry gives that entry's slot list |
| Pricing.Subtotal | src/pages/CheckoutPage.tsx:50 | price times quantity; `TotalsInClosedForm` states the totals built on it |
| Pricing.Taxes | src/pages/CheckoutPage.tsx:51 | 6% of the subtotal |
| Pricing.SummaryTotal | src/pages/DetailsPage.tsx:70-72 | the details page total, subtotal plus taxes; `TotalsInClosedForm` gives it as `price * quantity * 1.06` |
| Pricing.CheckoutTotal | src/pages/CheckoutPage.tsx:50-53 | subtotal plus taxes less the discount; `TotalsInClosedForm`, `CheckoutMatchesSummaryWithoutPromo` and `DiscountBoundedBySubtotal` state it |
| Pricing.Discount | src/pages/CheckoutPage.tsx:52 | the discount amount of the applied promo, or 0 (a zero amount is falsy): 0 without a promo or without data, otherwise the promo's discount amount |
| Pricing.TotalsInClosedForm | src/pages/CheckoutPage.tsx:50-53 | the checkout total is `price * quantity * 1.06 - discount`, and the details page total is `price * quantity * 1.06` |
| Pricing.CheckoutMatchesSummaryWithoutPromo | src/pages/DetailsPage.tsx:70-72 | without a promo that has data, the checkout total equals the total the details page showed |
| Pricing.DiscountBoundedBySubtotal | src/pages/CheckoutPage.tsx:50-53 | a discount between 0 and the subtotal keeps the total between the taxes and the undiscounted total |
| Pricing.WorkedExample | src/pages/CheckoutPage.tsx:50-53 | two tickets at 1000 cost 2120 in total, and 1920 with 200 off |
| ExperienceApi.TextParam | src/api/experienceApi.ts:20-22 | a text filter is sent iff it is present and non-empty, and then unchanged |
| ExperienceApi.PriceParam | src/api/experienceApi.ts:23-24 | a price filter is sent iff it is defined, 0 included, as a non-empty text that `parseInt` reads back to the filter |
| ExperienceApi.LookupAppended | src/api/experienceApi.ts:20-24 | `append` of a new key adds that key's value and leaves every other key's value as it was |
| ExperienceApi.LookupOfEarlier | src/api/experienceApi.ts:20-24 | a key that ranks after every key in the list has no value yet |
| ExperienceApi.Append | src/api/experienceApi.ts:20-24 | `queryParams.append` adds the pair at the end, keeps the fixed key order, and changes the value of that key only |
| ExperienceApi.AppendIfPresent | src/api/experienceApi.ts:20-24 | one guarded `append`: afterwards the key holds exactly the value given, if any, and no other key changes |
| ExperienceApi.BuildQueryParams | src/api/experienceApi.ts:18-24 | the list holds `search`, `category` and `location` only when they are present and non-empty, `minPrice` and `maxPrice` whenever they are defined (0 included, written by `toString`), and keys in the order search, category, location, minPrice, maxPrice, each at most once |
| ExperienceApi.Serialize | src/api/experienceApi.ts:26 | `queryParams.toString()` without encoding: empty iff there are no parameters |
| ExperienceApi.ExperiencesUrl | src/api/experienceApi.ts:26 | the endpoint, followed by `?` and the query only when the query is non-empty; `UrlHasQueryIffParams` states it |
| ExperienceApi.UrlHasQueryIffParams | src/api/experienceApi.ts:26 | the URL starts with the endpoint and contains `?` iff the parameter list is non-empty |
| ExperienceApi.OrEmpty | src/api/experienceApi.ts:38-40 | the list or `[]`: the list when present, the empty list otherwise |
| ExperienceApi.NormalizeExperience | src/api/experienceApi.ts:32-41 | `highlights`, `included` and `not_included` are the original lists when present and `[]` otherwise; every other field is unchanged |
| ExperienceApi.NormalizeKeepsNormalized | src/api/experienceApi.ts:32-41 | a record that has all three lists comes through unchanged |
| ExperienceApi.NormalizeIdempotent | src/api/experienceApi.ts:32-41 | normalising a record twice is normalising it once |
| ExperienceApi.NormalizeAll | src/api/experienceApi.ts:32 | `map` builds a new list with one normalised record per record, of the same length and in the same order |
| ExperienceApi.NormalizeAllIdempotent | src/api/experienceApi.ts:32-41 | a list of normalised records is left unchanged |
| ExperienceApi.NormalizeResponse | src/api/experienceApi.ts:31-42 | the answer keeps its `success` and `message`; its `data` list is normalised when present and stays absent otherwise |
| ExperienceApi.NormalizeSkipsMissingData | src/api/experienceApi.ts:31 | an answer without a `data` list is returned exactly as it came |
| ExperienceApi.NormalizeResponseIdempotent | src/api/experienceApi.ts:31-42 | normalising an answer twice is normalising it once |
| ExperienceApi.GetAllExperiences | src/api/experienceApi.ts:11-46 | the URL requested is the endpoint with the parameter list `BuildQueryParams` describes, and the result is the normalised answer |
| Details.Cap | src/pages/DetailsPage.tsx:212 | the selected slot's spots or 10: the slot's spots, or 10 with no slot selected or a slot with 0 spots |
| Details.StepUp | src/pages/DetailsPage.tsx:211-214 | `Math.min(cap, q + 1)`: at most the cap and at most `q + 1`, and equal to one of them |
| Details.StepDown | src/pages/DetailsPage.tsx:202 | `Math.max(1, q - 1)`: at least 1 and at least `q - 1`, and equal to one of them |
| Details.StepUpSaturates | src/pages/DetailsPage.tsx:209-215 | from a quantity within the cap, `n` presses of "+" reach `min(cap, q + n)` |
| Details.StepDownSaturates | src/pages/DetailsPage.tsx:202 | from a quantity of at least 1, `n` presses of "−" reach `max(1, q - n)` |
| Details.StepUpClampsFromAbove | src/pages/DetailsPage.tsx:209-215 | "+" on a quantity at or above the cap sets it to the cap |
| Details.StepsStayInRange | src/pages/DetailsPage.tsx:202-215 | a quantity in `[1, cap]` stays in `[1, cap]` under either button |
| Details.Selectable | src/pages/DetailsPage.tsx:141 | a slot button is enabled iff the slot is available and has at least `quantity` spots |
| Details.VisibleDates | src/pages/DetailsPage.tsx:112 | `availableDates.slice(0, 5)`: exactly the first five dates, or all of them when there are fewer, in key order |
| Details.DetailsView.constructor | src/pages/DetailsPage.tsx:12-16 | the initial state: no details, loading, date `''`, no slot, quantity 1 |
| Details.DetailsView.FetchCompleted | src/pages/DetailsPage.tsx:24-43 | a successful answer with data is stored, and its first date, if any, is selected; any other answer or a failure leaves details and date; loading ends in every case; slot and quantity are untouched |
| Details.DetailsView.SelectDate | src/pages/DetailsPage.tsx:115-118 | the clicked date is selected and the slot is cleared; the invariant is kept |
| Details.DetailsView.SelectSlot | src/pages/DetailsPage.tsx:140-141 | a slot is selected iff its button is enabled (`is_available` and `available_spots >= quantity`); otherwise the click does nothing |
| Details.DetailsView.Decrement | src/pages/DetailsPage.tsx:202 | the quantity becomes `max(1, q - 1)`, never grows, and still fits the selected slot |
| Details.DetailsView.Increment | src/pages/DetailsPage.tsx:209-215 | the quantity becomes `min(cap, q + 1)`; with a slot selected it does not drop and stays within the slot's spots |
| Details.DetailsView.Confirm | src/pages/DetailsPage.tsx:45-56 | there is a hand-off iff a slot and details are present, and it is exactly `{experience, slot, date, quantity}`, with a quantity between 1 and the slot's spots and an available slot |
| Details.DetailsView.Total | src/pages/DetailsPage.tsx:70-72 | the summary total is `price * quantity * 1.06` |
| Details.DetailsView.Shown | src/pages/DetailsPage.tsx:58-64 | the page is past both early returns: not loading, and details are present |
| Details.DetailsView.DateButtons | src/pages/DetailsPage.tsx:112 | the date buttons: the first five keys of the fetched availability, none before the details arrive |
| Details.DetailsView.SlotButtons | src/pages/DetailsPage.tsx:68 | `selectedDate ? availableSlots[selectedDate] : []`: the slots stored under the selected date, none while no date is selected |
| Checkout.MessageOr | src/pages/CheckoutPage.tsx:81-83 | the server message or the fallback: the server message when it is non-empty, otherwise the fallback, and never empty when the fallback is not |
| Checkout.PromoCodeOf | src/pages/CheckoutPage.tsx:125 | the applied code or `undefined`: a code iff a promo with data and a non-empty code is applied, and then that code |
| Checkout.WithField | src/pages/CheckoutPage.tsx:57 | `{ ...prev, [name]: value }`: the edited input takes the value and the others keep theirs |
| Checkout.SubmittedFields | src/pages/CheckoutPage.tsx:100-103 | `{ ...formData, number_of_people: quantity }`: the form's name, email and phone with the handed-over quantity as the number of people |
| Checkout.IsBlankCode | src/pages/CheckoutPage.tsx:65 | `!promoCode.trim()` holds iff the code is all whitespace |
| Checkout.CheckoutView.constructor | src/pages/CheckoutPage.tsx:22-46 | empty form and promo, terms unticked, no errors; without navigation state the page redirects home |
| Checkout.CheckoutView.Subtotal | src/pages/CheckoutPage.tsx:50 | price times quantity |
| Checkout.CheckoutView.Total | src/pages/CheckoutPage.tsx:50-53 | `price * quantity * 1.06` less the applied promo's discount |
| Checkout.CheckoutView.EditField | src/pages/CheckoutPage.tsx:55-62 | only the edited input changes; its error is blanked iff one was showing, and no other error changes |
| Checkout.CheckoutView.EditPromoCode | src/pages/CheckoutPage.tsx:276 | the promo input stores the typed text upper-cased |
| Checkout.CheckoutView.SetAgreeToTerms | src/pages/CheckoutPage.tsx:301 | the terms flag takes the checkbox value |
| Checkout.CheckoutView.ApplyPromo | src/pages/CheckoutPage.tsx:64-88 | a blank code sends nothing and changes nothing; otherwise the request carries the upper-cased code and the subtotal, any answer is applied and clears the error without looking at `success`, a rejection clears the promo and shows the server message or `Invalid or expired promo code`; `applyingPromo` is false afterwards in every case |
| Checkout.CheckoutView.RemovePromo | src/pages/CheckoutPage.tsx:90-94 | promo, code and error are cleared, so no code is sent and no discount applies |
| Checkout.CheckoutView.Submit | src/pages/CheckoutPage.tsx:96-144 | a failing form only replaces the error map with the validation result; a valid form without the terms ticked only raises the terms alert; a request goes out iff both checks pass, and it carries the form, the experience and slot ids, `number_of_people = quantity` and the applied code or none; the page goes to success only on an answer with `success` and `data`; a failure raises the server message or the default alert |
| Checkout.CheckoutView.SendBooking | src/pages/CheckoutPage.tsx:115-143 | the booking request built from the form, the slot and the promo, and the navigation and alert that follow from the service's outcome |

## Left out

- The HTTP requests (axios in `src/api/*.ts`) are left out. Their answers are
  parameters of `GetAllExperiences`, `FetchCompleted`, `ApplyPromo` and `Submit`.
  `getExperienceById` and `getAvailableDates` are plain requests with no logic and
  are not modelled.
- Promises and interleaving are left out. Each handler runs to completion, so
  `applyingPromo` and `loading` are only true inside a handler. A click while a
  request is pending is not modelled.
- `alert`, `console.log`, `console.error` and `navigate(-1)` are left out. Alerts are
  returned as a value. Navigation is the field `navigation`.
- Percent-encoding by `URLSearchParams` is left out. `Serialize` joins `key=value`
  pairs with `&` as they are.
- Floating point is left out. Amounts are exact reals, and the `Number(...)`
  coercions of `rating`, `price`, `reviews_count` and `id` at
  `src/api/experienceApi.ts:34-37` are treated as already numeric.
- Formatting that uses `Intl` (`formatCurrency`, `formatDate`, `formatDateShort`,
  `getDayName`) and the clock checks `isToday` and `isPastDate` are not modelled.
- `formatDateForInput` takes the `(year, month0, day)` that a `Date` reports. An
  invalid `Date` (`NaN` fields) is not modelled.
- `ExperienceApi.BuildQueryParams`: the `minPrice` and `maxPrice` filters are whole
  numbers. The home page fills them with `Number(...)` of the address bar's text, which
  can be fractional (`499.5`) or `NaN`, and `toString()` sends those too. Such filters
  cannot be expressed.
- `ExperienceApi.GetAllExperiences`: has the same whole-number price filters as
  `BuildQueryParams`.
- `JsString.IntToString`: does not write numbers of 10^21 or more in exponent form,
  as JavaScript's `toString` does for such large numbers.
- `JsString.ParseInt`: reads any number of digits exactly. JavaScript rounds beyond
  2^53.
- `JsString.ToUpper`: upper-cases only the ASCII letters. JavaScript's Unicode case
  mapping, including letters that map to two characters, is not modelled.
- Only the first five dates have buttons; `Details.DetailsView.SelectDate` accepts
  exactly those.
- The rendering in JSX, the markup and the other pages are not modelled. This includes
  `experience.highlights[0]` on the details page (`src/pages/DetailsPage.tsx:168`). On an
  empty list it renders nothing. It throws when `highlights` is missing, which can happen
  because `getExperienceById` does not normalise its answer.
- The details page's fetch runs once. A refetch after the `id` route parameter
  changes is not modelled. With it, a selected date could stop being a key, which
  makes the page throw; `Details.DetailsView.SlotButtons` shows no slots in that case.
- `Details.DetailsView.FetchCompleted`: it covers only the effects on this page's
  state. `Number(id)` in the request is not modelled.
- The checkout's missing-state check (`!state?.experience`) is modelled as a missing
  state. A state object without an `experience` cannot be expressed, because
  `CheckoutState` always has one.
- `Types.Booking` has no `experience` or `slot` join. The success page reads them
  (`booking.experience.title` and `.location`, `booking.slot?.date` and `.time`,
  `src/pages/SuccessPage.tsx:71-90`) only when it renders, and rendering is not
  modelled. The customer details and timestamps of a booking are never read and are
  not in the record either.
