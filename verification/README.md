# Invoice builder: billing arithmetic, bill form and app state in Dafny

This project models the core of a browser-side invoice builder. A user fills
in company, customer and line-item data, the app keeps GST (Goods and
Services Tax) totals up to date, and it shows the amount in words on the
Indian numbering scale (thousand, lakh = 10^5, crore = 10^7).

The model has four modules:

- `JsString` (`js_string.dfy`) covers the JavaScript string operations the
  code relies on: `trim`, `padStart`, `slice(-k)` and the decimal
  `toString` of a non-negative integer. Each comes with the facts the other
  modules need.
- `BillUtils` (`bill_utils.dfy`) models `main/src/utils/billUtils.js`:
  - `calculateItemAmount` is a function;
  - `calculateBillTotals` is a method whose loop is proved equal to a
    specification function (`BillTotals`);
  - `numberToWords` and its inner `convertHundreds` are methods that build
    the string with `+=`. `NumberToWords` is proved equal to
    `Sentence(Words(n))`, the word list `Words(n)` a number is spoken as,
    joined by single spaces. `ConvertHundreds` is proved equal to
    `Spaced(HundredsWords(n))`, each word of one group followed by a
    space;
  - `generateBillNumber` is a function of the year, the month and the
    random number.

  The module also holds an evaluator `WordsValue` that reads a word list
  back into a number. The lemma `WordsRoundTrip` proves that it inverts
  `Words`.
- `BillForm` (`bill_form.dfy`) models the state logic of
  `main/src/components/BillForm.jsx`:
  - the bill record and field updates;
  - the item editor, which recomputes the amount of a numeric edit;
  - adding and removing items;
  - the form validation gate;
  - the expanded-sections map;
  - the totals effect.

  The class `BillState` holds the form's own state, `expandedSections`,
  together with a `billData` field that stands for the bill the form reads
  and replaces through `setBillData`.
- `App` (`app.dfy`) models `main/src/App.jsx`:
  - the initial bill record;
  - the view switch;
  - "generate new bill", which keeps the company details.

  The component's state becomes the class `AppState`.

Money is modelled as `real`, so there is no floating-point rounding. The
clock and `Math.random` are parameters. In an `Item`, a numeric field is
`Option<real>`: `None` stands for the undefined or NaN values that `x || 0`
turns into 0.

The code does not guarantee the following:

- Item ids are not unique. After removing an item, adding one can repeat an
  id, because `addItem` uses `items.length + 1` (`BillForm.IdsCanRepeat`).
- A stored item amount is not always current. Toggling GST does not
  recompute stored item amounts, only the bill totals
  (`BillForm.GstToggleLeavesAmountsStale`). The invariant `AmountsCurrent`
  is therefore proved to be preserved by item edits, additions and
  removals, but not by the GST toggle.
- The bill number does not always have seven digits. Its year part is
  `getFullYear().toString().slice(-2)`, which has a single digit for a year
  below 10, so the seven-digit shape holds for years from 10 on
  (`BillUtils.BillNumberShortYear`, `BillUtils.BillNumberFormat`).

## Model

| member | source | states |
|---|---|---|
| BillUtils.OrZero | main/src/utils/billUtils.js:35-37 | a number field read with a 0 default (the source's logical or with 0) is the field's value when present, and 0 when it is undefined or NaN |
| BillUtils.ItemAmountOf | main/src/utils/billUtils.js:34-39 | an item's base amount is quantity × rate with missing numbers read as 0, so an item missing its quantity or rate has all three amounts 0 |
| BillUtils.CalculateItemAmount | main/src/utils/billUtils.js:13-26 | base = quantity × rate; total = base + GST; without GST, GST is 0 and total is base; with GST, GST × 100 = quantity × rate × percentage and total × 100 = quantity × rate × (100 + percentage) |
| BillUtils.CalculateBillTotals | main/src/utils/billUtils.js:29-49 | the forEach loop accumulating subtotal and GST (missing numbers read as 0) returns exactly `BillTotals(items, flag)`, with total = subtotal + GST |
| BillUtils.TotalsEmpty | main/src/utils/billUtils.js:29-49 | an empty item list totals 0, 0, 0 for either flag |
| BillUtils.TotalsAppend | main/src/utils/billUtils.js:29-49 | totals are additive over concatenated item lists (subtotal, GST and total) |
| BillUtils.TotalsWithoutGst | main/src/utils/billUtils.js:20 | with GST off, the GST total is 0 and total equals subtotal |
| BillUtils.SingleTotals | main/src/utils/billUtils.js:29-49 | a one-item bill's subtotal and total are that item's base and total amounts |
| BillUtils.SubtotalIsSumOfProducts | main/src/utils/billUtils.js:19-42 | the subtotal equals the sum of quantity × rate over the items, whatever the GST flag |
| BillUtils.TotalIsSumOfAmounts | main/src/utils/billUtils.js:29-49 | when every stored item amount is current, the bill total is the sum of the stored amounts |
| BillUtils.TotalsExample | main/src/utils/billUtils.js:29-49 | 2 × 100 at 18% with GST totals 200, 36 and 236 |
| BillUtils.Decompose | main/src/utils/billUtils.js:121-127 | crores, lakhs, thousands and the remainder recompose the number; lakhs and thousands are below 100 and the remainder below 1000; crores are below 1000 exactly when n < 10^10 |
| BillUtils.ConvertHundreds | main/src/utils/billUtils.js:102-119 | `convertHundreds` yields each word of the group followed by a space: hundreds digit and "Hundred", then a tens word plus a non-zero ones word, or a single teen word that ends the group, or a ones word |
| BillUtils.NumberToWords | main/src/utils/billUtils.js:62-143 | `numberToWords(num)` is "Zero" for 0 and otherwise the crore, lakh, thousand and hundreds groups, non-zero ones only, with scale words, joined by single spaces and trimmed |
| BillUtils.NumberToWordsShape | main/src/utils/billUtils.js:129-142 | for n > 0 the result is non-empty, starts and ends with a letter, and holds only letters and single spaces (no trailing space) |
| BillUtils.WordsRoundTrip | main/src/utils/billUtils.js:62-143 | reading the produced words back (units, teens, tens, "Hundred", "Thousand", "Lakh", "Crore") gives the original number |
| BillUtils.HundredsRun | main/src/utils/billUtils.js:102-119 | the words of one group read back to the group's value |
| BillUtils.GroupRun | main/src/utils/billUtils.js:129-137 | a crore, lakh or thousand group with its scale word adds group × scale to the value read |
| BillUtils.TensRun | main/src/utils/billUtils.js:108-117 | the words for the last two digits read back to their value, teens included |
| BillUtils.WordsAreWords | main/src/utils/billUtils.js:62-143 | the word list of any number below 10^10 is non-empty and made of letter-only words |
| BillUtils.HundredsAreWords | main/src/utils/billUtils.js:63-119 | a group's words are table words, and a non-zero group has at least one |
| BillUtils.GroupAreWords | main/src/utils/billUtils.js:129-137 | a group with its scale word is a list of words, non-empty when the group is non-zero |
| BillUtils.TensWordCount | main/src/utils/billUtils.js:108-117 | the last two digits take two words for 21..99 with a non-zero unit, one for 1..20 or a round tens, none for 0 (the teen short-cut emits no ones word) |
| BillUtils.HundredsWordCount | main/src/utils/billUtils.js:104-117 | a group takes two words for its hundreds digit plus the count of its last two digits |
| BillUtils.GroupText | main/src/utils/billUtils.js:129-137 | a non-zero group's text followed by its scale word and a space is the spaced form of the group |
| BillUtils.HundredsEmptyIff | main/src/utils/billUtils.js:129-140 | a group below 1000 emits no words exactly when it is 0, which is when each `if (… > 0)` skips it |
| BillUtils.TrimSpaced | main/src/utils/billUtils.js:142 | trimming the space-terminated words gives the words joined by single spaces |
| BillUtils.SpacedIsSentence | main/src/utils/billUtils.js:142 | the space-terminated form is the single-space-joined form plus one trailing space |
| BillUtils.SentenceShape | main/src/utils/billUtils.js:142 | joined words start and end with a letter and never hold two spaces in a row |
| BillUtils.WordsBelowThousand | main/src/utils/billUtils.js:138-140 | below a thousand only the hundreds group speaks |
| BillUtils.WordsGroups | main/src/utils/billUtils.js:121-140 | the words are the crore, lakh and thousand groups followed by the remainder's words, in that order |
| BillUtils.WordsLoneLakhs | main/src/utils/billUtils.js:132-134 | a number made of lakhs alone is its group's words followed by "Lakh" |
| BillUtils.WordsLoneCrores | main/src/utils/billUtils.js:129-131 | a number made of crores alone is its group's words followed by "Crore" |
| BillUtils.WordsSmallExamples | main/src/utils/billUtils.js:100-113 | 0 gives "Zero"; 19 gives "Nineteen" |
| BillUtils.WordsTwentyOne | main/src/utils/billUtils.js:108-117 | 21 gives "Twenty One", with no trailing space |
| BillUtils.WordsScaleExamples | main/src/utils/billUtils.js:129-134 | 100000 gives "One Lakh" and 10000000 gives "One Crore" |
| BillUtils.WordsTwoHundredThirtySix | main/src/utils/billUtils.js:102-119 | 236 gives "Two Hundred Thirty Six" |
| BillUtils.WordsMixedExample | main/src/utils/billUtils.js:121-140 | 123456 gives the words One Lakh Twenty Three Thousand Four Hundred Fifty Six, in that order |
| BillUtils.RandomBelow1000 | main/src/utils/billUtils.js:6 | `Math.floor(random * 1000)` is below 1000 and is the floor of random × 1000 |
| BillUtils.PaddedField | main/src/utils/billUtils.js:5-8 | a value below 10^k, written in decimal and zero-padded to k characters, is k digits that read back to the value |
| BillUtils.GenerateBillNumber | main/src/utils/billUtils.js:2-10 | the bill number starts with "INV", and after the year's last two digits the month and the random number take exactly 5 characters |
| BillUtils.BillNumberShortYear | main/src/utils/billUtils.js:4 | for a year below 10, `slice(-2)` keeps one digit and the bill number has 9 characters |
| BillUtils.BillNumberFormat | main/src/utils/billUtils.js:2-10 | from year 10 on, the bill number is "INV" followed by 7 digits: year mod 100 in 2 digits, month 1..12 in 2 digits, and the random number below 1000 in 3 digits |
| JsString.Trim | main/src/utils/billUtils.js:142 | `trim()` returns the slice of the string that lies between a whitespace-only prefix and a whitespace-only suffix, and the result neither starts nor ends with whitespace |
| JsString.ToDecimal | main/src/utils/billUtils.js:4-8 | `toString()` of a non-negative integer is a non-empty digit string with no leading zero |
| JsString.TrimEmptyIff | main/src/components/BillForm.jsx:106-107 | `s.trim()` is empty, i.e. falsy, exactly when every character is whitespace |
| JsString.TrimStartShape | main/src/utils/billUtils.js:142 | trimming the start removes a whitespace-only prefix and stops at a non-whitespace character |
| JsString.TrimEndShape | main/src/utils/billUtils.js:142 | trimming the end removes a whitespace-only suffix and stops at a non-whitespace character |
| JsString.TrimTrailingSpace | main/src/utils/billUtils.js:142 | a string that does not start or end with whitespace, followed by one space, trims back to itself |
| JsString.PadStart | main/src/utils/billUtils.js:5-8 | `padStart(n, c)` has length max(len, n), ends with the string and is filled with c before it |
| JsString.SliceLast | main/src/utils/billUtils.js:4 | `slice(-k)` is the last k characters, or all of them when there are fewer |
| JsString.DecimalRoundTrip | main/src/utils/billUtils.js:4-8 | `toString()` of a non-negative integer writes digits that read back to the number |
| JsString.DecimalLength | main/src/utils/billUtils.js:5-8 | a number has at most k decimal digits exactly when it is below 10^k |
| JsString.PadStartZeros | main/src/utils/billUtils.js:5-8 | zero-padding keeps a digit string all digits and keeps its value |
| JsString.LastTwoDigits | main/src/utils/billUtils.js:4 | the last two characters of a number of two or more digits are the digits of n mod 100 |
| BillForm.Get | main/src/components/BillForm.jsx:106 | reading a named field yields a value of that field's kind (text, or a flag for the two switches) |
| BillForm.SetField | main/src/components/BillForm.jsx:37-42 | `{...prev, [field]: value}` sets the field and leaves the items and totals as they were |
| BillForm.SetFieldKeepsOthers | main/src/components/BillForm.jsx:37-42 | setting one field leaves every other field unchanged |
| BillForm.SetFieldSame | main/src/components/BillForm.jsx:37-42 | writing a field's own value back changes nothing |
| BillForm.SetFieldOverride | main/src/components/BillForm.jsx:37-42 | a second write to the same field overrides the first |
| BillForm.WithEdit | main/src/components/BillForm.jsx:46-49 | `{...item, [field]: value}` sets the edited field and keeps every other field, the id and the stored amount included |
| BillForm.EditedItem | main/src/components/BillForm.jsx:44-64 | the edited field takes the new value and the others are kept; after a quantity, rate or GST edit the amount is the item's total under the bill's flag, and after a description edit the amount is kept |
| BillForm.DefaultItem | main/src/components/BillForm.jsx:72-80 | a new item has an empty description, quantity 1, rate 0, GST 18% and amount 0 |
| BillForm.DefaultItemCurrent | main/src/components/BillForm.jsx:72-80 | a new item's amount 0 is its current total under either flag |
| BillForm.RemoveAt | main/src/components/BillForm.jsx:91 | `filter((_, i) => i !== index)` drops the item at an index in range, shifting later items down, and keeps the list when the index is out of range |
| BillForm.EditKeepsAmountsCurrent | main/src/components/BillForm.jsx:44-70 | editing an item keeps every stored amount current |
| BillForm.AddKeepsAmountsCurrent | main/src/components/BillForm.jsx:72-85 | adding a new item keeps every stored amount current |
| BillForm.RemoveKeepsAmountsCurrent | main/src/components/BillForm.jsx:87-94 | removing an item keeps every stored amount current |
| BillForm.GstToggleLeavesAmountsStale | main/src/components/BillForm.jsx:196-198 | switching GST on through `updateField("includeGST", …)` leaves a bill whose amounts were current with a stale amount, because the toggle sets only the flag |
| BillForm.IdsCanRepeat | main/src/components/BillForm.jsx:72-94 | removing the first of two items and adding one yields two items with id 2 |
| BillForm.SomeDescribed | main/src/components/BillForm.jsx:107 | `items.some(item => item.description?.trim())` holds exactly when some item's trimmed description is non-empty |
| BillForm.SomeDescribedIff | main/src/components/BillForm.jsx:107 | the `some` test holds exactly when some description has a non-whitespace character |
| BillForm.ValidateForm | main/src/components/BillForm.jsx:101-109 | the form validates exactly when the company name and the customer name each have a non-whitespace character and some item's description does |
| BillForm.Toggled | main/src/components/BillForm.jsx:30-35 | toggling a section flips its flag, turns on a section not yet in the map, adds only that key and leaves the other sections alone |
| BillForm.ToggleTwice | main/src/components/BillForm.jsx:30-35 | toggling a known section twice restores the map; a missing section ends up present and off |
| BillForm.BillState.constructor | main/src/components/BillForm.jsx:13-19 | the form starts with company and customer expanded and settings collapsed |
| BillForm.BillState.RecomputeTotals | main/src/components/BillForm.jsx:22-28 | the effect stores `BillTotals` of the items and flag, so total = subtotal + GST, and total = sum of stored amounts when they are current |
| BillForm.BillState.ToggleSection | main/src/components/BillForm.jsx:30-35 | the sections map becomes its toggled version; the bill is unchanged |
| BillForm.BillState.UpdateField | main/src/components/BillForm.jsx:37-42 | the bill becomes `SetField` of the old bill; sections unchanged |
| BillForm.BillState.UpdateItem | main/src/components/BillForm.jsx:44-70 | only the item at the index is replaced by its edited version, computed under the bill's GST flag; current amounts stay current |
| BillForm.BillState.AddItem | main/src/components/BillForm.jsx:72-85 | a default item with id = old length + 1 is appended; current amounts stay current |
| BillForm.BillState.RemoveItem | main/src/components/BillForm.jsx:87-94 | the item is removed only when more than one item exists, so a non-empty list stays non-empty; current amounts stay current |
| App.CreateInitialBillData | main/src/App.jsx:10-55 | the initial bill has one default item with id 1, the given number and date, the default logo shown, GST off, empty text fields and zero totals |
| App.InitialBillConsistent | main/src/App.jsx:10-55 | the initial totals are what the totals effect computes, its amounts are current, and it does not validate |
| App.NewBill | main/src/App.jsx:67-79 | a new bill has one default item and zero totals |
| App.NewBillField | main/src/App.jsx:67-79 | each company field, the logo, the show-logo switch and the GST switch keep the previous bill's value, and every other field takes the fresh initial value |
| App.NewBillConsistent | main/src/App.jsx:67-79 | under either kept GST flag, the new bill's totals are what the effect computes and its amounts are current |
| App.AppState.constructor | main/src/App.jsx:57-59 | the app starts with the initial bill on the "form" view |
| App.AppState.HandleViewChange | main/src/App.jsx:63-65 | the view becomes the given one; the bill is unchanged |
| App.AppState.HandleGenerateNewBill | main/src/App.jsx:67-81 | the bill becomes `NewBill` of the previous one and the view returns to "form" |

## Left out

- `formatCurrency` and `formatDate` (`main/src/utils/billUtils.js:52-59`, `146-153`) are left out: they depend on `Intl` locale formatting, which lies outside this model.
- Floating-point arithmetic is left out. Amounts are exact `real`s, so the model does not capture IEEE-754 rounding in sums and in `baseAmount * gstPercentage / 100`.
- The clock (`new Date()`, `toISOString`) and `Math.random()` are not modelled. The year, the month index, the random number in [0, 1), the bill number and the date string are parameters instead.
- The bundled default-logo URL is represented by the constant `App.DefaultLogo`.
- BillPreview.jsx, the logo upload through `FileReader`, printing, and the tabs and `activeTab` UI state are view code and are not part of this model.
- React's state batching, the `useCallback` memoisation and the closure over `billData` in `updateItem` are left out. Each handler is modelled as one atomic update of the component state.
- vite.config.js is build configuration and is not part of this model.
- BillUtils.NumberToWords: requires num < 10^10. From 1000 crore on, the source indexes its `ones` table past its end and emits "undefined"; that behaviour is not modelled. Fractional and negative inputs are not modelled either.
- BillUtils.WordsMixedExample: states the word list for 123456 rather than the joined string. `NumberToWords` proves that the result is always those words joined by single spaces.
- JsString.IsWhitespace: `trim` strips the ECMAScript white-space and line-terminator characters, listed by code point. Unicode category lookups beyond that list are not modelled.
- BillForm.BillState.UpdateItem: requires the index to be in range. The form only calls it with an index of an existing row, and the sparse-array entry JavaScript would create for another index is not modelled.
- BillForm.BillState.UpdateField: requires the value to fit the field's kind, meaning text fields get strings and the two switches get booleans, as every call site in the form does.
- BillForm.EditedItem: an edit is an `ItemEdit` value. The form's `parseFloat(value) || 0` at its call sites (`main/src/components/BillForm.jsx:563-628`) happens before the call, so a numeric edit always carries a number.
- BillForm.BillState and App.AppState each hold their own `billData`. In the source there is one bill: App's state (`main/src/App.jsx:58`), which BillForm receives as a prop together with `setBillData` (`main/src/components/BillForm.jsx:13`). No contract connects the two, so nothing states, for example, that the totals effect runs on the bill `HandleGenerateNewBill` produced.
- BillUtils.CalculateItemAmount and BillUtils.CalculateBillTotals take the GST flag as a required parameter. The source's default `includeGST = true` (`main/src/utils/billUtils.js:17`, `29`) is not modelled; every caller in the form passes the flag (`main/src/components/BillForm.jsx:23`, `61`).
- BillForm.Toggled: a section name inherited from `Object.prototype`, such as "toString", reads as a function, so there `!prev[section]` is false rather than true; the map model does not capture this. The form only toggles "company" and "customer" (`main/src/components/BillForm.jsx:220`, `380`).
- BillUtils.BillNumberFormat: states the digit and value facts slice by slice (year, month, random). It does not state them as a regular-expression match.
