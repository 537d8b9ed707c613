# Printing-company quote assistant, modelled in Dafny

The application is a browser-only quote tool for a printing company. A
customer fills in a service form or a printing form, or talks to a chat
assistant. The pricing engine turns the resulting specification into a price,
a turnaround in days and an optional quantity discount. Quotes and chat
transcripts are kept in the browser's local storage.

This project models the logic behind that, one Dafny module per source file:

- `PrintCalculator` (`print_calculator.dfy`): the price tables, the stepped
  quantity discount, the turnaround rules and the quote assembly
  (`src/utils/printCalculator.ts`). The loops and reassignments of the source
  are methods; each is proved equal to a pure specification function, and
  the properties are lemmas about those functions.
- `QuoteStore` (`quote_store.dfy`) and `ChatLogStore` (`log_manager.dfy`): the
  saved-quotes list and the chat-log list. Each store is a class whose field
  stands for the `localStorage` key (`src/services/quotes.ts`,
  `src/utils/logManager.ts`).
- `QuoteFormatters` (`quote_formatters.dfy`): display-name lookups and the
  discount back-calculation (`src/utils/quoteFormatters.ts`).
- `Chat` (`use_chat.dfy`): the keyword classifier, the blank-input guard and
  sample quote of `sendMessage`, and the welcome-message resets
  (`src/hooks/use-chat.tsx`).
- `ServiceForm` (`service_form.dfy`) and `PrintForm` (`print_form.dfy`): the
  form state, its handlers, the defaults per service, the validation and the
  submit gate (`src/components/ServiceForm.tsx`, `src/components/PrintForm.tsx`).
- `Types` (`types.dfy`) holds the shared records. `SeqUtil` (`seq_util.dfy`)
  holds the JavaScript array and string operations the source relies on:
  `filter`, `includes`, ASCII `toLowerCase`, `trim` and decimal `toString`.

Prices are exact `real` numbers. `Math.ceil` and `Math.round` are written with
`Floor`. A JavaScript lookup `table[key] || fallback` uses the fallback both
for a missing key and for a stored falsy value (0 or `""`); the model keeps
that behaviour. A storage key that is missing or empty, holds unparsable
text, or holds a parsed list is the datatype `Stored` (`Absent`, `Corrupt`,
`Present`).

The code has no separate binding, logistics or eco-printing calculator and
no service-specific turnaround rule: it never reads `serviceType` or the
service-specific fields. Every spec goes
through the printing formula, so the binding default `softcover-book` costs
the `other` price of 10000. The model follows the code.
`PrintCalculator.QuoteDependsOnPrintingFields`, `ServiceForm.DefaultBindingPrice`
and `ServiceForm.DefaultLogisticsPrice` state this.

Some behaviour of the code that the proofs make explicit:

- The price is not monotone in quantity. 249 flyers cost 12500, but 250 cost
  11900, because the 5% tier starts at 250.
- Checking the `none` finish while it is the only finish leaves the list empty.
  The form never sends that input, because the `none` checkbox is shown ticked
  whenever the list holds `none` (ServiceForm.tsx:640), so ticking it is not offered.
- Selecting the service already selected keeps the spec being edited, because
  the reset runs only when the service changes.
- The chat's sample quote promises 45000 yen and 5 days. The calculator would
  charge 85000 yen and 6 days for that same spec.

## Model

| member | source | states |
|---|---|---|
| `Types.Set` | src/components/ServiceForm.tsx:91-96 | `{ ...prev, [field]: value }`: the field holds the new value and every other field is unchanged |
| `SeqUtil.Without` | src/components/PrintForm.tsx:82 | `filter(item => item !== x)`: no occurrence of `x` is left, every other element is kept, the list never grows, and a list without `x` is returned unchanged |
| `SeqUtil.RemoveByKey` | src/services/quotes.ts:60 | filtering by id keeps exactly the elements with another id; the length is unchanged exactly when no element has the id |
| `SeqUtil.RemoveByKeyConcat` | src/utils/logManager.ts:60 | filtering by id distributes over concatenation, so the kept elements stay in order |
| `SeqUtil.Contains` | src/hooks/use-chat.tsx:116 | `includes`: true exactly when the substring occurs at some position |
| `SeqUtil.ToLower` | src/hooks/use-chat.tsx:50 | `toLowerCase`: same length, each character lower-cased (ASCII letters only) |
| `SeqUtil.Trim` | src/hooks/use-chat.tsx:82 | `trim()`: a piece of the input that neither starts nor ends with white space, empty exactly when every character is JavaScript white space |
| `SeqUtil.NatToDecimal` | src/utils/logManager.ts:20 | `String(n)` of a clock reading: at least one decimal digit, no leading zero |
| `SeqUtil.DecimalRoundTrip` | src/utils/logManager.ts:20 | reading back the decimal id built from a clock reading gives that reading, so distinct readings give distinct ids |
| `PrintCalculator.LookupOr` | src/utils/printCalculator.ts:104-116 | `table[key] || fallback` on a price table: the stored amount when the key is present and non-zero, the fallback when it is missing or 0 |
| `PrintCalculator.BasePrice` | src/utils/printCalculator.ts:104 | the product's table price, or the `other` price for an unknown product; always between 2000 and 15000 |
| `PrintCalculator.PaperMultiplier` | src/utils/printCalculator.ts:107 | the paper's multiplier, or the `standard` one for an unknown paper; always between 1.0 and 1.6 |
| `PrintCalculator.ColorModifier` | src/utils/printCalculator.ts:111 | the colour surcharge, or 0 for an unknown colour code; between 0 and 5000 |
| `PrintCalculator.FinishingPrice` | src/utils/printCalculator.ts:116 | the finish surcharge, or 0 for an unknown finish; between 0 and 5000 |
| `PrintCalculator.FinishingCost` | src/utils/printCalculator.ts:114-118 | the finishing total of a list: 0 for no finishes, never negative, and at least the surcharge of each listed finish |
| `PrintCalculator.FinishingCostBounds` | src/utils/printCalculator.ts:114-118 | the finishing total lies between 0 and 5000 per listed finish |
| `PrintCalculator.FinishingCostConcat` | src/utils/printCalculator.ts:114-118 | the finishing total of a joined list is the sum of the totals of its parts |
| `PrintCalculator.FinishingCostDuplicate` | src/utils/printCalculator.ts:114-118 | a finish listed twice is charged twice |
| `PrintCalculator.SumFinishing` | src/utils/printCalculator.ts:114-118 | the `forEach` accumulation equals the finishing total of the list |
| `PrintCalculator.GetQuantityDiscount` | src/utils/printCalculator.ts:88-100 | the loop with `break` returns the rate of the largest threshold not above the quantity, or 0 when the quantity is below every threshold |
| `PrintCalculator.DiscountRate` | src/utils/printCalculator.ts:47-54 | the rate lies in [0, 0.25] and is 0 exactly below the 250 threshold |
| `PrintCalculator.DiscountRateTiers` | src/utils/printCalculator.ts:47-54 | the rate is 0 below 250, then 0.05, 0.1, 0.15, 0.2 from 250, 500, 1000, 2500, and 0.25 from 5000 |
| `PrintCalculator.DiscountRateMonotone` | src/utils/printCalculator.ts:47-54 | the rate never falls as the quantity grows and stays in [0, 0.25] |
| `PrintCalculator.CalculateTurnaround` | src/utils/printCalculator.ts:57-85 | the step-by-step day count equals the sum of the product, finishing and quantity rules, and lies in [3, 15] |
| `PrintCalculator.BaseDays` | src/utils/printCalculator.ts:58-70 | 3 days exactly for business cards, 10 exactly for booklets, 5 for every other product |
| `PrintCalculator.FinishingDays` | src/utils/printCalculator.ts:73-77 | 3 extra days exactly when die-cutting or embossing is listed; 1 exactly when neither is, the list is non-empty and it holds no `none`; 0 otherwise |
| `PrintCalculator.QuantityDays` | src/utils/printCalculator.ts:80-82 | 2 extra days exactly above 1000 copies, none otherwise |
| `PrintCalculator.TurnaroundDays` | src/utils/printCalculator.ts:57-85 | the turnaround lies in [3, 15] days; above 1000 copies it is at least 5 |
| `PrintCalculator.PlainDays` | src/utils/printCalculator.ts:57-85 | a product other than business cards and booklets, finished `none`, in 100 copies takes 5 days |
| `PrintCalculator.TurnaroundRules` | src/utils/printCalculator.ts:57-85 | 3 days for business cards, 10 for booklets, 5 otherwise; +3 for die-cutting or embossing; otherwise +1 for a non-empty list without `none`, and no extra day for an empty list or one listing `none`; +2 only above 1000 copies |
| `PrintCalculator.Ceil` | src/utils/printCalculator.ts:133 | `Math.ceil`: the least integer not below the argument |
| `PrintCalculator.RoundUp100` | src/utils/printCalculator.ts:133 | the rounded price is a multiple of 100, at least the price and less than the price plus 100 |
| `PrintCalculator.PriceSteps` | src/utils/printCalculator.ts:108-133 | the reassignments of `price` compute the combined unit price, scaled by `max(50, quantity)/100`, reduced by `price * rate` and rounded up to 100 |
| `PrintCalculator.CalculateQuote` | src/utils/printCalculator.ts:102-141 | the quote echoes the spec and the id; its price is the formula's price, a multiple of 100 within 100 above the discounted price; its turnaround is the rules' value; the discount is present exactly when the rate is positive and then equals it; the rate comes from the entered quantity |
| `PrintCalculator.PriceArithmeticBounds` | src/utils/printCalculator.ts:104-127 | with amounts from the tables, the scaled price is at least 1000 and the discounted price is positive |
| `PrintCalculator.UnitPrice` | src/utils/printCalculator.ts:104-118 | the price per 100 copies is at least the base price plus the colour and finishing surcharges, since the paper multiplier never lowers the base price |
| `PrintCalculator.RawPrice` | src/utils/printCalculator.ts:104-122 | the price before the discount is at least 1000 for every spec, because orders under 50 are billed as 50 |
| `PrintCalculator.DiscountBounds` | src/utils/printCalculator.ts:126-127 | a rate of at most 25% keeps between three quarters and all of a non-negative price |
| `PrintCalculator.DiscountedPrice` | src/utils/printCalculator.ts:124-127 | the discounted price keeps between three quarters and all of the raw price, and all of it below 250 copies |
| `PrintCalculator.QuotePrice` | src/utils/printCalculator.ts:102-133 | every quote costs at least 100, is a multiple of 100 and lies within 100 above the discounted price |
| `PrintCalculator.DiscountField` | src/utils/printCalculator.ts:140 | `discountApplied` is absent exactly below 250 copies, otherwise the rate, between 0.05 and 0.25 |
| `PrintCalculator.QuoteDependsOnPrintingFields` | src/utils/printCalculator.ts:102-141 | price, turnaround and discount depend only on product, paper, colour, finishing and quantity |
| `PrintCalculator.ServiceTypeIsIgnored` | src/utils/printCalculator.ts:102-141 | setting the service type (to any service or to none), the size, the binding type, the page count and the cover type to any values leaves the price unchanged |
| `PrintCalculator.PlainHundredOrder` | src/utils/printCalculator.ts:102-133 | 100 standard monochrome copies without finishing of a product priced 10000 cost 10000 and take 5 days |
| `PrintCalculator.FlyerHundred` | src/utils/printCalculator.ts:102-141 | 100 standard monochrome flyers cost 5000, take 5 days and carry no discount |
| `PrintCalculator.FlyerThousand` | src/utils/printCalculator.ts:102-141 | 1000 such flyers cost 42500 after the 15% discount and still take 5 days |
| `PrintCalculator.PriceNotMonotoneInQuantity` | src/utils/printCalculator.ts:102-133 | 249 flyers cost 12500 while 250 cost 11900 |
| `Types.StoredItems` | src/services/quotes.ts:9-17 | the stored list, or `[]` when the key is missing, empty or does not parse (the same reader serves `getChatLogs`) |
| `QuoteStore.Stamped` | src/services/quotes.ts:30-34 | a non-empty id and creation date are kept, otherwise `Q-<timestamp>` and the current time are used; every other field is copied |
| `QuoteStore.AfterSave` | src/services/quotes.ts:26-40 | the new list is the stamped quote followed by the old list, unchanged and in order |
| `QuoteStore.AfterDelete` | src/services/quotes.ts:59-65 | not-found error exactly when no quote has the id; otherwise a strictly shorter list holding exactly the quotes with another id |
| `QuoteStore.Store.GetSavedQuotes` | src/services/quotes.ts:9-17 | reads the stored list, `[]` unless it is present |
| `QuoteStore.Store.SaveQuote` | src/services/quotes.ts:22-51 | returns the stamped quote and stores it in front of the previous list |
| `QuoteStore.Store.DeleteQuote` | src/services/quotes.ts:56-78 | fails with the not-found message and writes nothing when no quote has the id; otherwise stores the filtered list and succeeds with `true` |
| `QuoteStore.DeleteAfterSave` | src/services/quotes.ts:22-78 | deleting a just-saved quote by its id gives back the earlier list when no earlier quote shares the id |
| `QuoteStore.DeleteTwice` | src/services/quotes.ts:56-67 | a second delete of the same id fails |
| `QuoteStore.DeleteKeepsOthers` | src/services/quotes.ts:60 | a quote with another id survives a delete |
| `ChatLogStore.NewLog` | src/utils/logManager.ts:16-25 | the new log has the clock reading as decimal id and as date, the given messages and service, and `quoteGenerated` false unless passed as true |
| `ChatLogStore.Prepended` | src/utils/logManager.ts:27-30 | the new log comes first, followed by the oldest-last prefix of the old logs that fits under 100 |
| `ChatLogStore.Store.GetChatLogs` | src/utils/logManager.ts:35-55 | reads the stored logs, `[]` unless present |
| `ChatLogStore.Store.SaveChatLog` | src/utils/logManager.ts:16-32 | stores the capped list with the new log in front |
| `ChatLogStore.Store.DeleteChatLog` | src/utils/logManager.ts:58-62 | stores the list without the logs with that id; never fails |
| `ChatLogStore.Store.ClearAllChatLogs` | src/utils/logManager.ts:65-67 | removes the key, after which the logs read as `[]` |
| `ChatLogStore.PrependedFull` | src/utils/logManager.ts:27-31 | saving onto 100 or more logs drops exactly the oldest ones beyond 99 |
| `ChatLogStore.PrependedRoom` | src/utils/logManager.ts:27-31 | below the cap nothing is dropped |
| `ChatLogStore.SavesKeepCap` | src/utils/logManager.ts:16-32 | any sequence of saves keeps at most 100 logs, the last one saved first |
| `ChatLogStore.DeleteRemovesOnlyThatId` | src/utils/logManager.ts:60 | after a delete no log has the id, and every log with another id is kept |
| `ChatLogStore.DeleteAfterSave` | src/utils/logManager.ts:58-62 | deleting a just-saved log by its id leaves the earlier logs that were kept under the cap |
| `QuoteFormatters.NameOr` | src/utils/quoteFormatters.ts:14 | `table[key] \|\| key`: the display name for a known key, the key itself otherwise |
| `QuoteFormatters.GetProductTypeName` | src/utils/quoteFormatters.ts:3-15 | the Japanese product name, or the code unchanged |
| `QuoteFormatters.GetSizeName` | src/utils/quoteFormatters.ts:17-29 | the size name, or the code unchanged |
| `QuoteFormatters.GetPaperTypeName` | src/utils/quoteFormatters.ts:31-41 | the paper name, or the code unchanged |
| `QuoteFormatters.GetPrintColorName` | src/utils/quoteFormatters.ts:43-51 | the colour name, or the code unchanged |
| `QuoteFormatters.GetFinishingName` | src/utils/quoteFormatters.ts:53-65 | the finish name, or the code unchanged |
| `QuoteFormatters.ProductTypeNamesDistinct` | src/utils/quoteFormatters.ts:4-13 | two known product codes with the same display name are the same code |
| `QuoteFormatters.SizeNameCollision` | src/utils/quoteFormatters.ts:17-28 | `a4` and the unknown code `A4` both display as `A4` |
| `QuoteFormatters.JapaneseProductTypeShownAsIs` | src/utils/quoteFormatters.ts:3-15 | the chat sample quote's product type チラシ is not a table key and is shown unchanged |
| `QuoteFormatters.Round` | src/utils/quoteFormatters.ts:80 | `Math.round`: within one half of the argument, halves rounded up |
| `QuoteFormatters.GetDiscountAmount` | src/utils/quoteFormatters.ts:77-87 | nothing for a missing or zero rate; otherwise the percentage is rate × 100, and the amount plus the price is the rounded original price; no finite amount for a rate of 1 |
| `QuoteFormatters.DiscountAmountNonNegative` | src/utils/quoteFormatters.ts:80-81 | for a price ≥ 0 and 0 < rate < 1 the amount is never negative |
| `QuoteFormatters.DiscountAmountRecoversOriginal` | src/utils/quoteFormatters.ts:80-86 | for a price that is exactly a whole original price less the rate, the amount is the original minus the price |
| `Chat.WelcomeMessage` | src/hooks/use-chat.tsx:8-13 | one greeting per language, the four distinct, so each greeting belongs to exactly one language |
| `Chat.AsksForQuote` | src/hooks/use-chat.tsx:116 | the input asks for a quote exactly when 見積, `quote` or `estimate` occurs somewhere in the raw text |
| `Chat.DetectServiceType` | src/hooks/use-chat.tsx:49-78 | the first keyword group matched in the lower-cased message, in the order printing, binding, logistics, eco-printing; printing otherwise |
| `Chat.PrintingWins` | src/hooks/use-chat.tsx:53 | any message containing 印刷 is classified as printing |
| `Chat.EcoPrintingIsPrinting` | src/hooks/use-chat.tsx:53-74 | 環境印刷 is classified as printing, not eco-printing |
| `Chat.CapitalFscIsEcoPrinting` | src/hooks/use-chat.tsx:50-74 | `FSC認証` matches the eco keyword `fsc` after lower-casing |
| `Chat.NeverConsultingOrReport` | src/hooks/use-chat.tsx:49-78 | the classifier never returns the consulting or report services |
| `Chat.CapitalQuoteDoesNotAsk` | src/hooks/use-chat.tsx:116 | the quote trigger is case-sensitive: `QUOTE` does not trigger it |
| `Chat.SampleQuote` | src/hooks/use-chat.tsx:118-132 | the sample quote costs 45000, takes 5 days, carries the detected service and the customer's text |
| `Chat.SampleQuoteIsNotCalculated` | src/hooks/use-chat.tsx:118-132 | the calculator would price the sample quote's own spec at 85000 and 6 days |
| `Chat.ErrorText` | src/hooks/use-chat.tsx:140-145 | the error text contains the error's message, or 不明なエラー when there is none |
| `Chat.AnswerText` | src/hooks/use-chat.tsx:104-145 | the AI message shows a successful reply verbatim; after a failure it shows the error text, which contains the error's message or 不明なエラー |
| `Chat.Session.constructor` | src/hooks/use-chat.tsx:31-40 | one AI message with id `1` holding the initial message if non-empty, else the Japanese greeting; not typing; Japanese |
| `Chat.Session.BeginSend` | src/hooks/use-chat.tsx:81-101 | blank input changes nothing; otherwise the user message is appended, typing starts and the detected service is reported |
| `Chat.Session.FinishSend` | src/hooks/use-chat.tsx:104-156 | the reply or the error text is appended, typing ends, and the sample quote is produced exactly when the call succeeded, a listener is present and the input asks for a quote |
| `Chat.Session.SendMessage` | src/hooks/use-chat.tsx:81-157 | blank input changes nothing; otherwise the user message and then the reply or error text are appended, typing ends, the detected service is reported, and the sample quote is produced exactly when the call succeeded, a listener is present and the raw input contains 見積, `quote` or `estimate` |
| `Chat.Session.ChangeLanguage` | src/hooks/use-chat.tsx:160-170 | sets the language and leaves exactly one message, that language's greeting |
| `Chat.Session.ClearChat` | src/hooks/use-chat.tsx:173-182 | leaves exactly one message, the current language's greeting |
| `ServiceForm.BaseSpecs` | src/components/ServiceForm.tsx:33-42 | the shared defaults: the service, no product or size, 100 black-and-white copies on standard paper, finishing `['none']`, empty notes, no delivery date or address, and every service-specific field absent |
| `ServiceForm.BaseSpecsPrice` | src/components/ServiceForm.tsx:78-79 | the base spec, which the consulting and report services start from, is quoted 10000 and 5 days by the printing formula |
| `ServiceForm.DefaultSpecs` | src/components/ServiceForm.tsx:32-81 | every default has quantity 100, black-and-white, finishing `['none']` and standard paper except for eco-printing; binding, logistics and eco-printing are each the base spec with exactly their own fields set; the consulting and report services get the empty base spec |
| `ServiceForm.DefaultBindingPrice` | src/components/ServiceForm.tsx:51-58 | the binding default is priced 10000 and 5 days by the printing formula |
| `ServiceForm.DefaultLogisticsPrice` | src/components/ServiceForm.tsx:59-67 | the logistics default is priced 10000 and 5 days by the printing formula |
| `ServiceForm.FinishingChange` | src/components/ServiceForm.tsx:107-121 | the result is `['none']` or has no `none`; checking an option gives the old options without `none`, followed by the option; checking `none` gives the old options without `none`; unchecking removes only the option; unchecking from a list without `none` gives exactly the list without the option, or `['none']` when nothing is left; unchecking the last option gives `['none']` |
| `ServiceForm.CheckingNoneAloneEmpties` | src/components/ServiceForm.tsx:107-121 | checking `none` when it is the only finish leaves an empty list |
| `ServiceForm.UncheckingLastFinish` | src/components/ServiceForm.tsx:111-116 | unchecking the only finish gives `['none']` |
| `ServiceForm.ToggleListEntry` | src/components/ServiceForm.tsx:124-147 | an absent list becomes the single entry; checking appends; unchecking removes every occurrence and keeps the rest |
| `ServiceForm.CheckThenUncheck` | src/components/ServiceForm.tsx:128-130 | checking then unchecking an entry leaves the others in order |
| `ServiceForm.NumberInput` | src/components/ServiceForm.tsx:100 | an empty field reads as 0; otherwise the parsed number, if any |
| `ServiceForm.Form.constructor` | src/components/ServiceForm.tsx:28-29 | the form starts on the given service, printing by default, with that service's defaults |
| `ServiceForm.Form.SelectService` | src/components/ServiceForm.tsx:85-88 | selecting another service resets the spec to that service's defaults; selecting the current one again keeps the spec, as the effect keyed on the service does not run |
| `ServiceForm.Form.HandleInputChange` | src/components/ServiceForm.tsx:91-96 | exactly one field changes |
| `ServiceForm.Form.HandleNumberChange` | src/components/ServiceForm.tsx:99-104 | '' stores 0, a number is stored, NaN leaves the spec unchanged |
| `ServiceForm.Form.HandleFinishingChange` | src/components/ServiceForm.tsx:107-121 | only the finishing field changes, as the finishing rule says |
| `ServiceForm.Form.HandleEcoMaterialChange` | src/components/ServiceForm.tsx:124-134 | only the eco materials change, as the toggle rule says |
| `ServiceForm.Form.HandleCertificationChange` | src/components/ServiceForm.tsx:137-147 | only the certifications change, as the toggle rule says |
| `ServiceForm.Form.HandleGenerateQuote` | src/components/ServiceForm.tsx:150-154 | the quote is the calculator's quote of the current spec |
| `PrintForm.InitialSpecs` | src/components/PrintForm.tsx:40-48 | a fresh form has no service, quantity 100 and no finishes, and fails validation on exactly its four empty choices |
| `PrintForm.ValidationErrors` | src/components/PrintForm.tsx:53-60 | one error per failing field, keyed by that field, with its message; only the five checked fields can fail; finishing is never checked |
| `PrintForm.ValidIff` | src/components/PrintForm.tsx:53-64 | no errors exactly when product, size, paper and colour are chosen and the quantity is at least 1 |
| `PrintForm.ToggleFinishing` | src/components/PrintForm.tsx:79-87 | a present finish is removed everywhere, an absent one appended |
| `PrintForm.ToggleTwiceRestores` | src/components/PrintForm.tsx:79-87 | toggling an absent finish twice restores the list |
| `PrintForm.ToggleTwiceSelected` | src/components/PrintForm.tsx:79-87 | toggling a present finish twice moves it to the end without duplicates |
| `PrintForm.SubmittedSpecs` | src/components/PrintForm.tsx:102-105 | a chosen date becomes the delivery date and every other field is kept |
| `PrintForm.DateDoesNotChangePrice` | src/components/PrintForm.tsx:102-110 | the delivery date changes neither price nor turnaround |
| `PrintForm.Form.constructor` | src/components/PrintForm.tsx:39-51 | empty choices, quantity 100, no finishes, no date, no errors |
| `PrintForm.Form.SetDate` | src/components/PrintForm.tsx:49 | the calendar's selection becomes the chosen date, and deselecting the day clears it |
| `PrintForm.Form.ValidateForm` | src/components/PrintForm.tsx:53-64 | stores exactly the validation errors and returns whether the form is valid |
| `PrintForm.Form.HandleInputChange` | src/components/PrintForm.tsx:66-77 | sets the field and drops only that field's error, and only when it is non-empty |
| `PrintForm.Form.HandleFinishingToggle` | src/components/PrintForm.tsx:79-87 | only the finishing field changes, as the toggle rule says |
| `PrintForm.Form.HandleSubmit` | src/components/PrintForm.tsx:89-118 | no quote exactly when validation fails; otherwise the calculator's quote of the spec with the chosen date: its id, price, turnaround and discount field, priced as the spec itself, with no creation date |

## Left out

- Storage I/O: `localStorage`, `JSON.parse`/`JSON.stringify` and the revival of dates in `getChatLogs` are not modelled. A stored key is the value `Stored`, and reviving a date changes no value.
- Clocks and asynchrony: `Date.now()`, `new Date()` and ISO strings are parameters, as are the AI reply and its failure. `setTimeout` and the Promises are taken to resolve at once, and a Promise rejection is a `Failure`.
- Clock readings: one reading stands for every clock read of one step, though the code reads the clock again for each. `NewLog` uses one `now` for the id and the date. `FinishSend` uses one `answeredAt` for the AI message's id and timestamp and the `QT-` quote id.
- Identifiers: the base-36 id of `calculateQuote` is a parameter. The decimal ids of the stores and the chat are built with `NatToDecimal`.
- `src/services/ai.ts` (the Gemini client and its API-key cache) is not part of this model; its outcome is the parameter `AiOutcome`.
- Floating point: prices are exact real numbers, not IEEE-754 doubles. So a `Math.ceil` boundary that rounding error could move in the source is exact here.
- `formatPrice` (locale currency formatting) and `exportChatHistory` (Blob and DOM download) are display-only and not modelled.
- Pages and rendering components are not modelled. This covers the pages, `Header`, `ServiceSelector`, `AIChat`, the chat and quote components, and `QuoteDetails`, whose helpers repeat the formatters.
- Service-specific pricing is not modelled, because the code has none: it never reads the binding, logistics or eco-printing fields.
- `parseInt` is a parameter of `HandleNumberChange`. Quantities are integers, so a fractional or NaN quantity reaching the calculator is not modelled.
- Types.Set: the TypeScript handlers accept a value of any type for any field. The model only admits a value of the field's declared type (`Fits`).
- JavaScript prototype keys (`'toString'`, `'constructor'`) make the lookup tables return functions; such codes are treated as unknown codes.
- SeqUtil.ToLower: lower-cases ASCII letters only, not the full Unicode mapping. The keywords are Japanese or lower-case ASCII, so the classifier is unaffected for them.
- Chat.Session.SendMessage: the two halves around the `await` (`BeginSend`, `FinishSend`) run back to back, so nothing else can change the state between them. The messages sent to the AI (a possibly stale list plus the user message), the `onServiceSelect` callback (returned as `detected`) and the error toast are not modelled.
- Chat.CapitalFscIsEcoPrinting: only the one message `FSC認証` is proved, not every capitalised spelling.
- The `isApiConfigured` state and `handleApiConfigured` of the chat hook are not modelled: they only gate rendering.
- PrintForm's toasts and the `isGeneratingQuote` spinner delay are not modelled. The spinner flag is set and cleared within `HandleSubmit`.
- A failing `localStorage.setItem` (for example a full quota) is not modelled; `saveQuote` and `deleteQuote` would reject with that error.
- A saved-quotes value that parses as JSON but is not a list of quotes is not modelled: `Stored` has no case for it. `getSavedQuotes` returns such a value (`null`, an object, a number) as it is, and then the spread in `saveQuote` or the `filter` in `deleteQuote` throws and the Promise rejects; a list holding `null` makes `deleteQuote` reject on `quote.id`. On the chat-log key the same values make `getChatLogs` throw inside its `try` and read as `[]`, which is the `Corrupt` case.
