# Storefront wizards, payment form and catalog search in Dafny

This project models the logic buried in the React components of a storefront
mock-up for Discord goods:

- **The server-configuration dialog** (`ServerConfigModal`). It has four form
  steps and a fifth "ticket" step. The state is the step, the order record
  (server type plus four add-on checkboxes), the ticket number and a
  "copied" flag.
- **The inline server builder** (`ServerBuilder`). It has the same record and
  steps 1..4, and a Pay button that hands the record to an `onPay` callback.
- **The payment dialog** (`PaymentModal`). It has three input formatters
  (card number in blocks of four, `MM/YY` expiry, CVV of at most four digits),
  a four-field form, and a details / warning / error / success flow that ends
  in a `TKY-` ticket.
- **The shop section** (`ShopSection`). It holds the twelve-product catalog,
  the case-insensitive search over title and description, the split of the
  hits into four category sections, and the flags that say which dialog is
  open.

## Structure

| file | module | content |
|---|---|---|
| `optional.dfy` | `Optional` | `Option`, for the selected product and the `onPay` call |
| `server_order.dfy` | `ServerOrder` | the order record, checkbox updates, Next/Previous step arithmetic, button guards, the price rule |
| `tickets.dfy` | `Tickets` | radix-36 rendering, its decoding, the random suffix, ticket composition |
| `server_config_modal.dfy` | `ServerConfigModal` | `Apply` (the state each handler leaves), `Enabled` (what the rendered dialog lets the user press), the reachable-state invariant `Inv`, class `ConfigModal` |
| `server_builder.dfy` | `ServerBuilder` | class `Builder` |
| `payment_modal.dfy` | `PaymentModal` | the formatters, the proofs about them, the form, class `PaymentDialog` |
| `shop_section.dfy` | `ShopSection` | the catalog, `Filter`, search, grouping, render rules, class `Shop` |

Each component's state cells, which its handlers overwrite, are fields of a
class. Each handler is a method whose `ensures` gives the whole new state. In
the configuration dialog, each method is also tied to the pure transition
`Apply`. The lemmas about `Apply` and `Enabled` prove what holds across runs
of events: the step range, the type guard, and that a ticket exists exactly
on step 5.

In the source, the Next button's type guard is only its `disabled` attribute.
`handleNext` itself does not check the type. The model keeps the handler as
written (`Apply`, `ConfigModal.HandleNext`) and puts the guard in `Enabled`.
`NextHandlerIgnoresType` shows the difference.

Clock values and the rendering of `Math.random()` in base 36 are parameters.
So is `toLowerCase`, as a function applied to each character.

Facts about the code that the proofs make explicit:

- Unchecking `withBot` leaves `botManaged` set. Its checkbox is only hidden,
  and its +15 stays in the price (`UncheckingBotKeepsManagedBot`).
- A checkbox stores `e.target.checked` in its field.
- "Next" is guarded only by the button's `disabled` attribute, not by
  `handleNext` (`NextHandlerIgnoresType`).
- The random part of a ticket has at most six characters; 0.5 gives one
  (`ShortRandomSuffix`).
- The payment form is rejected exactly when one of its four fields is empty
  (`AllFilledMeansNoFieldEmpty`).
- Outside digits and blanks the card field is not idempotent. `slice(0, 19)`
  runs after `trim()`, so `aaaaaaaaaaaaaa1234a` is stored as
  `aaaaaaaaaaaaaa1234 ` with a trailing space, and reformatting that drops
  the space (`CardNumberTrailingSpace`).

## Model

| member | source | states |
|---|---|---|
| `ServerOrder.SetAddon` | src/components/ServerConfigModal.tsx:176-228 | a checkbox sets exactly its own field to `checked`; the type and the other three add-ons are unchanged (so clearing `withBot` keeps `botManaged`) |
| `ServerOrder.CalculatePrice` | src/components/ServerConfigModal.tsx:100-107 | the `+=` accumulator followed by `price \|\| 5` equals `Price`: the sum of the surcharges of the selected add-ons from the surcharge table, or 5 when that sum is 0 |
| `ServerOrder.TotalOfAllAddons` | src/components/ServerConfigModal.tsx:101-105 | the table sum is 10·withBot + 15·botManaged + 5·boostHelp + 8·promo |
| `ServerOrder.Price` | src/components/ServerConfigModal.tsx:100-107 | definition of the price rule; its properties are in `PriceRange`, `PriceFloor` and `PriceOfCheckingAddon` |
| `ServerOrder.PriceRange` | src/components/ServerConfigModal.tsx:100-107 | the price lies in [5, 38], and is 38 exactly when all four add-ons are selected |
| `ServerOrder.PriceFloor` | src/components/ServerConfigModal.tsx:106 | the sum is 0 exactly when no add-on is selected; then the price is 5; otherwise the price is the sum |
| `ServerOrder.PriceOfCheckingAddon` | src/components/ServerConfigModal.tsx:101-106 | checking a clear add-on never lowers the price, and raises it by exactly its surcharge once some add-on is selected |
| `ServerOrder.BotManagedChargedWithoutBot` | src/components/ServerConfigModal.tsx:102-103 | `botManaged` costs 15 even when `withBot` is false |
| `ServerOrder.NextStep` | src/components/ServerConfigModal.tsx:44-53 | below step 4 the step goes up by one, otherwise it stays; steps 1..4 stay in 1..4 |
| `ServerOrder.PrevStep` | src/components/ServerConfigModal.tsx:55-64 | above step 1 the step goes down by one, otherwise it stays; steps 1..4 stay in 1..4 |
| `ServerOrder.NextDisabled` | src/components/ServerConfigModal.tsx:262 | definition of the Next button's `disabled` (also ServerBuilder.tsx:221); used by `Enabled` and `Builder.HandleNext` |
| `ServerOrder.SubmitDisabled` | src/components/ServerConfigModal.tsx:270 | definition of the Finish button's `disabled` (also the Pay button, ServerBuilder.tsx:229); used by `Enabled` and `Builder.HandlePay` |
| `Tickets.DigitChar` | src/components/ServerConfigModal.tsx:67 | a radix-36 digit is `0`-`9` or `a`-`z` |
| `Tickets.ToBase36` | src/components/ServerConfigModal.tsx:67 | `Date.now().toString(36)` is a non-empty string of base-36 digits whose first digit is `0` exactly for the value 0 |
| `Tickets.ToUpper` | src/components/ServerConfigModal.tsx:67-68 | `toUpperCase` on `a`-`z`: no lower-case letter is left, every other character is kept, and each base-36 digit becomes an upper-case digit of the same value; used by `Base36RoundTrip` |
| `Tickets.Base36RoundTrip` | src/components/ServerConfigModal.tsx:67 | the upper-cased rendering uses only `0`-`9`, `A`-`Z` and decodes back to the clock value |
| `Tickets.Substring` | src/components/ServerConfigModal.tsx:68 | `substring(from, to)` clamps both ends to the length |
| `Tickets.RandomSuffix` | src/components/ServerConfigModal.tsx:68 | the random part has at most six characters |
| `Tickets.ShortRandomSuffix` | src/components/ServerConfigModal.tsx:68 | 0.5 (rendered `0.i`) gives the one-character suffix `I`, and 0 gives an empty one |
| `Tickets.Ticket` | src/components/ServerConfigModal.tsx:66-70 | `generateTicket` (also PaymentModal.tsx:60-64 with `TKY`): the ticket starts with `PREFIX-`, and is 2 to 8 characters longer than prefix and timestamp together; its fields are in `TicketFields` |
| `Tickets.TicketFields` | src/components/ServerConfigModal.tsx:66-70 | a ticket starts with `PREFIX-`; its field before the second dash is upper base-36 and decodes to the clock value; what follows the second dash is the random part of at most six characters |
| `Tickets.TicketsDifferAcrossTimes` | src/components/ServerConfigModal.tsx:66-70 | tickets made at different clock values differ, whatever the random parts |
| `ServerConfigModal.Apply` | src/components/ServerConfigModal.tsx:35-98 | the state each handler leaves: only navigation, Finish and Close change the step; only Finish and Close the ticket; only Copy and Close the copied flag; only type selection and Close the type, and no event but Close clears a chosen type |
| `ServerConfigModal.CheckboxShown` | src/components/ServerConfigModal.tsx:176-228 | definition: the bot checkbox on step 2, the managed-bot one only while `withBot` is set (line 186), the other two on step 3; used by `Enabled` |
| `ServerConfigModal.Enabled` | src/components/ServerConfigModal.tsx:250-275 | definition of the controls each step renders and their `disabled` attributes; its properties are in `EnabledEventKeepsInv` and `EnabledRunKeepsInv` |
| `ServerConfigModal.InitialInv` | src/components/ServerConfigModal.tsx:23-33 | the opening state (step 1, default record, no ticket, not copied) is reachable-consistent |
| `ServerConfigModal.EnabledEventKeepsInv` | src/components/ServerConfigModal.tsx:35-98 | an event the rendered dialog enables keeps the invariant: step in 1..5, type chosen from step 2 on, a ticket exactly on step 5, copied only on step 5 |
| `ServerConfigModal.EnabledRunKeepsInv` | src/components/ServerConfigModal.tsx:250-275 | every run of enabled events keeps the invariant |
| `ServerConfigModal.TypeNeverReverts` | src/components/ServerConfigModal.tsx:35-36 | once chosen, the type never returns to `""` before a close |
| `ServerConfigModal.NavigationStaysInForm` | src/components/ServerConfigModal.tsx:44-64 | runs of Next and Previous keep the step in 1..4 and change nothing else |
| `ServerConfigModal.NextHandlerIgnoresType` | src/components/ServerConfigModal.tsx:262 | Next is disabled on step 1 without a type, yet `handleNext` as written would move to step 2 with no type |
| `ServerConfigModal.UncheckingBotKeepsManagedBot` | src/components/ServerConfigModal.tsx:179-196 | clearing `withBot` on step 2 keeps `botManaged` set, and the price keeps its 15 |
| `ServerConfigModal.GamingBotPromoScenario` | src/components/ServerConfigModal.tsx:35-107 | Gaming, Next, bot, Next, promotion, Next: every press enabled, step 4, price 18; Finish then gives step 5, a ticket, price still 18 |
| `ServerConfigModal.ConfigModal.constructor` | src/components/ServerConfigModal.tsx:23-33 | opens on step 1 with the default record, no ticket, not copied |
| `ServerConfigModal.ConfigModal.HandleTypeSelect` | src/components/ServerConfigModal.tsx:35-42 | sets the type, nothing else |
| `ServerConfigModal.ConfigModal.HandleNext` | src/components/ServerConfigModal.tsx:44-53 | increments the step below 4 without looking at the type; the record, ticket and flag are unchanged |
| `ServerConfigModal.ConfigModal.HandlePrev` | src/components/ServerConfigModal.tsx:55-64 | decrements the step above 1; a no-op on step 1 |
| `ServerConfigModal.ConfigModal.HandleCheck` | src/components/ServerConfigModal.tsx:176-228 | stores `checked` in the named add-on only |
| `ServerConfigModal.ConfigModal.HandleFinish` | src/components/ServerConfigModal.tsx:72-78 | with a type, stores the `SRV` ticket and moves to step 5; without one, changes nothing |
| `ServerConfigModal.ConfigModal.CopyToClipboard` | src/components/ServerConfigModal.tsx:80-84 | raises the copied flag only |
| `ServerConfigModal.ConfigModal.HandleClose` | src/components/ServerConfigModal.tsx:86-98 | from any step, including 5: step 1, the default record, an empty ticket, not copied |
| `ServerConfigModal.ConfigModal.CalculatePrice` | src/components/ServerConfigModal.tsx:100-107 | the price of the current record, in [5, 38] |
| `ServerBuilder.Builder.constructor` | src/components/ServerBuilder.tsx:17-25 | starts on step 1 with the default record |
| `ServerBuilder.Builder.HandleTypeSelect` | src/components/ServerBuilder.tsx:27-34 | sets the type only; the step stays |
| `ServerBuilder.Builder.HandleNext` | src/components/ServerBuilder.tsx:36-45 | one step forward below 4, the record unchanged, step kept in 1..4; an enabled press (ServerBuilder.tsx:221) keeps "type chosen from step 2 on" |
| `ServerBuilder.Builder.HandlePrev` | src/components/ServerBuilder.tsx:47-56 | one step back above 1, the record unchanged, step kept in 1..4 |
| `ServerBuilder.Builder.HandleCheck` | src/components/ServerBuilder.tsx:136-186 | stores `checked` in the named add-on only |
| `ServerBuilder.Builder.HandlePay` | src/components/ServerBuilder.tsx:58-62 | calls `onPay` exactly when the Pay button is not disabled (`SubmitDisabled`), that is when a type is chosen, passing the record unchanged (the Pay button is disabled otherwise, ServerBuilder.tsx:229) |
| `ServerBuilder.Builder.CalculatePrice` | src/components/ServerBuilder.tsx:64-71 | the same rule as the dialog, in [5, 38] |
| `PaymentModal.StripWhitespace` | src/components/PaymentModal.tsx:32 | `replace(/\s/g, "")` leaves no whitespace and never lengthens; what it keeps is given by `StripWhitespaceSplit` |
| `PaymentModal.StripWhitespaceSplit` | src/components/PaymentModal.tsx:32 | around any position, a whitespace character is dropped and any other character is kept in place between what the two sides become |
| `PaymentModal.StripWhitespaceOfClean` | src/components/PaymentModal.tsx:32 | a string without whitespace is left unchanged |
| `PaymentModal.KeepDigits` | src/components/PaymentModal.tsx:40 | `replace(/\D/g, "")` leaves only digits and never lengthens; what it keeps is given by `KeepDigitsSplit` |
| `PaymentModal.KeepDigitsSplit` | src/components/PaymentModal.tsx:40 | around any position, a digit is kept in place between what the two sides become and any other character is dropped |
| `PaymentModal.KeepDigitsOfDigits` | src/components/PaymentModal.tsx:40 | a digit string is left unchanged |
| `PaymentModal.Truncate` | src/components/PaymentModal.tsx:34 | `slice(0, n)` is the prefix of the input of length min(n, length) |
| `PaymentModal.SpaceAfterFourDigits` | src/components/PaymentModal.tsx:33 | definition of the left-to-right `(\d{4})` replacement; on digits it is described by `GroupingOfDigits` |
| `PaymentModal.Trim` | src/components/PaymentModal.tsx:33 | definition of `trim`; on the block layout it is described by `TrimLayout` |
| `PaymentModal.FormatCardNumber` | src/components/PaymentModal.tsx:31-35 | the stored card number is at most 19 characters |
| `PaymentModal.GroupingOfDigits` | src/components/PaymentModal.tsx:33 | on digits, the regular expression yields the block layout plus one trailing space when the length is a positive multiple of 4 |
| `PaymentModal.CardNumberLayout` | src/components/PaymentModal.tsx:31-35 | for digits and blanks, the field equals the block layout of the first 16 digits |
| `PaymentModal.CardNumberOnDigits` | src/components/PaymentModal.tsx:31-35 | for digits and blanks: length at most 19; without spaces it is the first min(16, n) digits; a space stands exactly at positions 4, 9, 14; digit i of the field is digit i - i/5 of the input; no trailing space |
| `PaymentModal.CardNumberIdempotent` | src/components/PaymentModal.tsx:31-35 | for input of digits and blanks, reformatting the formatted card number is the identity |
| `PaymentModal.SpaceAfterNoDigits` | src/components/PaymentModal.tsx:33 | the `(\d{4})` replacement copies a digit-free prefix through unchanged |
| `PaymentModal.CardNumberTrailingSpace` | src/components/PaymentModal.tsx:31-35 | for any 14 characters without digits or whitespace followed by `1234a`, the field keeps a trailing space, and reformatting it gives a different value without the space |
| `PaymentModal.FormatExpiry` | src/components/PaymentModal.tsx:39-47 | definition; its properties are in `ExpiryShape`, `ExpiryIdempotent` and `ExpirySlashComesBack` |
| `PaymentModal.ExpiryShape` | src/components/PaymentModal.tsx:39-47 | at most 5 characters; a `/` only and exactly at index 2, present iff at least two digits were typed; otherwise digits; its digits are the first four typed |
| `PaymentModal.ExpiryIdempotent` | src/components/PaymentModal.tsx:39-47 | reformatting the expiry field is the identity, for every input |
| `PaymentModal.ExpirySlashComesBack` | src/components/PaymentModal.tsx:41-43 | two digits (what deleting the slash of `MM/` leaves) format back to `MM/` |
| `PaymentModal.FormatCvv` | src/components/PaymentModal.tsx:51-54 | definition; its properties are in `CvvShape` and `CvvIdempotent` |
| `PaymentModal.CvvShape` | src/components/PaymentModal.tsx:51-54 | the CVV is only digits, the first min(4, n) digits typed |
| `PaymentModal.CvvIdempotent` | src/components/PaymentModal.tsx:51-54 | reformatting is the identity; up to four digits are kept as typed |
| `PaymentModal.InputChange` | src/components/PaymentModal.tsx:27-58 | only the named field changes; it receives the formatted value, the card holder verbatim |
| `PaymentModal.AllFilled` | src/components/PaymentModal.tsx:68 | definition; its meaning is in `AllFilledMeansNoFieldEmpty` |
| `PaymentModal.AllFilledMeansNoFieldEmpty` | src/components/PaymentModal.tsx:68 | the check passes exactly when no field is empty |
| `PaymentModal.FilledByTyping` | src/components/PaymentModal.tsx:27-75 | typing a digit card number, a name, and some digits of expiry and CVV into an empty form passes the check |
| `PaymentModal.PaymentDialog.constructor` | src/components/PaymentModal.tsx:15-23 | starts in details with an empty form, no ticket, not copied |
| `PaymentModal.PaymentDialog.HandleInputChange` | src/components/PaymentModal.tsx:27-58 | the form becomes `InputChange` of the old form; the view, ticket and flag are unchanged |
| `PaymentModal.PaymentDialog.HandlePaymentAttempt` | src/components/PaymentModal.tsx:66-75 | error if any field is empty, warning otherwise; nothing else changes |
| `PaymentModal.PaymentDialog.HandleConfirmPayment` | src/components/PaymentModal.tsx:77-82 | success with a ticket starting `TKY-` |
| `PaymentModal.PaymentDialog.Back` | src/components/PaymentModal.tsx:199-205 | Retour returns to details, keeping the form, ticket and flag |
| `PaymentModal.PaymentDialog.CopyToClipboard` | src/components/PaymentModal.tsx:84-88 | raises the copied flag only |
| `PaymentModal.PaymentDialog.HandleClose` | src/components/PaymentModal.tsx:90-101 | details, all four fields empty, no ticket, not copied |
| `ShopSection.CatalogIdsDistinct` | src/components/ShopSection.tsx:25-181 | the twelve catalog ids are pairwise distinct (used as list keys at ShopSection.tsx:330) |
| `ShopSection.Filter` | src/components/ShopSection.tsx:219-229 | `filter` never lengthens and keeps exactly the accepted elements |
| `ShopSection.FilterIsSubsequence` | src/components/ShopSection.tsx:219-229 | what `filter` keeps is an order-preserving subsequence |
| `ShopSection.FilterAppend` | src/components/ShopSection.tsx:219-229 | `filter` distributes over concatenation |
| `ShopSection.FilterKeepsAll` | src/components/ShopSection.tsx:219-222 | a filter accepting everything returns its input |
| `ShopSection.Lower` | src/components/ShopSection.tsx:220-221 | definition: `toLowerCase` as a per-character parameter; used by `Matches`, properties in `SearchSpec` |
| `ShopSection.Includes` | src/components/ShopSection.tsx:220-221 | definition of `includes`; its meaning is in `IncludesOccurs` |
| `ShopSection.IncludesOccurs` | src/components/ShopSection.tsx:220-221 | `includes` holds exactly when the needle occurs at some index |
| `ShopSection.Search` | src/components/ShopSection.tsx:219-222 | definition of `filteredProducts`; its properties are in `SearchSpec`, `SearchAppend` and `EmptySearchKeepsAll` |
| `ShopSection.SearchSpec` | src/components/ShopSection.tsx:219-222 | the hits are an order-preserving subsequence of the catalog; a product is a hit iff the lowered term occurs in its lowered title or description |
| `ShopSection.SearchAppend` | src/components/ShopSection.tsx:219-222 | each product is kept or dropped on its own |
| `ShopSection.EmptySearchKeepsAll` | src/components/ShopSection.tsx:214-222 | the empty search term keeps every product |
| `ShopSection.Group` | src/components/ShopSection.tsx:224-229 | definition of one entry of `groupedByCategory`; its properties are in `GroupsPartition` |
| `ShopSection.GroupsPartition` | src/components/ShopSection.tsx:224-229 | each group holds exactly the hits of its category, in order; the four group sizes add up to the number of hits |
| `ShopSection.SectionShown` | src/components/ShopSection.tsx:318 | definition: a section renders unless its group is empty; related to the message by `NoOffersIffNoSection` |
| `ShopSection.NoOffersShown` | src/components/ShopSection.tsx:441 | definition: the message renders when there is no hit; related to the sections by `NoOffersIffNoSection` |
| `ShopSection.NoOffersIffNoSection` | src/components/ShopSection.tsx:436-445 | the "no offers" message shows exactly when all four sections render nothing (ShopSection.tsx:318) |
| `ShopSection.Shop.constructor` | src/components/ShopSection.tsx:214-217 | empty search, nothing selected, both dialogs closed, over the twelve-product catalog |
| `ShopSection.Shop.Hits` | src/components/ShopSection.tsx:219-222 | definition: `filteredProducts` for the current term; `SetSearchTerm` says what it becomes |
| `ShopSection.Shop.SetSearchTerm` | src/components/ShopSection.tsx:429 | stores the term only; the shown products become the search of the catalog for the new term, exactly the products that match it |
| `ShopSection.Shop.HandlePayClick` | src/components/ShopSection.tsx:309-312 | selects the product and raises the payment flag; the dialog is open iff the product is not a server (ShopSection.tsx:449) |
| `ShopSection.Shop.PaymentModalOpen` | src/components/ShopSection.tsx:449-458 | definition: the payment dialog is mounted and open; `HandlePayClick` and `CardButton` say when it holds |
| `ShopSection.Shop.CardButton` | src/components/ShopSection.tsx:375-391 | the server card opens the configuration dialog, every other card the payment dialog; no server product is ever selected |
| `ShopSection.Shop.ClosePaymentModal` | src/components/ShopSection.tsx:453-456 | lowers the flag and clears the selection |
| `ShopSection.Shop.CloseServerConfigModal` | src/components/ShopSection.tsx:463 | closes the configuration dialog only |

## Left out

- GSAP animations (the `gsap.fromTo` calls in the wizard handlers and the scroll and hover effects of the shop), the welcome screen and the main page: visual timelines driven by floating-point values.
- The progress-bar width `(step / 4) * 100`: a floating-point display value.
- Sound effects: Web Audio oscillators, a foreign API.
- The clipboard write and the 2000 ms timer that clears `copied`: browser APIs and a clock. The model only raises the flag.
- `Date.now()` and `Math.random().toString(36)`: both are parameters, since one is a clock and the other a float-to-string conversion. The clock is a `nat`, so dates before 1970 are not modelled.
- `ToUpper` covers only `a`-`z`, the letters a base-36 rendering can hold. `toLowerCase` is an arbitrary parameter applied character by character, so Unicode case rules that change a string's length are not modelled.
- Strings are sequences of code points. JavaScript's `slice` and `substring` count UTF-16 code units, so the two differ only for characters outside the Basic Multilingual Plane.
- `handleInputChange` with a `name` other than the four inputs: JavaScript would add a new key to the form, but the markup has only the four inputs.
- The login-URL helper, the page bootstrap and the `showWelcome` flag: thin wrappers over the environment and the browser location.
- JSX markup, icons, category styling, the Discord link, the dialog's `isOpen` prop, and Radix `onOpenChange`. Dismissing a dialog is modelled as its close handler.
- The dialogs' `onClose` callbacks into the shop are modelled on the shop's side.
- `ServerBuilder.Builder.HandleNext`: states the "type chosen from step 2 on" invariant only for an enabled press, because the handler does not check the type.
