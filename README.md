# Group bill splitting: a verified model

This project models the decision-making core of a group bill-splitting app.
The app has an Express/Mongoose backend and a React Native client. An admin
creates a *payment request*: a title, a total, and participants, each with a
name, a phone number, a share and a status. The admin sends it, and each
participant (or an admin) marks a share paid. When every share is paid, the
request becomes completed. The client splits totals evenly and formats money
with thousands separators. It also keeps per-user selections, filters
request and member lists, and decorates its alerts.

The model follows the code, not an idealised lifecycle. Where the design
description and the code disagree, the code wins:

- Create never checks that the shares add up to `totalAmount`. `PaymentRoutes.SumNotChecked` shows an accepted request whose shares do not.
- Marking a share paid does not reject a share that is already paid. It does not reject a draft, completed or cancelled request either. Each repeated mark overwrites `paidAt`, and completion overwrites `completedAt`.
- There is no cancel transition. Amounts are never frozen, and `send` is the only other change.
- `splitEven` never cycles through the participants. The remainder is below `n * roundTo`, so each person gets at most one top-up and the safety `break` is never reached.
- The phone pattern `/^(0[3|5|7|8|9])+([0-9]{8})$/` is modelled as written. Its character class admits `|`, and the `0x` prefix may repeat (`PaymentRequestModel.PatternAdmitsMore`).

Modules, one per source file: `SplitEven` (frontend/utils/splitEven.ts),
`PaymentRequestModel` (the Mongoose schema and the document as a class),
`PaymentRoutes` (backend/src/routes/payments.js), `NumberFormat` and
`CreateRequestCard` (the number text helpers), `AdminDashboard`,
`UserDashboard`, `ParticipantsSheet`, and `AlertFormat`. `AlertFormat` holds
the title and message formatting that both alert components define
identically. `BeautifulAlert` and `CustomAlert` model the alert components
themselves. `Wrappers`, `Text`, `Arith` and `Sequences` are shared helpers:
result types, JavaScript string operations, arithmetic facts, and
`Array.prototype.filter` specified as an order-preserving sublist.

Money is an unbounded integer. Ticks (`Date.now()`) are opaque naturals
passed in by the caller. The database, the clock, sockets and sign-in are
parameters: a loaded document is an object or `null`, the user lookup by
phone is a map, and the caller is an id plus an admin flag.

## Model

| member | source | states |
|---|---|---|
| SplitEven.Split | frontend/utils/splitEven.ts:1-19 | For `n <= 0`, `per` is 0 and the array is empty. Otherwise `per` is the rounded-down share and the array holds exactly the top-ups `TopUps` (`roundTo` for the first `Steps` people, 0 after). The loop invariants show the safety `break` is never taken. |
| SplitEven.PerIsLargestMultiple | frontend/utils/splitEven.ts:4 | `per` is a multiple of `roundTo`, with `per * n <= total < (per + roundTo) * n`. |
| SplitEven.StepsBelowCount | frontend/utils/splitEven.ts:5-12 | The remainder lies in `[0, n * roundTo)`, so fewer than `n` top-ups are handed out. |
| SplitEven.SumOfSteps | frontend/utils/splitEven.ts:8-15 | An array holding `roundTo` at its first `m` entries and 0 elsewhere sums to `m * roundTo`. |
| SplitEven.Conservation | frontend/utils/splitEven.ts:4-17 | `per*n + sum(topups) + leftover == total` with `0 <= leftover < roundTo`. The leftover is 0 when `total` is a multiple of `roundTo`. |
| SplitEven.TopUpBounds | frontend/utils/splitEven.ts:12-14 | Every top-up is 0 or `roundTo`. Entry `k` is `roundTo` exactly when `k < Steps`. |
| SplitEven.ExactSplitExample | frontend/utils/splitEven.ts:1-19 | `(6000000, 4, 1000)` gives `per = 1500000` and no top-ups. |
| SplitEven.RemainderExample | frontend/utils/splitEven.ts:1-19 | `(1000, 3, 1000)` gives `per = 0` and `[1000, 0, 0]`. |
| PaymentRequestModel.MobileNumberMatches | backend/src/models/PaymentRequest.js:39 | Every ten-digit number `0[35789]xxxxxxxx` matches the phone pattern. |
| PaymentRequestModel.PatternAdmitsMore | backend/src/models/PaymentRequest.js:39 | The pattern also accepts `0\|12345678` and `030312345678`. |
| PaymentRequestModel.PhoneShape | backend/src/models/PaymentRequest.js:39 | A matching phone has even length, starts with `0`, and holds only digits and `\|`. |
| PaymentRequestModel.PrefixUnitsShape | backend/src/models/PaymentRequest.js:39 | The repeated `(0[...])+` prefix has even length, starts with `0`, and holds only digits and `\|`. |
| PaymentRequestModel.CastParticipant | backend/src/models/PaymentRequest.js:25-57 | A new participant gets status pending, no `paidAt`, and no transaction id. Its name is trimmed, and user, phone and amount are kept. |
| PaymentRequestModel.CastParticipants | backend/src/models/PaymentRequest.js:25-57 | The participant list keeps its length and order. Each entry is cast at its position. |
| PaymentRequestModel.TotalPaidBounds | backend/src/models/PaymentRequest.js:89-93 | With non-negative amounts, `0 <= totalPaid <= sum of all amounts`. |
| PaymentRequestModel.TotalPaidWhenAllPaid | backend/src/models/PaymentRequest.js:89-93 | When everybody has paid, `totalPaid` is the sum of all amounts. |
| PaymentRequestModel.PaidCount | backend/src/models/PaymentRequest.js:98 | The number of paid participants is at most the number of participants. |
| PaymentRequestModel.PaidCountExtremes | backend/src/models/PaymentRequest.js:98 | The paid count equals the length iff all have paid. It is 0 iff nobody has. |
| PaymentRequestModel.PercentageRange | backend/src/models/PaymentRequest.js:99 | The rounded percentage lies in [0, 100]. It is 100 for `part == whole` and 0 for `part == 0`. |
| PaymentRequestModel.CompletionPercentageRange | backend/src/models/PaymentRequest.js:96-100 | `completionPercentage` is 0 with no participants and always in [0, 100]. It is 100 when all have paid and 0 when none has. |
| PaymentRequestModel.AlmostAllPaidShowsHundred | backend/src/models/PaymentRequest.js:99 | With 200 or more participants, all but one paid already shows 100. |
| PaymentRequestModel.MarkPaid | backend/src/routes/payments.js:300-304 | The share becomes paid at `now`. A transaction id is recorded only when a non-empty one is given. Identity, name, phone and amount are kept. |
| PaymentRequestModel.MarkAt | backend/src/routes/payments.js:300-304 | Only participant `k` changes; the list keeps its length. |
| PaymentRequestModel.StatusAfterMark | backend/src/routes/payments.js:300-311 | Right after a payment the request is completed iff every other participant had already paid. Otherwise it keeps its status, draft, sent or cancelled. |
| PaymentRequestModel.AllPaidAfterMark | backend/src/routes/payments.js:300-311 | After marking `k`, all have paid iff everyone else already had. |
| PaymentRequestModel.MarkKeepsValid | backend/src/models/PaymentRequest.js:25-57 | Marking a share paid keeps every participant schema-valid. |
| PaymentRequestModel.MarksCommute | backend/src/routes/payments.js:300-304 | Marking two different participants gives the same list in either order. |
| PaymentRequestModel.TwoPaymentsOrderIndependent | backend/src/routes/payments.js:300-311 | Two marks on different participants, in either order, give the same participants and the same status. |
| PaymentRequestModel.TotalPaidAfterMark | backend/src/models/PaymentRequest.js:89-93 | Marking a pending share paid adds its amount to `totalPaid`. Marking a paid one changes nothing. |
| PaymentRequestModel.PaymentRequest.constructor | backend/src/models/PaymentRequest.js:3-80 | `new PaymentRequest(...)` trims title and description and casts the participants. Status is draft, no `sentAt` or `completedAt`, and both dates are `now`. |
| PaymentRequestModel.PaymentRequest.Save | backend/src/models/PaymentRequest.js:3-86 | Save succeeds iff the document passes the schema. Only then is `updatedAt` refreshed; nothing else changes. |
| PaymentRequestModel.PaymentRequest.Send | backend/src/routes/payments.js:227-236 | A draft becomes sent with `sentAt` and `updatedAt` at `now`. Any other status leaves the document unchanged. |
| PaymentRequestModel.PaymentRequest.MarkParticipantPaid | backend/src/routes/payments.js:300-313 | Participant `k` is marked paid. The request is completed, with `completedAt`, iff all have paid. The document stays schema-valid. |
| PaymentRoutes.NameErrors | backend/src/routes/payments.js:38-40 | A `NameEmpty(j)` error is reported exactly for each empty name. |
| PaymentRoutes.PhoneErrors | backend/src/routes/payments.js:41-43 | A `PhoneInvalid(j)` error is reported exactly for each phone outside the pattern. |
| PaymentRoutes.AmountErrors | backend/src/routes/payments.js:44-47 | An `AmountTooSmall(j)` error is reported exactly for each amount below 1. |
| PaymentRoutes.HeadErrors | backend/src/routes/payments.js:27-37 | Reports an empty title, a title over 200, a total below 1, and no participants. Each is reported iff it holds. |
| PaymentRoutes.ParticipantErrors | backend/src/routes/payments.js:38-47 | No per-participant error iff every name is non-empty, every phone matches, and every amount is at least 1. |
| PaymentRoutes.Validate | backend/src/routes/payments.js:25-48 | No validation error iff the input meets every validator. Nothing relates the shares to the total. |
| PaymentRoutes.HeadFailuresReported | backend/src/routes/payments.js:27-37 | Each check on the request's own fields is reported exactly when it fails. |
| PaymentRoutes.ParticipantFailuresReported | backend/src/routes/payments.js:38-47 | Each check on participant `j` is reported exactly when it fails. |
| PaymentRoutes.ValidateReportsEachFailure | backend/src/routes/payments.js:25-48 | Each kind of error appears in the report exactly when its check fails. |
| PaymentRoutes.SumNotChecked | backend/src/routes/payments.js:25-48 | A request with a total of 1000 and a single share of 500 passes validation. |
| PaymentRoutes.Resolved | backend/src/routes/payments.js:64-69 | When every phone has a user, each participant keeps its name, phone and amount, gains that user, and stays in order. |
| PaymentRoutes.ResolveParticipants | backend/src/routes/payments.js:53-70 | Fails iff some phone has no user, naming the first such phone. Otherwise it returns `Resolved`. |
| PaymentRoutes.StoredValidIsSchemaValid | backend/src/models/PaymentRequest.js:3-57 | The input passes the schema after trimming iff the constructed document is schema-valid. |
| PaymentRoutes.StoreRequest | backend/src/routes/payments.js:72-81 | The new document is kept iff it passes the schema after trimming. Otherwise the result is a server error. A kept document is a fresh, schema-valid draft holding the input's trimmed fields and the cast participants. |
| PaymentRoutes.CreatePaymentRequest | backend/src/routes/payments.js:25-81 | Validation errors come first, then an unknown phone; a document failing the schema after trimming gives a server error. Success iff valid input, known phones and a storable document. A new draft then holds the trimmed strings and the resolved, cast participants. |
| PaymentRoutes.IsParticipant | backend/src/routes/payments.js:187-189 | True iff some participant's user is the caller. |
| PaymentRoutes.ListedCanView | backend/src/routes/payments.js:124-196 | Every request the list query returns to a user is one that user may open. |
| PaymentRoutes.PageCount | backend/src/routes/payments.js:154 | `pages = ceil(total / limit)`: `total <= pages*limit`, `(pages-1)*limit < total`, and 0 pages iff no matches. |
| PaymentRoutes.PagesCoverMatches | backend/src/routes/payments.js:143-154 | Match `x` lies in the window `[skip, skip+limit)` of page `x/limit + 1`, which is within the page count. |
| PaymentRoutes.SendPaymentRequest | backend/src/routes/payments.js:215-236 | Not found for `null`. Anything but a draft is refused and left unchanged. A draft becomes sent at `now` with its participants untouched. Title, description, total, creator and dates stay as they were. |
| PaymentRoutes.FindParticipant | backend/src/routes/payments.js:280-287 | Returns a position holding that id, or none iff no participant has it. |
| PaymentRoutes.NonAdminPaysOwnShare | backend/src/routes/payments.js:289-298 | A caller who is not an admin may mark a share iff it is their own, and then the caller has an own entry in the request. |
| PaymentRoutes.PayerCanView | backend/src/routes/payments.js:289-298 | Whoever may mark a share paid may also open the request. |
| PaymentRoutes.MarkParticipantPaid | backend/src/routes/payments.js:267-313 | Not found, then access denied, each with nothing changed. Otherwise the share is marked regardless of prior status, and the request is completed iff all have paid. Title, description, total, creator and dates stay as they were. |
| PaymentRoutes.OwnEntry | backend/src/routes/payments.js:426-428 | Returns the first participant of the request belonging to the caller, or none iff there is none. |
| PaymentRoutes.PendingCount | backend/src/routes/payments.js:429-436 | The number of requests counted pending is at most the number of requests. |
| PaymentRoutes.SharesSplit | backend/src/routes/payments.js:421-437 | Paid shares plus owed shares equal all of the caller's shares. |
| PaymentRoutes.UserDashboardStats | backend/src/routes/payments.js:416-444 | `totalPaid` and `totalOwed` are the paid and non-paid own shares, summing to all own shares. `pendingPayments + completedPayments` is the number of requests. |
| PaymentRoutes.AdminDashboardStats | backend/src/routes/payments.js:375-413 | `completed + pending <= total requests <= |docs|`. With non-negative totals, `0 <= completedAmount <= totalAmount`. |
| NumberFormat.Digits | frontend/components/payments/CreateRequestCard.tsx:10 | The result is all digits and no longer than the input. |
| NumberFormat.DigitsAppend | frontend/components/payments/CreateRequestCard.tsx:10 | Stripping non-digits distributes over concatenation. |
| NumberFormat.DigitsOfDigits | frontend/components/payments/CreateRequestCard.tsx:10 | A string of digits is left as it is. |
| NumberFormat.DigitsIdempotent | frontend/components/payments/CreateRequestCard.tsx:16-19 | Stripping twice is stripping once. |
| NumberFormat.ScanShort | frontend/components/payments/CreateRequestCard.tsx:13 | The comma rule inserts nothing into three or fewer digits. |
| NumberFormat.ScanAppendGroup | frontend/components/payments/CreateRequestCard.tsx:13 | Appending three digits adds exactly one comma before them. |
| NumberFormat.GroupIsScan | frontend/components/payments/CreateRequestCard.tsx:13 | Grouping from the right equals the left-to-right regex rule: a comma before position `p` iff `0 < p < len` and `(len - p) % 3 == 0`. |
| NumberFormat.GroupShape | frontend/components/payments/CreateRequestCard.tsx:8-14 | Only digits and commas, `|d| + (|d|-1)/3` characters long, with a digit at both ends. |
| NumberFormat.DigitsOfGroup | frontend/components/payments/CreateRequestCard.tsx:8-14 | Removing the commas gives back the digits. |
| NumberFormat.FormatKeepsDigits | frontend/components/payments/CreateRequestCard.tsx:8-19 | `parseNumber(formatNumber(v)) == parseNumber(v)`. |
| NumberFormat.FormatIdempotent | frontend/components/payments/CreateRequestCard.tsx:8-14 | `formatNumber(formatNumber(v)) == formatNumber(v)`. |
| NumberFormat.RemoveCommas | frontend/components/AdminDashboard.tsx:233 | Removing commas never lengthens the text. |
| NumberFormat.RemoveCommasIsDigits | frontend/components/AdminDashboard.tsx:233 | On digits and commas, removing commas equals keeping digits. |
| NumberFormat.ParseAmount | frontend/components/AdminDashboard.tsx:232-234 | A digits-and-commas text parses to the value of its digits, and the empty text to 0. |
| NumberFormat.ParseFormatted | frontend/components/AdminDashboard.tsx:224-234 | A formatted text is digits and commas and parses to the value of the input's digits. |
| CreateRequestCard.HandleTotalChange | frontend/components/payments/CreateRequestCard.tsx:39-43 | Stores only digits: exactly the typed digits. |
| CreateRequestCard.DisplayTotal | frontend/components/payments/CreateRequestCard.tsx:46 | Empty for an empty total, and otherwise shows the total's digits. |
| CreateRequestCard.TypedThenShown | frontend/components/payments/CreateRequestCard.tsx:39-46 | What is shown after typing is `formatNumber` of the typed text. Re-entering what is shown is stable. |
| AdminDashboard.ShortNameUnchanged | frontend/components/AdminDashboard.tsx:208 | A name no longer than `maxLength` is returned unchanged. |
| AdminDashboard.LongPlainName | frontend/components/AdminDashboard.tsx:220 | A long name without `@` becomes its first `maxLength-3` characters plus `...`, exactly `maxLength` long. |
| AdminDashboard.LongEmailName | frontend/components/AdminDashboard.tsx:211-216 | A long email with a long local part becomes prefix + `...@` + domain (up to a second `@`). With a short local part it is unchanged. |
| AdminDashboard.Put | frontend/components/AdminDashboard.tsx:241-261 | The spread update sets one key, keeps the key order, and appends a new key at the end. |
| AdminDashboard.ToggleUserSelection | frontend/components/AdminDashboard.tsx:254-262 | Flips only that user's flag and keeps its amount (0 by default). Every other entry is unchanged. |
| AdminDashboard.ToggleTwice | frontend/components/AdminDashboard.tsx:254-262 | Toggling twice restores the flag and the amount. |
| AdminDashboard.HandleAmountChange | frontend/components/AdminDashboard.tsx:241-252 | Sets only that user's amount to the typed value and keeps its flag. Every other entry is unchanged. |
| AdminDashboard.SelectedIds | frontend/components/AdminDashboard.tsx:270 | An id is listed iff it is a key and selected. |
| AdminDashboard.AdminTotalChange | frontend/components/AdminDashboard.tsx:236-239 | The stored total is digits and commas, and parses to the typed digits' value. |
| AdminDashboard.AutoSplit | frontend/components/AdminDashboard.tsx:264-278 | Reports a missing total iff the total is empty, and no selection iff nobody is selected. Otherwise opens the popup, which needs someone selected. |
| AdminDashboard.FindUser | frontend/components/AdminDashboard.tsx:313 | Returns a user with that id, or none iff there is none. |
| AdminDashboard.EligibleSound | frontend/components/AdminDashboard.tsx:310-316 | Every listed entry is a selected key with a positive amount and a known user. |
| AdminDashboard.EligibleComplete | frontend/components/AdminDashboard.tsx:310-316 | Every selected key with a positive amount and a known user is listed. |
| AdminDashboard.RoundDiv | frontend/components/AdminDashboard.tsx:326 | `Math.round(t / k)`: the integer nearest to `t/k`, with halves rounded up. |
| AdminDashboard.SendAllRequests | frontend/components/AdminDashboard.tsx:309-365 | Rejected iff no eligible user and no admin entry. Otherwise: the eligible entries in order, plus one admin entry when "include myself" is ticked and someone is selected. The title defaults and the description equals it, and the total is the sum of the shares. |
| UserDashboard.HasPhone | frontend/components/UserDashboard_New.tsx:37 | True iff some participant has the phone. |
| UserDashboard.ForUser | frontend/components/UserDashboard_New.tsx:36-38 | Keeps exactly the requests with a participant holding the user's phone. |
| UserDashboard.ForUserKeepsOrder | frontend/components/UserDashboard_New.tsx:36-38 | The kept requests stay in order. |
| UserDashboard.FindByPhone | frontend/components/UserDashboard_New.tsx:92-101 | Returns the first participant with the phone, or none iff none has it. |
| UserDashboard.UserStatus | frontend/components/UserDashboard_New.tsx:92-95 | The first matching participant's status, or pending when nobody matches. |
| UserDashboard.UserAmount | frontend/components/UserDashboard_New.tsx:98-101 | The first matching participant's amount, or 0 when nobody matches. |
| UserDashboard.PendingAndPaidPartition | frontend/components/UserDashboard_New.tsx:103-104 | Pending and paid lists are disjoint, order-preserving sublists, together at most all requests. A cancelled request is in neither. |
| UserDashboard.SumUserAmountsAppend | frontend/components/UserDashboard_New.tsx:105 | The sum of shares distributes over concatenation. |
| UserDashboard.TotalPendingSnoc | frontend/components/UserDashboard_New.tsx:103-105 | One more request adds its share to the pending total iff the user's status there is pending. |
| UserDashboard.TotalPendingNonNegative | frontend/components/UserDashboard_New.tsx:105 | With non-negative shares, the pending total is non-negative. |
| UserDashboard.OrElse | frontend/components/UserDashboard_New.tsx:68-71 | `value \|\| fallback`: a missing or empty value gives the fallback, any other value itself. |
| UserDashboard.HandlePayment | frontend/components/UserDashboard_New.tsx:61-89 | An error alert iff the user has no share. Otherwise: the user's share, the creator's phone (default `0123456789`) and name (default `Admin`), and the note `title - username`. |
| UserDashboard.LoadedRequestsArePayable | frontend/components/UserDashboard_New.tsx:36-66 | Every request on this dashboard offers a payment. |
| ParticipantsSheet.AllCheckedByCountOnly | frontend/components/payments/ParticipantsSheet.tsx:25 | Counting alone can show "all checked" while a member is unchecked. |
| ParticipantsSheet.MemberIds | frontend/components/payments/ParticipantsSheet.tsx:7 | The ids of the members: every member's id is in it, and it holds nothing else. |
| ParticipantsSheet.AllCheckedMeansEveryone | frontend/components/payments/ParticipantsSheet.tsx:25 | With distinct selected ids of distinct members, `allChecked` holds iff there are members and each is selected. |
| ParticipantsSheet.Filtered | frontend/components/payments/ParticipantsSheet.tsx:27-33 | A member is shown iff its lower-cased name or its phone (missing as `''`) contains the trimmed, lower-cased query. |
| ParticipantsSheet.EmptyQueryMatches | frontend/components/payments/ParticipantsSheet.tsx:31-32 | Every member matches the empty query. |
| ParticipantsSheet.FilteredKeepsOrder | frontend/components/payments/ParticipantsSheet.tsx:27-33 | The shown members are an order-preserving sublist. |
| ParticipantsSheet.BlankSearchShowsAll | frontend/components/payments/ParticipantsSheet.tsx:28-29 | A blank or whitespace-only search shows the members unchanged. |
| ParticipantsSheet.ShortcutAgreesWithFilter | frontend/components/payments/ParticipantsSheet.tsx:28-32 | The empty-query shortcut gives what the filter would. |
| ParticipantsSheet.ToggleAllSelectsMissing | frontend/components/payments/ParticipantsSheet.tsx:53-66 | With distinct selected ids of distinct members, the select-all button asks to select everyone iff the list is empty or some row is unchecked. |
| AlertFormat.AnyKeyword | frontend/components/BeautifulAlert.tsx:82-103 | True iff the title contains one of the rule's keywords. |
| AlertFormat.FirstMatch | frontend/components/BeautifulAlert.tsx:80-105 | The emoji of the first matching rule, or 💬 when none matches. |
| AlertFormat.FormatTitle | frontend/components/BeautifulAlert.tsx:80-105 | One emoji (a rule's or 💬), a space, then the title unchanged. |
| AlertFormat.EmojiFromRules | frontend/components/CustomAlert.tsx:39-64 | The chosen emoji is the fallback or one of the rules' emoji. |
| AlertFormat.ErrorRuleWins | frontend/components/BeautifulAlert.tsx:82-84 | A title with `Lỗi` or `Error` gets ❌ whatever else it contains. |
| AlertFormat.ErrorAndSuccessTitle | frontend/components/CustomAlert.tsx:40-45 | A title with both `Lỗi` and `Thành công` gets ❌. |
| AlertFormat.DigitRunEnd | frontend/components/BeautifulAlert.tsx:115 | The end of the digit run starting at `i`: all digits up to it, then a non-digit or the end. |
| AlertFormat.DropNewlines | frontend/components/BeautifulAlert.tsx:114-118 | Removing line feeds leaves no line feed. |
| AlertFormat.DropNewlinesAppend | frontend/components/BeautifulAlert.tsx:114-118 | Removing line feeds distributes over concatenation. |
| AlertFormat.BreakFromAddsOnlyNewlines | frontend/components/BeautifulAlert.tsx:115 | The numbered-list replace only inserts line feeds. |
| AlertFormat.NoMarkerNoBreak | frontend/components/BeautifulAlert.tsx:115 | Without list markers, the replace changes nothing. |
| AlertFormat.NoMarkerImpliesSame | frontend/components/CustomAlert.tsx:74 | Without list markers, the whole rewrite is the identity. |
| AlertFormat.FormatMessage | frontend/components/BeautifulAlert.tsx:107-119 | A message mentioning `VND`, `₫` or `Số tiền:` passes through unchanged. Without list markers, another message is only trimmed. |
| AlertFormat.FormatMessageKeepsText | frontend/components/CustomAlert.tsx:66-78 | Apart from line feeds, the rewrite keeps the message's text. |
| BeautifulAlert.FinalButtons | frontend/components/BeautifulAlert.tsx:56-58 | A single primary `OK` button when none is given, else the buttons unchanged. |
| BeautifulAlert.Shown | frontend/components/BeautifulAlert.tsx:60-66 | Visible, with at least one button and the formatted title and message. It can be closed unless `showCloseButton: false`. |
| BeautifulAlert.SuccessButtons | frontend/components/BeautifulAlert.tsx:122-126 | Exactly one button, styled success, running `onOk` when given. |
| BeautifulAlert.ErrorButtons | frontend/components/BeautifulAlert.tsx:128-133 | Exactly one button, styled danger, running `onOk` when given. |
| BeautifulAlert.ConfirmButtons | frontend/components/BeautifulAlert.tsx:135-147 | Cancel first (secondary) and confirm second (primary). Each runs its callback, then hides. |
| BeautifulAlert.AlertManager.constructor | frontend/components/BeautifulAlert.tsx:222-229 | No setter yet; the provider's initial hidden state. |
| BeautifulAlert.AlertManager.SetStateManager | frontend/components/BeautifulAlert.tsx:31-33 | Registers the setter. |
| BeautifulAlert.AlertManager.Show | frontend/components/BeautifulAlert.tsx:35-67 | Nothing without a setter. Otherwise the state becomes `Shown`; a visible alert always has a button. |
| BeautifulAlert.AlertManager.Hide | frontend/components/BeautifulAlert.tsx:69-78 | With a setter: invisible, empty title, message and buttons, and closable. |
| BeautifulAlert.AlertManager.ShowSuccess | frontend/components/BeautifulAlert.tsx:122-126 | Shows the success buttons. |
| BeautifulAlert.AlertManager.ShowError | frontend/components/BeautifulAlert.tsx:128-133 | Shows the error buttons. |
| BeautifulAlert.AlertManager.ShowConfirm | frontend/components/BeautifulAlert.tsx:135-147 | Shows the confirm buttons. |
| BeautifulAlert.AlertManager.PressButton | frontend/components/BeautifulAlert.tsx:235-242 | A button without `onPress` hides the alert. Otherwise its callback runs, and the confirm wrappers then hide. |
| BeautifulAlert.AlertManager.BackdropPress | frontend/components/BeautifulAlert.tsx:244-248 | Hides only when `showCloseButton` is set. |
| BeautifulAlert.SuccessThenOk | frontend/components/BeautifulAlert.tsx:235-242 | A success alert without a callback closes on its button, running nothing. |
| BeautifulAlert.ConfirmThenAccept | frontend/components/BeautifulAlert.tsx:135-147 | Confirming runs exactly the confirm callback and closes the alert. |
| BeautifulAlert.ShownClosable | frontend/components/BeautifulAlert.tsx:60-78 | A shown alert is closable unless `false` was passed; a hidden one always is. |
| CustomAlert.ToNative | frontend/components/CustomAlert.tsx:25-29 | The text ends with the button's text and starts with `icon + " "` iff there is a non-empty icon. The callback is kept; the style defaults to `default`. |
| CustomAlert.ToNativeButtons | frontend/components/CustomAlert.tsx:25-29 | The mapping keeps length and order. |
| CustomAlert.Show | frontend/components/CustomAlert.tsx:14-37 | The formatted title and message, one native button per button, and `options` passed through. |
| CustomAlert.SuccessAlert | frontend/components/CustomAlert.tsx:81-85 | `success` shows one `👍 Tuyệt vời!` button with the default style. |
| CustomAlert.ErrorAlert | frontend/components/CustomAlert.tsx:87-91 | `error` shows one `😞 Đã hiểu` button with the default style. |
| CustomAlert.ConfirmAlert | frontend/components/CustomAlert.tsx:93-105 | `confirm` shows `❌ cancel` styled `cancel` first and `✅ confirm` second. |

## Left out

- Persistence and transport: MongoDB queries, `populate`, indexes, the aggregation pipeline and Socket.IO events. Loaded documents are objects, queries are functions over in-memory lists, and events are not modelled.
- PaymentRoutes.SendPaymentRequest, PaymentRoutes.MarkParticipantPaid: a loaded document is required to satisfy the schema, since only validated documents are stored. The 500 answer that `save()` would give for a stored document failing the schema is not modelled.
- Concurrency: two mark-paid calls racing on one document (a lost update) are outside the model. Every transition runs alone.
- Sign-in: the `auth`/`adminAuth` middleware is not part of this model. The caller's id and admin flag are inputs, so `POST /` and `PUT /:id/send` do not model the admin-only guard.
- The text search of `GET /` (a case-insensitive regex over title and description) and the `GET /:id` lookup itself. Only the access and status filters and the page arithmetic are modelled.
- PaymentRoutes.PageCount, PaymentRoutes.Skip: `limit` is required to be at least 1, and `page` and `limit` are integers. The route would take any query text.
- PaymentRoutes.Validate: amounts are integers, and the `isNumeric` checks on numeric text are not modelled. `isLength({ max: 200 })` is modelled as a count of characters; the validator's own handling of surrogate pairs and variation selectors is not.
- PaymentRoutes.AdminDashboardStats: the statistics are stated as bounds, not as the aggregation itself.
- PaymentRequestModel.PaymentRequest: subdocument `_id`s are modelled as positions, and `dueDate` is an opaque tick.
- PaymentRequestModel.CompletionPercentageRange: `Math.round((paid / total) * 100)` is modelled as exact rounding half up. Binary floating point can differ at exact halves.
- SplitEven.Split: requires `roundTo >= 1` (the function misbehaves on 0 and negative values). Float division is modelled as exact floor division.
- NumberFormat.ParseAmount: requires a text of digits and commas, which is all the dashboard feeds it. `Number(...)` of other text, and precision beyond 2^53, are not modelled.
- UserDashboard.HandlePayment: the amount is returned as a number. The `Intl.NumberFormat` currency text and the popup itself (`PaymentPopup.tsx`) are not part of this model. A signed-out user (`user?.phone` undefined) is not modelled.
- ParticipantsSheet.Query: lower-casing covers ASCII letters only. Full Unicode case mapping is not modelled. String lengths count Unicode scalar values, not UTF-16 code units.
- AdminDashboard: `handleSplitConfirm` is left out. It uses an undefined `perPerson` (frontend/components/AdminDashboard.tsx:295), and the confirmation calls an undefined `setIsLoading` (frontend/components/AdminDashboard.tsx:352). SendAllRequests models the payload the confirmation would build, as if that call did not throw.
- BeautifulAlert: the `copySuccess`, `paymentOptions`, `paymentGuide` and `copyMenu` helpers (and CustomAlert's) only feed fixed texts to `show`. They are not modelled. `disabled` and `icon` of a button are not modelled.
- CustomAlert.Show: the native `Alert.alert` call is foreign. The model stops at its arguments.
- Rendering, styles, animation, network clients, storage and the other screens are outside the modelled core.
