# Currency-exchange chat bot: conversation flows, receipt reading and dispatch

This project models the core of a chat bot that sells and buys Zinli balance
for bolivars. It is written in Dafny and its properties are proved.

- **Exchange flow.** A per-user state machine in the session runs
  `action → select_amount → (custom_amount) → confirm → payment`. It chooses buy or
  sell, reads the amount with JavaScript's `parseInt`, shows the price
  breakdown (a commission of 1 dollar, a rate of 196 bolivars per dollar), and
  asks for a payment-proof photo.
- **Receipt reading.** The service reads the bank reference from a receipt's
  recognised text with the case-insensitive pattern
  `(?:(?:n[uú]mero\sde\s)?referencia|operaci[oó]n):?\s*(\d{6,20})`, then
  releases the recognition worker.
- **Payment-methods flow.** Picks PayPal, Zinli or Pago Móvil, takes a
  nickname and the account details, records the method once and clears the
  flow.
- **Registration flow.** Asks for name, e-mail and phone, records one user
  and drops the session.
- **Dispatcher.** Decides which handler a text or photo reaches. It also
  holds the guard in front of the exchange flow, and the administrator's
  broadcast with its count of deliveries and failures.

Each flow has two parts:
- A pure `Next(state, message)` that says what one message does to the
  session, and the replies it sends.
- A `Handle` method over a `Session` object that updates the fields in
  place. Its `ensures` ties the new fields to `Next` applied to the old
  ones.

The lemmas are proved about `Next` and its closures `Run`, `RunReplies`,
`RunSaved` and `RunUsers`, which handle a sequence of messages one after
another.

Files and modules:

- `js_string.dfy` (`JsString`): the JavaScript string operations the
  handlers use: `includes`, `replace` with a one-character pattern (first
  occurrence only), `slice`, `trim` with ECMAScript white space, and the
  decimal part of `parseInt` (leading white space, optional sign, leading
  digits, `NaN` as `None`).
- `context.dfy` (`BotContext`):
  - the update context: sender profile, message (a text, or a photo whose
    `text` is undefined), mutable session and the log of replies;
  - the database as the sequence of calls made on it.
- `exchange.dfy` (`Exchange`): the exchange flow, the pricing, and the
  reply to a payment proof (see Findings).
- `image_service.dfy` (`ImageService`): the pattern and the result object,
  and the worker as a resource.
  - `Search` follows the order in which an ECMAScript engine tries the
    pattern.
  - `Matches` is the pattern read plainly.
  - The two are proved to agree, `Search` is proved to find the leftmost
    match, and the `i` flag is proved to make the result independent of
    the case of the pattern's letters (A to Z, ú and ó).
- `payment_methods.dfy` (`PaymentMethods`): the payment-methods flow.
- `register.dfy` (`Register`): the registration flow.
- `app.dfy` (`App`):
  - the routing of texts and photos, in the order the handlers are
    registered;
  - the `'💹 Realizar Cambio'` guard;
  - the broadcast guard, and the broadcast loop with its invariants.

A JavaScript `TypeError` is modelled as an outcome that changes nothing. One
example is reading `.includes` of a photo's undefined text in a text-only
step. Nothing later in that handler runs.

Where the code differs from what its comments or design suggest, the model
follows the code. The behaviours shown below are all proved:

- **Payment step never finishes.** Under `exchangeFlow.handle`, no message
  in `payment` changes the session (`Exchange.PaymentIsAbsorbing`), no
  transaction is recorded and the flow never clears the session. Only the
  dispatcher's labels get the user out: "💹 Realizar Cambio" restarts the
  exchange at `action`, and "👤 Registrarme" followed by three answers
  makes `registerFlow.handle` set the session to null
  (`App.LabelsPrecedeFlows`, `Register.FullRegistration`). Whether that null
  reaches the session store is another matter (see `Register.Handle` under
  "Left out").
- **No positivity check in `select_amount`.** Any `$`-prefixed decimal
  integer is taken as the amount, zero and negative ones included
  (`Exchange.SelectAmountAcceptsAnyDollarAmount`). The model keeps the exact
  integer, where JavaScript keeps a rounded number (see `JsString.ParseInt`
  under "Left out").
- **`confirm` cancels on any other text.** Any text without "Sí" cancels the
  flow, but leaves `action` and `amount` in the session.
- **Payment-methods flow is unreachable.** The dispatcher never hands a text
  to it (`App.PaymentMethodsFlowIsNotRouted`). `handle` has no `menu` case,
  so even inside the flow nothing leaves the menu (`PaymentMethods.MenuIsStuck`).
- **"💳 Mis Métodos de Pago" has no handler.** Outside the registration and
  exchange flows it is silently ignored. Inside them it is taken as an
  answer: in `action` it chooses "Vender", and in `name` it is stored as the
  name (`App.PaymentMethodsLabelIsUnhandled`).
- **Pago Móvil gets stuck.** Choosing "Pago Móvil" stores the method type
  "PagoMóvil", with its accent. `askForDetails` compares it with
  "PagoMovil", so the record never gets past its nickname
  (`PaymentMethods.PagoMovilIsStuck`).
- **The typed name is dropped.** Registration stores the platform profile's
  first name, not the name the user typed (`Register.FullRegistration`).
- **Photo in `custom_amount`.** Given a photo in `custom_amount`,
  `exchangeFlow.handle` alone computes `parseInt(undefined)`, which is `NaN`,
  and sends the invalid-amount reply (`Exchange.CustomAmountStep`). Through
  the dispatcher this cannot happen: `on('photo')` calls the exchange handler
  only in `payment`, so such a photo gets the generic image reply instead
  (`App.OnPhoto`).

## Model

| member | source | states |
|---|---|---|
| JsString.IndexOf | flows/payment-methods.js:80 | the position found is the first occurrence of the character, and -1 exactly when it does not occur |
| JsString.ReplaceFirst | flows/exchange.js:34 | `replace` with a one-character pattern removes the first occurrence only, or returns the text unchanged when the character does not occur |
| JsString.Includes | flows/exchange.js:20 | `includes` as a scan over the start positions; `JsString.IncludesIff` proves it finds exactly the occurrences |
| JsString.IncludesIff | flows/exchange.js:20 | `includes` holds exactly when the substring occurs at some position |
| JsString.TrimStart | app.js:83 | the result is a suffix of the input, everything dropped is white space, and it does not start with white space |
| JsString.TrimEnd | app.js:83 | the result is a prefix of the input, everything dropped is white space, and it does not end with white space |
| JsString.Trim | app.js:83 | `trim()` as white space removed at the start and then at the end; its meaning is stated by `JsString.TrimEmptyIff` and `JsString.TrimEdges` |
| JsString.TrimEmptyIff | app.js:83-84 | `trim()` is empty exactly when the text is all white space |
| JsString.TrimEdges | app.js:83 | a non-empty trimmed text starts and ends with a character that is not white space |
| JsString.Slice | app.js:83 | `slice(n)` keeps the characters from position n on, and is empty when n is past the end |
| JsString.LeadingDigits | flows/exchange.js:34 | the digits `parseInt` reads are the longest prefix of ASCII digits |
| JsString.ParseInt | flows/exchange.js:34 | `parseInt` in base 10: leading white space, an optional sign, the longest run of digits, `NaN` when there is none; `ParseIntDecimal`, `ParseIntOfDecimal` and `ParseIntWithoutDigits` state its results |
| JsString.ParseIntDecimal | flows/exchange.js:34 | `parseInt` of leading white space, an integer written in decimal and a non-digit tail gives that integer |
| JsString.ParseIntOfDecimal | flows/exchange.js:47 | `parseInt` of any integer written in decimal gives it back |
| JsString.ParseSignedNegative | flows/exchange.js:34 | a minus sign before digits gives the negated value |
| JsString.ParseIntWithoutDigits | flows/exchange.js:35 | a text without any digit parses to `NaN` |
| JsString.NatToDecimalDigits | flows/exchange.js:34 | the decimal writing of a natural number is all digits and denotes that number |
| BotContext.TextOf | flows/payment-methods.js:73 | `ctx.message.text` is defined exactly for a text message |
| BotContext.Session.Default | app.js:17-19 | a new session has all fields null, flow and step included |
| BotContext.Database.AddUser | flows/register.js:36 | appends the user and leaves the recorded payment methods alone |
| BotContext.Database.AddPaymentMethod | flows/payment-methods.js:99 | appends one (user id, record) pair and leaves the users alone |
| Exchange.PriceQuote | flows/exchange.js:6-7 | the breakdown has the amount, a 1-dollar commission, the total in dollars as amount + 1, the rate 196, and the total in bolivars as that total times 196 |
| Exchange.QuoteForTen | flows/exchange.js:93-95 | 10 dollars cost 11 dollars, or 2156 bolivars |
| Exchange.QuoteIsAffine | flows/exchange.js:93-95 | each extra dollar costs 196 more bolivars, so a larger amount always costs more |
| Exchange.StartState | flows/exchange.js:10-12 | `start` sets flow `exchange` and step `action` and leaves every other field as it was |
| Exchange.Start | flows/exchange.js:10-16 | the session object becomes `StartState` of its old value, and one welcome reply is sent |
| Exchange.ShowConfirmation | flows/exchange.js:92-111 | sends one breakdown: `PriceQuote` of the session's amount, with its action |
| Exchange.Next | flows/exchange.js:17-88 | one message in the switch on `step`: it throws exactly for a photo in `action`, `select_amount` or `confirm`; otherwise at most one reply is sent and only `flow`, `step`, `action` and `amount` may change |
| Exchange.Handle | flows/exchange.js:17-88 | the session object ends as `Next` of its old value says; on a thrown TypeError nothing changes and nothing is sent |
| Exchange.ActionStep | flows/exchange.js:19-21 | the action is "Comprar" exactly when the text contains "Comprar", "Vender" otherwise; the step always becomes `select_amount` |
| Exchange.SelectAmountStep | flows/exchange.js:29-43 | "Otro monto" leads to `custom_amount`; otherwise the step becomes `confirm` exactly when the text, minus its first '$', parses; the amount is then that number, and on `NaN` nothing changes |
| Exchange.SelectAmountAcceptsAnyDollarAmount | flows/exchange.js:34-42 | "$" before any integer, zero or negative, is accepted as the amount, with the breakdown sent and the step `confirm` |
| Exchange.SelectAmountAcceptsZero | flows/exchange.js:34-42 | "$0" is accepted as an amount of 0 |
| Exchange.TenDollarsChosen | flows/exchange.js:34-42 | the keyboard's "$10" records 10 and shows its breakdown |
| Exchange.CustomAmountStep | flows/exchange.js:46-55 | the step becomes `confirm` exactly when the text parses to a positive integer, which becomes the amount; otherwise nothing changes and the invalid-amount reply is sent |
| Exchange.ConfirmStep | flows/exchange.js:57-66 | a text containing "Sí" moves to `payment`; any other text nulls flow and step and keeps action and amount |
| Exchange.YesConfirms | flows/exchange.js:57-60 | the keyboard's "👍 Sí, confirmar" moves to `payment` and asks for the payment |
| Exchange.BuyChosen | flows/exchange.js:19-22 | the keyboard's "📈 Comprar Zinli" chooses "Comprar" and asks for the amount |
| Exchange.UnknownStepIsInert | flows/exchange.js:18-87 | a step the switch does not list changes nothing and sends nothing |
| Exchange.PaymentIsAbsorbing | flows/exchange.js:69-86 | once in `payment`, no sequence of messages changes the session |
| Exchange.RunKeepsConsistent | flows/exchange.js:17-88 | past `action` the action is "Comprar" or "Vender", and in `confirm` and `payment` an amount is set; every sequence of messages keeps this |
| Exchange.StartIsConsistent | flows/exchange.js:10-12 | the session `start` leaves satisfies that invariant |
| Exchange.BuyingScenario | flows/exchange.js:17-67 | a buy text, a dollar amount and a "Sí" text after `start` reach `payment` with action "Comprar" and that amount, sending the amount question, the breakdown and the payment request, in that order |
| Exchange.CallbackReply | flows/exchange.js:79-84 | the success reply is sent exactly when the value read has `success` true, and its text then ends in "true" |
| Exchange.ProofReplyAsWritten | flows/exchange.js:77-84 | as written, the reply is the rejection whatever the recognition found |
| Exchange.ValidReceiptIsRejected | flows/exchange.js:77-79 | as written (without `await`), a receipt whose reference is found is still answered as unconfirmed |
| Exchange.AwaitedReplyShowsTrue | flows/exchange.js:80 | even once awaited, the success reply shows "true" and not the reference found |
| Exchange.ProofReply | flows/exchange.js:76-85 | corrected reply: verified exactly when a reference was found, carrying that reference |
| Exchange.ProofReplyReportsReference | flows/exchange.js:76-85 | with the correction, a verification reports 6 to 20 digits, and only for text holding six digits in a row |
| Exchange.LabelledReceiptIsVerified | flows/exchange.js:76-85 | with the correction, a receipt line "Numero de Referencia: " and 6 to 20 digits is answered with those digits |
| ImageService.DigitRun | services/image-service.js:22 | counts the digits in a row from a position, stopping at the end or at a non-digit |
| ImageService.DigitsAt | services/image-service.js:22 | `(\d{6,20})` captures the digit run, cut at 20, and fails exactly when the run is shorter than 6 |
| ImageService.MatchAt | services/image-service.js:22 | the engine's attempt at one position: the label alternatives in order, then the colon and white space choices; any capture it reports is the digit run that starts there |
| ImageService.SearchFrom | services/image-service.js:24 | `match` from a position on: the first position, left to right, where an attempt succeeds; any capture is the digit run that starts there |
| ImageService.Search | services/image-service.js:24 | every capture found is a valid one: 6 to 20 digits, the whole run up to 20 |
| ImageService.MatchAtIsMatches | services/image-service.js:22 | the engine's attempt at a position captures `c` exactly when the pattern, read plainly, matches there capturing `c` |
| ImageService.MatchesUnique | services/image-service.js:22 | at one position the pattern captures at most one group |
| ImageService.SearchIsLeftmost | services/image-service.js:24 | the match found is at the leftmost position where the pattern matches, and none is found only when it matches nowhere |
| ImageService.SearchFindsFirstMatch | services/image-service.js:24 | a match with none before it is exactly what the search reports |
| ImageService.ExtractReference | services/image-service.js:22-33 | success gives a reference of 6 to 20 ASCII digits and no error; failure gives no reference and the not-found message |
| ImageService.ExtractReferenceIsFirstMatch | services/image-service.js:24-33 | the reference is the capture of the leftmost match, and failure means the pattern matches nowhere |
| ImageService.ExtractReferenceIgnoresCase | services/image-service.js:22 | texts that differ only in the case of the pattern's letters (A to Z, ú and ó) give the same result, reference included |
| ImageService.LongRunKeepsTwenty | services/image-service.js:22-27 | the reference is the digit run at its start, cut at 20 digits |
| ImageService.ReferenceNeedsSixDigits | services/image-service.js:22-29 | a reference is only found in text holding six digits in a row |
| ImageService.LabelledReference | services/image-service.js:22-29 | "Numero de Referencia: " and then 6 to 20 digits gives success with exactly those digits |
| ImageService.OperacionWithThreeDigits | services/image-service.js:30-32 | "Operación 123" gives no reference |
| ImageService.AtomsAtConcat | services/image-service.js:22 | the optional prefix then "referencia" matches exactly when each part matches in turn |
| ImageService.Worker.Terminate | services/image-service.js:39 | each call terminates the worker once more |
| ImageService.ProcessPaymentImage | services/image-service.js:11-41 | a recognised text gives `ExtractReference` of it, a recognition failure gives the technical-error result, and in both cases the new worker is terminated exactly once |
| PaymentMethods.NewPaymentData | flows/payment-methods.js:80 | a fresh record with only the method type set, to the selection minus its first space |
| PaymentMethods.StartState | flows/payment-methods.js:7-9 | `start` sets flow `payment_methods` and step `menu` and changes nothing else |
| PaymentMethods.Next | flows/payment-methods.js:15-45 | one message in the switch on `step`: it throws exactly at a step that writes into a missing `paymentData`; otherwise only `flow`, `step` and `paymentData` may change, and a save always clears all three |
| PaymentMethods.DetailsStep | flows/payment-methods.js:86-95 | stores the record with its nickname and sends nothing more; PayPal and Zinli move to `add_details_paypal_zinli` and ask for the account e-mail, PagoMovil moves to `add_details_pm_identity` and asks for the identity card, and any other type keeps the step and sends nothing |
| PaymentMethods.Start | flows/payment-methods.js:7-12 | the session object becomes `StartState` of its old value, and the menu is sent |
| PaymentMethods.Save | flows/payment-methods.js:98-113 | records the record once, sends the confirmation and the main menu, and nulls flow, step and record, changing nothing else |
| PaymentMethods.HandleMethodTypeSelection | flows/payment-methods.js:72-83 | a selection off the keyboard only sends the error reply; a valid one stores a new record and moves to `add_nickname` |
| PaymentMethods.AskForDetails | flows/payment-methods.js:86-95 | the session ends as `DetailsStep` says |
| PaymentMethods.SavePaymentMethod | flows/payment-methods.js:98-114 | the database gains exactly the record in progress and the session ends as `Save` says |
| PaymentMethods.Handle | flows/payment-methods.js:15-45 | session, replies and database end as `Next` of the old session says; users are untouched |
| PaymentMethods.MenuIsStuck | flows/payment-methods.js:18-44 | from `menu` no sequence of messages changes the session or saves anything |
| PaymentMethods.MethodTypeStep | flows/payment-methods.js:73-81 | outside {PayPal, Zinli, Pago Móvil} nothing changes; a valid selection starts a fresh record and moves to `add_nickname` |
| PaymentMethods.RemoveFirstSpace | flows/payment-methods.js:80 | `replace(' ', '')` removes the first space and no other |
| PaymentMethods.PagoMovilTypeIsAccented | flows/payment-methods.js:80-91 | choosing "Pago Móvil" stores "PagoMóvil", which differs from the "PagoMovil" tested later |
| PaymentMethods.PagoMovilSelection | flows/payment-methods.js:80-94 | after "Pago Móvil" and a nickname, nothing is asked and the step stays `add_nickname` |
| PaymentMethods.PagoMovilIsStuck | flows/payment-methods.js:22-94 | a Pago Móvil record never leaves `add_nickname`, and nothing is ever saved |
| PaymentMethods.NicknameStep | flows/payment-methods.js:22-24 | the nickname is stored and `askForDetails` decides where it leads |
| PaymentMethods.UnknownTypeWaits | flows/payment-methods.js:86-94 | a type `askForDetails` does not know keeps the step and asks nothing |
| PaymentMethods.SaveStep | flows/payment-methods.js:26-106 | a message saves a record exactly at the two final steps with a record in progress, saving it with the message's field filled in and clearing the flow |
| PaymentMethods.PayPalChain | flows/payment-methods.js:19-29 | "PayPal", a nickname and an e-mail save exactly one record with those values and clear the flow |
| PaymentMethods.PagoMovilDetailsChain | flows/payment-methods.js:30-43 | identity card, phone and bank are stored in turn, then exactly one record is saved and the flow cleared |
| PaymentMethods.UnknownStepIsInert | flows/payment-methods.js:18-44 | a step the switch does not list changes nothing, sends nothing, saves nothing |
| Register.OrNA | flows/register.js:28-30 | a missing or empty name part becomes "N/A", any other is kept |
| Register.NewUser | flows/register.js:26-33 | the record has the sender's id and first name, the session's e-mail and the phone given, and "N/A" for missing parts |
| Register.StartState | flows/register.js:6-8 | `start` sets flow `register` and step `name` and changes nothing else |
| Register.Next | flows/register.js:11-44 | one message in the switch on `step`: the session is dropped and a user recorded exactly at `phone`; otherwise only `name`, `email` and `step` may change |
| Register.Start | flows/register.js:6-10 | the session object becomes `StartState` of its old value, and the name is asked for |
| Register.Handle | flows/register.js:11-44 | replies, session and users end as `Next` says; at `phone` the session becomes null and one user is recorded |
| Register.NameAndEmailSteps | flows/register.js:13-21 | `name` stores the name and asks for the e-mail; `email` stores the e-mail and asks for the phone; nothing is recorded |
| Register.PhoneStep | flows/register.js:23-41 | `phone` records exactly one user from the profile and the session, and drops the session |
| Register.UnknownStepIsInert | flows/register.js:12-43 | a step the switch does not list changes nothing and records nothing |
| Register.FullRegistration | flows/register.js:6-44 | three answers after `start` record exactly one user, with the typed e-mail and phone and the profile's first name, and `registerFlow.handle` itself leaves no session (what the session store keeps across messages is under "Left out") |
| App.RouteText | app.js:72-107 | the handler a text reaches, trying the handlers in the order they are registered; the "not sure" reply is never sent for a keyboard label nor inside the two routed flows |
| App.OnTextRoute | app.js:98-106 | `on('text')` sends to the registration or exchange handler, or the "not sure" reply, or nothing |
| App.PaymentMethodsFlowIsNotRouted | app.js:98-106 | a user in the payment-methods flow never reaches a flow handler, and free text gets "not sure" |
| App.NoCommandWithoutSlash | app.js:72-79 | a text not starting with "/" is no command |
| App.NonCommandRouting | app.js:73-107 | a text without "/" reaches the history, help, register or exchange-label handler when it is that label, and `on('text')` otherwise |
| App.PaymentMethodsLabelIsUnhandled | app.js:98-106 | "💳 Mis Métodos de Pago" reaches only `on('text')`, and outside the two routed flows it gets no reply |
| App.LabelsPrecedeFlows | app.js:90-101 | the two flow labels reach their own handlers even in the middle of a flow |
| App.FreshSessionText | app.js:17-106 | in a fresh session, a text no earlier handler takes gets "not sure" unless it is a menu label |
| App.RoutePhoto | app.js:110 | the test `on('photo')` makes: flow `exchange` and step `payment`; what it means for the session is stated by `App.PhotoKeepsSession` and `App.OnPhoto` |
| App.PhotoKeepsSession | app.js:109-115 | in the one case a photo is handed to the exchange handler, that handler leaves the session as it was and only acknowledges the photo, so no photo ever changes a session |
| App.FlowUsersAreAnswered | app.js:72-107 | a user in flow `register` or `exchange` is never told "not sure" nor ignored, and every text that is neither a command nor one of the four earlier labels is taken as an answer to that flow |
| App.AdminId | app.js:13 | `parseInt` of the environment value, or of "0" when it is unset or empty; `App.AdminIdDefaultsToZero` states the default |
| App.AdminIdDefaultsToZero | app.js:13 | an unset or empty administrator id reads as 0 |
| App.BroadcastText | app.js:83 | the text after "/broadcast", trimmed; `App.BlankBroadcastText` and `App.BroadcastMessageIsTrimmed` state what it is |
| App.DecideBroadcast | app.js:80-87 | refusal unless the sender is the administrator, then the usage reply for a blank message, else the message to send; `App.BroadcastGuard` states when something is sent |
| App.BroadcastGuard | app.js:79-87 | something is sent exactly when the sender is the administrator and the text after "/broadcast" is not all white space; with a `NaN` administrator nobody may send |
| App.BlankBroadcastText | app.js:83-84 | the text after the command trims to nothing exactly when it is all white space |
| App.BroadcastMessageIsTrimmed | app.js:83 | what is sent is non-empty, with no white space at either end |
| App.TallyAddsUp | app.js:120-132 | successes plus errors equal the number of user ids |
| App.Deliveries | app.js:122-124 | one delivery per user id, in order, all with the same message |
| App.Outbox.SendMessage | app.js:124 | one attempt more is recorded, and its answer is returned |
| App.BroadcastMessage | app.js:117-133 | every user id is attempted once, in order; the final reply reports the number of successes and errors |
| App.Broadcast | app.js:79-88 | a non-administrator gets the refusal and a blank message the usage reply, with nothing sent in either case; otherwise the trimmed message goes to every user |
| App.RealizarCambioHandler | app.js:91-96 | a registered user starts the exchange flow; anyone else gets the register-first reply and an unchanged session |
| App.OnText | app.js:98-107 | by the old flow: the registration or exchange handler's effect, or the "not sure" reply, or nothing, with the session unchanged |
| App.OnPhoto | app.js:109-115 | in every session the session is left unchanged and exactly one reply is sent: the exchange handler's acknowledgement in the payment step, the generic image reply anywhere else |

## Left out

- Chat-platform I/O: reply texts, keyboards, Markdown and HTML rendering.
  Replies are a log of reply kinds; the breakdown's `toFixed(2)` formatting
  is not modelled.
- The `/start` command and the history handler (app.js:21-73). They only
  read the database (`findUserById`, `getTransactionHistory`) and format
  text; "is registered" is a parameter of `App.RealizarCambioHandler`.
- `showMenu`'s listing of saved methods (flows/payment-methods.js:51-69):
  a database read and text formatting; modelled as one menu reply.
- db.js, bot/keyboards.js and bot/commands.js are not part of this model.
  The database is the sequence of `addUser` and `addPaymentMethod` calls,
  and database failures and awaiting them are not modelled.
- The import at flows/exchange.js:4 names a file that does not exist, and
  app.js:8-9 (`findUserById`, `getTransactionHistory`) and
  flows/payment-methods.js:3 (`addPaymentMethod`,
  `getPaymentMethodsForUser`) import names db.js does not export. The model
  takes the
  collaborators as they are meant to be.
- Exchange.Handle: the payment step's file link, recognition and callback
  reply happen later in a promise chain that assigns no session field; the
  method models only the immediate reply. The callback's reply is modelled
  apart, by `Exchange.CallbackReply`.
- ImageService.ProcessPaymentImage: the OCR engine is left out, and the
  recognised text (or a recognition failure) is an input. A failure of
  `createWorker` itself, before the `try`, is not modelled. Neither is
  console logging.
- App.BroadcastMessage: the 100 ms pause between sends and the asynchronous
  interleaving with other updates are not modelled; each send's outcome is
  an input.
- App.RouteText: a command followed by `@` and a name (`/broadcast@name`) is
  recognised whatever the name, whereas the chat library accepts only the
  bot's own user name there; the bot's user name is not modelled.
- JsString.ParseInt: only base 10 is modelled. JavaScript's `parseInt` reads
  a `0x` or `0X` prefix (after the optional sign) as hexadecimal, and
  `select_amount` and `custom_amount` pass it free user text. So for
  "0x1A" in `custom_amount` the program records 26 and moves to `confirm`,
  where the model reads 0 and sends the invalid-amount reply. For "$0x1A" in
  `select_amount` the program records 26 and the model records 0.
- JsString.ParseInt: the result is an exact integer, where JavaScript's is a
  double. Beyond 2^53 the program rounds the amount, and from about 309
  digits on it gets `Infinity`. `Infinity` is not `NaN`, so both amount steps
  still accept it. `JsString.ParseIntDecimal`, `JsString.ParseIntOfDecimal`,
  `Exchange.SelectAmountAcceptsAnyDollarAmount`, `Exchange.CustomAmountStep`
  and `Exchange.PriceQuote` rest on the exact value. They describe the
  program only for amounts whose magnitude is at most 2^53.
- Strings are sequences of code points, not UTF-16 units. The keyboard
  labels (app.js:73, 90-91, 103) do contain characters outside the basic
  plane (👤, 💹, 💳, 📜). But the code only compares whole strings for
  equality and tests `includes` with "Comprar" and "Sí", and both answers
  are the same under either encoding. `slice` cuts after the ASCII
  "/broadcast", and no atom of the reference pattern matches a surrogate.
- Process start-up, signal handling and the session store's persistence
  are not modelled.
- Register.Handle: the model's `Run`, `Register.FullRegistration` and
  `App.OnText` let the next message see the session as the handler last
  set it. In the program, app.js:100 calls `registerFlow.handle(ctx)`
  without `await`, and flows/register.js:36-39 sets `ctx.session = null`
  only after `await addUser(userData)`. The session middleware
  (app.js:16-18) stores the session when the handler chain returns, which
  is before that database round trip ends. So the stored session probably
  keeps flow `register` at step `phone`. The user's next free text would
  then run the `phone` step again: a second `addUser` with that text as
  the phone, and a second "registration complete" reply. This reading
  was not executed, and the model does not capture it because it has no
  interleaving of asynchronous steps.

## Findings

| source | as written | input that shows it | evidently intended | confidence | as-written member | corrected member |
|---|---|---|---|---|---|---|
| flows/exchange.js:77 | `processPaymentImage` is called without `await`, so `result` is a pending promise whose `success` is undefined, and every proof is answered as unreadable | a photo of a receipt whose text is "Numero de Referencia: 048213559102" | await the result, and confirm when a reference was found | not executed | Exchange.ValidReceiptIsRejected | Exchange.LabelledReceiptIsVerified |
| flows/exchange.js:80 | the success message appends `result.success`, a boolean, so it reads "true" | the same receipt, with the result awaited | append `result.referenceId`, the reference found | not executed | Exchange.AwaitedReplyShowsTrue | Exchange.ProofReplyReportsReference |
