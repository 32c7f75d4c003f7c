# stripe-bot webhook server, modelled in Dafny

The server receives Stripe webhook calls, turns each `charge.succeeded` event
into a one-line chat message ("Received … from … (using … via …)"), posts that
message to a Discord channel and counts the events it has posted. It also
serves a status page at `/`. This project models `src/server.ts`:

- `js.dfy`, module `Js`: the JavaScript semantics the server leans on. String
  fields that may be absent or `null` (`Text`), truthiness, `a || b`,
  what a template literal renders for `undefined` and `null`, uncaught
  exceptions (`Completion`), and `toUpperCase`.
- `summary.dfy`, module `StripeSummary`: `getApplicationName`,
  `getPaymentMethod` and `summarizeStripeEvent`. These are pure functions over a
  `Charge`/`Event` datatype. A property read on a missing object is a
  `TypeError`, as in the source.
- `webhook.dfy`, module `Webhook`: the request handler. `Dispatch` is the
  handler as a function of the request, the counter, the start time and the
  post's result. The class `WebhookServer` holds `eventsProcessed` and the
  constant `startTimestamp`. Its `Handle` method runs the handler's checks
  in the source's order: it posts first and increments only after the post
  succeeds. A ghost history of accepted messages shows what the counter counts.

Inputs the model takes as parameters: the request path and method (after URL
parsing), the result of `JSON.parse` on the body (`Parsed`), whether the Discord
post succeeds (`postSucceeds`), and `amountText`, the rendering of a minor-unit
amount that `${amount / 100}` produces.

`test/server.test.ts` expects a signature check, currency symbols, an emoji
and a refund summary. `src/server.ts` has none of these, so none is modelled.
Only the test's 404 and 405 cases match this code (`Webhook.HandlerTestCases`).
`StripeSummary.TestFixtureSummary` states what this code produces for the
test's charge fixture.

## Model

| member | source | states |
|---|---|---|
| `Js.ToUpperCase` | src/server.ts:35-39 | the currency code is upper-cased letter by letter: same length, each ASCII lower-case letter raised, all other characters kept |
| `Js.ToUpperCaseIdempotent` | src/server.ts:35-39 | upper-casing an already upper-cased code changes nothing |
| `StripeSummary.GetApplicationName` | src/server.ts:9-15 | the Luma id gives "Luma", the Open Collective id gives "Open Collective", and every other id (including absent or null) gives "Stripe" |
| `StripeSummary.GetApplicationNameAsWritten` | src/server.ts:9-15 | the lookup as written finds an inherited Object.prototype member exactly when the id is one of their names |
| `StripeSummary.InheritedKeyEscapesDefault` | src/server.ts:14 | for the unknown id "toString" the as-written lookup answers something other than "Stripe", while the corrected one answers "Stripe" |
| `StripeSummary.LookupAgreesOffPrototype` | src/server.ts:9-15 | for every id that is not an Object.prototype member name, the code and the corrected lookup agree |
| `StripeSummary.GetPaymentMethod` | src/server.ts:17-22 | the card brand exactly when the type is "card", otherwise the type unchanged; a TypeError exactly when the details are missing, or the type is "card" and there is no card object |
| `StripeSummary.DescriptionClause` | src/server.ts:29-30 | the " (…)" clause appears iff the description or the statement descriptor is non-empty, and shows the description if it is non-empty, otherwise the statement descriptor |
| `StripeSummary.Payer` | src/server.ts:40 | the payer is the non-empty billing name, otherwise "unknown" (also when billing details are missing) |
| `StripeSummary.FeeClause` | src/server.ts:32-36 | the application-fee clause appears iff the fee is present and nonzero, and then shows the fee followed by the currency code |
| `StripeSummary.SummarizeStripeEvent` | src/server.ts:24-48 | any event type other than charge.succeeded gives exactly "Received Stripe event: " followed by the type; a charge.succeeded summary throws a TypeError exactly when the charge, its currency, its payment details or its card object is missing; every summary starts with "Received " |
| `StripeSummary.SummaryIgnoresCurrencyCase` | src/server.ts:32-39 | the summary is the same whatever the case of the currency code in the event |
| `StripeSummary.ZeroFeeIsNoFee` | src/server.ts:32-36 | a fee of 0 gives the same summary as no fee at all |
| `StripeSummary.FalsyDescriptionsAgree` | src/server.ts:29-30 | an empty, null or absent description all give the same summary |
| `StripeSummary.FalsyBillingNameIsNoBillingDetails` | src/server.ts:40 | an empty, null or absent billing name gives the same summary as missing billing details |
| `StripeSummary.TestFixtureSummary` | src/server.ts:26-45 | on the test suite's charge fixture, the code writes "… USD (including … USD application fee) from John Doe (Test charge) … (using visa via Luma)", which is never the message the test expects ("Received $20.00 … (💳 visa) …"), whatever the amount rendering |
| `Webhook.Dispatch` | src/server.ts:50-95 | a message is posted iff the request is a POST to /webhook/stripe with a charge.succeeded event that can be summarised; the posted message is that summary; the counter grows by one iff the post succeeds and is unchanged otherwise; "ok" is answered iff the post succeeds |
| `Webhook.StatusPageOnlyForGetRoot` | src/server.ts:53-72 | only GET / gets the status page, with status 200, the start time and the current count |
| `Webhook.UnknownRouteIsNotFound` | src/server.ts:73-75 | any path other than / and /webhook/stripe gets 404 with any method, and so does / with any method other than GET; nothing is posted or counted |
| `Webhook.WebhookNeedsPost` | src/server.ts:77-79 | a non-POST request to /webhook/stripe gets 405; nothing is posted or counted |
| `Webhook.MalformedBodyIsBadRequest` | src/server.ts:80-87 | a body that is not JSON gets 400; nothing is posted or counted |
| `Webhook.OtherEventIsIgnored` | src/server.ts:88-90 | an event of another type gets 200 "Not a charge.succeeded event"; nothing is posted or counted |
| `Webhook.UncaughtExceptions` | src/server.ts:82-92 | a `null` body and an unreadable charge.succeeded event end in an uncaught TypeError, and a rejected post in an uncaught channel error; only the last one has posted, and none changes the counter |
| `Webhook.HandlerTestCases` | test/server.test.ts:46-58 | GET /invalid gets 404 and GET /webhook/stripe gets 405 |
| `Webhook.ReplayCountsSuccessfulPosts` | src/server.ts:91-94 | over any sequence of requests, the counter grows by exactly the number of posts the chat client accepted |
| `Webhook.WebhookServer.constructor` | src/server.ts:6-7 | the server starts with the counter at 0 and a start time that is a constant field and never changes afterwards |
| `Webhook.WebhookServer.Handle` | src/server.ts:50-95 | the response, the posted message and the new counter are those of `Dispatch`; the history of accepted messages grows by the summary only when the post succeeds, so the counter always equals the number of accepted messages |

## Left out

- Deno.serve, reading the body (`req.text()`), URL parsing and `JSON.parse` are runtime calls. The path, the method and the parse result are inputs.
- The HTML and ISO date on the status page are not modelled. The page is modelled as the start time and the counter it shows. The port and channel id come from the environment and are left out.
- StripeSummary.SummarizeStripeEvent, and through it Webhook.Dispatch and Webhook.WebhookServer.Handle, use the corrected `StripeSummary.GetApplicationName` (see Findings). For an `application` id that names an Object.prototype member ("toString", "constructor", "valueOf", …), the model writes "via Stripe". The code writes the inherited function's source text there, such as "via function toString() { [native code] }".
- StripeSummary.GetApplicationNameAsWritten assumes Deno's default runtime, which deletes `Object.prototype.__proto__`, so "__proto__" is not an inherited name. Under `--unstable-unsafe-proto`, or in a browser, `apps["__proto__"]` would also escape the "Stripe" default.
- Uncaught exceptions: a `null` JSON body, a missing object inside the charge, or a rejected post leaves the handler with an exception (`Rejected`). The status code Deno.serve then sends is the runtime's, not this file's.
- The Discord client (src/lib/discord.ts) is network I/O. It is modelled only by whether its post succeeds. src/lib/opencollective.ts is not called from src/server.ts and is not part of this model.
- Amount rendering: `ch.amount / 100` and JavaScript's number-to-string conversion are floating point. They are the parameter `amountText`.
- JSON values of the wrong type are not modelled. A number where a string is expected, or `NaN` as an amount, has no counterpart. A fee is an integer or missing, and 0 counts as missing.
- `toUpperCase` covers ASCII letters only. Unicode case mapping ("ß" to "SS", for one) is left out.
- The counter is an unbounded `nat`. It does not model JavaScript numbers, which stop growing at 2^53.
- Concurrency: the handler never yields between reading and writing the counter, so requests update it one at a time. The model treats them as a sequence.
- `console.log` and `console.error` are left out.

## Findings

| source | as written | input that shows it | evidently intended | confidence | as-written member | corrected member |
|---|---|---|---|---|---|---|
| src/server.ts:10-14 | `apps[application_id] \|\| "Stripe"` reads an object literal, so names inherited from Object.prototype are found and are truthy | a charge whose `application` is "toString" or "constructor": the message names a function instead of "Stripe" | every unknown id maps to "Stripe" | not executed; Stripe application ids start with "ca_", so real traffic does not reach it | `StripeSummary.GetApplicationNameAsWritten`, `StripeSummary.InheritedKeyEscapesDefault` | `StripeSummary.GetApplicationName` |
