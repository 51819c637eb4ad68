# Coffee status notifier — Dafny model

This project models the logic of a small cloud function. The function receives one coffee-canister sensor reading and posts a status update to a chat webhook. A reading holds a brew timestamp and a fill ratio. Three pieces carry the logic:

- **Breakpoint classifier** (`getFactor` in utils.js, module `Breakpoints`). It takes an ordered list of thresholds and returns the index of the first threshold the value matches. In the default mode a threshold matches when `value >= threshold`. In the "opposite" mode it matches when `value < threshold`. When nothing matches, the result is the list length. `Factor` is the recursive reference definition. `GetFactor` is the source's early-exit loop, proved equal to `Factor`. The loop keeps JavaScript's initially `undefined` result as an `Option`.
- **Status messenger** (`determineMessage` and `determineFreshness` in index.js, module `Status`). `determineMessage` maps the fill ratio to one of six fixed sentences by first-match threshold tests. `InBand` gives each sentence's band as an interval of its own, and the proofs relate the two definitions. `determineFreshness` is a stub in the source: it returns `'Decent'` for every input.
- **Dispatcher** (`notifySlack` and `makeRequest` in index.js, module `Dispatch`). It computes `fill = measure * 100`. The payload has a fixed three-block shape. `ReadFields` is the inverse of `MakePayload`. Nothing is posted unless `measure * 100 > 5`. The calls to the HTTP client and the console appear as a returned list of effects: one post attempt, then one log line. A post attempt records that the client was called; the client sends asynchronously, so it does not say that anything was delivered.

Modelling choices:
- Numbers are `real`. JavaScript doubles and their rounding are not modelled.
- The webhook URL is a parameter; the source reads it from the environment.
- Whether `request.post` throws is a parameter, because the HTTP client is not part of the model.
- The monotonicity lemmas for the classifier need no sortedness: the result moves the right way for any threshold list. Only the bucket-as-interval lemmas assume a strictly sorted list.

What the code does not do yet:
- There is no freshness table. `determineFreshness` returns `'Decent'`, and nothing in index.js calls `getFactor`.

## Model

| member | source | states |
|---|---|---|
| Breakpoints.Factor | utils.js:2-18 | the result lies between 0 and the list length, the threshold at the result matches in the chosen mode, and no earlier threshold does; `opposite` defaults to `false` |
| Breakpoints.GetFactor | utils.js:2-19 | the early-exit scan with the `undefined` fallback returns exactly the first-match index, and it returns the list length iff no threshold matches |
| Breakpoints.FirstMatchIsUnique | utils.js:4-16 | an index is a first match (it matches, nothing earlier matches, or it is the list length with no match) iff it equals the classifier's result |
| Breakpoints.OverflowIffNoMatch | utils.js:4-17 | the result is the list length iff no threshold matches; an empty list yields 0 in either mode |
| Breakpoints.DefaultModeAntitone | utils.js:10-16 | in default mode a larger value never gets a larger index, for any threshold list |
| Breakpoints.OppositeModeMonotone | utils.js:5-9 | in opposite mode a larger value never gets a smaller index, for any threshold list |
| Breakpoints.DescendingBucketIsInterval | utils.js:4-17 | with strictly descending thresholds, default-mode result `i` holds iff `breakpoints[i] <= value < breakpoints[i-1]`; the first bucket has no upper bound and the overflow bucket no lower bound |
| Breakpoints.AscendingBucketIsInterval | utils.js:4-17 | with strictly ascending thresholds, opposite-mode result `i` holds iff `breakpoints[i-1] <= value < breakpoints[i]`; the same open ends |
| Status.DetermineMessage | index.js:72-94 | always one of the six sentences; it is a band's sentence iff the ratio lies in that band (`>= 0.95`, `[0.75, 0.95)`, `(0.5, 0.75)`, `(0.3, 0.5]`, `[0.17, 0.3]`, `< 0.17`) |
| Status.MessagesDistinct | index.js:75-91 | two bands share a sentence only if they are the same band |
| Status.BandsPartition | index.js:74-92 | every ratio lies in some band and in at most one band, so the order of tests decides nothing |
| Status.BoundaryReadings | index.js:75-89 | 0.95, 0.75 and 0.17 go to the band above; 0.5 goes to "good amount" and 0.3 to "dangerously low" |
| Status.MessageMonotone | index.js:74-92 | a fuller reading never gets the sentence of a lower band |
| Status.DetermineFreshness | index.js:97-99 | the label is `'Decent'` for every timestamp and fill |
| Dispatch.MakePayload | index.js:31-62 | fixed fallback text, three blocks with the fixed heading first, and reading the payload back gives the message, freshness and fill it was built from |
| Dispatch.ReadFieldsInverse | index.js:31-62 | any payload the reader accepts is the one built from the values it reads, so only those three values vary |
| Dispatch.MakeRequest | index.js:25-69 | exactly one post attempt (a call to the HTTP client) to the given URL carrying the three values, then exactly one log line: the success line iff the call did not throw, the error line iff it did |
| Dispatch.NotifySlack | index.js:12-22 | a post is attempted iff `measure * 100 > 5`; the payload handed to the client carries the message for the ratio, the `'Decent'` label and the fill `measure * 100` |
| Dispatch.DeliveryFailureIsSwallowed | index.js:27-68 | a throwing call to the HTTP client changes only the log line: the same post is attempted and no error reaches the caller |

## Left out

- HTTP client and transport: the `request` library's behaviour, the JSON encoding and the response are not modelled. Only the call to the client appears, as the effect `PostAttempt`.
- Configuration: `dotenv` and the `SLACK_WEBHOOK_URL` environment variable. The URL is a parameter, and a missing URL is not detected, as in the source.
- Console output: the log calls appear only as the effects `LogPosted` and `LogPostFailed`. Their text and the logged error object are not modelled.
- The event `context` argument of `notifySlack`: it is unused.
- Number formatting of `fill` in the `*Fill level:* ${fill}%` line: the fill stays a `real` inside `FillLevelMrkdwn`.
- Floating point: `measure * 100 > 5` is evaluated over the reals. The model makes no claim that double rounding gives the same decisions.
- Asynchronous failures of the post: the source catches only synchronous throws. Later rejections are outside the model.
- A freshness table or time-based bucketing: the code has none, so none is modelled.
