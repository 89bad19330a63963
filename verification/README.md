# Wallet UI rules, modelled in Dafny

A model of the rule-bearing parts of a mock crypto-wallet front end. The
wallet's data is mock data and its delays are artificial; four React
components contain small rules, and these are modelled here:

- **SubmissionFlow** (`SendReceiveModal`). The form state (`amount`,
  `selectedToken`, `address`, `isLoading`) is a datatype. The submit handler's
  validation gate is a typed verdict (`MissingAmount`, `MissingAddress`). The
  handler's `await` of the fixed 2000 ms settlement delay is split into two
  transitions: `Submit` enters the pending state and `DelayElapsed` completes
  it. The callbacks `onSubmit` and `onClose` are recorded in an emitted trace.
  The submit button's `disabled` predicate is modelled, and so is the
  `tokens.find` lookup for the "Available" line. The handler never tests
  `isLoading`, so the model keeps a FIFO of in-flight requests. A raw second
  submission really does queue a second completion. Only runs that go through
  the button are proved to have at most one request in flight.
- **TokenCard**. The price precision tier (4 decimals, 2 decimals, or locale
  grouping) and the balance precision (6 or 4 decimals) are modelled. So are
  the signed 24h change and the icon and colour tables with their fallbacks.
- **TokenChart**. The synthetic 24-point series is modelled over reals, with
  the random draws and the clock given as parameters. It is regenerated only
  when `token.price` changes. The model also covers the displayed high/low and
  the sign rule shared by the label, its colour and the line stroke.
- **TransactionList**. The model covers the empty-list message and one row
  per transaction, in order and keyed by id. It also covers the send/receive
  sign, colour and arrow, and the status badge with its fall-through to red.

Files: `common.dfy` (shared `Option`, `Tone`, `Digits`),
`submission_flow.dfy`, `token_card.dfy`, `token_chart.dfy`,
`transaction_list.dfy`.

Notes on the code:

- The settlement delay is a fixed 2000 ms (src/components/SendReceiveModal.tsx:28).
- The gate checks only that `amount` is non-empty (JavaScript truthiness of a
  string), so `"0"` is accepted.
- The address is always passed to `onSubmit`, including in receive mode.

A point about the closure: the handler sends `onSubmit` the values of the
render in which the form was submitted. The model therefore stores a captured
`Request`, and edits made during the delay do not reach `onSubmit`.

## Model

| member | source | states |
|---|---|---|
| SubmissionFlow.Validate | src/components/SendReceiveModal.tsx:23 | the gate accepts exactly when the amount text is non-empty and, in send mode, the address is non-empty |
| SubmissionFlow.Step | src/components/SendReceiveModal.tsx:21-100 | editing the amount or the address, or selecting a token, changes exactly that field and emits nothing. Closing emits exactly `onClose` and changes nothing. A timer with nothing in flight does nothing. A rejected submit changes nothing and emits nothing. An accepted submit sets `isLoading`, emits nothing and enqueues the captured amount, token and address. When the delay elapses, the oldest request yields `onSubmit(parse(amount), token, address)` and then `onClose`; loading is cleared, amount and address are emptied, and the selected token is kept. Outside completion, the only callback emitted is `onClose` |
| SubmissionFlow.InitialStateDisablesSubmit | src/components/SendReceiveModal.tsx:14-17 | the initial state is amount "", token "SOL", address "", not loading, nothing in flight, and the submit button starts disabled in both modes |
| SubmissionFlow.EmptyAmountIsNoOp | src/components/SendReceiveModal.tsx:23 | a submit with an empty amount is a no-op in either mode |
| SubmissionFlow.SendWithoutAddressIsNoOp | src/components/SendReceiveModal.tsx:23 | in send mode, a submit with an empty address is a no-op whatever the amount |
| SubmissionFlow.ReceiveAcceptsAnyNonEmptyAmount | src/components/SendReceiveModal.tsx:23-25 | in receive mode, any non-empty amount passes the gate whatever the address, and the submit enters the loading state |
| SubmissionFlow.SubmitDisabled | src/components/SendReceiveModal.tsx:110 | the button's `disabled` attribute is true exactly when the modal is loading or the handler's gate would reject the form |
| SubmissionFlow.ButtonMirrorsGate | src/components/SendReceiveModal.tsx:110 | the button is enabled if and only if nothing is loading and the handler's gate would accept |
| SubmissionFlow.FindToken | src/components/SendReceiveModal.tsx:37 | the lookup finds nothing exactly when no entry has the symbol; otherwise it returns the first entry with that symbol |
| SubmissionFlow.View | src/components/SendReceiveModal.tsx:19-117 | the render is `null` exactly when the modal is closed. Otherwise the header is red for send and green for receive, and the address field appears exactly in send mode. The button is disabled exactly when loading or when the gate rejects, and "Processing..." shows exactly while loading. The "Available" line appears only in send mode |
| SubmissionFlow.ViewRules | src/components/SendReceiveModal.tsx:87-91 | nothing is rendered exactly when the modal is closed. The "Available" line appears exactly in send mode when some token has the selected symbol. When it appears, it shows the balance of the first token with that symbol. The rendered button is disabled exactly when loading or when the gate rejects |
| SubmissionFlow.ButtonStep | src/components/SendReceiveModal.tsx:108-110 | an event as the browser delivers it: a submit while the button is disabled does nothing, and every other event is the handler's own step. It keeps at most one request in flight, with `isLoading` set exactly while one is |
| SubmissionFlow.ButtonRun | src/components/SendReceiveModal.tsx:108-110 | a sequence of browser-delivered events never gets a second request in flight when it starts with at most one |
| SubmissionFlow.ButtonGuardsResubmission | src/components/SendReceiveModal.tsx:108-110 | through the button, a submit while one request is pending is a no-op, and a submit through an enabled button is always accepted |
| SubmissionFlow.ReachableHasSingleFlight | src/components/SendReceiveModal.tsx:25-31 | every state reached from the initial one through the button has at most one request in flight, and `isLoading` tells whether there is one |
| SubmissionFlow.RunPairsSubmitWithClose | src/components/SendReceiveModal.tsx:30-34 | in any run, including one that bypasses the button, every `onSubmit` is immediately followed by `onClose` |
| SubmissionFlow.StepConservesRequests | src/components/SendReceiveModal.tsx:25-33 | one step either enqueues the captured request or turns the oldest one into exactly one `onSubmit`; no request is lost or duplicated |
| SubmissionFlow.RunConservesRequests | src/components/SendReceiveModal.tsx:21-34 | over any run, the requests in flight plus those accepted equal the `onSubmit` calls made plus those still in flight, in order |
| SubmissionFlow.SettledRunSubmitsEachAcceptedOnce | src/components/SendReceiveModal.tsx:30 | from the initial state, once nothing is in flight, the `onSubmit` calls are exactly one per accepted submission, in acceptance order, carrying the captured values |
| SubmissionFlow.SendExample | src/components/SendReceiveModal.tsx:21-34 | sending "1.5" SOL to ABC123 emits `onSubmit(1.5, "SOL", "ABC123")` and then `onClose`, and leaves the form empty with SOL still selected |
| TokenCard.FormatPrice | src/components/TokenCard.tsx:11-15 | every price is prefixed with `$`. It has 4 decimals if and only if price < 1, 2 decimals if and only if 1 ≤ price < 100, and the locale-grouped form if and only if price ≥ 100 |
| TokenCard.PriceTiersPartition | src/components/TokenCard.tsx:12-14 | every price is in one of the three tiers, and among fixed tiers a cheaper price never gets fewer decimals than a dearer one |
| TokenCard.FormatBalance | src/components/TokenCard.tsx:17-19 | 6 decimals if and only if balance < 1, otherwise 4 |
| TokenCard.FormatChange | src/components/TokenCard.tsx:85-86 | `+` prefix and green if and only if the change is ≥ 0 (zero included); otherwise no prefix and red. The value has two decimals and a `%` suffix |
| TokenCard.ChangeSignMatchesTone | src/components/TokenCard.tsx:85-86 | the `+` prefix appears exactly when the line is green, and zero gets the `+` |
| TokenCard.TokenIcon | src/components/TokenCard.tsx:21-30 | an icon exists exactly for SOL, ETH, BTC, MATIC and USDC, and it is that symbol's table entry |
| TokenCard.TokenColor | src/components/TokenCard.tsx:32-41 | the five listed symbols get their mapped gradient, and every other symbol gets `from-gray-400 to-gray-600` |
| TokenCard.FirstChar | src/components/TokenCard.tsx:71 | `charAt(0)` is the one-character prefix of the symbol, or empty for an empty symbol |
| TokenCard.CardGlyph | src/components/TokenCard.tsx:53-72 | an image is shown exactly for the five known symbols; any other symbol shows its first character |
| TokenCard.Card | src/components/TokenCard.tsx:50-88 | the card uses the balance and price rules. It shows the symbol's icon exactly for known symbols and otherwise the symbol's first character. The change has two decimals and `%`, and carries `+` and green exactly when it is non-negative |
| TokenCard.PropertyGet | src/components/TokenCard.tsx:29 | an object-literal lookup returns the own entry when there is one. It is `undefined` exactly when the key is neither an own key nor an inherited `Object.prototype` name |
| TokenCard.TokenIconAsWritten | src/components/TokenCard.tsx:21-30 | as written, the icon lookup is truthy exactly for the five symbols and for the inherited `Object.prototype` names |
| TokenCard.TokenColorAsWritten | src/components/TokenCard.tsx:32-41 | as written, the grey fallback is used exactly for symbols that are neither listed nor inherited `Object.prototype` names |
| TokenCard.PrototypeSymbolDefeatsFallback | src/components/TokenCard.tsx:29 | as written, "toString" renders an image instead of its first letter, and "constructor" gets an inherited member instead of grey; the corrected lookups do neither |
| TokenCard.AsWrittenAgreesOffPrototype | src/components/TokenCard.tsx:40 | for every symbol that is not an inherited name, the as-written lookups agree with the corrected ones |
| TokenChart.Perturbation | src/components/TokenChart.tsx:23 | a draw in [0, 1) gives a relative change in [−0.05, 0.05) |
| TokenChart.GenerateFrom | src/components/TokenChart.tsx:21-30 | running the loop from any point to the end yields 24 points: it keeps those already pushed, and point k is `23 − k` hours before now, priced with draw k |
| TokenChart.GenerateChartData | src/components/TokenChart.tsx:16-33 | the series has exactly 24 points. Point k is 23 − k hours before now and priced `base·(1 + (u_k − 0.5)·0.1)`; the last point is at now and times strictly increase |
| TokenChart.PerturbedPriceInBand | src/components/TokenChart.tsx:23-24 | for base ≥ 0 and u in [0, 1), the price lies between the displayed low and high, and strictly below the high when base > 0 |
| TokenChart.SeriesWithinBand | src/components/TokenChart.tsx:21-24 | for base ≥ 0 and draws in [0, 1), every generated price lies in [0.95·base, 1.05·base], and below 1.05·base when base > 0 |
| TokenChart.High | src/components/TokenChart.tsx:94 | the 24h high is at least a non-negative price, and it lies exactly one twentieth above a non-negative price (so it is 0 at price 0), strictly above a positive one |
| TokenChart.Low | src/components/TokenChart.tsx:98 | the 24h low lies between zero and a non-negative price, and it lies exactly one twentieth below a non-negative price (so it is 0 at price 0), strictly below a positive one |
| TokenChart.HighLowOrder | src/components/TokenChart.tsx:94-98 | the displayed high (1.05·price) is at least the low (0.95·price) if and only if price ≥ 0 |
| TokenChart.AfterRender | src/components/TokenChart.tsx:14-36 | one render records the current price as the effect's dependency. At the same price the chart is unchanged. At a new price the data becomes the series generated around that price from this render's clock and draws |
| TokenChart.Renders | src/components/TokenChart.tsx:14-36 | no renders change nothing, and after one or more renders the chart's dependency is the latest price |
| TokenChart.RegenerationRules | src/components/TokenChart.tsx:14-36 | a render at the same price keeps the series. A render at a new price yields exactly the series generated around the new price. That series is independent of the old one (replaced, not appended) and has 24 points |
| TokenChart.RendersKeepFullSeries | src/components/TokenChart.tsx:35-36 | after one or more renders from the initial state, the chart holds exactly 24 points. They are the series generated around the latest price, for some clock reading and some 24 draws, each in [0, 1) as `Math.random()` returns |
| TokenChart.RenderedPricesWithinBand | src/components/TokenChart.tsx:14-36 | after one or more renders from the initial state at a non-negative latest price, every plotted price lies between that price's displayed 24h low and high |
| TokenChart.ChartTrend | src/components/TokenChart.tsx:56-82 | the `+` prefix, the `text-green-500` class and the `#10b981` stroke each appear if and only if the change is ≥ 0; otherwise the result is no prefix, `text-red-500` and `#ef4444` |
| TokenChart.CardAndChartAgreeOnSign | src/components/TokenChart.tsx:57-59 | the chart header and the token card give a change the same prefix, and the stroke is green exactly when the card is green |
| TransactionList.StatusBadge | src/components/TransactionList.tsx:48-52 | green for "completed", yellow for "pending", red for every other status |
| TransactionList.TxRow | src/components/TransactionList.tsx:28-52 | a row is keyed by the id and shows the amount with 4 decimals, followed by the token. The `-` sign appears if and only if the type is "send", which also gives red and the up arrow; every other type gets `+`, green and the down arrow |
| TransactionList.TxRows | src/components/TransactionList.tsx:27-28 | exactly one row per transaction, the i-th row for the i-th transaction |
| TransactionList.Render | src/components/TransactionList.tsx:22-28 | "No transactions yet" is shown exactly when the list is empty; otherwise row i is exactly the row rule applied to transaction i (same sign, colour, arrow, amount, token and badge), one per transaction, keyed by id, in order |
| TransactionList.RowsOfConcat | src/components/TransactionList.tsx:27 | the rows of a concatenated history are the rows of its parts, in the same order |
| TransactionList.SendRowsAgree | src/components/TransactionList.tsx:31-46 | the sign, colour and arrow are decided by the same test, `type === "send"` |

## Findings

| source | as written | input that shows it | evidently intended | confidence | as-written member | corrected member |
|---|---|---|---|---|---|---|
| src/components/TokenCard.tsx:21-41 | `icons[symbol]` and `colors[symbol]` index plain object literals, so inherited `Object.prototype` members are found too | symbol "toString" makes `tokenIcon` truthy, so an `<img>` is rendered and the first-letter fallback is hidden; React drops a function-valued `src`, so the image has no source. Symbol "constructor" makes `getTokenColor` return the `Object` constructor instead of the grey gradient, but `getTokenColor` is never called in the card's markup, so that half changes no rendered output | only the five listed symbols have an icon or colour; every other symbol gets the letter and the grey fallback | medium, not executed | TokenCard.PrototypeSymbolDefeatsFallback | TokenCard.CardGlyph |

The corrected lookups (`TokenIcon`, `TokenColor`, `CardGlyph`) are the ones the rest of the model uses.

## Left out

- JSX markup and styling: Tailwind classes other than the rule-selected ones are not modelled, nor are icons. The image `onError` handler that hides a broken image and reveals the letter (src/components/TokenCard.tsx:58-64) manipulates the DOM and is not modelled.
- Digit strings: `toFixed`, `toLocaleString` and `parseFloat` are not modelled as text. The model records the chosen precision tier. `parseFloat` is the parameter `parse: string -> real`. Prices and the 1.05/0.95 factors are reals, without IEEE rounding.
- TokenCard.FirstChar: a Dafny `string` is a sequence of Unicode scalar values, while JavaScript's `charAt(0)` returns the first UTF-16 code unit. For a symbol that starts outside the Basic Multilingual Plane, the card shows a lone surrogate but `FirstChar` returns the whole character; UTF-16 encoding is not modelled.
- Host calls: `Math.random()`, `new Date()`, `toLocaleTimeString` and `Intl.DateTimeFormat` are not modelled. The draws and the current time are parameters; chart points carry the instant, not its formatted label, and transaction dates are not modelled.
- Timing: `setTimeout`, `await` and React's hook scheduling are not modelled. Expiry of the 2000 ms delay is the abstract `DelayElapsed` event; timers of equal delay fire in the order they were set. The timer is not cancelled when the modal closes, and the model's `DelayElapsed` likewise fires whether or not the modal is open.
- `isOpen`: `Step` does not check it. While closed, the form is not rendered, so a user cannot deliver edit or submit events; `View` states only what is rendered.
- The `type` prop is fixed for the whole of a run; a parent switching between send and receive mid-flight is not modelled. `SelectToken` accepts any symbol; the `<select>` offers only the listed tokens' symbols.
- HTML attributes `max`, `step` and `required` on the inputs are not modelled (src/components/SendReceiveModal.tsx:79-85,103). The browser enforces them; the handler does not check them.
- Recharts rendering and the chart's axis domain are not modelled; they belong to a third-party library.
- React compares effect dependencies with `Object.is`, which treats NaN and −0 specially. Reals have no such values, so the model compares prices with `==`.
- TokenChart.SeriesWithinBand: states the band only for a non-negative base price. For a negative base the band is reversed. At a base of zero every price is zero, so the half-open band [0.95·base, 1.05·base) would be empty; the strict upper bound is therefore stated only for a positive base.
- The view-switching header (src/components/WalletHeader.tsx) is not part of this model; it only toggles a highlight class and emits fixed view names.
- Transaction-hash generation, clipboard alternation, explorer links and address truncation are not modelled. None of the four components contains such code.
