# Bitcoin wallet frontend: a verified model of its client-side logic

This project models the decision logic of a React Bitcoin wallet frontend in Dafny and
proves properties of it. Its centre is the send-Bitcoin form. That is the draft, the
tri-state address validity, the four fee tiers, the fee estimate, the balance check, the
submission and the Send-Max and reset actions. Around it sit:

- the API service: request URLs, headers and bodies, response classification, and the
  transaction-history query;
- the session provider, over browser storage;
- the dashboard's wallet selection, balance defaulting, coin statistics, row toggles and
  button rules;
- the market chart's downsampling;
- the receive modal's address shortening and its `bitcoin:` URI.

Each awaited API call is a parameter of the handler that awaits it: `Success(value)` for
the body it resolved to, `Failure(message)` for a call that threw. A handler applies that
outcome in one step. The send form's address validation and its submission are each split
in two (`BeginValidateAddress` and `FinishValidateAddress`, `BeginSubmit` and `FinishSubmit`),
so that the state while those calls are in flight can be seen and changed by the user.
`localStorage` is a shared `Storage` object holding a string map.

Amounts are exact `real` BTC values. The form compares the parsed amount text directly
with the balance field of the balance reply, so both are in one unit. `parseFloat` of the
form's amount text is `AmountText.ParseAmount`: an `Option`, with None for NaN. It is
faithful on text made of digits and points, which is all the amount field can hold; the
form's class invariant proves this. `toFixed(8)` is `AmountText.FormatFixed8`, which rounds
half up on exact reals.

Modules: `Common` (Option, Outcome), `AmountText` (the sanitiser, parseFloat, toFixed),
`SendBitcoinForm`, `Json` (parsed bodies), `BrowserStorage`, `Api`, `AuthProvider`,
`Dashboard`, `MarketData`, `QRCodeModal`.

The model follows the code as written, including where:

- Responses are applied in arrival order. The code has no check that a fee-estimate or
  address-validation response still belongs to the current input before applying it.
  `SendForm.EstimateEffect` therefore keeps the previous estimate while a new one is being
  fetched. It clears the estimate only when the estimate guard is false.
- A validation reply that lands after the recipient was cleared leaves a valid flag beside
  an empty field (`SendBitcoinForm.LateValidationReply`). Submit and the estimate both test
  the recipient again, so neither acts on that flag (`SendBitcoinForm.SubmitEnabledIff`,
  `SendForm.EstimateEffect`).
- An ok create reply with a falsy body sets `isSuccess`, but the success card needs truthy
  details, so the form stays on screen (`SendForm.FinishSubmit`).
- The form reads the wallet balance from `response.confirmed`
  (src/components/send-bitcoin-form.jsx:119). The dashboard reads the same endpoint's
  `response.balance.confirmed` (src/pages/Dashboard3.jsx:141-146). Each is modelled as
  written.
- The dashboard converts satoshi amounts to BTC in the mean coin size and in each coin's
  rendered value (src/pages/Dashboard3.jsx:833); only the first is modelled. The form
  mixes no units itself.
- The market panel calls `ApiService.getMarketData` and `ApiService.getBitcoinPriceHistory`
  (src/components/Market-data.jsx:40, 56). src/services/ApiService.js defines neither, so
  as shipped both calls throw and only the `Failure` path of `MarketView.FetchMarketData`
  and `MarketView.FetchPriceHistory` is reached. The model keeps the success paths as the
  component writes them.
- `formatDisplayAddress` (src/components/BitcoinQRCodeModal.jsx:44-47) is defined but the
  modal renders the full address (line 88). `QRCodeModal.Modal` shows the full address,
  and `QRCodeModal.FormatDisplayAddress` is modelled on its own.

## Model

| member | source | states |
|---|---|---|
| AmountText.SanitizeIsSanitized | src/components/send-bitcoin-form.jsx:397-405 | The sanitised amount holds only `0-9` and `.`, with at most one `.` |
| AmountText.SanitizeCharacterized | src/components/send-bitcoin-form.jsx:399-404 | The first point survives. Before it stand the digits that preceded it; after it, all later digits in order. Without a point only the digits remain |
| AmountText.SanitizeKeepsDigits | src/components/send-bitcoin-form.jsx:399-404 | The input's digits are kept, in their original order |
| AmountText.SanitizeKeepsPoint | src/components/send-bitcoin-form.jsx:399-404 | The output has a point iff the input had one |
| AmountText.SanitizeFixesSanitized | src/components/send-bitcoin-form.jsx:399-404 | Text already holding only digits and at most one point passes unchanged |
| AmountText.SanitizeIdempotent | src/components/send-bitcoin-form.jsx:399-404 | Sanitising twice equals sanitising once |
| AmountText.ParseAmount | src/components/send-bitcoin-form.jsx:193 | parseFloat of amount text never yields a negative number (the field holds no sign) |
| AmountText.ParseFailsIffNoDigit | src/components/send-bitcoin-form.jsx:196 | On sanitised text, parseFloat gives NaN exactly when the text holds no digit |
| AmountText.Round8 | src/components/send-bitcoin-form.jsx:239 | toFixed(8) keeps the whole number of 10^-8 units nearest to the value, rounding half up |
| AmountText.FormatFixed8IsSanitized | src/components/send-bitcoin-form.jsx:239-241 | toFixed(8) text is valid amount text (digits and one point) |
| AmountText.ParseFormatFixed8 | src/components/send-bitcoin-form.jsx:239-241 | parseFloat of toFixed(8) text reads back the value rounded to 8 decimals |
| AmountText.ParseFormatFixed8Exact | src/components/send-bitcoin-form.jsx:239-241 | A whole number of satoshis survives toFixed(8) and parseFloat exactly |
| SendBitcoinForm.ValidityOf | src/components/send-bitcoin-form.jsx:134 | `isValid` true/false gives valid/invalid; a missing value gives unknown |
| SendBitcoinForm.FeeOptions | src/components/send-bitcoin-form.jsx:73-102 | Exactly four tiers, economy/standard/priority/express, with rates low/medium/high/urgent |
| SendBitcoinForm.FindByRate | src/components/send-bitcoin-form.jsx:162-164 | None iff no estimation has the tier's rate; otherwise a listed estimation with that rate |
| SendBitcoinForm.FindByRateIsFirst | src/components/send-bitcoin-form.jsx:162-164 | The estimation found is the first with that rate |
| SendBitcoinForm.SubmitCheck | src/components/send-bitcoin-form.jsx:188-205 | handleSubmit's three checks in order, each as an iff. A missing field or an address not valid gives IncompleteForm. Then NaN or a non-positive amount gives InvalidAmount. Then an amount above the balance gives InsufficientBalance. Otherwise it proceeds with the parsed amount |
| SendBitcoinForm.SubmitButtonMatchesHandler | src/components/send-bitcoin-form.jsx:494-503 | Submit is enabled iff nothing is in flight and handleSubmit's checks would all pass |
| SendBitcoinForm.SubmitEnabledIff | src/components/send-bitcoin-form.jsx:494-503 | Submit is enabled iff the recipient is non-empty, the address is valid, 0 < amount <= balance, a tier is selected and nothing is in flight |
| SendBitcoinForm.ParseExample | src/components/send-bitcoin-form.jsx:193 | parseFloat("0.001") is 0.001 |
| SendBitcoinForm.InsufficientBalanceBlocksSubmit | src/components/send-bitcoin-form.jsx:202-205 | 0.001 BTC against a balance of 0.0005 keeps Submit disabled, and handleSubmit rejects it as insufficient |
| SendBitcoinForm.InvalidAddressBlocksSubmit | src/components/send-bitcoin-form.jsx:188-191 | An invalid address disables Submit and makes handleSubmit reject, whatever the rest of the draft |
| SendBitcoinForm.SendMaxValue | src/components/send-bitcoin-form.jsx:235-243 | Without an estimate or a balance, the whole balance. Otherwise the balance less the fee, floored at 0: never negative, never above the balance |
| SendBitcoinForm.SendMaxFitsBalance | src/components/send-bitcoin-form.jsx:235-243 | For whole-satoshi balance and fee, Send Max's text reads back as its value, which is at most the balance and positive when the balance exceeds the fee |
| SendBitcoinForm.SendForm.constructor | src/components/send-bitcoin-form.jsx:21-34 | The initial state: empty draft, unknown validity, no tiers, no estimate, zero balance |
| SendBitcoinForm.SendForm.MountEffect | src/components/send-bitcoin-form.jsx:57-64 | With a wallet id and a token, tiers and balance are loaded; otherwise nothing changes |
| SendBitcoinForm.SendForm.FetchFeeOptions | src/components/send-bitcoin-form.jsx:67-113 | Success gives the four tiers with "standard" selected. Failure leaves tiers and selection alone. The spinner ends false |
| SendBitcoinForm.SendForm.FetchWalletBalance | src/components/send-bitcoin-form.jsx:116-124 | The confirmed balance (0 when absent) replaces the balance; a failure changes nothing |
| SendBitcoinForm.SendForm.OnRecipientChange | src/components/send-bitcoin-form.jsx:345-348 | The new recipient text, with validity reset to unknown; nothing else changes |
| SendBitcoinForm.SendForm.OnAmountChange | src/components/send-bitcoin-form.jsx:397-406 | The amount becomes the sanitised text; nothing else changes |
| SendBitcoinForm.SendForm.SelectFeeOption | src/components/send-bitcoin-form.jsx:438 | The clicked tier becomes the selection; nothing else changes |
| SendBitcoinForm.SendForm.BeginValidateAddress | src/components/send-bitcoin-form.jsx:127-131 | Nothing for an empty recipient; otherwise the current recipient is sent and the spinner is on |
| SendBitcoinForm.SendForm.FinishValidateAddress | src/components/send-bitcoin-form.jsx:132-150 | The API verdict, or invalid when the call failed (fail-closed), whatever the recipient is by then; the spinner ends false and nothing else changes |
| SendBitcoinForm.SendForm.EstimateTransactionFee | src/components/send-bitcoin-form.jsx:153-173 | With a complete draft it asks for (wallet, recipient, parsed amount) and keeps the estimation matching the tier's rate (None if none). A failure keeps the old estimate |
| SendBitcoinForm.SendForm.EstimateEffect | src/components/send-bitcoin-form.jsx:153-182 | Clears the estimate unless the address is valid, the amount positive and a tier selected. Otherwise it estimates for a non-empty recipient, and does nothing for an empty one |
| SendBitcoinForm.SendForm.BeginSubmit | src/components/send-bitcoin-form.jsx:185-216 | A failed check makes no call and changes nothing. Otherwise create is called with (walletId, recipient, parsed amount, tier rate), and the form is submitting |
| SendBitcoinForm.SendForm.FinishSubmit | src/components/send-bitcoin-form.jsx:207-231 | A resolved call stores its body as the details and sets isSuccess. The success view (line 256) shows iff that body is truthy. Failure leaves isSuccess alone. isSubmitting ends false |
| SendBitcoinForm.SendForm.SendMax | src/components/send-bitcoin-form.jsx:235-243 | The amount becomes the Send-Max value in toFixed(8) text, reading back as that value rounded to 8 decimals |
| SendBitcoinForm.SendForm.ResetForm | src/components/send-bitcoin-form.jsx:246-253 | Clears recipient, amount, validity, estimate, success and details. Tier, tiers and balance are untouched |
| SendBitcoinForm.LateValidationReply | src/components/send-bitcoin-form.jsx:127-182 | Validation sent, field cleared (lines 345-348), then a valid reply: the flag is valid beside an empty recipient, yet Submit stays disabled and no estimate is requested |
| Api.AuthHeaders | src/services/ApiService.js:13-22 | Content-Type defaults to JSON, and caller headers override it. `Bearer <token>` is set last, when a non-empty token is stored, so it wins |
| Api.AuthorizationIffToken | src/services/ApiService.js:13-22 | Without caller headers, Authorization is present iff a token is stored |
| Api.ErrorFrom | src/services/ApiService.js:42 | Every readable body gives a Failed error: its truthy `message`, or else the fallback text. A null body throws on the read |
| Api.Classify | src/services/ApiService.js:37-45 | An ok response returns its body unchanged. Any other throws the body's message or the fallback. An unreadable body throws |
| Api.StoredToken | src/services/ApiService.js:57-69 | The token login keeps: only from an ok response carrying a non-empty token string |
| Api.QueryString | src/services/ApiService.js:165 | The rendered query is empty iff there are no parameters |
| Api.QueryRoundTrip | src/services/ApiService.js:158-165 | A query of pairs without separators reads back as exactly those pairs, in order |
| Api.IntText | src/services/ApiService.js:160-161 | A number renders as non-empty text containing no `&` or `=` |
| Api.HistoryParamsFromOptions | src/services/ApiService.js:160-163 | Every history parameter stands for a truthy option and carries its value |
| Api.HistoryParamsComplete | src/services/ApiService.js:160-163 | Every truthy option is in the history query |
| Api.HistoryParamsOrdered | src/services/ApiService.js:160-163 | The parameters come in the order limit, offset, type, status |
| Api.HistoryEndpoint | src/services/ApiService.js:165-167 | The history path takes `?` and the query only when some option is truthy |
| Api.HistoryQueryReadsBack | src/services/ApiService.js:158-167 | The history query reads back as the given options |
| Api.CreateTransactionBody | src/services/ApiService.js:138-148 | The create body has exactly walletId, toAddress, amount and feeRate, in that order, carrying the arguments |
| Api.ValidateAddressBody | src/services/ApiService.js:126-131 | The validate body has exactly `address` |
| Api.EstimateFeeEndpointQuery | src/services/ApiService.js:182-184 | The estimate path is `/transactions/estimate?` followed by the walletId, toAddress and amount pairs, in order |
| Api.EstimateQueryReadsBack | src/services/ApiService.js:182-184 | With values free of `&`, the estimate query reads back as its three parameters |
| Api.ApiService.constructor | src/services/ApiService.js:2-4 | The base URL is `/api` |
| Api.ApiService.AuthRequest | src/services/ApiService.js:13-27 | The request goes to base URL + endpoint with the caller's method (GET by default), the assembled headers and the caller's body |
| Api.ApiService.FetchWithAuth | src/services/ApiService.js:12-46 | A 401 removes the stored token and throws, whatever the body. Any other response is classified, and storage is unchanged |
| Api.ApiService.Login | src/services/ApiService.js:50-72 | POST of {username, password}. Errors use "Login failed". Storage changes only by the token of an ok response |
| Api.ApiService.Register | src/services/ApiService.js:74-88 | POST of {username, email, password} without a bearer token or 401 rule. Errors use "Registration failed"; an ok reply yields its body |
| Api.ApiService.BuildHistoryQuery | src/services/ApiService.js:158-163 | The sequential appends yield the history parameters |
| Api.ApiService.GetTransactionHistory | src/services/ApiService.js:157-168 | Requests the history path and classifies the response as fetchWithAuth does |
| Api.ApiService.CreateTransaction | src/services/ApiService.js:138-148 | POST to `/transactions/create` with the create body |
| Api.ApiService.EstimateTransactionFee | src/services/ApiService.js:182-184 | GET of the estimate path |
| Api.ApiService.ValidateAddress | src/services/ApiService.js:126-131 | POST to `/address/validate` with the address body |
| AuthProvider.Restored | src/context/AuthProvider.jsx:11-22 | Token, user and authenticated are restored only when both keys are stored; loading ends false in every case |
| AuthProvider.LoginItems | src/context/AuthProvider.jsx:24-26 | Login writes both keys and leaves the others alone |
| AuthProvider.LogoutItems | src/context/AuthProvider.jsx:33-35 | Logout removes both keys and leaves the others alone |
| AuthProvider.LoginSurvivesReload | src/context/AuthProvider.jsx:11-31 | A login with a non-empty token and user is restored on the next mount |
| AuthProvider.LogoutSurvivesReload | src/context/AuthProvider.jsx:11-40 | After logout the next mount restores nothing |
| AuthProvider.ExpiredSessionNotRestored | src/context/AuthProvider.jsx:11-22 | Once the API service drops the token on a 401, the next mount restores nothing |
| AuthProvider.Session.constructor | src/context/AuthProvider.jsx:5-8 | Signed out, no user, no token, loading |
| AuthProvider.Session.Restore | src/context/AuthProvider.jsx:11-22 | The mount effect applies the restore rule to the stored items |
| AuthProvider.Session.Login | src/context/AuthProvider.jsx:24-31 | Both keys written; token, user and authenticated set; the state token equals the stored one |
| AuthProvider.Session.Logout | src/context/AuthProvider.jsx:33-40 | Both keys removed; token and user null, not authenticated; the state token equals the stored one (both absent) |
| Dashboard.BalanceFrom | src/pages/Dashboard3.jsx:141-146 | confirmed, unconfirmed and total each default to 0 when absent |
| Dashboard.StatsFrom | src/pages/Dashboard3.jsx:194-200 | The count defaults to 0. The mean size is balance/count/10^8 (0 without coins). The dust count defaults to 0 |
| Dashboard.NetworkFrom | src/pages/Dashboard3.jsx:224-230 | Numbers default to 0 and the hash rate to the text "0" |
| Dashboard.TxKey | src/pages/Dashboard3.jsx:625-628 | A row's key is its id, or its txid when the id is missing or empty, or "undefined" when neither is there |
| Dashboard.SendButtonDisabled | src/pages/Dashboard3.jsx:491 | Send is enabled iff a wallet is selected and the confirmed balance is positive |
| Dashboard.ConsolidateButtonDisabled | src/pages/Dashboard3.jsx:781 | Consolidate is enabled iff a wallet is selected, coins are not loading and there are at least three |
| Dashboard.AmountSign | src/pages/Dashboard3.jsx:652-656 | `+` iff the type is `receive` or `received`, and `-` otherwise |
| Dashboard.AmountSignSpellings | src/pages/Dashboard3.jsx:652-656 | The type test is case-sensitive: "receive" and "received" show `+`; "Receive", "send" and "sent" show `-` |
| Dashboard.Toggled | src/pages/Dashboard3.jsx:337-342 | Only the toggled row flips; every other key keeps its value |
| Dashboard.ToggleTwice | src/pages/Dashboard3.jsx:337-342 | Toggling the same row twice restores every row's open or closed status |
| Dashboard.ClickRowFlipsOnlyIt | src/pages/Dashboard3.jsx:625-646 | Clicking a row flips its own chevron and leaves every row with a different key as it was |
| Dashboard.RowsWithoutIdsToggleTogether | src/pages/Dashboard3.jsx:625-646 | Rows without id and txid share the key "undefined", so clicking one flips the others too |
| Dashboard.FindWallet | src/pages/Dashboard3.jsx:405 | The first wallet with the chosen id, or none iff no wallet has it |
| Dashboard.HistoryRequestPath | src/pages/Dashboard3.jsx:163 | The page's history request is `/transactions/history/<id>?limit=10` |
| Dashboard.DashboardPage.constructor | src/pages/Dashboard3.jsx:27-59 | The initial page state, with every loading flag set |
| Dashboard.DashboardPage.FetchWallets | src/pages/Dashboard3.jsx:104-132 | A non-empty list selects its first wallet. An empty one clears the selection, zeroes the balance, empties history and coins, and disables Send, Receive and Consolidate. A failure changes only the loading flag |
| Dashboard.DashboardPage.SelectWallet | src/pages/Dashboard3.jsx:404-407 | The selector picks the wallet with that id, or none; nothing else changes |
| Dashboard.DashboardPage.FetchWalletBalance | src/pages/Dashboard3.jsx:134-154 | A successful reply with a balance replaces it with the defaulted fields; nothing else changes |
| Dashboard.DashboardPage.FetchTransactions | src/pages/Dashboard3.jsx:156-176 | Requests the history path. A successful list replaces the history. Only its own loading flag ends false |
| Dashboard.DashboardPage.FetchUtxos | src/pages/Dashboard3.jsx:178-211 | Stats are requested only after coins arrive, and update only with a stats total. Only the coin loading flag ends false |
| Dashboard.DashboardPage.FetchNetworkStatus | src/pages/Dashboard3.jsx:213-240 | The panel changes only when both replies succeed; only the network flag ends false |
| Dashboard.DashboardPage.FetchNextAddress | src/pages/Dashboard3.jsx:254-270 | A non-empty address from a successful reply replaces the receive address |
| Dashboard.DashboardPage.ToggleTransactionDetails | src/pages/Dashboard3.jsx:337-342 | The details map becomes the toggled map; nothing else changes |
| Dashboard.DashboardPage.FetchFeeEstimates | src/pages/Dashboard3.jsx:242-252 | A successful reply stores `feeOptions`, or `fees` when `feeOptions` is absent or falsy; anything else changes nothing |
| Dashboard.DashboardPage.CreateWallet | src/pages/Dashboard3.jsx:313-335 | After a successful creation the list is refetched and then the new wallet is selected, overriding the refetch's first-wallet choice; a failed creation changes nothing |
| MarketData.Stride | src/components/Market-data.jsx:60-65 | Stride 6 for 1 day, 12 for 7, 24 for 30, 48 otherwise |
| MarketData.SparseKeepsStridePoints | src/components/Market-data.jsx:60-65 | The k-th kept point is the point at index k·stride, and no multiple below the length is skipped, so ⌈n/stride⌉ points are kept |
| MarketData.SparseEmptyIff | src/components/Market-data.jsx:60-65 | The chart is empty iff the fetched history is |
| MarketData.MarketView.constructor | src/components/Market-data.jsx:13-26 | Zero summary, empty history, both flags loading, timeframe 7 days |
| MarketData.MarketView.FetchMarketData | src/components/Market-data.jsx:35-48 | A fetched summary replaces the shown one; the market flag ends false either way |
| MarketData.MarketView.FetchPriceHistory | src/components/Market-data.jsx:51-75 | Success shows the thinned history and the requested timeframe. A failure keeps both. The history flag ends false either way |
| QRCodeModal.FormatDisplayAddress | src/components/BitcoinQRCodeModal.jsx:44-47 | Null, empty or short (< 16) addresses pass unchanged. Others become first 8 + "..." + last 8, 19 characters long |
| QRCodeModal.BitcoinUriRoundTrip | src/components/BitcoinQRCodeModal.jsx:50 | The QR payload `bitcoin:` + address reads back by the BIP 21 grammar as that address with no parameters |
| QRCodeModal.Modal | src/components/BitcoinQRCodeModal.jsx:25-88 | Nothing is rendered when closed. When open, the QR value is the URI and the full address is shown |
| QRCodeModal.BackdropClickCloses | src/components/BitcoinQRCodeModal.jsx:28-32 | A backdrop click closes iff the target is the backdrop itself |
| QRCodeModal.CopyRequest | src/components/BitcoinQRCodeModal.jsx:35-41 | Copying writes the address, and does nothing for a missing or empty one |
| QRCodeModal.OpenModalQrReadsBack | src/components/BitcoinQRCodeModal.jsx:50-88 | The open modal's QR code reads back as exactly the address it shows |
| QRCodeModal.CopyMatchesShown | src/components/BitcoinQRCodeModal.jsx:35-50 | Copying writes exactly the address the modal shows (line 88), and nothing when it shows none; that text is also the address the QR code encodes |
| QRCodeModal.MissingAddressEncodesUndefined | src/components/BitcoinQRCodeModal.jsx:35-50 | Without an address the QR code encodes `bitcoin:undefined` while copying does nothing |
| QRCodeModal.BackdropClickOutcome | src/components/BitcoinQRCodeModal.jsx:25-32 | With an onClose that closes the modal, a click on the backdrop (lines 53-56) hides it and a click inside the card leaves its content unchanged |

## Left out

- Network, browser and timer I/O: `fetch`, `response.json()`, redirects to `/login`, the clipboard, toasts, `console`, `setTimeout`. Replies are parameters, and the clipboard write is the text `QRCodeModal.CopyRequest` returns.
- Rendering: the JSX and CSS markup, icons, the chart library, the QR image generation and the timeframe buttons' highlighting.
- Floating point and locale formatting: `Intl.NumberFormat` (formatBTC and formatUSD), USD conversions at the hard-coded price, `Date` and `toLocale*` labels. Amounts are exact reals, so no binary rounding is modelled.
- AmountText.ParseAmount: models parseFloat on text of digits and points only. Exponents, signs, leading blanks and `Infinity` can never reach it through the sanitised field.
- AmountText.FormatFixed8: toFixed switches to exponent notation at 10^21 and above; that range is not modelled.
- Concurrency: responses are applied whole, when they arrive. Only address validation and submission are split at their await; the other handlers (fetches, fee estimate) are applied in one step, so no user edit between their request and their reply is modelled. There is no last-request-wins rule, since the code has none.
- Api.StoredToken: a truthy non-string `token` (a number, an object) would be stored by the code as its string rendering. The model stores only string tokens.
- Api.ErrorFrom: the message is kept as the JSON value; its string conversion inside `new Error` is not modelled.
- Percent-encoding by `URLSearchParams` and in the estimate URL: values are taken as already-rendered text. Api.IntText renders integer options only.
- `getAllWallets`, `createWallet`, `importWallet`, `getWalletDetails`, `syncWallet`, `getWalletBalance`, `getNextAddress`, `getAddressActivity`, `broadcastTransaction`, `getTransactionDetails`, `getTransactionStatus`, `getFeeEstimates`, `getWalletUtxos`, `getUtxoStats`, `getBlockchainStatus` and `getNetworkStats` of src/services/ApiService.js. Each is a one-statement `fetchWithAuth` call on a fixed path, so its behaviour is `Api.ApiService.FetchWithAuth`'s.
- In src/pages/Dashboard3.jsx: `handleSyncWallet` (a sync call, then the modelled balance, history and coin fetches, with a `syncingWallet` spinner), `handleCopyAddress` (a clipboard write guarded by a non-empty address), the simulated market data (a timer) and the QR modal's `showQrModal` flag. None of them changes page data beyond what the modelled fetches do. The page's own market panel and the effect on `selectedWallet` that starts the fetches are sequencing left to the caller.
- SendBitcoinForm.Btc: balances from the API are non-negative by type. A negative `confirmed` balance would make Send Max write toFixed text with a `-`, which the amount field's sanitised form excludes; that case is not modelled.
- `btcUsdPrice` and the `onSuccess`/`onCancel` callbacks of the send form. The callbacks belong to the caller.
- AuthProvider.Session.Restore: the stored user is kept as its serialized text, so JSON.stringify and JSON.parse of the user are the identity. A malformed stored user, on which JSON.parse would throw, is not modelled.
- Dashboard.StatsFrom: a missing `stats.total.balance` with a positive count would give NaN in the code; the model requires the balance.
- NaN results in general: `|| 0` also maps NaN to 0 in the code; the model's numbers are never NaN.
- Identifiers: wallet ids are strings throughout; numeric ids rendered into paths are not modelled.
