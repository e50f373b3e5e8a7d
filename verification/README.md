# jevproxy: credits, failover, rate limits

jevproxy is a gateway in front of a paid HTTP API. Callers hold user keys; the gateway forwards each call with one of
several upstream keys, through an optional outbound proxy, retries on another upstream when one fails, and bills the
caller's account in micro-credits. This project models the parts of it where mistakes cost money or break a promise,
and proves what they guarantee while any number of calls, administrators and sign-ups interleave.

## How it is modelled

- **One call.** `CallMachine` is one call as a machine whose steps are the source's atomic actions: a store transaction or
  statement, a limiter decision under its mutex, an atomic cursor increment, one exchange with an upstream. What a step
  cannot compute (clock, upstream reply, database or decryption failure) is an input of the step. A call has a task:
  `Evaluate`, `Models` (the catalogue, which shares pool, exits, marks and log but takes no admission and moves no money)
  or `Probe`. It carries the request id its client chose.
- **The same calls as code.** `Gateway.Gateway.Evaluate`, `Models` and `Probe` are methods in the form of the source: local
  variables, the hold, the `release` closure, the loops of three attempts, calls on the store, pool, limiter and picker
  objects. Each is proved to leave exactly the state, and give exactly the answer, of the machine running alone.
- **The door.** `Admission` is `Authenticate` as three steps, each on the tables and the clock of its own moment;
  `Gateway.Gateway.Authenticate` is the method.
- **Everything at once.** `Interleaving.Run` applies any finite sequence of events: a request at the door or a step of its
  authentication, a new call, one step of some call, a probe, an adjustment, a redemption, new codes, a registration,
  edits of the routing and key tables, a sign-in attempt, a limiter sweep. The laws about money, exits, rates, shares,
  quota, admission and logs hold for every such sequence. `SoloRun.SoloCallIsARun` shows that a call running alone is one
  of them. `Witnesses` and `Starvation` hold complete sequences in which the less
  expected outcomes happen.
- **The parts.** `Ledger`/`Store` (tables and transactions, as functions and as the class that updates them in place),
  `RateLimit`, `Pool`, `OutProxy`, `Authentication`, `Billing`, `Registration`, `KeyImport`, `RedeemText`.
- **Laws in their own terms.** What a call answers (`Answers`), what its replies leave on the tables (`Marks`), the tokens
  it counts (`Metering`), who was let in (`Entrance`), what rows and proxies get (`RowShares`, `ExitShares`), what a
  sign-up hears (`SignUpAnswers`) and what an imported line means (`ImportText`) are stated on the fields of the rows and
  events of a run, not through the functions that compute them.

## Where the code and its documentation differ

The model follows the code. Each difference has a lemma that says exactly when the documented behaviour holds.

- README.md:176 says a failed call gives its hold back. `SettleUsage` refuses any posting that ends below zero, so the hold
  stays exactly when the database fails or the balance is below -1 as the call settles (`Outcomes.FailureRefundsIff`,
  reached in `Witnesses.HoldCanBeKept`). It never happens while no adjustment overdraws an account and the database works
  (`Outcomes.FailuresCostNothing`).
- README.md:176 says that a successful call is settled by its tokens. When balance plus hold does not cover the price the
  settlement is refused and the call pays 1 (`Outcomes.SuccessBilledIff`, reached in `Witnesses.SuccessCanCostOne`).
- README.md:176 says that with credit for one call a concurrent second call gets 402. The hold is 1 micro-credit, not a
  price: the second is refused only at a balance of exactly 1 (`Ledger.SecondHoldRefusedIff`). The constant `holdMicro`
  (internal/proxy/proxy.go:28) is not used.
- README.md:176 says that all calls are logged. A call never tries to exactly if, as it starts, its body is bad, or it has
  an owner and the database fails, the account is unknown or the balance is below 1 (`Outcomes.UnloggedIff`,
  reached in `Witnesses.CallCanGoUnlogged`). A log write that fails is ignored; what is then missing from the log is in
  `Audit.LogMatchesLedger`.
- Ledger and log rows name their call by the request id, which the client chooses (internal/httpserver/httpserver.go:145-155)
  and nothing keeps unique. The rows under an id are a call's own exactly if the other calls carrying it owe nothing
  (`Conservation.RowsAreOwnIff`), so they are when no other call carries it (`Conservation.UniqueIdOwnsItsRows`); two calls
  under one id are in `Witnesses.RequestIdCanBeShared`.
- README.md:182 offers a rate limit per upstream account. Catalogue requests and probes take no admission
  (`UpstreamRate.AdmittedIffBilled`), so an upstream can be sent more than its limit (`Witnesses.LimitCanBePassed`). Every
  request to it was admitted if and only if no catalogue request or probe sent it one (`UpstreamRate.AllAdmittedIff`), and
  then the limit holds for all its requests (`UpstreamRate.AllWithinRpm`).
- README.md:182 offers a weight per upstream account, but catalogue requests share the cursor. If calls get every d-th of
  its values, they are shared by weight, whatever the start, if and only if every common divisor of d and the total weight
  divides every weight (`Strides.StrideExactIff`, in runs `PickShares.CallsGetStrides`). With one catalogue pick between any
  two picks of calls that means an odd total or even weights only (`Strides.EveryOtherPickIff`). Two upstreams of weight 1
  meet neither: calls find the same one every time (`Strides.EveryOtherPickStarves`, reached in `Starvation.CallsCanStarve`).
- README.md:182 names 429, 529, 5xx and 401 as the replies after which another upstream is tried. The code adds 403, and
  treats it as it treats 401 (`Answers.ThirdFailureIsReported`, `Marks.OnlyMarksMove`).
- README.md:80 promises limits per IP on sign-in, which use one-hour windows; the limiter's sweep forgets entries after two
  minutes. A span is enforced exactly if and only if it is at most two minutes (`RateLimitHistory.SpanEnforcedIff`); of a
  longer one, two minutes are enforced (`RateLimitHistory.RateBound`).
- The Retry-After header drops the fraction of a second: obeying it is enough exactly if the oldest counted admission had
  at most a second left, or a whole number of seconds (`RetryAfter.HeaderSufficesIff`, `RetryAfter.HeaderTooShort`).
- `UsageCost` multiplies in 64 bits: the price is the advertised one if and only if the product fits
  (`Billing.CostIsNearestIff`).
- The pool's cursor is 64 bits wide: shares stay exact across its wrap if and only if there is one candidate or the total
  weight divides 2^64 (`Fairness.ExactAcrossWrapIff`).
- README.md:84 allows lines of the form "name key". Writing imported accounts that way loses exactly those whose name
  starts with `#` (`KeyImport.NameFirstIsIdentityIff`).
- A sign-up that loses the race for the first account is told that its name is taken even when it is free
  (`Registration.NameTakenIff`, `Registration.RaceLoserIsMisled`). An account exists behind an error answer if and only if
  the session failed after the insert (`Registration.UntoldIff`, `Registration.AccountWithoutAnswer`).

## Assumptions

- Clock readings do not decrease in the order in which the limiter's mutex is taken (the source reads the clock before
  taking it). The lemmas that need this say so (`Clocked`, `SteadyRun`).
- The store has one connection, so transactions and single statements are atomic and ordered. A failing transaction
  leaves no trace; a commit that fails after taking effect is not modelled. A process crash with a hold outstanding and
  a request cancelled in the middle of a settlement are not modelled.
- Balances, token counters, weights, total weights and ledger sums stay within 64 bits; `UsageCost` and the pool's cursor
  do wrap.

## Model

| member | source | states |
|---|---|---|
| Conservation.MoneyIsConserved | internal/proxy/proxy.go:163-192 | in every interleaving, balance + unreleased holds + everything charged = everything paid in by adjustments and redeemed codes, for every account |
| Conservation.RowsMatchRequestId | internal/proxy/proxy.go:157-165 | at every moment, the ledger rows under a reference take exactly what the calls carrying that client-chosen request id owe together |
| Conservation.UniqueIdOwnsItsRows | internal/httpserver/httpserver.go:145-155 | if no other call of the run carries the request id of a finished call, the ledger rows under it are exactly its own charge |
| Conservation.RowsAreOwnIff | internal/httpserver/httpserver.go:145-155 | the rows under a finished call's request id are its own charge iff the other calls carrying that id owe nothing in total |
| Witnesses.RequestIdCanBeShared | internal/httpserver/httpserver.go:145-155 | a complete run in which two calls under one id are each charged 1: the rows under it sum to -2 and the log has two rows with it |
| Conservation.SettledAndLoggedOnce | internal/proxy/proxy.go:177-311 | a finished call settled once per hold and attempted one log row, charged the price of a 2xx, 0 otherwise, or 1 if the settlement was refused; it attempted no row iff its body was bad or its owner's hold was refused, and then nothing moved |
| Conservation.OthersAreFree | internal/proxy/proxy.go:339-411 | Models and Probe owe nothing at any moment, whatever account the key belongs to |
| Outcomes.UnloggedIff | internal/proxy/proxy.go:148-176 | a finished call attempted no log row iff, at the event that started it, its body was bad, or it had an owner and the database failed, the account was unknown or the balance was below 1 |
| Witnesses.CallCanGoUnlogged | internal/proxy/proxy.go:148-151 | a complete run in which a call with a bad body ends with 400 and no log row |
| Outcomes.HoldKeptIff | internal/proxy/proxy.go:179-192 | every finished call that held has a settling event; its account existed then, and the settlement went through iff the database worked and balance plus hold covered the price |
| Outcomes.HoldersKeepTheirAccount | internal/store/store.go:1244-1267 | the account of a call that ever took a hold exists for ever |
| Outcomes.FailuresCostNothing | internal/store/store.go:1468-1488 | the documented refund over runs: while no adjustment overdraws an account, a finished call without a 2xx costs nothing if its settlement reached the database |
| Witnesses.HoldCanBeKept | internal/store/store.go:1253-1256 | a complete run, with a debit in mid-call, in which a failed call is charged its hold |
| Witnesses.SuccessCanCostOne | internal/store/store.go:1470-1488 | a complete run in which a 2xx answer priced 42000 costs 1 |
| Conservation.LedgerMatchesBalances | internal/store/store.go:1244-1267 | per account, ledger rows have non-zero deltas and running-sum balances from 0, the last one being the stored balance, in every interleaving |
| Conservation.NoOverspend | internal/store/store.go:1253-1256 | if no adjustment overdraws an account, no balance is ever negative, and holds plus charges never exceed what was paid in |
| Outcomes.FailureRefundsIff | internal/store/store.go:1470-1488 | a finished call without a 2xx gave its hold back iff, at its settling event, the database worked and its balance was at least -1; otherwise it was charged 1 |
| Outcomes.SuccessBilledIff | internal/store/store.go:1470-1488 | a finished 2xx call was charged its price iff, at its settling event, the database worked and balance plus hold covered it; otherwise 1 |
| Conservation.StepIsBalanced | internal/proxy/proxy.go:163-192 | any step of any call moves money only between its own account and itself, funds nothing, and keeps the ledger sound |
| Audit.LogTellsCharge | internal/proxy/proxy.go:281-294 | every log row, those of Models included, is the row of a finished call: its request id, account, status and exactly its charge; an owned 2xx row shows the price of the tokens it shows unless the settlement was refused |
| Audit.OneRowPerCall | internal/proxy/proxy.go:545-558 | a request id has as many log rows as calls carrying it wrote theirs, at most one each |
| Audit.LogMatchesLedger | internal/proxy/proxy.go:281-294 | under every reference, what the ledger took is what the log rows show plus what calls without a row owe |
| Ledger.PostCommitsIff | internal/store/store.go:1244-1267 | a posting that may not overdraw commits iff the account exists and stays non-negative; a refusal changes nothing, a commit no other account, and its one ledger row names reason, reference and new balance |
| Ledger.SettleRefusedIff | internal/store/store.go:1470-1488 | settlement is refused iff the account is gone or balance + hold is below the price due; the two outcomes' exact effects |
| Ledger.SecondHoldRefusedIff | internal/proxy/proxy.go:163-175 | of two holds in a row the second is refused iff the balance was exactly 1; if both pass and each call costs the whole balance, both settlements are refused |
| Ledger.PostKeeps | internal/store/store.go:1244-1267 | a posting keeps every account's chain, positive codes, distinct hashes and the redeem totals |
| Ledger.SettleKeeps | internal/store/store.go:1470-1488 | so does a settlement, refused or not |
| Ledger.RedeemKeeps | internal/store/store.go:1354-1389 | so does a redemption, refused or not |
| Ledger.InsertCodesKeeps | internal/store/store.go:1301-1318 | so does a batch of new codes, rolled back or not |
| Ledger.InsertAccountKeeps | internal/store/store.go:1089-1123 | a new account, or a refused one, moves no balance and no ledger row |
| Ledger.CreditsAreLedgerSum | internal/store/store.go:1244-1267 | a sound chain makes the stored balance the sum of the account's deltas |
| Redemption.RedeemCommitsIff | internal/store/store.go:1354-1389 | a redemption commits iff the code is known and unused and the account exists; it then pays the face value once, marks that code and writes one ledger row naming it; otherwise nothing changes |
| Redemption.IssueCommitsIff | internal/store/store.go:1301-1318 | a batch of codes is stored iff its amounts are positive and its hashes new and distinct, then whole, unused and in order; otherwise nothing is |
| Redemption.RedeemedForever | internal/store/store.go:1370-1379 | in every interleaving a redeemed code keeps its redeemer and time for ever, and no code disappears or changes value |
| Redemption.RedeemRowsMatchCodes | internal/store/store.go:1354-1389 | an account's redeem rows always add up to the face values of the codes it redeemed |
| Store.Store.PostCreditTx | internal/store/store.go:1244-1267 | updates account and ledger in place exactly as the posting transaction; refusals change nothing |
| Ledger.ChainExtendsIff | internal/store/store.go:1410-1414 | a new ledger row extends its account's chain iff it moves the balance and shows the running sum |
| Store.Store.PostCredit | internal/store/store.go:1228-1242 | the posting in its own transaction: an I/O failure leaves every table as it was |
| Store.Store.SettleUsage | internal/store/store.go:1470-1488 | the settlement in place; refused or failed, nothing changes |
| Store.Store.RedeemCode | internal/store/store.go:1354-1389 | marks the code and posts its credits, and rolls the mark back when the posting is refused |
| Store.Store.InsertRedeemCodes | internal/store/store.go:1301-1318 | inserts the whole batch or, at the first bad item, restores the codes |
| Store.Store.InsertAccount | internal/store/store.go:1089-1123 | the bootstrap or ordinary insert in place; conflicts change nothing |
| Store.Store.CountAccounts | internal/store/store.go:1070-1074 | the count is zero iff a bootstrap insert under any name would succeed at that moment |
| Store.Store.AddTokens | internal/store/store.go:562-566 | what this key has used grows by n if the key exists; what any other key has used, and which keys exist, stays |
| Gateway.Gateway.Evaluate | internal/proxy/proxy.go:148-311 | for every table content, clock, reply and failure, ends in exactly the shared state and answer of the call machine |
| Gateway.Gateway.TryUpstreams | internal/proxy/proxy.go:194-311 | the loop of three attempts and what follows it, equal to the machine from the hold on |
| Gateway.Gateway.Models | internal/proxy/proxy.go:339-411 | the catalogue loop ends in exactly the shared state and answer of the catalogue machine |
| Gateway.Gateway.Reach | internal/proxy/proxy.go:228-262 | exit, exchange and bookkeeping of one attempt, for calls and catalogue requests alike |
| Gateway.Gateway.Listed | internal/proxy/proxy.go:384-400 | a catalogue answer marks the upstream and logs the request under the client's id with no charge |
| Gateway.Gateway.Probe | internal/proxy/proxy.go:440-455 | a probe and the marks of its handlers end in exactly the state of the probe machine |
| Gateway.Gateway.ProbeMarks | internal/httpserver/httpserver.go:758-772 | the mark on the probed row: cleared by a 2xx, cooled down by anything else |
| Gateway.Gateway.Hold | internal/proxy/proxy.go:149-176 | validation and the one-micro-credit hold, with the status of each early return |
| Gateway.Gateway.Release | internal/proxy/proxy.go:177-192 | the release closure: settles a hold once, records what was charged, or keeps the hold |
| Gateway.Gateway.Conclude | internal/proxy/proxy.go:304-310 | settle, then log, then end the call, as the machine's last steps |
| Gateway.Gateway.Select | internal/proxy/proxy.go:199-220 | the pick inside the loop as the machine's two steps: table read, cursor increment |
| Gateway.Gateway.Attempt | internal/proxy/proxy.go:221-262 | limiter, exit, exchange and bookkeeping of one attempt, equal to the machine's steps |
| Gateway.Gateway.Exchange | internal/proxy/proxy.go:235-262 | forwarding and marking exit and upstream after each kind of reply |
| Gateway.Gateway.GiveUp | internal/pool/pool.go:89-103 | a failing reply cools its upstream down and takes it out of the call |
| Gateway.Gateway.Deliver | internal/proxy/proxy.go:264-299 | a final reply: 2xx is counted and billed, anything else releases the hold |
| Gateway.Gateway.RecordSuccess | internal/proxy/proxy.go:271-276 | a 2xx clears the upstream's failures and adds tokens to a real user key |
| Gateway.Gateway.MarkErr | internal/pool/pool.go:89-103 | the cooldown table by status, five failures at once for an authentication error |
| Pool.MarkedErrRests | internal/store/store.go:459-471 | a row marked as failing is no candidate of any call until its cooldown is over; other rows are left alone |
| Gateway.Gateway.MarkOK | internal/pool/pool.go:85-87 | unless the database failed, the upstream's row is then eligible at every time, to every call that has not given up on it, iff it is enabled |
| Pool.MarkedOkIsEligible | internal/store/store.go:453-457 | that mark makes the row eligible whatever its cooldown was, and leaves other rows alone |
| Gateway.Gateway.MarkProxyTransportErr | internal/proxy/proxy.go:473-478 | a direct exit changes nothing; a proxy that failed is on no active list for the next 30 seconds |
| Tables.FailedProxyRests | internal/store/store.go:932-941 | the failure mark takes that proxy off the active list until its cooldown is over, and no other |
| Gateway.Gateway.MarkProxyOK | internal/proxy/proxy.go:480-485 | a direct exit changes nothing; a proxy that worked is on every later active list unless it is disabled |
| Tables.WorkingProxyReturns | internal/store/store.go:921-930 | the success mark puts that proxy back whatever its cooldown was, and moves no other |
| Gateway.Gateway.PickExit | internal/proxy/proxy.go:457-471 | the exit for an upstream; the stored password of a bound or pooled proxy may not open, which is an error and never a direct exit |
| Gateway.Gateway.FindExit | internal/proxy/proxy.go:228-234 | the exit choice as one or two steps of the machine |
| Gateway.Gateway.Authenticate | internal/proxy/proxy.go:74-111 | header, key row, balance and limiter, each with its own clock: exactly the three steps of the admission machine |
| Admission.AdmittedAloneIff | internal/proxy/proxy.go:74-111 | alone, exactly the requests whose key row is "active", not past its expiry, below its quota and of an owner with credits reach the limiter, and exactly those it admits come in; the others are told the seconds to wait; any other refusal leaves everything untouched |
| Admission.RefusalsAre | internal/proxy/proxy.go:83-104 | each refusal before the limiter is given iff its test, on the fields of the row, is the first to fail |
| Entrance.InsidersWereEntitled | internal/proxy/proxy.go:74-111 | in every interleaving, a request that was let in has events of its own at which its row was in the table, "active", at or before its expiry and below its quota, its owner had a micro-credit, and the limiter admitted it |
| Entrance.CallsAreForThoseLetIn | internal/httpserver/httpserver.go:145-155 | every call runs under the key and for the owner of a request that was let in, or for an account trying the service out, or is a probe |
| Entrance.ServedOnce | internal/httpserver/httpserver.go:145-155 | a request that was let in becomes one call |
| Gateway.Gateway.HasCredits | internal/store/store.go:1270-1277 | says yes iff a hold placed at that moment would be accepted; errors for a missing account or a failing database |
| CallMachine.StepsRunOut | internal/proxy/proxy.go:194-199 | every step of an unfinished call brings it closer to its end, whatever the environment does |
| CallMachine.StepLeads | internal/proxy/proxy.go:194-311 | which program points can follow which, and which steps can touch hold, settlement, log and exclusions |
| SoloRun.SoloCallIsARun | internal/proxy/proxy.go:148-311 | after any history, a call, catalogue request or probe running alone is an interleaving and ends in the state its method computes |
| SoloRun.CallsEnd | internal/proxy/proxy.go:194-311 | every call comes to an end on every tape of clocks, replies and failures |
| Failover.FailoverFindsAnswer | internal/proxy/proxy.go:194-299 | alone, past its hold, with an exit of whatever kind - direct, a live proxy of its own, or a pool with a live proxy for each attempt - and room at every upstream, if at most two upstreams it could meet fail and one answers, the call returns the answer of an enabled row that is not one of the failing ones, whatever weights, order and cursors |
| Answers.AnswerIsDecided | internal/proxy/proxy.go:148-411 | in every run, the answer of a finished call, catalogue request or probe - status, upstream, tokens, Retry-After - is what one event of its own decided, in the literal terms of that event, and no event of it decided another |
| Answers.ThirdFailureIsReported | internal/proxy/proxy.go:221-310 | a call that gave up on three upstreams reports the third failure: the status 429, 529, 401, 403 or 5xx of that reply with its Retry-After, 502 for a transport error or no exit, 429 with the whole seconds until the oldest counted admission is a minute old |
| Marks.OnlyMarksMove | internal/pool/pool.go:85-103 | between edits the routing tables change only by marks, row by row: a failing reply adds one failure, or five for 401 and 403, and rests the upstream 30, 10, 600, 20 or 15 seconds by its status; a success clears the row; likewise 30 seconds for a proxy |
| Marks.ExchangeIsRecorded | internal/proxy/proxy.go:236-276 | every exchange of a finished call was recorded on its exit and on the upstream's row; only an answer to Evaluate that is passed on and no 2xx leaves the row alone |
| Marks.FailingUpstreamRests | internal/pool/pool.go:89-103 | after a recorded failure the upstream's rows stay closed for exactly that time, unless the table is edited or another exchange is recorded |
| Routing.ExitPolicyHolds | internal/outproxy/pick.go:41-86 | every request of every interleaving, of calls, catalogue and probes: bound upstreams only through their proxy, live when chosen; forced-direct ones direct; unbound ones direct only when no proxy was live, otherwise through a live one; "when chosen" being the table and clock at the step where that call chose its exit |
| Routing.FailedProxyNotReused | internal/proxy/proxy.go:237-241 | within a call an unbound upstream is never reached through a proxy that failed earlier in that call |
| Routing.AtMostThreeUpstreams | internal/proxy/proxy.go:194-262 | a call or catalogue request sends at most three requests, never two to one upstream |
| OutProxy.DecidedIsSafe | internal/outproxy/pick.go:41-86 | every exit the look-up yields, or any cursor value would spin to, obeys the exit policy |
| OutProxy.ExitIs | internal/outproxy/pick.go:41-86 | exactly which exit is given and when it is refused: bound to N, through N iff the first row with id N is active and not cooling down; unbound, direct iff no proxy is live, refused iff all live ones are excluded, otherwise one of the others, each as often as the table holds it |
| ExitShares.ProxiesTakeTurns | internal/outproxy/pick.go:64-86 | round robin in every run: while no proxy joins or leaves the pool, each of its members gets the floor or the ceiling of its equal share of any choices in a row, exact shares in full turns, and no other proxy any |
| OutProxy.Picker.Pick | internal/outproxy/pick.go:41-86 | the picker's result and cursor: the cursor moves only for a choice from the shared pool |
| Tables.ActiveAreLive | internal/store/store.go:837-853 | the active list holds each row as often as the table if it is enabled and not cooling down, and no other |
| Tables.FoundProxy | internal/store/store.go:855-862 | look-up by id finds the first row with that id iff there is one |
| Pool.Pool.Pick | internal/pool/pool.go:30-83 | the three loops pick exactly the candidate whose weight interval holds the cursor modulo the total; the cursor moves iff there is a candidate |
| Pool.OwnerIff | internal/pool/pool.go:66-76 | candidate i is chosen iff the slot lies in the interval of its weight, max(1, weight), after the weights before it |
| Pool.CandidatesAre | internal/pool/pool.go:36-50 | a table row is a candidate as often as it stands in the table if its status is "active", its cooldown is over and the call has not given up on it, otherwise never; candidates are in table order |
| RowShares.RowsGetTheirWeight | internal/pool/pool.go:30-83 | the documented weights per table row, in every run: while no row is added, removed, reweighted, opened or closed, m picks in a row go to an open row of weight w in proportion to w, k full turns exactly k*max(1, w) times, and never to a closed one; the tables are those the calls really read |
| Fairness.CursorIsFair | internal/pool/pool.go:55-76 | along the 64-bit cursor, m picks give a candidate of weight w between floor(m/W)*w and ceil(m/W)*w turns, and k*W picks exactly k*w, unless the cursor wraps among them and the exact condition of the next row fails |
| Fairness.ExactAcrossWrapIff | internal/pool/pool.go:63 | along the 64-bit cursor, every full turn from every start gives every candidate exactly its weight iff there is one candidate or the total weight divides 2^64 |
| Fairness.WrapBreaksFairness | internal/pool/pool.go:63 | so three equal candidates are not served in rotation across the wrap, and one gets two turns in a row |
| Strides.StrideExactIff | internal/proxy/proxy.go:349 | for every candidate list and stride d, every d-th cursor value from every start serves every candidate by weight over a full turn iff every common divisor of d and the total weight divides every weight |
| Strides.EveryOtherPickIff | internal/proxy/proxy.go:349 | with one catalogue pick between any two picks of calls that means: the total weight is odd or all weights are even |
| Strides.EveryOtherPickStarves | internal/proxy/proxy.go:349 | two upstreams of weight 1 fail it: from any start, every second value finds the same one |
| PickShares.CallsGetStrides | internal/proxy/proxy.go:339-411 | in an interleaving where d - 1 catalogue picks lie before each pick of a call, the calls' picks are the turns at every d-th cursor value, and by weight over a full turn if the condition holds |
| Starvation.CallsCanStarve | internal/proxy/proxy.go:339-411 | a complete run in which two calls with a catalogue request between them pick the same one of two upstreams of weight 1 |
| PickShares.PicksAreProportional | internal/pool/pool.go:55-76 | the same shares for any consecutive picks of an interleaving that saw the same candidates, by calls and catalogue requests together, unless the cursor wraps in between and the exact condition fails |
| RateLimit.Limiter.Allow | internal/ratelimit/ratelimit.go:24-55 | prunes, decides and records as the specification of one attempt |
| RateLimit.Limiter.AllowWindow | internal/ratelimit/ratelimit.go:58-88 | the same for any span |
| RateLimit.Limiter.Expired | internal/ratelimit/ratelimit.go:38-44 | the index loop drops exactly the leading entries at or before the cutoff |
| RateLimit.Limiter.Gc | internal/ratelimit/ratelimit.go:90-109 | one sweep, in any order of the keys: every list loses its expired entries, empty ones disappear |
| RateLimitHistory.WindowIsPrunedHistory | internal/ratelimit/ratelimit.go:24-109 | with sweeps anywhere, the stored list is the full admission history cut at a floor that is never past the horizon |
| RateLimitHistory.AdmitsIffHorizonFree | internal/ratelimit/ratelimit.go:58-109 | for any span, an attempt is admitted iff fewer than the limit of all earlier admissions lie inside the horizon (span, or last sweep if nearer) |
| RateLimitHistory.ExactUpToGcAge | internal/ratelimit/ratelimit.go:24-109 | for spans up to two minutes the limiter is the full-history definition |
| RateLimitHistory.SpanEnforcedIff | internal/ratelimit/ratelimit.go:90-109 | a span is enforced exactly on all traffic iff it is at most two minutes |
| RateLimitHistory.InexactBeyondGcAge | internal/httpserver/httpserver.go:262 | for every longer span, such as the one hour of the sign-in limits, traffic that gets past the limit |
| RateLimitHistory.AdmissionsSpaced | internal/ratelimit/ratelimit.go:24-109 | with a fixed limit, admissions that many apart in the history are the span, or two minutes if shorter, apart in time |
| RateLimitHistory.RateBound | internal/ratelimit/ratelimit.go:24-109 | for every span: no window as long as the span, or as two minutes if that is shorter, holds more than the limit, wherever it starts |
| RetryAfter.RefusedIff | internal/ratelimit/ratelimit.go:45-52 | an attempt is refused iff its limit and span are positive and the window it counts is full |
| RetryAfter.WaitIsSufficient | internal/ratelimit/ratelimit.go:38-54 | after a refusal an attempt at or after now + wait is admitted, whatever refusals and sweeps come between, if nobody else was admitted |
| RetryAfter.WaitIsTight | internal/ratelimit/ratelimit.go:38-54 | unless the one-second floor applied, every earlier attempt is refused, whatever comes between |
| RetryAfter.HeaderSufficesIff | internal/httpserver/httpserver.go:262-266 | obeying the whole-second header is enough iff the oldest admission counted had at most a second left in the window, or a whole number of seconds |
| RetryAfter.HeaderTooShort | internal/proxy/proxy.go:106-110 | an attempt refused at 58.5 s, told one second, and refused again |
| UpstreamRate.RequestsWithinRpm | internal/proxy/proxy.go:221-235 | across any number of concurrent calls, the requests to an upstream that left on admissions of any one-minute window never exceed its fixed limit |
| UpstreamRate.AdmittedIffBilled | internal/proxy/proxy.go:221-235 | a request left on an admission iff a call to Evaluate sent it; catalogue requests and probes never do |
| UpstreamRate.AllAdmittedIff | internal/proxy/proxy.go:221-235 | every request ever sent to an upstream was admitted iff no catalogue request and no probe sent it one |
| UpstreamRate.AllWithinRpm | internal/proxy/proxy.go:221-235 | in such runs all its requests, not only those on admissions, stay within the limit in every window of a minute |
| Witnesses.LimitCanBePassed | internal/proxy/proxy.go:440-455 | a complete run in which two requests go out at one moment to an upstream limited to one a minute, neither admitted |
| Quota.QuotaOvershoot | internal/proxy/proxy.go:94-96 | with at most n requests and calls of a key in flight at once, each call using at most T tokens, tokens used never exceed quota - 1 + n*T |
| Quota.LookUpGates | internal/proxy/proxy.go:94-96 | a request gets past its key look-up only with fewer tokens used than the quota at that moment |
| Metering.TokensAreExact | internal/proxy/proxy.go:271-275 | between edits of the key table, what a known key has used is what it had used plus the input tokens of the replies its calls to Evaluate had counted |
| Metering.CountedOnceIff | internal/proxy/proxy.go:264-283 | a finished call to Evaluate had its tokens counted iff it answered with a 2xx, at one step of its own, and what was counted is the reply it passed on |
| Metering.SpentKeyIsRefused | internal/proxy/proxy.go:94-96 | a usable key whose counted tokens reach its quota is refused at its next look-up |
| Authentication.LookupFinds | internal/store/store.go:527-534 | look-up by hash finds the first row with that hash iff there is one |
| Authentication.PresentedIff | internal/proxy/proxy.go:75-82 | a header presents a key iff it is "Bearer ", white space, the key, white space, and the key starts with sk-jev- and has at least 20 bytes |
| Billing.CostIsNearestIff | internal/store/store.go:1457-1466 | the price is the nearest whole micro-credit, at least 1, iff the 64-bit product does not overflow |
| Billing.OverflowedCost | internal/store/store.go:1461 | a token count that overflows and costs 1 |
| Billing.CostSign | internal/store/store.go:1457-1466 | never negative, and positive iff there are tokens, overflow or not |
| Billing.CostMonotone | internal/store/store.go:1457-1466 | more tokens never cost less |
| Billing.CostMerge | internal/store/store.go:1457-1466 | billing two calls as one changes the total by at most 1 |
| Billing.BillingError | internal/store/store.go:1457-1466 | over any n calls the bill differs from the exact price by between -498n and 958n thousandths |
| Billing.BillingErrorTight | internal/store/store.go:1457-1466 | both ends are reached |
| Registration.Server.Register | internal/httpserver/httpserver.go:296-328 | count, insert, session, with the answer of every branch; equal to the three steps of the sign-up machine |
| Registration.SingleBootstrapAdmin | internal/store/store.go:1076-1123 | however sign-ups interleave, once there is an account exactly one is an administrator: the first inserted |
| Registration.ClosedMeansOneAccount | internal/httpserver/httpserver.go:302-305 | with open registration off there is never a second account |
| Registration.CreatedMeansOwned | internal/httpserver/httpserver.go:306-328 | a sign-up whose insert went through has that account under its own name and no other sign-up has it; one answered with an account is one of these |
| Registration.NameTakenIff | internal/httpserver/httpserver.go:312-315 | "name taken" is answered iff the name is taken or the sign-up lost the race for the first account |
| Registration.RaceLoserIsMisled | internal/httpserver/httpserver.go:312-315 | the interleaving in which a free name is reported as taken |
| Registration.AccountWithoutAnswer | internal/httpserver/httpserver.go:321-326 | the run in which the account exists and the client is answered with an error |
| Registration.UntoldIff | internal/httpserver/httpserver.go:306-328 | over every run, a finished sign-up has an account behind an error answer iff its session failed while it was being issued, and a sign-up has an account iff its own insert went through |
| SignUpAnswers.ReplyIsDecided | internal/httpserver/httpserver.go:296-328 | in every run a finished sign-up is answered what one step of its own decided, in literal terms - database failed, registration closed with an account there, name taken or race lost, session issued - and no step of it decided else |
| SignUpAnswers.InsertAdds | internal/store/store.go:1076-1123 | an insert that goes through adds one account of that name without credits, an administrator iff none was counted |
| KeyImport.ParseKeyLines | internal/httpserver/httpserver.go:1312-1355 | the line loop yields the first mention of every key, in text order |
| KeyImport.ReadFields | internal/httpserver/httpserver.go:1332-1342 | the field loop yields the keys of the line and its first field that can be a name |
| KeyImport.Add | internal/httpserver/httpserver.go:1315-1325 | the add closure: trims, checks, and appends iff the key was not seen |
| KeyImport.ImportNormalForm | internal/httpserver/httpserver.go:1312-1387 | on every text: keys distinct, keys and names well formed and unsplittable, in the order and with the name of the first mention |
| ImportText.LineMeans | internal/httpserver/httpserver.go:1326-1352 | what one line means, from its text: nothing if blank or a comment, otherwise each of its fields that is a key, as often and in that order, under its first field that can be a name; key and name shapes are spelled out |
| ImportText.FieldsIff | internal/httpserver/httpserver.go:1357-1362 | cutting a text gives exactly the maximal pieces between separators |
| ImportText.FirstRunReplaced | internal/httpserver/httpserver.go:1358 | the leftmost run of four dashes becomes a comma, then the rest is looked at |
| KeyImport.ReimportIsIdentity | internal/httpserver/httpserver.go:1312-1387 | for every text, printing the result as "key name" lines and importing again gives the same list |
| KeyImport.NameFirstIsIdentityIff | internal/httpserver/httpserver.go:1326-1342 | in the documented "name key" order it does iff no name starts with the comment sign |
| KeyImport.NameFirstLoses | internal/httpserver/httpserver.go:1326-1330 | an account named with a leading comment sign is lost by a "name key" line |
| KeyImport.CommentLikeName | internal/httpserver/httpserver.go:1364-1375 | such an account name is accepted by the import |
| RedeemText.NewRedeemCode | internal/httpserver/httpserver.go:1676-1691 | the builder loop writes RC- and the letters of the bytes in dashed groups |
| RedeemText.NewCodeIsFormatted | internal/httpserver/httpserver.go:1676-1691 | twelve bytes give a canonical code: RC and three groups of four code characters |
| RedeemText.SameCodeIff | internal/httpserver/httpserver.go:1676-1691 | two codes are equal iff their bytes agree modulo 32, byte by byte |
| RedeemText.NormalizeRedeem | internal/httpserver/httpserver.go:1693-1716 | the loops strip, validate by bytes and regroup as the specification |
| RedeemText.EditedCodeNormalizes | internal/httpserver/httpserver.go:1693-1716 | any sequence of case changes and insertions or removals of blanks and dashes of a generated code normalises to that code |
| RedeemText.NormalizesIffEdited | internal/httpserver/httpserver.go:1693-1716 | an ASCII text normalises to a code iff, trimmed, such edits make it from the code |
| RedeemText.NormalizeIdempotent | internal/httpserver/httpserver.go:1693-1716 | normalising twice is normalising once, on every input and any upper-casing of non-ASCII letters |

## Left out

- HTTP handlers, routing, JSON, sessions and `forward`: an upstream exchange is an arbitrary reply (transport error, or status and input tokens). Body validation is a flag of the call.
- Columns that nothing here depends on: models, output tokens, latencies, error texts (except the "hold not refunded" suffix), notes, time stamps of rows, last_ok/last_err.
- SQL text, migrations, statistics, log filters, key management, the MCP server and the admin page.
- AES-GCM, bcrypt and hashing: a key or proxy password that does not decrypt is a failure flag; `Authenticate` takes the digest as a function.
- Random generation: `NewRedeemCode` takes its twelve bytes. A failing random source is not modelled.
- Username and password rules and the per-IP limit in front of `register`: they only decide whether a sign-up starts.
- The parser of proxy lines, the HTTP clients and the prober of internal/outproxy.
- A probe whose body cannot be read after its status arrived: the source marks the row by that status, the model as for a transport error.
- The cache of the catalogue: whether it is fresh is an input of the request, and what is remembered in it is not modelled.
- Limiter keys are a datatype of the three formats the callers build; that the formatted strings are as distinct is not modelled.
- Edits of the routing, key and token tables are arbitrary replacements of the table; a fixed limit or a counter that is not raised is a hypothesis of the lemma that needs it.
- Conservation.SettledAndLoggedOnce: counts attempts to write the log row, because the source ignores an `InsertLog` error; `Audit` speaks of the rows that were written.
- Ledger references are a datatype: a request id that looks like the reference of a redemption is told apart by the row's reason.
- Strides.StrideExactIff: counts along the unwrapped cursor; `PickShares.CallsGetStrides` carries it to the 64-bit cursor of a run, between wraps or where a wrap loses nothing.
- KeyImport.ParseKeyLines: characters are Unicode scalar values, so invalid UTF-8 in the text is not modelled; lower-casing is ASCII, which decides equality with the four words it is compared to.
- RedeemText.NormalizeRedeem: upper-casing is fixed on ASCII and arbitrary elsewhere.
- The copies of a row that `Evaluate` and `Pool.Pick` hold are values; aliasing between them and the store does not arise in the source either.
