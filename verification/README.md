# Courier OS: finance and custody proofs

A Dafny 4.11 model of the state machines that move money and parcels in the
courier back end, with proofs of what every run of them keeps. `dafny verify
dfyconfig.toml` checks the whole project.

## What is modelled

All state lives in database rows. A table is a sequence whose positions are the
row ids (or a map, where rows are deleted), a database transaction is a pure
function that returns the tables it commits or the error with which it rolls
back, and a run is a sequence of scheduled transactions. Where a request reads
before it writes, its writing half is scheduled on its own, so a run covers
every interleaving of reads and writes, stale ones included. Sums over rows
(`Sums.Sum`) stand for the SQL aggregates.

| files | subject | core source |
|---|---|---|
| `Ledger` | double-entry posting, idempotency keys, reversal, balances | `internal/ledger`, `db/queries/ledger.sql` |
| `CodModel`, `CodInvariant`, `CodLaw`, `CodTheorems`, `CodBooks`, `CodEffects`, `CodRuns`, `CodService` | COD custody: collections, hand-overs, remittances, adjustments, counts | `internal/cod`, `db/queries/cod.sql`, `db/migrations/0022_cod.up.sql` |
| `Sessions`, `SessionRuns`, `SessionService` | refresh-token rotation with reuse detection, password reset links | `internal/auth/service.go`, `internal/dbgen/auth.sql.gen.go` |
| `InvoiceLines`, `InvoiceNumbers`, `Billing`, `BillingInvariant`, `BillingLaw`, `BillingBooks`, `BillingEffects`, `BillingRuns`, `BillingService` | invoice building, numbering, issue, payment, notes | `internal/billing`, `internal/dbgen/billing.sql.gen.go` |
| `Money`, `Slabs`, `RuleSelection`, `Commission`, `CommissionService` | commission arithmetic, slab tables, rule precedence, calculate/post/reverse | `internal/commission`, `internal/platform/money` |
| `Bagging`, `BaggingService` | bags, their counters, declarations and corrections | `internal/bagging` |
| `Credit` | customer credit and its append-only history | `internal/customer/customer.go` |

Code that updates rows step by step is a class (`...Service`) whose methods
carry the source's checks and loops in its order; each method keeps the
invariant of its tables, is proved to commit exactly the transaction function,
and says what that is on the columns of the rows and the balances of the
accounts, not through the function. The theorems are about runs of those
functions. `...Books` has, for every account of the ledger and every run, the
documents its balance comes from; `...Effects` has what each transaction writes
and exactly when it commits.

## Where the code and its documentation differ

The model follows the code.

- COD chain. `internal/cod/cod.go:5` and `:25-27` describe cash going from agent
  to branch to franchise. Transfer items are inserted as INCLUDED and nothing
  moves them out of it, and `cod_custody_transfer_items_active_idx`
  (`db/migrations/0022_cod.up.sql:235-237`) admits one such item per obligation,
  so an obligation can be on one transfer only. `CodRuns.ChainStopsAtBranch`
  is a concrete run; `CodTheorems.DeclareSucceedsIff` says exactly when a
  hand-over can be declared.
- COD hand-in of nothing. A receiver who counts zero cannot accept, reason or
  not: the ledger refuses a zero leg (`CodTheorems.AcceptSucceedsIff`).
- COD position. `internal/cod/cod.go:15-17` says the two views must agree.
  `CustodyPosition` sums every account bound to the party, COD Shortage
  Recoverable included, so they agree exactly when the recorded variances cancel
  (`CodTheorems.PositionLaw`); with exact counts they do
  (`CodTheorems.HandOverLaw`), and after one short count they do not
  (`CodRuns.ShortCountDisagrees`).
- Refresh race. The comment at `internal/auth/service.go:280-282` says a
  concurrent refresh trips reuse detection. Reuse detection looks at the row that
  was read, so the loser of a race is refused without effect and the winner's
  session stays usable (`Sessions.LoserChangesNothing`, and
  `SessionRuns.RaceLeavesWinner` for a concrete race); a chain is condemned exactly
  when the token presented has already minted a session
  (`Sessions.ReuseIffRotated`), so by every refresh that reads it later
  (`Sessions.LateReadKills`).
- Payment replay. `internal/billing/billing.go:551-552` says a payment is idempotent
  on (invoice, reference). The probe runs before the invoice is locked and no
  index covers the reference, so two requests that probe before either writes
  both bank it, exactly when the invoice owes twice the amount
  (`BillingLaw.BanksTwiceIff`; `BillingRuns.ReferenceBankedTwice` is a concrete
  run). A request that probes afterwards is answered
  without effect (`BillingLaw.ReplayedPayment`).
- Receivable against outstanding. A credit note is not rechecked when it is
  issued, and crediting no invoice is tolerated; it keeps the two equal exactly
  when its invoice is open and owes at least its total
  (`BillingLaw.NoteKeepsGapIff`; in `BillingRuns.BalanceCreditedTwice` one balance
  is credited twice). `BillingLaw.GapLaw` gives the difference in
  every run.
- Rule precedence. `db/queries/commission.sql:67` and
  `db/migrations/0021_commission.up.sql:114` call specificity the count of bound
  dimensions. It is a weighted sum: one franchise precedes six other bindings
  (`RuleSelection.FewerDimensionsCanPrecede`). A rule precedes every rule that
  binds fewer dimensions exactly when all of its dimensions but one come from the
  heavy end: with two or more the franchise, with three the unit, then the
  franchise category, the service, a zone, and with seven both zones
  (`RuleSelection.CountDecidesIff`). A rule that binds strictly more of the same
  dimensions always precedes (`RuleSelection.NarrowerPrecedes`).
- Forward parcels at hubs. Bagging accepts hub-received states
  (`internal/bagging/bagging.go:409-413`), but the shipment life cycle enters
  ORIGIN_BAGGED from the origin branch only (`internal/shipment/state.go:171`),
  so such parcels are refused (`Bagging.AddSucceedsIff`).
- A commission of zero is never posted, so it holds its key for ever
  (`Commission.ZeroStays`).

## Model

| member | source | states |
|---|---|---|
| Ledger.PostEffect | internal/ledger/ledger.go:219-345 | A posting replays the live journal of its key and changes nothing, or appends one sound journal and moves every balance by its legs |
| Ledger.TrialBalance | internal/ledger/reports.go:80-135 | Debits equal credits over every sound book |
| Ledger.ReverseEffect | internal/ledger/ledger.go:349-470 | A reversal cancels the original in every balance, marks it reversed, and touches no other journal |
| CodTheorems.PositionLaw | internal/cod/reconciliation.go:541-568 | In every run of every COD operation, held minus ledger balance is the recorded variances, and the position reports agreement exactly when they cancel |
| CodTheorems.HandOverLaw | internal/cod/cod.go:482-760 | In runs of collections and hand-overs with any counted amounts, held minus receivable is the total shortfall on transfers the party accepted; with exact counts the position agrees |
| CodRuns.ShortCountDisagrees | internal/cod/reconciliation.go:541-568 | A concrete run with a short count after which the branch holds 500, owes 400 and does not agree |
| CodLaw.StepLaw | internal/cod/cod.go:300-1145 | Every COD transaction keeps the receivable, shortage and consignor laws, for every party |
| CodInvariant.StepKeeps | db/migrations/0022_cod.up.sql:23-440 | Every COD transaction keeps status and custodian consistent, one active transfer per obligation, one collection per attempt and device event, and journals only for documents that reached their state |
| CodTheorems.JournalsBalance | internal/cod/cod.go:1149-1227 | Every journal the COD module builds balances, for all amounts, variances, beneficiaries and adjustment kinds |
| CodTheorems.LedgerBalances | internal/ledger/reports.go:122-135 | The whole ledger balances after every COD run |
| CodBooks.AccountsFollowDocuments | internal/cod/cod.go:291-1227 | In every run, for every account of the ledger, the balance is what the collections, accepted transfers, confirmed remittances, posted adjustments and completed counts put on it: cash from what was banked and repaid less what was paid out and refunded, the excess until refunded or retained, the expense from write-offs and waivers only |
| CodTheorems.StatusNamesCustodian | internal/cod/cod.go:170-183 | In every run the status of a row in custody says which kind of custodian has it |
| CodTheorems.AccountNamesCustodian | internal/cod/cod.go:154-169 | In every run agents owe on the agents' account and units on the branches' only; on the franchises' only an adjustment books another kind of party |
| CodTheorems.ConsignorLiability | internal/cod/cod.go:32-36 | The liability to the senders is collections minus confirmed consignor payments, whatever custody does |
| CodTheorems.BankedOnce | internal/cod/cod.go:291-445 | However requests interleave, an obligation leaves EXPECTED with exactly one collection row and one COLLECTION journal |
| CodEffects.OpenEffect | internal/cod/cod.go:193-242 | The first opening of a shipment adds its row, a further one changes nothing, and an amount that is not positive is refused |
| CodEffects.CollectSucceedsIff | internal/cod/cod.go:371-445 | Exactly when a collection is banked: an expected row, a positive amount of an agent, the currency of the books, and no collection of the same attempt or device event |
| CodTheorems.ReplayAnswersTheSame | internal/cod/cod.go:329-369 | A replay of a banked attempt or device event, at any later time, is a duplicate and changes nothing; it is answered with that collection exactly when it is the attempt's own or the attempt has none, and otherwise with the attempt's own |
| CodTheorems.AcceptSucceedsIff | internal/cod/cod.go:615-751 | Exactly when a declared transfer can be accepted; never with a count of zero |
| CodTheorems.DeclareSucceedsIff | internal/cod/cod.go:482-590 | Exactly when a hand-over can be declared: distinct obligations, with the giver, at the giver's stage, in one currency, never on a transfer before |
| CodEffects.DeclareEffect | internal/cod/cod.go:541-582 | The transfer that is added lists each obligation once at what is left on it, in their one currency |
| CodTheorems.LockedAllIff | internal/cod/cod.go:506-515 | The length check refuses exactly the requests that repeat an obligation |
| CodTheorems.SecondHopRefused | db/migrations/0022_cod.up.sql:233-237 | Cash that has been on one transfer is refused on every later one, whatever happened since |
| CodRuns.ChainStopsAtBranch | internal/cod/cod.go:5-27 | A concrete run in which agent to branch succeeds and branch to franchise is refused |
| CodEffects.RemitSucceedsIff | internal/cod/cod.go:789-833 | Exactly when a remittance is created: by a unit or a franchise, for known obligations that are at its stage or counted |
| CodEffects.ConfirmSucceedsIff | internal/cod/cod.go:872-990 | Exactly when a remittance is confirmed: once, in the currency of the books, from a named party when it is banked |
| CodEffects.RequestEffect | internal/cod/cod.go:1011-1060 | When an adjustment is asked for, and that its row has the columns of the request and waits for approval |
| CodEffects.ApproveSucceedsIff | internal/cod/cod.go:1076-1227 | Exactly when an adjustment is approved: by a second person, once, in the currency of the books unless both of its accounts are a party's |
| CodEffects.RecordCountEffect | internal/cod/reconciliation.go:138-190 | A count rewrites the one line of its obligation or adds one, MISSING, SHORT, EXCESS or MATCHED by what is left on the obligation then; the expected amount of an existing line stays |
| CodEffects.CompleteSucceedsIff | internal/cod/reconciliation.go:205-307 | Exactly when a count is completed: once, and with a reason and an acceptable posting when any line is out |
| CodEffects.CompleteEffect | internal/cod/reconciliation.go:255-345 | Every row in custody that a line found is RECONCILED with the cash and the custodian it had and adjusted by counted less expected, no other row changes, the header takes the totals, and each party holds less by what its released rows were worth |
| CodTheorems.ShortageNeedsChecker | internal/cod/cod.go:1076-1145 | A recorded shortage falls only by an adjustment whose liable kind and id name that party, approved by someone other than its requester |
| CodService.Service.RecordCollection | internal/cod/cod.go:300-460 | Commits exactly RecordCollection: a new collection puts the shipment's own row in the agent's hands, adds a row with the columns of the request, and moves the agent's receivable, the consignor liability and no other balance; a replay changes nothing |
| CodService.Service.CheckHandOver | internal/cod/cod.go:517-540 | The scan finds the first row that cannot be handed over, or the total outstanding of all of them |
| CodService.Service.ListItems | internal/cod/cod.go:564-582 | The loop stops at the first obligation already on a transfer, or lists every locked row at what is outstanding on it |
| CodService.Service.DeclareTransfer | internal/cod/cod.go:482-590 | The method commits exactly DeclareTransfer, or changes nothing and reports its error |
| CodService.Service.AcceptTransfer | internal/cod/cod.go:615-751 | Commits exactly AcceptTransfer: every carried row and no other goes to the receiver at the receiver's stage, and receivables, shortage and excess move by what was declared and counted, or nothing |
| CodService.Service.CheckRemittable | internal/cod/cod.go:816-833 | The scan accepts exactly the remittable rows and totals what is left on them |
| CodService.Service.CreateRemittance | internal/cod/cod.go:789-869 | Commits exactly CreateRemittance: succeeds exactly for rows at the stage or counted, and adds one row that lists each once at what is left on it |
| CodService.Service.ConfirmRemittance | internal/cod/cod.go:872-990 | Commits exactly ConfirmRemittance: each listed row that was still out is REMITTED, without custodian and remitted by its item, no other row changes, and cash moves against the custodian or the consignor liability |
| CodService.Service.ApproveAdjustment | internal/cod/cod.go:1076-1145 | Commits exactly ApproveAdjustment: only a second person posts it, once; the shortage and receivable of the party its columns name move by what the kind says and no other party's, and so does each account: cash, written off, excess or other revenue |
| CodService.Service.OpenReconciliation | internal/cod/reconciliation.go:51-127 | Succeeds exactly when the custodian has no open count; adds one MISSING line for each of the oldest 5000 obligations held, at what is left on it |
| CodService.Service.ReleaseCounted | internal/cod/reconciliation.go:328-345 | Every row in custody that a line names and did not miss is RECONCILED and adjusted by counted less expected; every other row is unchanged |
| CodService.Service.CompleteReconciliation | internal/cod/reconciliation.go:205-345 | Commits exactly CompleteReconciliation: the rows that were found are released, the party holds less by what they were worth, header and accounts take the shortage and the excess of the lines, or nothing |
| Sessions.ChainIsLine | internal/auth/service.go:183-329 | In every run each chain is one parent-linked line with counters 0, 1, 2, ..., one expiry and one user, ROTATED throughout but for the last |
| Sessions.OneLiveSession | internal/auth/service.go:275-310 | At most one session of a login is usable, and it is the last one minted |
| Sessions.RotatedIffParent | internal/auth/service.go:283-309 | A session is ROTATED exactly when it has a child |
| Sessions.OneChild | internal/auth/service.go:280-295 | However refreshes race on one token, it never mints two children |
| Sessions.PurgeWholeChains | internal/dbgen/auth.sql.gen.go:1513-1515 | The purge removes a chain as a whole or not at all, and changes no row it leaves |
| Sessions.DeadStaysDead | internal/auth/service.go:248-291 | A chain without a usable session never gains one, whatever any refresh had read before |
| Sessions.KilledForGood | internal/auth/service.go:342-365 | A request that decided to revoke a chain kills it in every continuation |
| Sessions.RefreshDecides | internal/auth/service.go:248-263 | A refresh decides to rotate exactly a session that is live, not expired and of an active account, to kill the chain exactly of a rotated one or of an inactive account, and otherwise nothing |
| Sessions.LapsedChainEnds | internal/auth/service.go:257-259 | Once the clock has passed the expiry of a login and no refresh is under way, its chain mints no further session in any continuation |
| Sessions.ReuseIffRotated | internal/auth/service.go:248-255 | In every run, presenting a token condemns its chain for reuse exactly when the token has already minted a session |
| Sessions.LateReadKills | internal/auth/service.go:248-255 | A refresh that reads a token at any time after another refresh won with it decides to kill the chain, and kills it |
| Sessions.LoserChangesNothing | internal/auth/service.go:279-291 | The loser of a refresh race has no effect and leaves the winner's child usable |
| SessionRuns.RaceLeavesWinner | internal/auth/service.go:279-291 | A concrete race after which one token was presented twice, the chain has a usable session and nothing is about to kill it |
| Sessions.ResetEvicts | internal/auth/service.go:520-560 | A password reset leaves every chain of the user dead in every continuation |
| Sessions.ResetOnce | internal/auth/service.go:488-537 | A reset link is redeemed at most once, and only the newest link of a user works |
| SessionService.Service.Refresh | internal/auth/service.go:235-329 | Succeeds exactly when the token's session is stored, live, not expired and of an active account; then it mints the one usable session of its chain. A rotated token or an inactive account ends the chain, and an expired or otherwise revoked one changes nothing |
| SessionService.Service.Logout | internal/auth/service.go:370-411 | Signing out revokes the presented chain or every session of the user, and the current session, for that cause, and nothing else |
| SessionService.Service.ResetPassword | internal/auth/service.go:520-560 | A redemption succeeds on an unused, unexpired link only, uses it up, and revokes every session of the user |
| SessionService.Service.ChangePassword | internal/auth/service.go:415-460 | Every session of the user is revoked and every reset link of the user used up |
| SessionService.Service.RequestPasswordReset | internal/auth/service.go:472-517 | The new link works and every earlier link of the user does not |
| SessionService.Service.PurgeExpired | internal/dbgen/auth.sql.gen.go:1513-1515 | Exactly the sessions past the cutoff go, and no parent pointer of a survivor changes |
| Money.RoundsToNearest | internal/platform/money/money.go:169-190 | For every divisor, rounding gives the nearest whole, halves away from zero, and nothing else does |
| Money.ApplyBPNear | internal/platform/money/money.go:158-160 | A percentage is off by at most half a minor unit |
| InvoiceLines.BuildLines | internal/billing/billing.go:271-418 | Both forms get the same header; lines sum to its discount, taxable and tax, and to its total exactly when the tax is not negative; per-AWB amounts sum to the taxable total |
| InvoiceLines.TaxNear | internal/billing/billing.go:350-382 | Tax is within half a minor unit per component of the exact value |
| InvoiceLines.HeaderAddsUp | internal/billing/billing.go:339-397 | Subtotal less discount is taxable, and taxable plus tax is total |
| InvoiceNumbers.PrintRoundTrip | internal/billing/billing.go:1034-1046 | The printed form determines prefix, both years and number, whatever the padding |
| InvoiceNumbers.FinancialYearSpans | internal/billing/billing.go:1038-1046 | A financial year runs from April to the March of the next year |
| BillingLaw.GaplessNumbers | internal/billing/billing.go:992-1035 | Each of 1..n of a counter is on exactly one document and no other number is on any, in every run |
| BillingLaw.InvoicesAreNumbered | internal/billing/billing.go:465-506 | The invoices of a financial year carry exactly 1..n |
| BillingLaw.InvoicesPrintApart | internal/billing/billing.go:465-506 | Two issued invoices never print alike, whatever prefix and padding were configured when |
| BillingLaw.IssueBalancesIff | internal/billing/billing.go:471-491 | The journal of an issue balances exactly when the tax is not negative |
| BillingLaw.DraftJournalBalances | internal/billing/billing.go:350-491 | Non-negative rates on a non-negative taxable sum give a journal that balances, in either form |
| BillingLaw.IssueSucceedsIff | internal/billing/billing.go:435-530 | Every draft that asks for money of a known customer can be issued until its counter is exhausted; its number is never taken |
| BillingLaw.ReceivableIsOutstanding | internal/dbgen/billing.sql.gen.go:1105-1113 | In every run that commits no debit note, no cancellation of an issued invoice and no credit above what is due at issue, the customer's receivable is the outstanding sum |
| BillingLaw.GapLaw | internal/billing/billing.go:804-870 | In every run at all, receivable minus outstanding is closed remainders plus debit notes minus credits that reached no invoice |
| BillingLaw.NoteKeepsGapIff | internal/billing/billing.go:857-870 | An issued credit note keeps the two as far apart as they were exactly when its invoice is open and owes at least its total |
| BillingLaw.IssueNoteIff | internal/billing/billing.go:770-870 | Exactly when a note is issued; of what the invoice still owes only the slack of 100 is checked, and only while it is open |
| BillingRuns.BalanceCreditedTwice | internal/billing/billing.go:857-870 | A concrete run in which one balance of 200 is credited twice: the books owe the customer 200 and nothing is outstanding |
| BillingLaw.StatusFollowsArithmetic | internal/dbgen/billing.sql.gen.go:2275-2364 | Open invoices owe something, PAID ones nothing, CANCELLED ones were paid nothing; paid is the sum of the payment rows and at most the total |
| BillingBooks.AccountsFollowDocuments | internal/billing/billing.go:471-491 | In every run, for every account of the ledger: freight revenue is the taxable of issued invoices, tax payable their tax less that of issued credit notes and plus that of issued debit notes, cash the payments, discounts and other revenue the subtotals of credit and debit notes |
| BillingEffects.RaiseEffect | internal/billing/billing.go:688-760 | When a note is raised, a credit only up to what the invoice owes then, and that its row has the columns of the request |
| BillingEffects.CancelEffect | internal/dbgen/billing.sql.gen.go:255-262 | A draft, or an issued invoice nothing was paid on, can be cancelled; only its status changes |
| BillingEffects.OverdueEffect | internal/dbgen/billing.sql.gen.go:2275-2283 | Issued and partially paid invoices past their due date become OVERDUE; nothing else changes |
| BillingLaw.PayIff | internal/billing/billing.go:585-668 | Exactly when the locked half of a payment commits |
| BillingLaw.ReplayedPayment | internal/billing/billing.go:575-592 | A request that probes after its reference was banked changes nothing, ever after |
| BillingLaw.BanksTwiceIff | internal/billing/billing.go:551-668 | A request that probed before banks the reference a second time exactly when the invoice owes twice the amount and a number is left |
| BillingRuns.ReferenceBankedTwice | internal/billing/billing.go:551-668 | A concrete run in which one reference is banked twice, while the same request probing in between changes nothing |
| BillingInvariant.StepKeeps | db/migrations/0024_billing.up.sql:120-160 | Every billing transaction keeps statuses, stamps and counters consistent and journals only for stamped documents |
| BillingService.Service.Draft | internal/billing/billing.go:171-418 | Commits exactly DraftInvoice: succeeds exactly for some shipments and rates from 0 to 1000000 wherever they yield a tax; one draft with the header of its shipments and lines that agree with it in either form |
| BillingService.Service.Issue | internal/billing/billing.go:435-530 | Commits exactly IssueInvoice: the next number of its April to March year, lines that add up to the total, the customer's receivable up by it, freight revenue by the taxable, tax payable by the tax, and no other account |
| BillingService.Service.RecordPayment | internal/billing/billing.go:553-672 | Commits exactly RecordPayment: a banked reference changes nothing; otherwise one payment with its number, paid up and receivable down by the amount, never past what is due, and PAID exactly when nothing is left |
| BillingService.Service.IssueCreditNote | internal/billing/billing.go:770-885 | Commits exactly IssueNote: by a second person and with the next number, moving the receivable by the total, tax payable by the tax, and the invoice when it is still open |
| Slabs.ValidateSlabs | internal/commission/calculator.go:301-349 | Accepts exactly the tables with legal amounts and rates whose bands partition the non-negative integers; an error names a fault the table has |
| Slabs.SortIsStable | internal/commission/calculator.go:281-283 | The sort keeps the table order of bands with equal lower bounds |
| Slabs.SelectSlab | internal/commission/calculator.go:277-299 | Returns the first covering band of the sorted table with its position, or fails when none covers |
| Slabs.SelectsTheBand | internal/commission/calculator.go:272-299 | On an accepted table every non-negative value finds the one band that covers it, and no negative value finds any |
| Slabs.OrderIrrelevant | internal/commission/calculator.go:272-283 | A reordered accepted table selects the same band |
| Slabs.OverlapPaysByOrder | internal/commission/calculator.go:332-334 | A concrete overlapping table that pays by order, which is why it must be refused |
| Slabs.Calculate | internal/commission/calculator.go:182-264 | Pays the gross of its method, the floor when that is lower and the ceiling leaves room, and never more than the ceiling; fails exactly when there is no gross or the bounded one is negative; says when a bound changed it |
| Slabs.BasisColumns | internal/commission/calculator.go:104-127 | Each basis names its own column, freight plus surcharge two, and an unknown one none |
| Slabs.SlabRulePaysIff | internal/commission/calculator.go:213-263 | An accepted slab rule fails to pay only for an unknown or negative basis or a negative ceiling |
| Slabs.CommissionOrderIrrelevant | internal/commission/calculator.go:272-283 | Reordering an accepted table changes no commission |
| RuleSelection.CandidateFacts | internal/dbgen/commission.sql.gen.go:1597-1615 | The query returns exactly the matching rules, strictly ordered |
| RuleSelection.MatchesIff | internal/dbgen/commission.sql.gen.go:1597-1611 | A rule matches exactly when it and its scheme are active, the type and scheme agree, and every dimension it binds is the very fact |
| RuleSelection.WinnerIsBest | internal/commission/commission.go:99-107 | The winner is the unique maximum by specificity, priority and lowest id; there is none only when nothing matches |
| RuleSelection.RowOrderIrrelevant | internal/dbgen/commission.sql.gen.go:1597-1615 | Row order does not change the winner |
| RuleSelection.AddingRule | db/queries/commission.sql:65-72 | A newer matching rule wins exactly when it is more specific, or as specific with higher priority |
| RuleSelection.CountDecidesIff | db/queries/commission.sql:65-72 | A rule precedes every rule with fewer bound dimensions exactly when all of its dimensions but one come from the heavy end |
| RuleSelection.NarrowerPrecedes | db/migrations/0021_commission.up.sql:114-131 | A rule that binds everything another binds, and more, precedes it |
| RuleSelection.FewerDimensionsCanPrecede | db/migrations/0021_commission.up.sql:114-131 | A rule with one bound dimension that precedes one with six |
| Commission.NeverPaidTwice | internal/commission/commission.go:254-596 | In every run each (shipment, type, recipient) has one live calculation, its entries net to its POSTED amount or zero, and every account is the sum over POSTED rows: the accrual of all, the two expenses of volume incentives and of the rest |
| Commission.StepKeeps | internal/commission/commission.go:254-596 | Every transaction keeps the entry law and the law of every account |
| Commission.RecalculateIff | internal/commission/commission.go:254-367 | In every run, exactly when a commission can be calculated: for a recipient, with an amount, beside no live calculation of its key, and, when posted at once, with a zero amount or a currency the ledger holds |
| Commission.PostSucceedsIff | internal/commission/commission.go:384-510 | Exactly when a calculation is posted: while it waits, with nothing to post or in the currency of the books |
| Commission.ReverseSucceedsIff | internal/commission/commission.go:518-596 | Exactly when a calculation is reversed: for a reason, while it is POSTED |
| Commission.ZeroStays | internal/commission/commission.go:393-397 | A calculation of zero keeps its row and its key for ever |
| CommissionService.Service.Calculate | internal/commission/commission.go:254-367 | A retried event gets the live calculation and changes nothing; otherwise the method commits exactly CalculateWrite or nothing |
| CommissionService.Service.Post | internal/commission/commission.go:384-510 | Commits exactly PostWrite: a waiting calculation is POSTED with one entry of its amount, the accrual and the expense of its type grow by it, and a second post fails |
| CommissionService.Service.Reverse | internal/commission/commission.go:518-596 | Commits exactly ReverseWrite: a POSTED calculation is REVERSED with one entry against it, the accrual is taken back and the key is free again |
| Bagging.CountersMatchContents | internal/dbgen/bagging.sql.gen.go:1061-1070 | In every reachable state a bag's counters are the count and sums over its IN_BAG items and within its limits |
| Bagging.NeverInTwoBags | db/migrations/0014_bagging_manifest.up.sql:124-128 | No shipment is in two bags |
| Bagging.AddSucceedsIff | internal/bagging/bagging.go:267-480 | Exactly when a scanned shipment goes into a bag, by the columns of bag, shipment and items |
| Bagging.AddEffect | internal/bagging/bagging.go:320-397 | One item with the shipment's pieces and weight is in the bag, the header counts it, and the shipment points to the bag, a forward one as ORIGIN_BAGGED |
| Bagging.RemoveEffect | internal/bagging/bagging.go:490-575 | Exactly when a removal succeeds: from an open bag that holds the shipment, which is then back at its origin and counted no more |
| Bagging.CorrectEffect | internal/bagging/lifecycle.go:457-535 | Exactly when a correction succeeds: under a reason and an exception, as a removal from a bag that is not open and holds the shipment |
| Bagging.AdvanceEffect | internal/bagging/lifecycle.go:233-330 | The edges after closing and no other, with the destination check on receiving and opening; only the status changes |
| Bagging.CreateEffect | internal/bagging/bagging.go:115-215 | A bag is made open and empty, between two different units and with positive limits |
| Bagging.DeclaresContents | internal/bagging/lifecycle.go:62-185 | Closing writes the first declaration, which lists exactly what is in the bag, with header sums over that list |
| Bagging.DeclarationStands | internal/bagging/lifecycle.go:449-456 | A declaration never changes, and its bag never reopens |
| Bagging.DeclaredMinusExceptions | internal/bagging/lifecycle.go:457-535 | From closure on, contents are the declaration less the items removed under a recorded exception |
| Bagging.OneResultEach | internal/bagging/bagging.go:227-265 | Results match the barcodes one for one in order, and added plus rejected is their number |
| Bagging.RejectedLeaveNoTrace | internal/bagging/bagging.go:222-265 | An uninterrupted batch ends in the state its accepted barcodes alone lead to, and alone they are all accepted |
| Bagging.RefusedAmongOthers | internal/bagging/bagging.go:227-265 | With any other transactions between its scans, a batch ends as if its refused scans had not been made, and every other scan is then accepted |
| Bagging.BatchIsSchedule | internal/bagging/bagging.go:227-265 | The uninterrupted batch is that schedule with scans only |
| BaggingService.Service.AddOne | internal/bagging/bagging.go:267-397 | Commits exactly AddOne: one item more, counted and within the limits, with its shipment in the bag, or every table as it was |
| BaggingService.Service.AddItems | internal/bagging/bagging.go:227-265 | The loop computes exactly the batch, with one result per barcode and exact tallies |
| BaggingService.Service.RemoveItem | internal/bagging/bagging.go:490-575 | Succeeds exactly for an open bag that holds the shipment; one item less, and that shipment released, or every table as it was |
| BaggingService.Service.BuildSnapshot | internal/bagging/lifecycle.go:158-185 | The loop lists exactly the bag's contents, in order |
| BaggingService.Service.Close | internal/bagging/lifecycle.go:62-153 | Succeeds exactly for an open bag that is not empty, and writes the declaration of its contents, or changes nothing and reports its error |
| BaggingService.Service.Advance | internal/bagging/lifecycle.go:233-330 | Succeeds exactly along the edges dispatch, receive, open and reconcile, received and opened only where the bag is addressed, contents and declaration unchanged |
| BaggingService.Service.Correct | internal/bagging/lifecycle.go:457-535 | Succeeds exactly under a reason and an exception, as a removal after closing; one shipment is taken out, and the declaration stands |
| Credit.HistoryReproducesCounter | internal/customer/customer.go:93-194 | In every run credit used is the sum of the entries and never negative, and each entry carries the running balance |
| Credit.RaisesWithinLimit | internal/customer/customer.go:115-130 | Only a reservation raises what is used, by its amount, on an account in good standing, and within the limit then in force |
| Credit.ReserveSucceedsIff | internal/customer/customer.go:99-130 | Exactly when credit is reserved: nothing is asked for, or a known customer in good standing stays within the limit |
| Credit.ReleaseEffect | internal/customer/customer.go:153-194 | A release gives back what was asked for, or all that is used when that is less, with its entry |
| Credit.ReviewEffect | db/queries/customer.sql:220-231 | A review sets limit and standing and keeps what is used; a negative limit is refused |
| Credit.CancelUndoesBook | internal/customer/customer.go:153-194 | Releasing what was reserved, whatever happens to other customers and limits in between, gives back exactly the amount; with no booking in between the use is what it was |
| Credit.Service.ReserveCredit | internal/customer/customer.go:99-150 | Commits exactly Reserve: succeeds exactly within the limit in good standing, with the use and the history up by the amount, and keeps the history law |
| Credit.Service.ReleaseCredit | internal/customer/customer.go:153-194 | Commits exactly Release: the use and the history go down by the amount or by all that is used, and the history law is kept |

## Left out

- Integer width: amounts are unbounded; `money` panics on overflow and rolls back, which is not modelled.
- Infrastructure failures, authorization and unit scope, closed accounting periods, audit rows, event rows, metrics, caches and HTTP handling: each only aborts a transaction or adds rows no property reads.
- Isolation: each transaction is one atomic step; where the source reads without a lock before it writes, the writing half is scheduled separately instead.
- Time: clocks are parameters of the steps and need not advance; effective dates, supersession and looking up a past rule version are not modelled.
- COD disputes and the payment-mode reference check: they move no cash and no balance.
- Postings by settlement to accounts of the same parties: internal/settlement is not part of this model, so the COD and commission balances are those their own modules post.
- `lastHolder` on an obligation is a history variable, not a column; no operation's outcome depends on it.
- Commission CANCELLED status: no operation reaches it. Commission inputs and traces are not modelled.
- Cancelling an invoice and marking invoices overdue are modelled as their statements; the service layer calls neither.
- InvoiceNumbers.PrintRoundTrip: covers years from 1 on, the years a calendar date has.
- One shipment billed once (`invoice_shipments_billed_once_idx`) and billing runs: a unique index with no arithmetic.
- Operations that only insert one row (OpenObligation, RequestAdjustment, RecordCount, RaiseCreditNote, Create) and the statements without a service caller have no method beside their function.
- Bag seals, bag cancellation (no operation takes that edge) and the shipments a dispatch moves along; any other change to shipments and barcodes is the `World` event, which may do anything to them.
- Password hashes, token digests and access tokens: a token stands for its row.
- Shipment life cycle beyond the two bagging edges, manifests, pricing, franchise counters, analytics, import scripts and user interfaces.
