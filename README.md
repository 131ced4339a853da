# TruePass marketplace ledger, in Dafny

TruePass is a ticketing marketplace. Organizers mint tickets for their events. A reseller
buys tickets wholesale from the organizer that created its account, then lists them
for resale under the event's price cap. Customers fill a cart and check out. Every
movement of money or tickets is written to an append-only ledger.

This project models the state machine behind the route handlers of `app.py`. There
are five tables:
- accounts, keyed by wallet address;
- events;
- tickets;
- cart lines;
- the ledger.

There are ten operations, and each is modelled twice:

- **`Market` (market.dfy):** each route handler as a pure function from the state
  before the request to `Ok(state committed)` or `Err(reason)`.
- **`Engine.Store` (store.dfy):** a class whose fields are the tables. Its methods
  update them in place, with the source's loops: minting, ticket selection, ticket
  handover with one ledger entry per ticket, relisting, and the checkout line loop.
  Each method is proved to commit exactly what its `Market` function says. A refused
  request leaves every field unchanged (`Market.Applied`). Each method also keeps the
  consistency invariant `Market.Inv`.

The properties are proved as lemmas about the `Market` functions:
- `CheckoutProps`: checkout;
- `TradeProps`: wholesale, listing, wallet, events, staff and cart;
- `Invariants`: every operation keeps `Inv`.

The module layout:
- `Types`: the records.
- `Policy`: the permission predicates.
- `Balances`: crediting an account and the sum of all balances.
- `Selection`: `filter_by(...).limit(n)` queries.
- `Transfer`: the per-ticket loops.
- `Cart`: the cart queries and sums.

Modelling choices:
- Money is an integer number of cents.
- Ticket and event ids are positions in their sequences, counting from 0.
- Cart line ids come from a counter.
- Hashes, wallet addresses of new staff, and the acting account are inputs.
- The ticket queries have no ORDER BY. The model returns matching tickets in ascending
  id order.
- The cart queries have no ORDER BY either: the `.first()` lookup when adding to the
  cart and the list of lines checkout walks. The model takes cart lines in insertion
  (id) order for both.
- A negative `limit` returns every match, as SQLite treats a negative LIMIT as no
  limit. Quantities come from `int()` on form input and are not sign-checked.

In these cases the model follows what the code does, even where another behaviour
might have been intended:
- **Zero supply:** `create_event` writes its MINT entry only when at least one ticket
  is minted.
- **Top-up:** a top-up accepts any amount.
- **bulk_list:** has no role check.
- **Cart merge key:** the cart merges lines on (user, event, price) and ignores the
  seller.
- **Listed prices:** the invariant on listed prices is "at most the cap, or the
  wholesale price set at minting". `create_event` never checks that the wholesale
  price is within the cap, so "listed prices never exceed the cap" holds only for
  tickets listed through `bulk_list`.
- **Non-negative balances:** keeping balances non-negative is proved only for
  withdrawals (always), for bulk_acquire when the quantity and the wholesale price are
  non-negative, and for checkout when quantities and prices are non-negative. A
  negative top-up or quantity is not refused.

## Model

| member | source | states |
|---|---|---|
| Balances.Credit | app.py:282 | crediting d changes exactly one account's balance by d and keeps every other account and field |
| Balances.CreditTotal | app.py:282 | crediting d to one account raises the sum of all balances by exactly d |
| Balances.TransferTotal | app.py:436-437 | moving an amount from one account to another keeps the sum of all balances |
| Balances.TotalBalanceWithout | app.py:27 | the sum of balances can start from any account (the sum is independent of order) |
| Policy.MayCreateStaff | app.py:180-182 | staff may only be created one level down the hierarchy, never a customer, never by a reseller or customer |
| Policy.MayManage | app.py:153-157 | an admin may manage exactly the organizers and an organizer exactly its own resellers: a managed account is one level below the manager, never an admin or customer |
| Policy.FromParent | app.py:420 | the hierarchy check passes exactly when the account's parent is the event's creator, so never for an account with no parent |
| Policy.WithinCap | app.py:457 | bulk_list's check passes exactly when the price is at most the cap |
| Selection.MatchingBelow | app.py:365-370 | the ids below n of matching tickets: all of them, only them, ascending |
| Selection.MatchingBelowPrefix | app.py:365-370 | scanning further only extends the list of matches |
| Selection.Selected | app.py:370 | `.limit(n)` returns matching ids in range, ascending, min(n, count) of them, or all when n is negative |
| Selection.SelectedFirst | app.py:370 | the query skips no match: matches below a selected id are selected, and all matches are when the limit is not reached |
| Selection.FirstMatches | app.py:370 | a prefix of the matches leaves out no match below its last id |
| Selection.Select | app.py:365-370 | the scanning query loop returns exactly `Selected` |
| Transfer.ReceiptsLog | app.py:386 | the receipts of distinct ids log exactly those tickets, each once |
| Transfer.HandoverMoves | app.py:382-386 | selling distinct listed tickets with one receipt each is a move to the buyer |
| Transfer.ComposeMoves | app.py:363-386 | two moves to the same buyer in a row are one move with both sets of entries |
| Transfer.MovesChain | app.py:363-386 | two moves appended to the ledger in turn are one appended move |
| Transfer.MoveTickets | app.py:382-386 | the handover loop sells each selected ticket and appends one entry per ticket |
| Transfer.ListTickets | app.py:463-465 | the listing loop lists exactly the selected tickets at the price |
| Cart.LinesOf | app.py:350 | a user's cart lines: every line of that user and nothing else |
| Cart.Without | app.py:389 | deleting a user's lines keeps every other line and no line of that user |
| Cart.Drop | app.py:343 | deleting by (id, user) keeps every other line |
| Cart.FindLine | app.py:328 | finds the first line with the same user, event and price, or reports none has it |
| Cart.LinesOfAppend | app.py:331-334 | a user's lines of an appended cart are the lines of both parts |
| Cart.LinesOfWithout | app.py:389 | after deleting u's lines, u has none and everyone else keeps theirs in order |
| Cart.LinesOfDrop | app.py:343 | removing one of u's lines leaves every other user's lines |
| Cart.LinesOfUpdate | app.py:329-330 | rewriting a line of someone else leaves v's lines |
| CheckoutProps.SettleAccounts | app.py:376-377 | the line loop credits each seller exactly what its lines cost and changes nothing else |
| CheckoutProps.SettleKeeps | app.py:363-386 | the line loop leaves events, cart and cart counter alone |
| CheckoutProps.SettleTotal | app.py:376-377 | the line loop raises the sum of balances by the cart total |
| CheckoutProps.LineStepMoves | app.py:363-386 | one line hands its tickets to the buyer with one PURCHASE entry each, quantity many; each ticket was the line's seller's, of its event, listed at its price, and its entry names that seller and price |
| CheckoutProps.SettleMoves | app.py:363-386 | the whole loop only appends to the ledger, and what it appends is a move to the buyer under the order hash |
| CheckoutProps.SettleThroughLines | app.py:363-386 | every entry the loop appends is for a ticket that, before checkout, one cart line's seller listed for that line's event at that line's price, and names that seller and price |
| CheckoutProps.SettleCount | app.py:363-386 | with no negative quantity, the loop logs as many entries as tickets asked for |
| CheckoutProps.CountAfterSales | app.py:365-370 | selling tickets never makes more tickets match a listed-ticket query |
| CheckoutProps.SettleShort | app.py:372-373 | a line asking for more than its seller lists makes the loop fail, whatever lines ran before |
| CheckoutProps.DebitedTotal | app.py:361 | debiting the buyer lowers the sum of balances by the cart total |
| CheckoutProps.CheckoutNeedsFunds | app.py:353-356 | a non-empty cart costing more than the balance is refused for insufficient funds |
| CheckoutProps.CheckoutNeedsStock | app.py:365-396 | a line with too little stock makes checkout fail, so nothing is committed |
| CheckoutProps.CheckoutBalances | app.py:361-377 | the buyer loses the cart total, each seller gains what its lines cost, no other change |
| CheckoutProps.CheckoutConservesMoney | app.py:361-377 | checkout keeps the sum of all balances |
| CheckoutProps.CheckoutTickets | app.py:363-386 | every moved ticket was listed, ends with the buyer unlisted with no price and is logged once under the order hash; other tickets unchanged; as many as the cart asks; each was listed by one of the buyer's cart lines' sellers for that line's event at that line's price, which its entry records |
| CheckoutProps.CheckoutClearsCart | app.py:389 | the buyer's cart ends empty; other users' lines are untouched |
| CheckoutProps.EarnedNonNegative | app.py:377 | with non-negative quantities and prices no seller is debited |
| CheckoutProps.CheckoutKeepsBalancesNonNegative | app.py:353-377 | with non-negative lines, checkout leaves no balance negative |
| TradeProps.BulkAcquireCommitsIff | app.py:413-433 | bulk_acquire commits exactly when the actor is a reseller of the creator, can pay, and enough stock is listed |
| TradeProps.BulkAcquireWrongSource | app.py:420-422 | a reseller of another organizer is refused whatever its funds and the stock |
| TradeProps.BulkAcquirePays | app.py:435-437 | the reseller pays the cost, the organizer receives it, no other account changes, the sum is kept |
| TradeProps.BulkAcquireKeepsBalancesNonNegative | app.py:425-437 | with non-negative quantity and wholesale price, bulk_acquire leaves no balance negative |
| TradeProps.BulkAcquireMoves | app.py:429-444 | the reseller receives qty of the organizer's listed tickets of the event, each with one WHOLESALE entry at the wholesale price |
| TradeProps.BulkListCap | app.py:457-459 | bulk_list is refused exactly above the cap |
| TradeProps.BulkListEffect | app.py:461-465 | bulk_list lists the first min(qty, n) of the actor's n unlisted tickets of the event at the price, and nothing else changes |
| TradeProps.TopUpEffect | app.py:281-283 | a top-up credits exactly the amount, logs one TOPUP from BANK, raises the sum by the amount; no other table changes |
| TradeProps.WithdrawalEffect | app.py:296-305 | a withdrawal commits exactly for an organizer within its balance, leaves that balance non-negative, logs one WITHDRAW, lowers the sum by the amount; no other table changes |
| TradeProps.CreateEventEffect | app.py:243-269 | organizer only; supply tickets owned by the organizer, listed at wholesale; one MINT entry of amount 0 exactly when supply is positive; old tickets, balances and the cart unchanged |
| TradeProps.CreateStaffEffect | app.py:180-191 | create_staff commits exactly under the policy; the new account has the creator as parent, zero balance and is active; no other account or table changes |
| TradeProps.CreatorMayManage | app.py:153-191 | whoever creates a staff account may manage it |
| TradeProps.ToggleUserCommitsIff | app.py:150-157 | toggle reports a missing target first, and commits exactly for an admin on an organizer or an organizer on its own reseller |
| TradeProps.ToggleUserEffect | app.py:159-162 | toggle flips the active flag and nothing else; toggling twice restores the state |
| TradeProps.UnitsAppend | app.py:351 | the ticket count and the total of a concatenation add up |
| TradeProps.UnitsCons | app.py:351 | one line's contribution to the ticket count and the total |
| TradeProps.UnitsUpdate | app.py:329-330 | rewriting one of u's lines changes u's ticket count by the line's difference |
| TradeProps.TotalUpdate | app.py:329-330 | rewriting one of u's lines changes u's total by the line's difference |
| TradeProps.AddToCartMerges | app.py:328-334 | merge into the first line with the same user, event and price, else append one line with a fresh id |
| TradeProps.AddToCartUnits | app.py:328-334 | the user's cart asks for exactly qty more tickets |
| TradeProps.AddToCartTotal | app.py:328-334 | the user's cart costs exactly qty times the price more |
| TradeProps.AddToCartOthers | app.py:328-334 | other users' lines are untouched |
| TradeProps.RemoveFromCartEffect | app.py:343 | removes only that user's lines with that id |
| Invariants.TicketsStayOk | app.py:37-51 | ticket consistency survives new accounts and new events |
| Invariants.MovesKeepTicketsOk | app.py:382-385 | selling tickets to an account holder keeps them consistent |
| Invariants.CreateEventKeepsInv | app.py:240-273 | create_event keeps the invariant |
| Invariants.TopUpKeepsInv | app.py:280-285 | a top-up keeps the invariant |
| Invariants.WithdrawalKeepsInv | app.py:293-306 | a withdrawal keeps the invariant |
| Invariants.AddToCartKeepsInv | app.py:319-338 | add_to_cart keeps the invariant |
| Invariants.RemoveFromCartKeepsInv | app.py:340-345 | remove_cart keeps the invariant |
| Invariants.CheckoutKeepsInv | app.py:347-396 | checkout keeps the invariant |
| Invariants.BulkAcquireKeepsInv | app.py:410-448 | bulk_acquire keeps the invariant |
| Invariants.BulkListKeepsInv | app.py:450-469 | bulk_list keeps the invariant; every ticket it changes is now listed at the requested price, which is within its event's cap |
| Invariants.CreateStaffKeepsInv | app.py:175-196 | create_staff keeps the invariant |
| Invariants.ToggleUserKeepsInv | app.py:147-162 | toggling keeps the invariant |
| Engine.Store.constructor | app.py:22-70 | empty tables but the given accounts, consistent |
| Engine.Store.CreateEvent | app.py:240-273 | the mint loop commits `Market.CreateEvent`, keeps the invariant |
| Engine.Store.TopUp | app.py:277-285 | commits `Market.WalletTopUp`, keeps the invariant |
| Engine.Store.Withdraw | app.py:293-306 | commits `Market.Withdrawal` or nothing, keeps the invariant |
| Engine.Store.AddToCart | app.py:319-338 | commits `Market.AddToCart`, keeps the invariant |
| Engine.Store.RemoveCart | app.py:340-345 | commits `Market.RemoveFromCart`, keeps the invariant |
| Engine.Store.Checkout | app.py:347-396 | commits `Market.Checkout`, or nothing when it fails (the rollback), keeps the invariant |
| Engine.Store.BulkAcquire | app.py:410-448 | commits `Market.BulkAcquire` or nothing, keeps the invariant |
| Engine.Store.BulkList | app.py:450-469 | commits `Market.BulkList` or nothing, keeps the invariant |
| Engine.Store.CreateStaff | app.py:175-196 | commits `Market.CreateStaff` or nothing, keeps the invariant |
| Engine.Store.ToggleUser | app.py:147-172 | commits `Market.ToggleUser` or nothing, keeps the invariant |
| Engine.SettleLines | app.py:363-386 | the line loop on the pending tables returns exactly `Market.Settle` |
| Engine.PlaceOrder | app.py:350-390 | checkout on the pending tables returns exactly `Market.Checkout`, keeping events and the cart counter |

## Left out

- Login, logout, registration, password hashing and `change_password`. The acting account is a parameter.
- The `active` flag is never read by the model, which assumes the acting account of every operation is active. The source refuses an inactive account at login (app.py:97-99). With Flask-Login 0.6 or later, `is_authenticated` follows the `is_active` column, so `login_required` also refuses an inactive account on every request; older versions check it only at login. Toggling an account therefore has no modelled effect on what it can do: an inactive reseller, for example, can still commit `BulkAcquire` in the model, where the source would refuse it.
- Usernames are not modelled. Their uniqueness constraint is not modelled either: a staff creation that would fail on a duplicate name succeeds in the model.
- The read-only views: `dashboard`, `public_ledger`, `wallet` GET, `view_cart`, `orders` and `view_market`, including their grouping and timestamp ordering.
- The `delete` branch of `manage_user`. Whether it succeeds depends on the database raising a foreign-key error.
- `check_and_update_schema`, `setup.py` (admin seeding and printing) and `models.py` (a copy of the record classes). These are not part of this model.
- Flask responses: redirects, flashes and HTTP 403 bodies become `Failure(reason)` statuses.
- An unknown event id in `bulk_acquire` or `bulk_list`, a missing event organizer in `bulk_acquire` (app.py:435-437), and a missing seller or event in checkout, raise a Python `AttributeError` in the source. The model treats each as a refused request (`MissingRecord`), with nothing committed.
- Floating-point money. Amounts are integer cents, so rounding is not modelled.
- Upper-casing of the event symbol. The symbol is taken as given.
- Ledger timestamps are not modelled. Entries are kept in append order.
- `secrets.token_hex` hashes and wallet addresses are caller-supplied inputs. Nothing checks that they are fresh, apart from `address !in accounts` for new staff.
- SQLite row ids. Ids are positions counting from 0, and an id is never reused.
- Concurrency between requests. Requests run one after another.
- `Engine.Store.Checkout` computes the order on a value copy of the tables and writes it back only on success. This stands in for the session's pending changes and rollback, so partial in-place mutation before a rollback is not modelled.
- TradeProps.BulkAcquirePays: the two balance equations are stated only when the reseller is not itself the event's creator. In that case the two credits cancel, which the other clauses cover.
- TradeProps.BulkAcquireMoves: "exactly qty tickets" is stated for non-negative qty only. A negative qty takes every listed ticket of the creator, as the query has no limit then.
