# Verified model of the food-ordering backend

This project models five parts of the backend and proves what they promise, for all inputs and all runs.
`dafny verify dfyconfig.toml` verifies everything (Dafny 4.11).

**Orders, payments and kitchen** (`OrderModel`, `Protocol*`, `Solo`, `Services`, `Dispatch`). `Protocol` is a
machine of interleaved steps. A process is a request (checkout, pay, webhook, staff button, kitchen button); each
step is one interaction with the database or the payment provider. The environment is PostgreSQL at Read Committed
(section 13.2.1 of its manual) with row locks (section 13.3.2): an open transaction is a buffer of writes that also
says which rows it has locked, a commit applies the buffer, and every other way out (a raising tool, a deadlock, a
crashed request) drops it. Idempotency keys are committed in transactions of their own. `ProtocolInvariant` states
what every reachable state satisfies, `ProtocolTables` to `ProtocolRoutes` prove it step by step,
`ProtocolRuns` says what a step leaves as it was, and `ProtocolTheorems` draws the conclusions. `Services` writes
the same services out as methods over mutable tables with an open session, and proves that each does exactly what
the machine does when the request runs alone; `Dispatch` adds the role tables and shows that serving any request
keeps the invariant.

**Inventory** (`Ledger`, `Inventory`, `StockReports`, `SalesExport`, `SalesTheorems`). The writers of
`inventory.quantity` as methods of a class whose invariant ties quantities to the ledger, the daily summary, and the
sales export; after any protocol run the summary's balance is the change of the stock, and the export's grand total is
what the orders' frozen prices say.

**Migration splitter** (`Strings`, `Sql*`). `SqlLexer` is a recursive lexical grammar after sections 4.1.2.1,
4.1.2.4 and 4.1.5 of the PostgreSQL manual, without nested comments and E-strings. `SqlSplitter` is the loop with its
six modes, proved against the grammar. The flag `keepSlash` chooses between the loop as it is written
(`false`) and the loop that keeps both characters of a closing `*/` (`true`): lines 40-45 of the source append the
star and skip the slash, although the module's docstring says that such text stays intact. `SqlInk` proves when the
two agree and gives the smallest script on which they differ; `SqlRoundTrip` proves the round trips of both.

**Menu import and skus** (`MenuImport`, `MenuUpsert`, `MenuTheorems`, `SkuGeneration`). The two-pass CSV validator,
the upsert by lower-cased name, and the sku batch with its suffix search.

**Zones, schedule, promotions** (`Commands`, `Zones`, `Schedule`, `Promotions`, `Money`, `Cart`). The agents' apply phases,
their validators, the schedule readers, and the money of checkout and of the thanks page.

Functions of the Python library that only matter through a few facts are parameters: case folding (`lower`), the
number parsers (`Reading`), `time.fromisoformat` (`iso`), the rounding of float arithmetic (`Rounding`). The
database's `lower()` is taken to be the same function.

## Places where a promise holds only under a condition

* Splitting as written gives what the intended splitter gives exactly when the script has no closed block comment
  (`DropsNothingIffNoClosedBlock`), and a statement it emitted splits into itself exactly when the dropped slashes
  left no closed block comment in it (`WrittenFixedPointIff`, with an input in `EmittedIsNotFixed`).
* The zone writer refuses two kinds of command that its validator accepts: an update to a name that another active
  zone has, and a time or fee beyond its INTEGER column (`Zones.AcceptedIffValid`, with inputs in
  `ValidatorMissesRename` and `ValidatorMissesRange`). The promotion writer likewise refuses amounts that do not fit
  the column (`Promotions.AcceptedIffValid`, `ValidatorMissesOverflow`).
* A menu import is all or nothing: one accepted row with a price beyond the INTEGER column undoes the others
  (`MenuUpsert.MenuTable.ImportCsv`).
* The schedule's "start before end" compares times with a UTC offset as instants, while the TIME columns keep the
  clock. It holds over a run exactly when the clocks of every accepted command are in order
  (`Schedule.RunsStayOrderedIff`, with an input in `OffsetsReverseWindow`). The database driver is taken to send the
  clock of such a time and to drop its offset.
* A promotion's amount may be not-a-number, which the range checks let through; a checkout with its code then raises
  (`Promotions.ResolutionRaisesIff`, `NotANumberBreaksCode`).
* An idempotency key is committed before the work it guards, so a crash leaves a key under which nothing is ever done
  again (`ProtocolTheorems.CrashStrandsKey`, `StrandedKeyIsInert`).

## Model

| member | source | states |
|---|---|---|
| `ProtocolTheorems.CookedExactlyOnce` | app/services/order_service.py:214-308 | Under any interleaving, an order that is cooking or later has started cooking once, has one ticket and exactly the SALE rows its lines plan; any other order, CANCELLED included, has none of these. |
| `ProtocolTheorems.NoPaidStateWithoutMoney` | app/services/payment_service.py:254-493 | An online order that is PAID or later has a SUCCESS payment for the total of its frozen items, settled by the provider for that amount and currency. |
| `ProtocolTheorems.OrdersAndTicketsCoupled` | app/services/kitchen_service.py:81-223 | Every ticket is its order's only one, its order is cooking or later, from PACKING on it is HANDED_OFF, and only pickup orders are CLOSED. |
| `ProtocolTheorems.CheckoutIdempotent` | app/api/routes/checkout.py:206-351 | At most one order per client key; every successful response names it and any two are equal, despite interleaved and aborted requests. |
| `ProtocolTheorems.CrashStrandsKey` | app/services/idempotency.py:32-81 | A request that dies strands the key it works under: committed, unfinished and owned by nobody. |
| `ProtocolTheorems.StrandedKeyIsInert` | app/services/idempotency.py:32-81 | In every continuation a stranded notification never writes its payment, and a stranded checkout neither creates an order nor gets an answer. |
| `ProtocolTheorems.EveryChangeIsAnEdge` | app/domains/orders/models.py:43-80 | Every committed state change is an edge of the graph from where the order was, equals the reported new state, and k payment failures allow at most 9+2k changes. |
| `ProtocolTheorems.OrderHistory` | app/domains/orders/models.py:43-80 | After any run the events of an order are one of the trails its state admits: failed payment attempts, at most one payment, cooking, packing, the courier's three events in order or none, closing, or a cancellation before cooking. |
| `ProtocolTheorems.TerminalOrdersStay` | app/domains/orders/models.py:78-80 | No continuation of a run changes a CLOSED or CANCELLED order. |
| `ProtocolTheorems.PaymentMatchesProvider` | app/services/payment_service.py:348-422 | Local SUCCESS means the provider succeeded with equal amount and currency; local FAILED means it canceled. |
| `ProtocolTheorems.NoRepeatedPaymentWrite` | app/services/payment_service.py:424-475 | However often notifications are delivered, a payment is written at most once per trace and event kind. |
| `ProtocolTheorems.TerminalPaymentsStay` | app/services/payment_service.py:448-565 | A payment in SUCCESS or FAILED is never overwritten. |
| `ProtocolTheorems.StockConserved` | app/tools/inventory_tools.py:45-152 | At every committed point a quantity is its starting value plus all recorded movements. |
| `ProtocolTheorems.BelowZeroFlagsTruthful` | app/tools/order_tools.py:355-374 | A SALE row's flag says exactly whether the running quantity after it is negative, although reservations interleave. |
| `ProtocolRoutes.ActionKeepsInv` | app/services/order_service.py:214-308 | Any step of any process, arrival, crash, settlement or stock write keeps the whole invariant. |
| `ProtocolRoutes.RunKeepsInv` | app/services/order_service.py:214-308 | So does any run. |
| `ProtocolSteps.TransitionStep` | app/tools/order_tools.py:241-437 | Each step of a transition program (unlocked read, locked re-check, reservation line, ticket, commit) keeps the invariant. |
| `ProtocolRoutes.HookStep` | app/webhooks/yookassa.py:40-140 | Each step of a webhook keeps the invariant. |
| `ProtocolRoutes.CheckoutStep` | app/api/routes/checkout.py:206-351 | Each step of a checkout keeps the invariant. |
| `ProtocolRoutes.PayStep` | app/services/payment_service.py:254-346 | Each step of a payment creation keeps the invariant. |
| `ProtocolSteps.TicketStep` | app/services/kitchen_service.py:81-201 | Each step of a ticket transition and its cascade keeps the invariant. |
| `ProtocolSteps.ProgramIsTheEdge` | app/services/order_service.py:310-336 | The program selected for an allowed event writes exactly the graph's edge. |
| `OrderModel.EdgeFacts` | app/domains/orders/models.py:43-80 | Cooking is entered only by START_COOKING and never left, terminal states have no exit, and only a payment failure goes back. |
| `OrderModel.GraphByEvent` | app/domains/orders/models.py:43-80 | Read by events the graph is the same: every event has one target state and the listed sources. |
| `Protocol.FindPayment` | app/repositories/payment_repo.py:49-64 | The first row with the provider id, if there is one. |
| `Solo.TransitionAlone` | app/services/order_service.py:214-301 | The machine's steps for a transition that nothing disturbs end in one commit of the whole batch, or in a rejection that changes nothing. |
| `Solo.SimpleAlone` | app/programs/order_programs.py:224-246 | A single-step program reads, re-checks under the lock and commits the graph's edge. |
| `Solo.ReserveAll` | app/tools/order_tools.py:322-375 | The reservation steps of the cooking program buffer exactly the reservation's rows. |
| `Solo.CookingEnd` | app/programs/order_programs.py:104-158 | The rest of the cooking program: ticket, state write under the lock, one commit of everything. |
| `Solo.OneEnd` | app/services/order_service.py:214-301 | A request that runs alone has only one possible end. |
| `Services.Session.TransitionOrderState` | app/tools/order_tools.py:405-437 | Writes the state if the locked row has the expected one, else raises and changes nothing. |
| `Services.Session.ReserveInventoryItems` | app/tools/order_tools.py:292-380 | Decrements exactly the planned rows and returns 1 exactly when one of them went below zero. |
| `Services.Session.WriteOrderStateCooking` | app/tools/order_tools.py:241-284 | Accepts PAID and CONFIRMED only. |
| `Services.Session.WriteKitchenState` | app/tools/kitchen_tools.py:26-147 | Each tool writes its own state, only from the state it expects; otherwise nothing changes. |
| `Services.ToolWritesTheEdge` | app/tools/kitchen_tools.py:26-147 | Each tool's expected and written states are one edge of the kitchen graph, and no other state allows its event. |
| `Services.Session.RunSimpleTransition` | app/services/payment_service.py:197-252 | Succeeds exactly when the event is allowed and the locked row still has the state read before. |
| `Services.Backend.constructor` | app/services/order_service.py:82-95 | An empty backend satisfies the invariant. |
| `Services.Backend.TransitionOrder` | app/services/order_service.py:214-308 | When each event is accepted, the state it leaves, and the tables: one state and, for START_COOKING, one ticket and the reservation; it does what the machine does alone. |
| `Services.Backend.TransitionTicket` | app/services/kitchen_service.py:81-223 | The tables after a ticket transition with the hand-off cascade; a refused one changes nothing; it does what the machine does alone. |
| `Services.Backend.AdvanceOrder` | app/services/kitchen_service.py:163-205 | The tables after a hand-off's cascade; it does what the machine does alone. |
| `Services.HandOffCascade` | app/services/kitchen_service.py:163-205 | Only the hand-off of a cooking order moves it, to PACKING or, for pickup, to CLOSED; nothing but this and the ticket changes. |
| `Services.Backend.CheckAndRecord` | app/services/idempotency.py:32-53 | Inserts a new key and says whether it was new. |
| `Services.Backend.CreatePayment` | app/services/payment_service.py:254-346 | Records the trace first; a provider error leaves the tables unchanged; otherwise one PENDING row and a conditional state write commit together. |
| `Services.Backend.PayOrder` | app/api/routes/orders.py:76-130 | Pays exactly a CONFIRMED order for its own total when the provider answers, with one PENDING row and the move to PAYMENT_PENDING; otherwise no table changes; it does what the machine does alone. |
| `Services.Backend.SaveAndReply` | app/api/routes/checkout.py:302-351 | Stores the answer under the key before responding. |
| `Services.Backend.CheckoutOnline` | app/api/routes/checkout.py:250-320 | Tables and answer of the online branch, 502 with no payment on a provider error; it does what the machine does alone. |
| `Services.Backend.CheckoutCash` | app/api/routes/checkout.py:322-351 | Tables and answer of the cash branch: the order cooks before the answer is stored; it does what the machine does alone. |
| `Services.Backend.RecoverIdempotentResult` | app/api/routes/checkout.py:114-137 | Replays the stored answer or refuses while the first request is unfinished. |
| `Services.Backend.Checkout` | app/api/routes/checkout.py:206-351 | The response and the tables for a new key, a finished one and an unfinished one: a cash order cooks with ticket and reservation, an online order waits with one PENDING payment of its total, or with none after a provider error; the whole request does what the machine does alone. |
| `Services.Backend.VerifyProviderPayment` | app/services/payment_service.py:348-422 | True exactly when the provider's status, amount and currency match the local row. |
| `Services.Backend.SettlePayment` | app/services/payment_service.py:424-565 | Succeeds exactly when the notification is new and its payment and order still wait for it; the tables it leaves; it does what the machine does alone. |
| `Services.NoticeMoves` | app/services/payment_service.py:424-565 | A notification that succeeds settles the payment, and with it the order cooks, its lines are reserved and one ticket is opened; a canceled one returns the order to CONFIRMED; nothing else changes. |
| `Services.NoticeKeeps` | app/services/payment_service.py:424-565 | A notification that does not succeed changes no order, ticket or stock, and no payment that was SUCCESS. |
| `Services.Backend.YookassaWebhook` | app/webhooks/yookassa.py:40-140 | Succeeds exactly when the provider confirms the claim, it is new, and its payment and order still wait for it; it does what the machine does alone. |
| `Dispatch.ServeCheckout` | app/api/routes/checkout.py:141-351 | An empty cart is refused; for any other the response and the tables, case by case; the invariant is kept. |
| `Cart.ResolveCheckoutItems` | app/services/order_service.py:723-745 | Raises for a missing or unpriced product; otherwise every line in order at the price of its own menu read, one price per product exactly when the reads agreed. |
| `Dispatch.ServePayOrder` | app/api/routes/orders.py:76-130 | When a payment request succeeds and what the tables become; the invariant is kept. |
| `Dispatch.ServeWebhook` | app/webhooks/yookassa.py:40-140 | When a notification succeeds and what the tables become; the invariant is kept. |
| `Dispatch.DispatchOrder` | app/services/staff_dispatch.py:72-88 | Who may fire which event on an order in which state, and the one state it then has; nothing else changes; the invariant is kept. |
| `Dispatch.DispatchKitchen` | app/services/staff_dispatch.py:58-69 | Only kitchen roles move tickets, each event from its one state to the next; the tables after it; the invariant is kept. |
| `Ledger.ReservedIsPlan` | app/tools/order_tools.py:322-375 | A reservation writes exactly the planned rows, flags true even when a sku repeats. |
| `Ledger.ReservationTakes` | app/tools/order_tools.py:322-375 | A reservation takes from every sku in stock exactly the units that the lines order of it. |
| `Inventory.Warehouse.constructor` | app/services/inventory_service.py:61-66 | A fresh table satisfies the ledger equation. |
| `Inventory.Warehouse.CheckInventoryStock` | app/tools/inventory_tools.py:26-42 | What the ledger says is left of a sku, and for every positive demand exactly whether the decrement would take it. |
| `Inventory.Warehouse.DecrementInventory` | app/tools/inventory_tools.py:45-79 | Takes stock and records it exactly when there is enough; otherwise nothing changes. |
| `Inventory.Warehouse.IncrementInventory` | app/tools/inventory_tools.py:82-113 | Adds stock and one restock row; any other reason counts as manual. |
| `Inventory.Warehouse.SetInventoryQuantity` | app/tools/inventory_tools.py:116-152 | Sets exactly the typed value and records the difference, if any. |
| `Inventory.Warehouse.SetInventoryState` | app/tools/inventory_tools.py:155-188 | Recomputes the state: none left, up to 4, up to 19, from 20 on. |
| `Inventory.Warehouse.SetQuantity` | app/services/inventory_service.py:111-138 | The edited sku has the value and the state of its range; other states stay. |
| `Inventory.Warehouse.ReserveInventoryItems` | app/tools/order_tools.py:322-380 | Quantities, ledger rows and alert of a whole reservation; the ledger equation is kept. |
| `Inventory.Warehouse.SyncFromMenu` | app/services/inventory_service.py:68-109 | Fills gaps with zero rows, never touches existing ones, and counts both outcomes. |
| `StockReports.SummaryPerDay` | app/services/inventory_service.py:159-187 | One entry per day in range with a movement, days ascending, totals equal to the day's positive and negative deltas. |
| `StockReports.SummaryMatchesStock` | app/services/inventory_service.py:166-187 | Restocked minus sold over all days is the net change of all quantities. |
| `SalesTheorems.SummaryMatchesRun` | app/services/inventory_service.py:159-187 | After any run of the protocol the summary's total of restocked minus sold is the net change of all quantities. |
| `SalesExport.ExportMovements` | app/services/inventory_service.py:262-317 | Every line's price and amount, the daily totals and the grand total. |
| `SalesExport.ExportedColumns` | app/services/inventory_service.py:267-293 | The money columns are filled together, exactly for a sale whose order has a line of the product; the price is the frozen one, the amount that price for every unit. |
| `SalesExport.DailyTotalsSumToGrand` | app/services/inventory_service.py:267-306 | The daily totals sum to the grand total. |
| `SalesExport.OrderAmountIsTrackedGoods` | app/services/inventory_service.py:228-293 | An order's exported amounts are price times quantity over its tracked lines. |
| `SalesExport.AllTrackedIsGoodsTotal` | app/services/order_service.py:712-712 | With every line tracked, that is the goods total of the checkout. |
| `SalesExport.ReserveThenExport` | app/tools/order_tools.py:322-375 | Reserving an order and exporting the new rows yields its tracked goods value. |
| `SalesTheorems.RevenueMatchesOrders` | app/services/inventory_service.py:189-317 | After any run, the export's grand total is the tracked goods value of exactly the orders that started cooking. |
| `SqlSplitter.SplitSqlStatements` | migrations/_split_sql.py:24-121 | The loop returns the non-empty trimmed segments of the grammar, in order. |
| `SqlLexer.LexLossless` | migrations/_split_sql.py:24-121 | The tokens are the script. |
| `SqlLexer.ScriptIsJoinedSegments` | migrations/_split_sql.py:109-121 | The script is its segments joined by exactly the semicolons outside quotations, dollar bodies and comments. |
| `SqlLexer.SegmentsHaveNoSemicolon` | migrations/_split_sql.py:109-121 | One segment more than separating semicolons, and none inside a segment. |
| `SqlInk.InkOfSplit` | migrations/_split_sql.py:24-121 | Nothing visible is lost but the separators and, as written, one character per closed block comment. |
| `SqlInk.DropsNothingIffNoClosedBlock` | migrations/_split_sql.py:40-47 | The loop as written agrees with the intended one exactly when no block comment is closed. |
| `SqlInk.DroppedSlash` | migrations/_split_sql.py:40-47 | The smallest script that loses a character. |
| `SqlRoundTrip.FixedPointIff` | migrations/_split_sql.py:34-121 | When a trimmed statement splits into itself, for both loops. |
| `SqlRoundTrip.EmittedIsFixedPoint` | migrations/_split_sql.py:34-121 | Splitting an emitted statement gives back just that statement. |
| `SqlRoundTrip.JoinedSplitsBack` | migrations/_split_sql.py:34-121 | A joined list of closed statements splits back into the list, even after line comments; as written exactly without closed block comments. |
| `SqlRoundTrip.WrittenFixedPointIff` | migrations/_split_sql.py:34-121 | When a statement emitted by the loop as written splits into itself. |
| `SqlRoundTrip.EmittedIsNotFixed` | migrations/_split_sql.py:40-47 | A script from which the loop as written emits a statement that it does not split into itself. |
| `SqlTokens.SegmentIsStable` | migrations/_split_sql.py:34-121 | A segment written out alone has the same tokens. |
| `MenuImport.ParseAndValidate` | app/services/menu_import_service.py:158-305 | The loop's two results are the accepted and the rejected rows, each rejected one under its row number. |
| `MenuImport.JudgeRow` | app/services/menu_import_service.py:221-304 | The guards of one row in order. |
| `MenuImport.ColumnIndex` | app/services/menu_import_service.py:197-209 | The last header cell naming a field decides its column. |
| `MenuImport.CategoryTables` | app/services/menu_import_service.py:179-185 | Both lookup tables, later categories winning. |
| `MenuImport.NameCounts` | app/services/menu_import_service.py:187-191 | Products per normalised name. |
| `MenuImport.SpacesIgnored` | app/services/menu_import_service.py:130-138 | Names that differ only in white space are the same name. |
| `MenuUpsert.AcceptedIffFirst` | app/services/menu_import_service.py:221-304 | Exactly the first acceptable row of every normalised name is accepted, with the values of its cells. |
| `MenuUpsert.CellsOfRow` | app/services/menu_import_service.py:230-304 | Which rows are acceptable, cell by cell, and what every cell becomes: name, category, price in whole roubles, activity, description, image. |
| `MenuUpsert.ResolvesWhatItDenotes` | app/services/menu_import_service.py:246-266 | A category text resolves exactly when some category has its number, or failing that its name, and to the last such category. |
| `MenuUpsert.EveryRowOnce` | app/services/menu_import_service.py:211-305 | Every data row is in exactly one of the two results. |
| `MenuUpsert.AcceptedRowsAreValid` | app/services/menu_import_service.py:230-304 | Accepted names are trimmed and pairwise distinct, no name is ambiguous, prices are not negative, unpriced rows are inactive. |
| `MenuUpsert.MenuTable.ApplyMenuImport` | app/tools/menu_import_tools.py:29-123 | Fails exactly when a row that reaches its statement has a price beyond the column; otherwise the table after the upserts, every row imported or reported. |
| `MenuUpsert.MenuTable.ImportCsv` | app/services/menu_import_service.py:370-429 | Succeeds exactly when every accepted price fits the column; then every accepted row is written, field by field, to exactly one product, old products keep name and sku, new ones have the row's name and none, and all others stay; otherwise nothing is imported and the table stays. |
| `MenuUpsert.NothingWriteSkipped` | app/tools/menu_import_tools.py:69-82 | The writer never finds more than one match for a validated row. |
| `MenuUpsert.ImportReflects` | app/tools/menu_import_tools.py:50-117 | What importing validated rows leaves in the table, product by product and field by field. |
| `MenuTheorems.ImportTwiceIsOnce` | app/services/menu_import_service.py:370-429 | Importing a file twice leaves the table as importing it once. |
| `MenuTheorems.UpsertedShape` | app/tools/menu_import_tools.py:50-117 | What an import does, position by position. |
| `MenuTheorems.OrderDoesNotMatter` | app/tools/menu_import_tools.py:50-117 | The order of validated rows does not change the result. |
| `SkuGeneration.FreshSku` | app/services/menu_import_service.py:491-496 | The first free name, found within one more try than there are taken skus. |
| `SkuGeneration.FirstFreeUnique` | app/services/menu_import_service.py:491-496 | There is only one such name. |
| `SkuGeneration.SlugShape` | app/services/menu_import_service.py:50-57 | Slugs are upper-case words with single dashes. |
| `SkuGeneration.SlugKeepsLetters` | app/services/menu_import_service.py:50-57 | A slug has exactly the Latin letters and digits of the name, in order and in upper case. |
| `SkuGeneration.SlugIsFixed` | app/services/menu_import_service.py:50-57 | A slug is its own slug. |
| `SkuGeneration.SlugEmptyIff` | app/services/menu_import_service.py:491-491 | The id-based fallback is used exactly for names without a Latin letter or digit. |
| `SkuGeneration.LegacyByName` | app/services/menu_import_service.py:469-473 | The first inventory row of a name decides its legacy sku. |
| `SkuGeneration.GenerateMissingSkus` | app/services/menu_import_service.py:440-513 | Every product ends up with its own sku, existing skus and all other fields stay, unclaimed inventory skus are adopted, and both counts are right. |
| `SkuGeneration.NothingLeft` | app/services/menu_import_service.py:475-478 | A second run has nothing to do. |
| `SkuGeneration.SyncCoversMenu` | app/services/inventory_service.py:80-109 | After the batch the sync gives every active product an inventory row, keeps quantities, and is idempotent. |
| `Zones.ParsesBack` | app/tools/zone_agent_tools.py:66-131 | Exactly the well-formed commands are parsed, each as it was written. |
| `Zones.MatchesAreMatching` | app/tools/zone_agent_tools.py:255-262 | The lookup returns exactly the zones with the name and activity. |
| `Zones.ZoneTable.ValidateApplyZoneCommand` | app/tools/zone_agent_tools.py:208-335 | 1 exactly when the command is valid. |
| `Zones.ZoneTable.ApplyZoneCommand` | app/tools/zone_agent_tools.py:357-661 | What an accepted command writes, field by field, to the one zone it names, with every other zone as it was; a refused one changes nothing. |
| `Zones.RunsKeepZones` | app/tools/zone_agent_tools.py:398-661 | Over every run active names stay unique without regard to case, no id disappears, times and fees stay in range and within their columns. |
| `Zones.AcceptedIffValid` | app/tools/zone_agent_tools.py:225-335 | The writer accepts exactly what the validator accepts, except a colliding rename and a number beyond its column. |
| `Zones.AcceptedMeans` | app/tools/zone_agent_tools.py:398-661 | Exactly which commands are accepted: free names, a target that is the only one of its name and activity, 32-bit numbers. |
| `Zones.ValidatorMissesRename` | app/tools/zone_agent_tools.py:253-278 | An update that the validator accepts and the writer refuses. |
| `Zones.ValidatorMissesRange` | app/tools/zone_agent_tools.py:208-251 | A creation that the validator accepts and the writer refuses. |
| `Zones.ActivateUndoesDeactivate` | app/tools/zone_agent_tools.py:475-661 | Activating a just retired zone restores the table exactly when no other retired zone has its name; otherwise it is refused. |
| `Schedule.ParsesBack` | app/tools/schedule_agent_tools.py:72-98 | A raw command is read as a command exactly when the fields that are read are those of that command written out. |
| `Schedule.ValidateApplyScheduleCommand` | app/tools/schedule_agent_tools.py:154-192 | 1 exactly for the valid commands; raises exactly when one time has a UTC offset and the other has none. |
| `Schedule.ScheduleTable.ApplyScheduleCommand` | app/tools/schedule_agent_tools.py:195-319 | The table after an accepted command, and the number of deleted rows. |
| `Schedule.AcceptedIffValid` | app/tools/schedule_agent_tools.py:154-192 | The writer accepts exactly the commands for which the validator returns 1. |
| `Schedule.AcceptedMeans` | app/tools/schedule_agent_tools.py:154-192 | Exactly which commands are accepted: two readable times, the start first, compared as clocks or as instants, or a reset for today; what is stored. |
| `Schedule.RunsStayConsistent` | app/tools/schedule_agent_tools.py:227-319 | Over every run there is at most one permanent row per period and one per period and date. |
| `Schedule.RunsStayOrderedIff` | app/tools/schedule_agent_tools.py:227-267 | Start before end holds throughout a run exactly when the clock times of every accepted command are in order. |
| `Schedule.SafeOffsetsIff` | app/tools/schedule_agent_tools.py:249-252 | The offsets under which comparing two times orders their clocks: none, or a start not further east than the end. |
| `Schedule.OffsetsReverseWindow` | app/tools/schedule_agent_tools.py:61-69 | A command with offsets that both phases accept and whose stored window ends before it starts. |
| `Schedule.LoadWindows` | app/services/schedule_service.py:148-167 | The first row per period wins. |
| `Schedule.GetAdminWindows` | app/services/schedule_service.py:196-216 | Permanent row and override per period. |
| `Schedule.FirstRowIsInEffect` | app/services/schedule_service.py:132-167 | The first row is today's override, else the permanent row. |
| `Schedule.ReadersAgree` | app/services/schedule_service.py:114-216 | Both readers agree on what is in effect, for any query order. |
| `Schedule.CommandsReachOnlyTheirDay` | app/tools/schedule_agent_tools.py:227-319 | What every command changes: its own period and day, or the days without an override. |
| `Schedule.SetThenResetIsReset` | app/tools/schedule_agent_tools.py:287-319 | Setting today's hours and resetting them is resetting them. |
| `Schedule.SetHoursGovernsToday` | app/services/schedule_service.py:44-112 | While the business is open, today's hours and the other period's open the menu at exactly the covered times; closed, a preorder is offered exactly until the evening starts, with the whole seconds left. |
| `Promotions.ParsesBack` | app/tools/promotion_agent_tools.py:135-203 | Every well-formed command is read back as it was written. |
| `Promotions.ParsedIsWellFormed` | app/tools/promotion_agent_tools.py:135-203 | Only well-formed commands are parsed. |
| `Promotions.PromotionTable.ApplyPromotionCommand` | app/tools/promotion_agent_tools.py:279-392 | The table after an accepted command; a refused one changes nothing. |
| `Promotions.AcceptedIffValid` | app/tools/promotion_agent_tools.py:206-276 | The writer accepts exactly what the validator accepts, except an amount too large for the column. |
| `Promotions.CreateMeans` | app/tools/promotion_agent_tools.py:299-346 | Exactly which creations are accepted, and the one row they add. |
| `Promotions.FireMeans` | app/tools/promotion_agent_tools.py:348-392 | An event is accepted exactly in the state it starts from, and changes only that promotion's state. |
| `Promotions.ValidatorMissesOverflow` | app/tools/promotion_agent_tools.py:206-276 | An amount that the validator accepts and the writer refuses. |
| `Promotions.RunConsistent` | app/tools/promotion_agent_tools.py:299-390 | Over every run names and codes stay unique, and every discount that is a number stays in range. |
| `Promotions.CodesResolveUniquely` | app/services/order_service.py:644-659 | A code resolves exactly when some active promotion carries it, and to at most one. |
| `Promotions.ResolutionRaisesIff` | app/services/order_service.py:661-674 | Resolving a code raises exactly when the active promotion that carries it has an amount that is not a number. |
| `Promotions.NotANumberBreaksCode` | app/tools/promotion_agent_tools.py:225-235 | Two accepted commands after which every checkout with the code raises. |
| `Promotions.DiscountOfCode` | app/services/order_service.py:661-687 | What an active code takes off: a waived fee, the smaller of amount and goods, or the percentage of the goods, exact where the floats are and within one rouble otherwise. |
| `Promotions.PromotionsAreAsCreated` | app/tools/promotion_agent_tools.py:310-346 | Every promotion of a run has name, effect, code and, to the nearest hundredth, the amount of a command that created it. |
| `Promotions.DiscountWithinGoods` | app/services/order_service.py:661-690 | In float arithmetic with any monotone rounding the discount lies between zero and the goods, up to 2^53 hundredths. |
| `Promotions.ThanksPageRecoversFee` | app/web/customer_routes.py:200-211 | If the code resolves and the order row holds total and discount, the total lies between zero and goods plus fee, and the thanks page recovers exactly the fee charged. |
| `Money.TotalLaws` | app/services/order_service.py:693-720 | What changes a total and by how much: a line, delivery, a zone without a fee, a waived fee, a discount. |
| `Promotions.RunAges` | app/domains/promotions/models.py:24-27 | Promotions never disappear, change nothing but their state, and only move forward. |
| `Promotions.ExpiredCodeStaysDead` | app/services/order_service.py:648-659 | The code of an expired promotion never gives a discount again. |

## Left out

- The program runner's internals: programs are their tools in order, a raise means no commit.
- LLM agents and their collect phases, prompts, provider fallback, telemetry, templates, scripts, routes without logic.
- Authentication, signatures, CSRF and content policies.
- Notification messages (MAX, Telegram, Zalo) and message references: they do not change the modelled tables.
- The payment provider's HTTP client: the provider is an oracle whose terminal status never changes; its `paid` flag is folded into the succeeded status, and a notification's trace id and payment id are assumed to come from one payment creation.
- The raw order routes (`POST /orders`, `/orders/{id}/events`, `/kitchen/tickets`), which let a caller fire any event; the whole-run properties exclude them.
- Blocking and deadlock: a step that finds a row locked changes nothing and can be taken again; the database may abort a transaction at any step after its first read.
- The row lock of a payment update and foreign-key share locks are not taken: the machine allows more interleavings than the database does.
- The in-memory trace list does not lose entries: a webhook that finds its trace gone after a restart does nothing, which is a run in which it never arrives.
- `SalesTheorems.RevenueMatchesOrders`: speaks of orders with one price per product, which is what `Cart.ResolveCheckoutItems` produces unless the menu changes between two reads of the same cart; the export then uses the first price.
- The spreadsheet-formula guard of the export, a prefix on text cells.
- Customer rows, order comments and addresses, trace persistence, receipts.
- In the machine the stock writers other than reservations are single steps with arbitrary deltas; their own reads and writes are the methods of `Inventory.Warehouse`.
- `created_at` is the day of a ledger row; the order of rows inside one day is the commit order.
- Inventory `state` agreeing with `quantity` in general: only the admin edit recomputes it.
- CSV decoding and quoting: the validator starts from the grid of cells. Prices are finite, since not-a-number and infinity reach `int()` unhandled in the original.
- Timestamps such as `updated_at`.
- Length limits of text columns. Integer widths elsewhere (stock quantities, order lines and totals): a value beyond them is one more database error, which aborts the transaction.
- Promotion discounts written as whole numbers of more than 308 digits: converting them to a float raises, where the model's column check refuses them.
- `Zones.RunsKeepZones`: commands run one after another; two racing creates are decided by the partial unique index, which is not modelled.
- Category parents, product sort order, menu periods of products.
- Trace storage and the notification steps of the cooking program, which cannot fail it.
- The deprecated state-machine classes and the delivery service, which are not wired into these paths.
