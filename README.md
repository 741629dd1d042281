# Inventory dashboard core, modelled in Dafny

This project models the logic inside a Streamlit and SQLAlchemy inventory
dashboard. That logic covers:

- the data-access layer:
  - how a query and its parameters become SQLAlchemy text with binds;
  - how a read degrades to an empty table;
  - how statements and all-or-nothing transactions run;
  - the two invoice reducers;
- the inventory write operations (`update_inventory`, `mark_as_expired`), as
  transitions of the stored tables;
- the optional-filter builders of `get_inventory_transactions` and
  `get_expiring_soon`;
- the filter fragments and parameter lists that the four pages splice into
  their queries;
- the expiry bucketing, the window the expiry page remembers, and the
  summary partition;
- the start-up checks and status cards of the home page.

The modules and what each holds:

- **Common:** values and an option type.
- **Strings:** Python's `find`, `replace`, `count`, `join` and `str(int)`.
- **Templates:** query text as literal SQL interleaved with placeholders.
- **Database:** `data_access/database.py`.
- **Inventory:** `data_access/inventory.py`.
- **PageCommon:** the filter fragments all pages share.
- **InventoryPage, ProductsPage, ExpiryPage, QualityPage:** the four pages.
- **Dashboard:** `app.py`.

A page's query is described by a template: a sequence of literal pieces and
holes, where each hole carries the value the page binds to it. Rendering a
template gives the `%s` text. Its hole values give the parameter list that
belongs with that text. Each page method builds the query and the list the way
the page does. Its contract says they are the template's rendering and hole
values. `PageCommon.Matched` then shows that such a pair has one `%s` per
parameter, and that the indexed rewrite binds each placeholder to its own
value.

## Model

| member | source | states |
|---|---|---|
| Common.Strs | pages/01_inventory.py:111-112 | the selected names as bound values, one per name, in order |
| Strings.FindFrom | data_access/database.py:87 | the match found is within the text and at or after the start |
| Strings.FindFromLeftmost | data_access/database.py:87 | `find` returns the leftmost occurrence, and -1 exactly when there is none |
| Strings.ReplaceFirstConcat | data_access/database.py:87 | a one-time replace on a concatenation acts on the part holding the first match |
| Strings.ReplaceAllConcat | data_access/database.py:52 | replace-all distributes over a concatenation that no match straddles |
| Strings.CountConcat | pages/01_inventory.py:40 | the number of `%s` in a concatenation is the sum over its parts, when none straddles |
| Strings.Repeat | pages/01_inventory.py:40 | `['%s' for _ in selected]`: n copies of the placeholder |
| Strings.NatToString | app.py:303 | `str(n)` is non-empty, all decimal digits, at least two digits from 10 up |
| Strings.IntToString | app.py:303 | `str(i)` starts with `-` exactly for negative numbers |
| Strings.IntToStringInjective | app.py:303 | different integers print differently |
| Templates.Concat | pages/01_inventory.py:87-106 | side-by-side templates concatenate both their texts and their parameter lists |
| Templates.Cat | pages/01_inventory.py:87-106 | a query built from two parts: text and parameters concatenate, and so does plainness |
| Templates.Pair | pages/01_inventory.py:179 | two placeholders between literals contribute their two values in order |
| Templates.PlaceholderCount | pages/01_inventory.py:109-112 | a plain template's text has exactly one `%s` per parameter |
| Templates.ParamName | data_access/database.py:85 | `param{i}` starts with `param` and has no `%` or `)` |
| Templates.ParamNameInjective | data_access/database.py:85 | different indices give different bind names |
| Templates.BindNext | data_access/database.py:84-88 | step i of the loop rewrites the first remaining `%s`, which is hole i, to `:param{i}` |
| Templates.BindPastEnd | data_access/database.py:84-88 | a step past the last placeholder leaves the text unchanged |
| Templates.RenderFromAllBound | data_access/database.py:84-88 | once every hole is bound, no `%` is left in the text |
| Templates.ReplaceAllUniform | data_access/database.py:44 | replace-all of `%s` gives every placeholder the same token |
| Templates.NamedFirstPass | data_access/database.py:52 | `.replace('%(', ':')` on a well-formed named query turns each `%(x)s` into `:x)s` |
| Templates.NamedSecondPass | data_access/database.py:52 | `.replace(')s', '')` then leaves `:x` for each placeholder |
| Templates.NRenderBoundClean | data_access/database.py:52 | the rewritten text has no `%` (so no `%(`) and no `)s` |
| Database.ParamMap | data_access/database.py:46 | the bind dictionary has exactly the keys `param0`…`param{n-1}`, each bound to `params[i]` |
| Database.ParamNamesDistinct | data_access/database.py:85 | no two indices share a bind name |
| Database.ParamMapExtend | data_access/database.py:88 | writing `param{i}` extends the dictionary of the first i values to that of the first i+1 |
| Database.BindPositional | data_access/database.py:84-88 | the loop's text is the first-n-steps rewrite, and its dictionary is exactly `ParamMap(params)` |
| Database.RewriteBindsInOrder | data_access/database.py:84-88 | with n parameters, the first n placeholders become `:param0`…`:param{n-1}`, left to right |
| Database.ExtraParamsLeaveText | data_access/database.py:84-88 | parameters beyond the placeholders change nothing in the text, which keeps no `%` |
| Database.BoundTextStable | data_access/database.py:84-88 | binding past the last hole leaves the bound text as it is |
| Database.NamedRewriteBinds | data_access/database.py:96 | the named rewrite maps every `%(name)s` to `:name` and leaves no `%(` and no `)s` |
| Database.Prepare | data_access/database.py:77-103 | no statement exactly for truthy parameters that are neither a list nor a dict; no parameters means the query as it is |
| Database.PrepareStatement | data_access/database.py:77-101 | the statement-preparation branch computes `Prepare` |
| Database.PrepareBindsTemplate | data_access/database.py:84-90 | a template's own values bind each placeholder to the value that belongs to it, leaving no `%` |
| Database.LoadPrepare | data_access/database.py:40-56 | the corrected read: a list binds `param0`…; no parameters runs the query unchanged |
| Database.LoadPrepareAsWritten | data_access/database.py:42-46 | the read as written binds `param0`… while every `%s` becomes `:param` |
| Database.LoadData | data_access/database.py:39-62 | over the corrected statement, the read never raises: the rows on success, an empty table on any error |
| Database.LoadDataAsWritten | data_access/database.py:39-62 | over the as-written statement, the same policy: the rows on success, an empty table on any error |
| Database.AsWrittenLeavesBindsMissing | data_access/database.py:44-46 | as written, a list query's text is every hole as `:param`, and the dictionary has no `param` key |
| Database.BoundTextNamesNoParam | data_access/database.py:84-88 | once every hole is bound by index, and no literal holds `:`, the text uses no bind named `param`: each `:param` is followed by its index |
| Database.CountQueryAsWrittenBind | data_access/database.py:168-173 | as written, the duplicate query's text uses a bind named exactly `param` |
| Database.CountQueryLitsLackColon | data_access/database.py:168-173 | the duplicate query's literal text holds no `:` |
| Database.UniformMentions | data_access/database.py:44 | a query with a placeholder still mentions the shared token after the rewrite |
| Database.InvoiceCountQuery | data_access/database.py:168-173 | the duplicate query binds the supplier, then the invoice number |
| Database.InvoiceIsNew | data_access/database.py:174 | valid when nothing was read; otherwise valid exactly when the count is 0 |
| Database.ValidateSupplierInvoice | data_access/database.py:157-174 | valid exactly when the read fails, is empty, or counts 0 duplicates, with both values bound in placeholder order |
| Database.AsWrittenAcceptsEveryInvoice | data_access/database.py:173-174 | as written, against a database that refuses a statement using an unsupplied bind `param`, every invoice is reported valid, duplicates included |
| Database.DuplicateCaughtOnlyWhenCorrected | data_access/database.py:157-174 | against a database that refuses only unsupplied binds and counts one match, the corrected check rejects the invoice while the check as written accepts it |
| Database.Summarize | data_access/database.py:198-207 | none exactly for an empty result; otherwise the shared status when min equals max, else `MIXED` |
| Database.InvoiceSummaryQuery | data_access/database.py:186-197 | the summary query binds only the invoice number |
| Database.GetInvoiceSummary | data_access/database.py:176-207 | over the corrected read, no summary exactly when the bound read fails or is empty |
| Database.AsWrittenSummaryAlwaysNone | data_access/database.py:196-198 | as written, against a database that refuses a statement using an unsupplied bind `param`, no invoice has a summary, even one that was received |
| Database.SummaryQueryAsWrittenBind | data_access/database.py:186-197 | as written, the summary query's text uses a bind named exactly `param` |
| Database.SummaryQueryLitsLackColon | data_access/database.py:186-196 | the summary query's literal text holds no `:` |
| Database.SummaryFoundOnlyWhenCorrected | data_access/database.py:176-198 | against a database that refuses only unsupplied binds and has a row for the invoice, the corrected summary is found while the summary as written is None |
| Database.RunAllAppend | data_access/database.py:125-148 | running two lists of statements in a row is running the first, then the second from where it ended |
| Database.RunAllSucceedsIff | data_access/database.py:123-155 | a run succeeds exactly when every statement succeeds from the state the earlier ones reached |
| Database.BadParamsAbort | data_access/database.py:145-146 | one statement with wrongly shaped parameters rolls back the whole transaction |
| Database.TransactionAppend | data_access/database.py:123-149 | two transactions in a row commit what one over both commits |
| Database.FailurePersists | data_access/database.py:150-155 | once a prefix fails, the whole transaction fails |
| Database.Engine.constructor | data_access/database.py:15-26 | the engine starts from a given database state |
| Database.Engine.ExecuteQuery | data_access/database.py:64-111 | bad parameters and database errors re-raise and change nothing; otherwise the new state and the rows |
| Database.Engine.ExecuteTransaction | data_access/database.py:113-155 | true and every effect committed when all statements succeed; false and the state unchanged otherwise |
| Inventory.CheckRead | data_access/inventory.py:268-272 | the check read finds a row exactly when the read works and the product has one |
| Inventory.UpdateWrites | data_access/inventory.py:266-335 | two statements, the second the log entry with the change as quantity |
| Inventory.UpdateExistingRow | data_access/inventory.py:293-306 | an existing row changes by exactly the delta, and one log entry is appended |
| Inventory.UpdateNewRow | data_access/inventory.py:272-292 | without a row, a row holding the delta is created only for a known product; otherwise nothing commits, given the assumed key from log entries to products |
| Inventory.UpdateAfterFailedRead | data_access/inventory.py:268-292 | a failed check read on a product with a row takes the insert path and fails |
| Inventory.UpdateFrame | data_access/inventory.py:250-347 | a committed update touches only this product's row, appends one entry and keeps the rest |
| Inventory.UpdateTwice | data_access/inventory.py:309-337 | +10 then -4 on a known product without a row leave 6 on hand and two log entries |
| Inventory.UpdateCanGoNegative | data_access/inventory.py:293-306 | nothing stops a removal larger than the stock: 3 on hand minus 5 commits -2 |
| Inventory.ExpirePlan | data_access/inventory.py:366-450 | no statements exactly when no row is read or the stock is short; otherwise three |
| Inventory.ExpireSucceeds | data_access/inventory.py:376-452 | on success the stock drops by the quantity, `EXPIRED` with minus the quantity is logged, and the expired record is added |
| Inventory.ExpireKeepsStock | data_access/inventory.py:372-382 | after a committed expiry, the product's stock is still at least 0 |
| Inventory.ExpireGuard | data_access/inventory.py:369-374 | with no row read, or too little stock, nothing is written |
| Inventory.InventoryStore.Execute | data_access/database.py:123-155 | the writes commit together or the tables stay as they were |
| Inventory.InventoryStore.UpdateInventory | data_access/inventory.py:250-347 | the store moves to `Update`'s tables on success and stays unchanged on failure, keeping referential integrity under the assumed product keys |
| Inventory.InventoryStore.MarkAsExpired | data_access/inventory.py:349-462 | the store moves to `Expire`'s tables on success, unchanged otherwise; on success the stock is at least 0 |
| Inventory.ConditionsRender | data_access/inventory.py:119-120 | the conditions joined with ` AND ` render as the joined texts |
| Inventory.ConditionsNames | data_access/inventory.py:103-117 | the placeholders of the joined conditions are their names, in order |
| Inventory.TxConditionsNames | data_access/inventory.py:103-117 | the names appear in the order start, end, product, type, each only for a truthy argument |
| Inventory.ConditionParamsKeys | data_access/inventory.py:103-117 | the params keys are exactly the included conditions' names |
| Inventory.TxFilters | data_access/inventory.py:103-117 | the loop of guarded appends builds exactly those conditions and that dictionary |
| Inventory.AddFilter | data_access/inventory.py:103-105 | one `if value:` step appends the condition and writes its parameter only when the value is truthy |
| Inventory.TransactionsQuery | data_access/inventory.py:62-122 | the query is the template's text and the dictionary is the conditions' parameters |
| Inventory.TxParamsWrites | data_access/inventory.py:103-117 | the dictionary is the four guarded writes, in order |
| Inventory.TransactionsParams | data_access/inventory.py:103-117 | each key is present exactly when its argument is truthy, bound to that argument |
| Inventory.TransactionsQueryShape | data_access/inventory.py:119-122 | the query ends with `ORDER BY`, and its placeholders are the included conditions, rewritten to binds that are exactly the params keys |
| Inventory.WarningDate | data_access/inventory.py:147-150 | today plus `EXPIRY_WARNING_DAYS` when no days are given, otherwise today plus the days |
| Inventory.ExpiringSoonBinds | data_access/inventory.py:150-182 | the expiring-soon rewrite binds its one placeholder, named exactly as its one params key |
| Inventory.ExpiringTemplateShape | data_access/inventory.py:152-177 | the expiring-soon query has exactly one placeholder, `warning_date` |
| PageCommon.InHolesShape | pages/01_inventory.py:40 | the placeholder list has the selected values in order, and its text is `%s` joined by `, ` |
| PageCommon.InFilterTemplate | pages/01_inventory.py:37-40 | the department filter binds nothing for "All" or an empty selection, otherwise every selected name in order |
| PageCommon.InFilterMatches | pages/01_inventory.py:37-40 | the filter text is empty exactly for "All" or no selection, and otherwise has one `%s` per selected name |
| PageCommon.EqFilterTemplate | pages/01_inventory.py:70-73 | the single-value filter binds nothing for "All", otherwise the chosen value |
| PageCommon.EqFilterMatches | pages/01_inventory.py:70-73 | the filter text is empty exactly for "All", and otherwise has exactly one `%s` |
| PageCommon.InValues | pages/01_inventory.py:111-112 | `if department_filter and "All" not in selected: extend` appends exactly the filter's values |
| PageCommon.EqValues | pages/01_inventory.py:188-189 | `if filter: append(selected)` appends exactly the filter's value |
| PageCommon.SearchPattern | pages/01_inventory.py:108 | the pattern is the term between two `%`, which is `%%` for an empty term |
| PageCommon.Matched | pages/01_inventory.py:109-114 | text and list from one template: one `%s` per parameter, and the corrected read binds each to its own value |
| InventoryPage.InventoryTemplateFor | pages/01_inventory.py:87-112 | the inventory query binds the pattern twice, then the selected departments |
| InventoryPage.InventoryTemplate | pages/01_inventory.py:87-112 | the same, with the search pattern of the typed term |
| InventoryPage.InventoryQuery | pages/01_inventory.py:86-112 | the query text and list the tab builds are the template's text and values |
| InventoryPage.TxFilterTemplate | pages/01_inventory.py:180-181 | the transactions filters bind the type if chosen, then the departments |
| InventoryPage.TxFilterText | pages/01_inventory.py:180-181 | the spliced filter text is the filter template's rendering |
| InventoryPage.TransactionsTemplate | pages/01_inventory.py:163-192 | the transactions query binds start and end, the type if chosen, then the departments |
| InventoryPage.TransactionsParams | pages/01_inventory.py:186-192 | the list built by `append`/`extend` is the template's values in placeholder order |
| InventoryPage.TransactionsQuery | pages/01_inventory.py:163-192 | the query text and list are the template's text and values |
| InventoryPage.GetExpiryStatus | pages/01_inventory.py:118-126 | below 0 expired, 0 to 30 critical, 31 to 90 warning, above 90 OK; exactly one applies |
| InventoryPage.ExpiryStatusMonotone | pages/01_inventory.py:118-126 | fewer days left never gives a less urgent status |
| ProductsPage.ProductFilterTemplate | pages/02_products.py:114-116 | the three filters bind departments, then suppliers, then the status |
| ProductsPage.ProductFilterText | pages/02_products.py:36-87 | the spliced filter text is the filter template's rendering |
| ProductsPage.ProductsTemplate | pages/02_products.py:101-131 | the products query binds the pattern twice, departments, suppliers, then the status |
| ProductsPage.ProductsParams | pages/02_products.py:121-131 | the list built by `extend`/`append` is the template's values in placeholder order |
| ProductsPage.ProductsQuery | pages/02_products.py:101-131 | the query text and list are the template's text and values |
| ExpiryPage.ExpiryThreshold | pages/03_expiry_management.py:66 | the threshold is the chosen number of days after today |
| ExpiryPage.DefaultOffGrid | pages/03_expiry_management.py:20-36 | the default 90 is within 7..365 but is not a step of the slider (84 and 91 are) |
| ExpiryPage.ExpirySession.constructor | pages/03_expiry_management.py:20 | a new session stores no window |
| ExpiryPage.ExpirySession.Run | pages/03_expiry_management.py:20-37 | the window is the user's pick, else the stored value, else 90; it is written back and lies within 7..365 |
| ExpiryPage.ExpiringTemplate | pages/03_expiry_management.py:75-98 | the expiring query binds the threshold, then the selected departments |
| ExpiryPage.ExpiringQuery | pages/03_expiry_management.py:75-98 | the query text and list are the template's text and values |
| ExpiryPage.SummaryTemplate | pages/03_expiry_management.py:163-176 | the summary query binds the threshold twice |
| ExpiryPage.TimelineTemplate | pages/03_expiry_management.py:214-231 | the timeline query binds the threshold once |
| ExpiryPage.BucketOf | pages/03_expiry_management.py:166-169 | every counted row satisfies exactly one of the four `CASE` conditions |
| ExpiryPage.Total | pages/03_expiry_management.py:165 | `total_expiring` counts at most every row |
| ExpiryPage.BucketCount | pages/03_expiry_management.py:166-169 | a bucket never counts more than `total_expiring` |
| ExpiryPage.SummaryPartition | pages/03_expiry_management.py:163-176 | for every threshold, the four buckets add up to `total_expiring` |
| ExpiryPage.NothingOkBelowSixty | pages/03_expiry_management.py:169 | with a threshold within 60 days, the `ok` bucket is empty |
| ExpiryPage.GetStatus | pages/03_expiry_management.py:104-112 | below 0 expired, 0 to 30 critical, 31 to 60 warning, above 60 OK; exactly one applies |
| ExpiryPage.StatusMonotone | pages/03_expiry_management.py:104-112 | fewer days left never gives a less urgent status |
| ExpiryPage.SummaryAgreesWithStatus | pages/03_expiry_management.py:104-169 | the summary and the status column agree on every row except one expiring today (expired vs critical) |
| ExpiryPage.RowStyle | pages/03_expiry_management.py:117-125 | no style exactly for OK rows |
| ExpiryPage.RowStyleInjective | pages/03_expiry_management.py:117-125 | each level has its own style |
| QualityPage.QcFilterTemplate | pages/04_quality_control.py:110-111 | the status filter binds the status unless "All" (including "N/A"), then the departments |
| QualityPage.DepartmentTemplate | pages/04_quality_control.py:61-64 | the department filter binds exactly the selected names unless it filters nothing |
| QualityPage.SearchTemplate | pages/04_quality_control.py:109 | the search binds the pattern three times, before the filters |
| QualityPage.QualityChecksTemplate | pages/04_quality_control.py:87-129 | the query binds start, end, the pattern three times, the status if chosen, then the departments |
| QualityPage.QcFilterText | pages/04_quality_control.py:44-64 | the spliced filter text is the filter template's rendering |
| QualityPage.QualityChecksParams | pages/04_quality_control.py:116-129 | the list built by `append`/`extend` is the template's values in placeholder order |
| QualityPage.QualityChecksQuery | pages/04_quality_control.py:87-129 | the query text and list are the template's text and values |
| QualityPage.CheckTypesTemplate | pages/04_quality_control.py:182-201 | the check-types query binds only the selected departments |
| QualityPage.CheckTypesQuery | pages/04_quality_control.py:182-201 | the query text and list are the template's text and values |
| QualityPage.RangeTemplate | pages/04_quality_control.py:245-255 | an analytics query binds start and end, then the departments |
| QualityPage.AnalyticsQueries | pages/04_quality_control.py:235-316 | the one list built for the pass-rate query also matches the per-department query |
| QualityPage.RangeParams | pages/04_quality_control.py:253-255 | the list is the values of every range template |
| QualityPage.RangeText | pages/04_quality_control.py:235-255 | a range query's text is its template's rendering |
| QualityPage.HighlightStatus | pages/04_quality_control.py:138-145 | no style exactly for values other than PASSED, FAILED and PENDING |
| QualityPage.HighlightDistinct | pages/04_quality_control.py:138-145 | the three outcomes have distinct styles |
| Dashboard.CheckDatabaseConnection | app.py:32-45 | connected exactly when the probe returned a row whose `connection_test` is 1 |
| Dashboard.MissingTables | app.py:69 | a table is missing exactly when it is required and absent |
| Dashboard.MissingTablesAppend | app.py:69 | the missing list keeps the required order |
| Dashboard.NothingExisting | app.py:69 | with no tables, every required table is missing, in order |
| Dashboard.CheckRequiredTables | app.py:47-79 | false for an empty list; otherwise true exactly when every required table exists |
| Dashboard.MainFlow | app.py:484-495 | the page stops exactly when the connection check fails; missing tables only warn |
| Dashboard.FirstOrZero | app.py:188-189 | a count reads as 0 from an empty result |
| Dashboard.ExpiryCardCases | app.py:198-253 | expired stock gives Critical, otherwise stock expiring soon gives Warning, otherwise no data; Good is never shown |
| Dashboard.ExpiryCardFrom | app.py:188-253 | the card shows no data exactly when both counts are 0 |
| Dashboard.SumQuantities | app.py:356-364 | `SUM(quantity_remaining)` is NULL exactly when no row holds a quantity |
| Dashboard.LowStockCard | app.py:386-450 | no data without a row; an error instead of the card when the total quantity is NULL; otherwise Critical at 20 % low stock or more, Warning from 10 % up to 20 %, Good below 10 % or with no items |
| Dashboard.InventoryCardFails | app.py:356-450 | over the table itself, the card fails exactly when no row holds a quantity, so always for an empty table |
| Dashboard.LowStockMonotone | app.py:393-404 | more low-stock items out of the same total never give a less urgent card |
| Dashboard.DeliveryText | app.py:298-303 | the line is empty exactly without a latest delivery |
| Dashboard.DeliveryTextInjective | app.py:298-303 | different day counts give different lines, and "Today" only for 0 |
| Dashboard.DaysSince | app.py:289-296 | the days since the latest delivery, when there is one |
| Dashboard.DeliveryCard | app.py:262-350 | nothing unless deliveries were counted; an error instead of the card exactly when their total quantity is NULL; otherwise the card, whose line is empty exactly without a latest delivery and reads "Today" for a delivery today |
| Dashboard.DeliveryCardFails | app.py:264-350 | over the deliveries themselves, with deliveries counted the card fails exactly when none holds a quantity |
| Dashboard.SalesFigures | app.py:378-408 | the count and quantity of the first row when sales were found, otherwise 0 and 0 |

## Left out

- SQL execution is abstract. The database is a state with a partial step per
  statement. Reads are a function that fails or gives a table. No SQL
  semantics are modelled, and concurrency and isolation are left to the
  database.
- Streamlit widgets, HTML and CSS text, charts and layout are not modelled.
  The dashboard's cards are modelled only as the choice of what each card shows.
- Floating-point figures are not modelled: the pass rate, the product
  percentage and the low-stock percentage. The low-stock thresholds are
  compared exactly, by cross-multiplying.
- Dates are day numbers. "Today" (`datetime.now()`, `CURRENT_DATE`) is a
  parameter. `CURRENT_TIMESTAMP` columns and the pandas date formatting are
  not modelled.
- Logging is not modelled.
- Query texts are abridged to their shape: the fixed parts, the placeholders
  and the filters, in order. Column lists are shortened. Each literal is split
  into short pieces at token boundaries, which keeps each
  literal cheap for the verifier to check free of `%`.
- The fixed, unparameterised queries of the pages and the home page are not
  modelled. These are the department and supplier lists, the charts' queries
  and the cards' count queries. Only their results are inputs.
- Database.NamedRewriteBinds: the named rewrite is proved only for well-formed
  templates: literals contain no `%` and no `)s`, names contain no `%` or `)`,
  and no two literals are adjacent. Arbitrary text holding `)s` would lose it.
- Inventory.InventoryStore.UpdateInventory: the inventory tables have one row
  per product (a map). The log's unit comes from the product.
- Inventory.UpdateNewRow: the model assumes that `inventory_transactions` and
  `expired_products` reference `products`, so a log entry or expiry record for
  an unknown product fails and the transaction rolls back. The source does not
  show the schema. Without that key, `update_inventory` on an unknown product
  without a row inserts nothing, logs an entry with a NULL unit and returns
  True. The same assumption underlies Inventory.InventoryStore.UpdateInventory
  and Inventory.Apply.
- Inventory.UpdateExistingRow: quantities are integers, while
  `update_inventory` documents `quantity_change` as a float. Fractional
  quantities are not modelled.
- ExpiryPage.ExpirySession.Run: the slider's own behaviour is an assumption:
  it returns the user's pick, which is a step value, or the value it was
  given. Streamlit's handling of a default that is off the step grid is not
  modelled.
- QualityPage.CheckTypesQuery: the check-types query filters on
  `qct.department`, but its FROM clause names `quality_check_types` without
  the alias `qct`. The model keeps the text as written and does not judge
  whether the database accepts it.
- Dashboard.ExpiryCardFrom: the warning text with the earliest expiry date
  is not modelled, only the card's status.
- The home page's quality card is not modelled. It shows the pass rate
  exactly when the last 30 days hold a check (app.py:111), and that rate is
  floating point.
- The required-table list follows the code, which lists 12 tables and not
  `quality_check_types`.
- The other modules are not part of this model: `config/settings.py` beyond
  `EXPIRY_WARNING_DAYS`, `pages/settings.py`, `scripts/` and
  `utils/logging_utils.py`. So is the engine set-up of `data_access/database.py`.

## Findings

| source | as written | input that shows it | evidently intended | confidence | as-written member | corrected member |
|---|---|---|---|---|---|---|
| data_access/database.py:44-46 | a list query has every `%s` replaced by the same `:param`, while the binds are `param0`…`param{n-1}` | any page query with a list, e.g. `validate_supplier_invoice('S1', 'INV-1')`: the text binds `:param` twice, which the dictionary lacks | each `%s` bound to its own `:param{i}`, as `execute_query` does | high, not executed | Database.AsWrittenLeavesBindsMissing | PageCommon.Matched |
| data_access/database.py:196-198 | the summary reads through that rewrite, so the read fails and the empty result gives no summary | any invoice that was received, e.g. `get_invoice_summary('INV-1')` after its delivery (Database.SummaryFoundOnlyWhenCorrected): the result is None | the received invoice's summary | high, not executed | Database.AsWrittenSummaryAlwaysNone | Database.GetInvoiceSummary |
| data_access/database.py:173-174 | the duplicate check reads through that rewrite, so the read fails and the empty result counts as valid | a supplier and invoice number already received (Database.DuplicateCaughtOnlyWhenCorrected): the check still reports the invoice as new | a duplicate invoice is reported as invalid | high, not executed | Database.AsWrittenAcceptsEveryInvoice | Database.ValidateSupplierInvoice |
