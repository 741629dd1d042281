/** The dashboard home page: the start-up checks and the choice of each status
    card from the counts its queries return. */
module Dashboard {
  import opened Common
  import opened Strings

  // ---------------------------------------------------------------------------
  // Start-up checks.

  /** `check_database_connection`: the probe query's `connection_test` column
      (empty when the read failed). */
  function CheckDatabaseConnection(connectionTest: seq<int>): (ok: bool)
    ensures ok <==> |connectionTest| > 0 && connectionTest[0] == 1
  {
    if |connectionTest| > 0 && connectionTest[0] == 1 then true else false
  }

  /** The tables the application needs, in the order the check lists them. */
  const RequiredTables: seq<string> := [
    "departments", "suppliers", "products", "inventory",
    "inventory_transactions", "received_products", "recipes",
    "recipe_ingredients", "sales", "sales_items", "expired_products",
    "quality_checks"
  ]

  /** `[table for table in required if table not in existing]`. */
  function MissingTables(required: seq<string>, existing: seq<string>): (missing: seq<string>)
    ensures |missing| <= |required|
    ensures forall t :: t in missing <==> t in required && t !in existing
  {
    if |required| == 0 then []
    else (if required[0] in existing then [] else [required[0]]) + MissingTables(required[1..], existing)
  }

  /** The missing list keeps the required order: missing tables of two lists in a
      row are those of the first, then those of the second. */
  lemma {:induction false} MissingTablesAppend(a: seq<string>, b: seq<string>, existing: seq<string>)
    ensures MissingTables(a + b, existing) == MissingTables(a, existing) + MissingTables(b, existing)
    decreases |a|
  {
    if |a| > 0 {
      var head := if a[0] in existing then [] else [a[0]];
      assert (a + b)[0] == a[0] && (a + b)[1..] == a[1..] + b;
      assert MissingTables(a + b, existing) == head + MissingTables(a[1..] + b, existing);
      MissingTablesAppend(a[1..], b, existing);
      AppendAfter(head, MissingTables(a[1..], existing), MissingTables(b, existing));
    } else {
      assert a + b == b;
    }
  }

  /** With nothing existing, every required table is missing, in order. */
  lemma {:induction false} NothingExisting(required: seq<string>)
    ensures MissingTables(required, []) == required
    decreases |required|
  {
    if |required| > 0 {
      NothingExisting(required[1..]);
      assert [required[0]] + required[1..] == required;
    }
  }

  /** `check_required_tables` over the `table_name` column of the catalogue read
      (empty when the read failed): false on an empty read, otherwise true
      exactly when no required table is missing. */
  function CheckRequiredTables(existing: seq<string>): (ok: bool)
    ensures ok <==> |existing| > 0 && forall t :: t in RequiredTables ==> t in existing
  {
    if |existing| == 0 then false
    else
      var missing := MissingTables(RequiredTables, existing);
      assert |missing| == 0 <==> forall t :: t in RequiredTables ==> t in existing by {
        if |missing| > 0 {
          assert missing[0] in missing;
        }
      }
      if |missing| > 0 then false else true
  }

  /** What `main` goes on to show. */
  datatype Startup = Stopped | HomeWithWarning | Home

  /** `main`: no connection stops the page; missing tables only add a warning. */
  function MainFlow(connectionTest: seq<int>, existing: seq<string>): (r: Startup)
    ensures r == Stopped <==> !CheckDatabaseConnection(connectionTest)
    ensures r == Home <==> CheckDatabaseConnection(connectionTest) && CheckRequiredTables(existing)
  {
    if !CheckDatabaseConnection(connectionTest) then Stopped
    else if !CheckRequiredTables(existing) then HomeWithWarning
    else Home
  }

  // ---------------------------------------------------------------------------
  // Status cards.

  datatype Status = Critical | Warning | Good

  /** A card shows a status, the grey "No Data" panel, or, when building it
      raised, the page's error message in its place. */
  datatype Card = NoData | Shown(status: Status) | Failed

  /** `df['count'].iloc[0] if not df.empty else 0` over a count column. */
  function FirstOrZero(column: seq<nat>): (n: nat)
    ensures |column| == 0 ==> n == 0
    ensures |column| > 0 ==> n == column[0]
  {
    if |column| == 0 then 0 else column[0]
  }

  /** The product expiry card, with the branch for "Good" kept as written. */
  function ExpiryCard(expiredCount: nat, expiringSoonCount: nat): (c: Card)
  {
    if expiredCount > 0 || expiringSoonCount > 0 then
      if expiredCount > 0 then Shown(Critical)
      else if expiringSoonCount > 0 then Shown(Warning)
      else Shown(Good)
    else NoData
  }

  /** Expired stock makes the card critical, otherwise stock expiring soon makes
      it a warning, and with neither the card shows no data: the "Good" branch
      is never taken. */
  lemma ExpiryCardCases(expiredCount: nat, expiringSoonCount: nat)
    ensures ExpiryCard(expiredCount, expiringSoonCount) ==
              if expiredCount > 0 then Shown(Critical)
              else if expiringSoonCount > 0 then Shown(Warning)
              else NoData
    ensures ExpiryCard(expiredCount, expiringSoonCount) != Shown(Good)
  {
  }

  /** The expiry card from the two count reads (each empty when it failed). */
  function ExpiryCardFrom(expired: seq<nat>, expiringSoon: seq<nat>): (c: Card)
    ensures c == NoData <==> FirstOrZero(expired) == 0 && FirstOrZero(expiringSoon) == 0
  {
    ExpiryCardCases(FirstOrZero(expired), FirstOrZero(expiringSoon));
    ExpiryCard(FirstOrZero(expired), FirstOrZero(expiringSoon))
  }

  /** The one row of the inventory aggregate: `COUNT(*)`, `SUM(quantity_remaining)`
      (NULL when no row holds a quantity, as for an empty table) and the number
      of rows with at most 10 left. */
  datatype InventoryRow = InventoryRow(totalItems: nat, totalQuantity: Option<int>, lowStockItems: nat)

  /** SQL `SUM` over a nullable column: NULL when every value is NULL. */
  function SumQuantities(quantities: seq<Option<int>>): (r: Option<int>)
    ensures r.None? <==> forall i :: 0 <= i < |quantities| ==> quantities[i].None?
  {
    if |quantities| == 0 then None
    else
      var rest := SumQuantities(quantities[1..]);
      assert forall i :: 1 <= i < |quantities| ==> quantities[i] == quantities[1..][i - 1];
      match quantities[0]
      case None => rest
      case Some(q) => Some(q + if rest.Some? then rest.value else 0)
  }

  /** `COUNT(CASE WHEN quantity_remaining <= 10 THEN 1 END)`: a NULL quantity is
      not counted. */
  function CountLow(quantities: seq<Option<int>>): (n: nat)
    ensures n <= |quantities|
  {
    if |quantities| == 0 then 0
    else (if quantities[0].Some? && quantities[0].value <= 10 then 1 else 0) + CountLow(quantities[1..])
  }

  /** The aggregate row the inventory query returns for the table's
      `quantity_remaining` column. */
  function InventoryAggregate(quantities: seq<Option<int>>): (row: InventoryRow)
  {
    InventoryRow(|quantities|, SumQuantities(quantities), CountLow(quantities))
  }

  /** The inventory card from the aggregate row (none when the read failed):
      `low / total * 100` (0 with no items) against 20 and 10 percent, compared
      exactly by cross-multiplying. Formatting a NULL total quantity raises, and
      the page shows an error instead of the card. */
  function LowStockCard(inventory: Option<InventoryRow>): (c: Card)
    ensures c == NoData <==> inventory.None?
    ensures c == Failed <==> inventory.Some? && inventory.value.totalQuantity.None?
    ensures inventory.Some? && inventory.value.totalQuantity.Some? ==>
              var total, low := inventory.value.totalItems, inventory.value.lowStockItems;
              (c == Shown(Critical) <==> total > 0 && 100 * low >= 20 * total) &&
              (c == Shown(Warning) <==> total > 0 && 100 * low < 20 * total && 100 * low >= 10 * total) &&
              (c == Shown(Good) <==> total == 0 || 100 * low < 10 * total)
  {
    match inventory
    case None => NoData
    case Some(row) =>
      var status :=
        if row.totalItems > 0 && 100 * row.lowStockItems >= 20 * row.totalItems then Critical
        else if row.totalItems > 0 && 100 * row.lowStockItems >= 10 * row.totalItems then Warning
        else Good;
      if row.totalQuantity.None? then Failed else Shown(status)
  }

  /** Over the inventory table itself: the card fails exactly when no row holds a
      quantity, and so always for an empty table. */
  lemma InventoryCardFails(quantities: seq<Option<int>>)
    ensures LowStockCard(Some(InventoryAggregate(quantities))) == Failed <==>
              forall i :: 0 <= i < |quantities| ==> quantities[i].None?
    ensures LowStockCard(Some(InventoryAggregate([]))) == Failed
  {
  }

  /** More low-stock items out of the same total never makes the card less urgent. */
  lemma LowStockMonotone(total: nat, quantity: int, low: nat, more: nat)
    requires low <= more
    ensures LowStockCard(Some(InventoryRow(total, Some(quantity), low))) == Shown(Critical) ==>
              LowStockCard(Some(InventoryRow(total, Some(quantity), more))) == Shown(Critical)
    ensures LowStockCard(Some(InventoryRow(total, Some(quantity), more))) == Shown(Good) ==>
              LowStockCard(Some(InventoryRow(total, Some(quantity), low))) == Shown(Good)
  {
  }

  /** The line under the delivery count: nothing without a latest delivery. */
  function DeliveryText(daysSinceDelivery: Option<int>): (text: string)
    ensures text == "" <==> daysSinceDelivery.None?
  {
    match daysSinceDelivery
    case None => ""
    case Some(d) =>
      if d == 0 then "Last delivery: Today"
      else "Last delivery: " + IntToString(d) + " days ago"
  }

  /** Different day counts give different lines. */
  lemma DeliveryTextInjective(a: Option<int>, b: Option<int>)
    requires DeliveryText(a) == DeliveryText(b)
    ensures a == b
  {
    if a.Some? && b.Some? {
      var ta, tb := DeliveryText(a), DeliveryText(b);
      if a.value != 0 && b.value != 0 {
        var sa, sb := IntToString(a.value), IntToString(b.value);
        assert ta[15..|ta| - 9] == sa;
        assert tb[15..|tb| - 9] == sb;
        IntToStringInjective(a.value, b.value);
      }
    }
  }

  /** `days_since_delivery`: today minus the latest delivery day, when there is one. */
  function DaysSince(today: int, latestDelivery: Option<int>): (r: Option<int>)
    ensures r.Some? <==> latestDelivery.Some?
    ensures r.Some? ==> latestDelivery.value + r.value == today
  {
    match latestDelivery
    case None => None
    case Some(day) => Some(today - day)
  }

  /** The one row of the recent-deliveries aggregate: `COUNT(*)`, `SUM(quantity)`
      (NULL when no delivery holds a quantity) and `MAX(received_date)`. */
  datatype DeliveryRow = DeliveryRow(count: nat, totalQuantity: Option<int>, latestDelivery: Option<int>)

  /** What the delivery section shows: nothing for no deliveries, the page's error
      message when building the card raised, or the card with its delivery line. */
  datatype DeliveryView = NoDeliveries | DeliveryError | DeliveryShown(line: string)

  /** The delivery card from the recent-deliveries read (empty when the read
      failed): shown only when there were deliveries, with the line under the
      count. Formatting a NULL total quantity raises, and the page shows an error
      instead of the card. */
  function DeliveryCard(received: seq<DeliveryRow>, today: int): (view: DeliveryView)
    ensures view == NoDeliveries <==> |received| == 0 || received[0].count == 0
    ensures view == DeliveryError <==> |received| > 0 && received[0].count > 0 && received[0].totalQuantity.None?
    ensures view.DeliveryShown? ==> (view.line == "" <==> received[0].latestDelivery.None?)
    ensures view.DeliveryShown? && received[0].latestDelivery == Some(today) ==> view.line == "Last delivery: Today"
  {
    if |received| > 0 && received[0].count > 0 then
      var line := DeliveryText(DaysSince(today, received[0].latestDelivery));
      if received[0].totalQuantity.None? then DeliveryError else DeliveryShown(line)
    else NoDeliveries
  }

  /** Over the recent deliveries themselves: with deliveries counted, the card
      fails exactly when none of them holds a quantity. */
  lemma DeliveryCardFails(quantities: seq<Option<int>>, latest: Option<int>, today: int)
    ensures DeliveryCard([DeliveryRow(|quantities|, SumQuantities(quantities), latest)], today) == DeliveryError <==>
              |quantities| > 0 && forall i :: 0 <= i < |quantities| ==> quantities[i].None?
  {
  }

  /** The recent-sales figures: the count and quantity when the read worked and
      found sales, otherwise zero for both. */
  function SalesFigures(sales: Option<seq<(int, int)>>): (r: (int, int))
    ensures r != (0, 0) ==> sales.Some? && |sales.value| > 0 && sales.value[0].0 > 0
    ensures sales.Some? && |sales.value| > 0 && sales.value[0].0 > 0 ==> r == sales.value[0]
  {
    var hasSalesData := sales.Some? && |sales.value| > 0 && sales.value[0].0 > 0;
    if hasSalesData then sales.value[0] else (0, 0)
  }
}
