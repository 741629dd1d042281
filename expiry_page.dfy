/** The expiry management page: the remembered window, its threshold date, the
    expiring-products query, the summary buckets and the status column. */
module ExpiryPage {
  import opened Common
  import opened Strings
  import opened Templates
  import opened PageCommon

  // ---------------------------------------------------------------------------
  // The window slider and the value the session remembers.

  const DefaultDays: int := 90
  const SliderMin: int := 7
  const SliderMax: int := 365
  const SliderStep: int := 7

  /** A value the slider can be moved to: from the minimum in whole steps, up to
      the maximum. */
  predicate OnSlider(days: int)
  {
    SliderMin <= days <= SliderMax && (days - SliderMin) % SliderStep == 0
  }

  /** `datetime.now().date() + timedelta(days=expiry_days)`, dates as day numbers. */
  function ExpiryThreshold(today: int, days: int): (r: int)
    ensures r - today == days
  {
    today + days
  }

  /** The default window lies within the slider's range but is not one of the
      values the slider steps through, so the slider shows it only until moved. */
  lemma DefaultOffGrid()
    ensures SliderMin <= DefaultDays <= SliderMax && !OnSlider(DefaultDays)
    ensures OnSlider(84) && OnSlider(91)
  {
  }

  /** `st.session_state` as far as this page uses it. */
  class ExpirySession {
    var expiryDaysFilter: Option<int>

    /** Whatever the session holds is a window the page accepts. */
    predicate Valid()
      reads this
    {
      expiryDaysFilter.Some? ==> SliderMin <= expiryDaysFilter.value <= SliderMax
    }

    /** A fresh browser session: nothing stored yet. */
    constructor ()
      ensures expiryDaysFilter.None? && Valid()
    {
      expiryDaysFilter := None;
    }

    /** One run of the page script up to the threshold: store the default if
        nothing is stored, read the slider (the user's pick, or the stored value
        when the slider was not touched), write it back and compute the date. */
    method Run(picked: Option<int>, today: int) returns (expiryDays: int, threshold: int)
      requires Valid()
      requires picked.Some? ==> OnSlider(picked.value)
      modifies this
      ensures expiryDays == match picked
                             case Some(d) => d
                             case None => if old(expiryDaysFilter).None? then DefaultDays
                                          else old(expiryDaysFilter).value
      ensures expiryDaysFilter == Some(expiryDays) && Valid()
      ensures SliderMin <= expiryDays <= SliderMax
      ensures threshold == ExpiryThreshold(today, expiryDays)
    {
      if expiryDaysFilter.None? {
        expiryDaysFilter := Some(DefaultDays);
      }
      if picked.Some? {
        expiryDays := picked.value;
      } else {
        expiryDays := expiryDaysFilter.value;
      }
      expiryDaysFilter := Some(expiryDays);
      threshold := ExpiryThreshold(today, expiryDays);
    }
  }

  // ---------------------------------------------------------------------------
  // Products expiring soon (column list abridged).

  const ExpSelect: Sql := Join2("SELECT", " p.product_code, i.quantity")
  const ExpFrom: Sql := Join2(" FROM inventory", " i JOIN products p")
  const ExpOn: Sql := Join2(" ON i.product_code", " = p.product_code")
  const ExpWhere: Sql := Join2(" WHERE i.expiry_date", " <= ")
  const ExpSpace: Sql := " "
  const ExpOrder: Sql := Join2(" ORDER BY", " i.expiry_date ASC")
  const PDepartment: Sql := "p.department"

  function ExpHead(): Sql
  {
    Join2(Join2(ExpSelect, ExpFrom), Join2(ExpOn, ExpWhere))
  }

  /** The expiring-products query: the threshold, then the selected departments. */
  function ExpiringTemplate(threshold: int, selected: seq<string>): (t: seq<Piece>)
    ensures Plain(t)
    ensures HoleValues(t) == [Day(threshold)] + (if ShowsAll(selected) then [] else Strs(selected))
  {
    var filters := Lead(ExpSpace, Cat(InFilterTemplate(PDepartment, selected), Text(ExpOrder)));
    assert HoleValues(filters) == if ShowsAll(selected) then [] else Strs(selected);
    Lead(ExpHead(), Slot(Day(threshold), filters))
  }

  /** The expiring-products read: the f-string query and the parameter list,
      built as the page builds them. */
  method ExpiringQuery(threshold: int, selected: seq<string>) returns (query: string, params: seq<Value>)
    ensures query == Render(ExpiringTemplate(threshold, selected))
    ensures params == HoleValues(ExpiringTemplate(threshold, selected))
  {
    var departmentFilter := InFilter(PDepartment, selected);
    InFilterMatches(PDepartment, selected);
    query := ExpHead() + ("%s" + (ExpSpace + (departmentFilter + ExpOrder)));
    params := [Day(threshold)];
    if departmentFilter != "" && "All" !in selected {
      params := params + Strs(selected);
    }
  }

  // ---------------------------------------------------------------------------
  // The expiry summary and the timeline.

  const SumSelect: Sql := Join2("SELECT COUNT(*)", " as total_expiring")
  const SumCase: Sql := Join2(", COUNT(CASE WHEN", " expiry_date <= ")
  const SumFrom: Sql := Join2(" THEN 1 END) as ok", " FROM inventory")
  const SumWhere: Sql := Join2(" WHERE expiry_date", " <= ")
  const Nothing: Sql := ""
  const LineSelect: Sql := Join2("SELECT DATE_TRUNC", "('month', expiry_date)")
  const LineWhere: Sql := Join2(" FROM inventory", " WHERE expiry_date <= ")
  const LineGroup: Sql := Join2(" GROUP BY month", " ORDER BY month")

  /** The summary query binds the threshold twice: once for the last bucket's
      upper bound, once for the WHERE clause. */
  function SummaryTemplate(threshold: int): (t: seq<Piece>)
    ensures Plain(t)
    ensures HoleValues(t) == [Day(threshold), Day(threshold)]
  {
    Pair(Join2(SumSelect, SumCase), Day(threshold), Join2(SumFrom, SumWhere), Day(threshold), Text(Nothing))
  }

  /** The timeline query binds the threshold once. */
  function TimelineTemplate(threshold: int): (t: seq<Piece>)
    ensures Plain(t)
    ensures HoleValues(t) == [Day(threshold)]
  {
    Lead(Join2(LineSelect, LineWhere), Slot(Day(threshold), Text(LineGroup)))
  }

  /** The rows the summary counts and the bucket each `CASE` puts a row in,
      for an expiry date (day number, or NULL) against today and the threshold. */
  datatype SummaryBucket = SumExpired | SumCritical | SumWarning | SumOk

  /** `WHERE expiry_date <= %s`: a NULL date fails the comparison. */
  predicate Counted(expiry: Option<int>, threshold: int)
  {
    expiry.Some? && expiry.value <= threshold
  }

  /** The four `CASE WHEN` conditions, each as the query writes it. */
  predicate InBucket(b: SummaryBucket, expiry: int, today: int, threshold: int)
  {
    match b
    case SumExpired => expiry <= today
    case SumCritical => expiry > today && expiry <= today + 30
    case SumWarning => expiry > today + 30 && expiry <= today + 60
    case SumOk => expiry > today + 60 && expiry <= threshold
  }

  /** The bucket a counted row falls in. */
  function BucketOf(expiry: int, today: int, threshold: int): (b: SummaryBucket)
    requires expiry <= threshold
    ensures InBucket(b, expiry, today, threshold)
    ensures forall c: SummaryBucket :: InBucket(c, expiry, today, threshold) ==> c == b
  {
    if expiry <= today then SumExpired
    else if expiry <= today + 30 then SumCritical
    else if expiry <= today + 60 then SumWarning
    else SumOk
  }

  /** `COUNT(*)` over the rows the WHERE clause keeps. */
  function Total(rows: seq<Option<int>>, threshold: int): (n: nat)
    ensures n <= |rows|
  {
    if |rows| == 0 then 0
    else (if Counted(rows[0], threshold) then 1 else 0) + Total(rows[1..], threshold)
  }

  /** `COUNT(CASE WHEN ... THEN 1 END)` over the rows the WHERE clause keeps. */
  function BucketCount(rows: seq<Option<int>>, b: SummaryBucket, today: int, threshold: int): (n: nat)
    ensures n <= Total(rows, threshold)
  {
    if |rows| == 0 then 0
    else
      (if Counted(rows[0], threshold) && InBucket(b, rows[0].value, today, threshold) then 1 else 0) +
      BucketCount(rows[1..], b, today, threshold)
  }

  /** The four buckets split the counted rows: whatever the threshold, every row
      the summary counts is in exactly one bucket, so the buckets add up to
      `total_expiring`. */
  lemma {:induction false} SummaryPartition(rows: seq<Option<int>>, today: int, threshold: int)
    ensures BucketCount(rows, SumExpired, today, threshold) + BucketCount(rows, SumCritical, today, threshold) +
            BucketCount(rows, SumWarning, today, threshold) + BucketCount(rows, SumOk, today, threshold) ==
            Total(rows, threshold)
    decreases |rows|
  {
    if |rows| > 0 {
      SummaryPartition(rows[1..], today, threshold);
      if Counted(rows[0], threshold) {
        var b := BucketOf(rows[0].value, today, threshold);
      }
    }
  }

  /** With a window shorter than 60 days nothing is `ok`. */
  lemma {:induction false} NothingOkBelowSixty(rows: seq<Option<int>>, today: int, threshold: int)
    requires threshold <= today + 60
    ensures BucketCount(rows, SumOk, today, threshold) == 0
    decreases |rows|
  {
    if |rows| > 0 {
      NothingOkBelowSixty(rows[1..], today, threshold);
    }
  }

  // ---------------------------------------------------------------------------
  // The status column of the expiring-products table.

  /** `get_status`: below 0 expired, up to 30 critical, up to 60 warning,
      otherwise (or with no value) OK. */
  function GetStatus(days: Option<int>): (r: ExpiryLevel)
    ensures r == Expired <==> days.Some? && days.value < 0
    ensures r == Critical <==> days.Some? && 0 <= days.value <= 30
    ensures r == Warning <==> days.Some? && 30 < days.value <= 60
    ensures r == OK <==> days.None? || days.value > 60
  {
    ExpiryBucket(days, 30, 60)
  }

  /** Fewer days left never means a less urgent status. */
  lemma StatusMonotone(d: int, e: int)
    requires d <= e
    ensures Urgency(GetStatus(Some(e))) <= Urgency(GetStatus(Some(d)))
  {
  }

  /** The summary and the status column agree on every counted row except one
      expiring today, which the summary calls expired and the column critical. */
  lemma SummaryAgreesWithStatus(expiry: int, today: int, threshold: int)
    requires expiry <= threshold
    ensures var b := BucketOf(expiry, today, threshold);
      var s := GetStatus(Some(expiry - today));
      if expiry == today then b == SumExpired && s == Critical
      else (b == SumExpired <==> s == Expired) && (b == SumCritical <==> s == Critical) &&
           (b == SumWarning <==> s == Warning) && (b == SumOk <==> s == OK)
  {
  }

  /** `highlight_status`: a background colour for expired, critical and warning
      rows, none for the rest. */
  function RowStyle(level: ExpiryLevel): (style: string)
    ensures style == "" <==> level == OK
  {
    match level
    case Expired => "background-color: #FFCDD2"
    case Critical => "background-color: #FFECB3"
    case Warning => "background-color: #E8F5E9"
    case OK => ""
  }

  /** Each flagged level has its own colour. */
  lemma RowStyleInjective(a: ExpiryLevel, b: ExpiryLevel)
    requires RowStyle(a) == RowStyle(b)
    ensures a == b
  {
  }
}
