/**
 * The reports screen: three tabs (members, financial, vehicles), each
 * loading its report for the chosen date range when the tab or the range
 * changes; an export button that downloads the PDF of the open tab; and the
 * pure helpers that turn a report into chart data and codes into Arabic
 * labels.
 */
module Reports {
  import opened Wrappers
  import opened Text
  import opened Js
  import opened Http
  import Screen
  import ApiServices
  import MembersPage
  import PaymentsPage
  import ExpensesPage
  import VehiclesPage

  // ---------------------------------------------------------------------------
  // Tabs, dates and URLs
  // ---------------------------------------------------------------------------

  /** The report a tab loads; the other tabs load nothing. */
  function TabReport(tab: string): (k: Option<ApiServices.ReportKind>)
    ensures k.Some? <==> tab == "members" || tab == "financial" || tab == "vehicles"
    ensures k.Some? ==> ApiServices.ReportName(k.value) == tab
  {
    if tab == "members" then Some(ApiServices.MemberReport)
    else if tab == "financial" then Some(ApiServices.FinancialReport)
    else if tab == "vehicles" then Some(ApiServices.VehicleReport)
    else None
  }

  /** Each report is loaded by the tab that bears its name, and by no other. */
  lemma {:induction false} TabOfReport(k: ApiServices.ReportKind, tab: string)
    ensures TabReport(ApiServices.ReportName(k)) == Some(k)
    ensures TabReport(tab) == Some(k) ==> tab == ApiServices.ReportName(k)
  {
  }

  const InitialRange: Fields := [("startDate", Str("2025-01-01")), ("endDate", Str("2025-12-31"))]

  /** `${dateRange.startDate}`. */
  function StartDate(range: Fields): string {
    ToStr(Js.Get(range, "startDate"))
  }

  /** `${dateRange.endDate}`. */
  function EndDate(range: Fields): string {
    ToStr(Js.Get(range, "endDate"))
  }

  /** The query every report request and every export carries. */
  function DateQuery(range: Fields): string {
    "?startDate=" + StartDate(range) + "&endDate=" + EndDate(range)
  }

  /** The URL of fetchMemberReport, fetchFinancialReport and fetchVehicleReport: the service's report URL under localhost. */
  function ReportRequestUrl(k: ApiServices.ReportKind, range: Fields): (url: string)
    ensures url == Screen.Localhost + ApiServices.ReportUrl(k, StartDate(range), EndDate(range))
  {
    var name, start, end := ApiServices.ReportName(k), StartDate(range), EndDate(range);
    PrefixConcat(Screen.Localhost, "/reports/", name, "?startDate=", start, "&endDate=", end);
    Screen.Localhost + "/reports/" + name + "?startDate=" + start + "&endDate=" + end
  }

  /** The document handleExportReport asks for: the open tab's, or the comprehensive one. */
  function ExportPath(tab: string): (p: string)
    ensures TabReport(tab).Some? ==> p == tab
    ensures TabReport(tab).None? ==> p == "comprehensive"
  {
    if tab == "members" || tab == "financial" || tab == "vehicles" then tab else "comprehensive"
  }

  /** handleExportReport's URL: the chosen document's path with the two dates. */
  function ExportUrl(tab: string, range: Fields): (url: string)
    ensures url == WithQuery(Screen.Localhost + "/pdf/" + ExportPath(tab), Param("startDate", StartDate(range)),
                             [Param("endDate", EndDate(range))])
  {
    DateQueryShape(Screen.Localhost + "/pdf/" + ExportPath(tab), range);
    Screen.Localhost + "/pdf/" + ExportPath(tab) + DateQuery(range)
  }

  lemma {:induction false} DateKeysLiteral()
    ensures "?" + "startDate" + "=" == "?startDate="
    ensures "&" + "endDate" + "=" == "&endDate="
  {
  }

  lemma {:induction false} QueryShape(path: string, start: string, end: string)
    ensures path + ("?startDate=" + start + "&endDate=" + end)
         == WithQuery(path, Param("startDate", start), [Param("endDate", end)])
  {
    var e := Param("endDate", end);
    assert [e][1..] == [];
    assert Suffix([e]) == "&" + ("endDate" + "=" + end) + "";
    DateKeysLiteral();
  }

  /** The date query is the two dates as URL parameters, start first. */
  lemma {:induction false} DateQueryShape(path: string, range: Fields)
    ensures path + DateQuery(range) == WithQuery(path, Param("startDate", StartDate(range)), [Param("endDate", EndDate(range))])
  {
    QueryShape(path, StartDate(range), EndDate(range));
  }

  /** The exported PDF of a report tab covers the same dates as the report on screen. */
  lemma {:induction false} ExportMatchesReport(k: ApiServices.ReportKind, range: Fields)
    ensures var name := ApiServices.ReportName(k);
            ReportRequestUrl(k, range) == Screen.Localhost + "/reports/" + name + DateQuery(range)
            && ExportUrl(name, range) == Screen.Localhost + "/pdf/" + name + DateQuery(range)
  {
  }

  /** Any path without `?` followed by the date query splits back into that path and the two dates. */
  lemma {:induction false} ParseDateQuery(path: string, range: Fields)
    requires '?' !in path
    requires ApiServices.SafeValue(StartDate(range)) && ApiServices.SafeValue(EndDate(range))
    ensures ParseUrl(path + DateQuery(range))
         == ParsedUrl(path, [Param("startDate", StartDate(range)), Param("endDate", EndDate(range))])
  {
    var s := Param("startDate", StartDate(range));
    var e := Param("endDate", EndDate(range));
    DateQueryShape(path, range);
    ParseWithQuery(path, s, [e]);
  }

  lemma {:induction false} NoQueryInExportPath(tab: string)
    ensures '?' !in Screen.Localhost + "/pdf/" + ExportPath(tab)
  {
    assert '?' !in Screen.Localhost;
  }

  /** An export URL splits into its document's path and the two dates, start first. */
  lemma {:induction false} ParseExportUrl(tab: string, range: Fields)
    requires ApiServices.SafeValue(StartDate(range)) && ApiServices.SafeValue(EndDate(range))
    ensures ParseUrl(ExportUrl(tab, range))
         == ParsedUrl(Screen.Localhost + "/pdf/" + ExportPath(tab),
                      [Param("startDate", StartDate(range)), Param("endDate", EndDate(range))])
  {
    var path := Screen.Localhost + "/pdf/" + ExportPath(tab);
    NoQueryInExportPath(tab);
    assert ExportUrl(tab, range) == path + DateQuery(range);
    ParseDateQuery(path, range);
  }

  /** `${activeTab}-report.pdf`. */
  function FileName(tab: string): (name: string)
    ensures |name| == |tab| + 11 && name[..|tab|] == tab && name[|tab|..] == "-report.pdf"
  {
    tab + "-report.pdf"
  }

  /** Distinct tabs download distinct files. */
  lemma {:induction false} FileNameInjective(a: string, b: string)
    requires FileName(a) == FileName(b)
    ensures a == b
  {
    assert a == FileName(a)[..|a|];
    assert b == FileName(b)[..|b|];
  }

  // ---------------------------------------------------------------------------
  // The page's state and its transitions
  // ---------------------------------------------------------------------------

  /** What the server answered: the report's `data`, or a refusal with its optional message. */
  datatype Answer = Answered(data: Value) | Refused(message: Value)

  function LoadMessage(k: ApiServices.ReportKind): (m: string)
    ensures m != ""
  {
    match k
    case MemberReport => "حدث خطأ أثناء تحميل تقرير الأعضاء"
    case FinancialReport => "حدث خطأ أثناء تحميل التقرير المالي"
    case VehicleReport => "حدث خطأ أثناء تحميل تقرير المركبات"
  }

  const ExportMessage := "حدث خطأ أثناء تنزيل التقرير"

  /** The effect's dependencies at its last run: the tab and the date range. */
  type Deps = (string, Fields)

  datatype ReportsView = ReportsView(
    loading: bool, error: Value, activeTab: string, dateRange: Fields,
    memberReport: Value, financialReport: Value, vehicleReport: Value,
    lastDeps: Option<Deps>, log: seq<Request>, downloads: seq<string>)

  function InitialReports(): ReportsView {
    ReportsView(false, Null, "members", InitialRange, Null, Null, Null, None, [], [])
  }

  function ReportOf(v: ReportsView, k: ApiServices.ReportKind): Value {
    match k
    case MemberReport => v.memberReport
    case FinancialReport => v.financialReport
    case VehicleReport => v.vehicleReport
  }

  /** One report request from state v, and what its answer leaves behind. */
  function Loaded(v: ReportsView, k: ApiServices.ReportKind, a: Answer): (w: ReportsView)
    ensures w.log == v.log + [Request.Get(ReportRequestUrl(k, v.dateRange))]
    ensures !w.loading && w.activeTab == v.activeTab && w.dateRange == v.dateRange
    ensures w.lastDeps == v.lastDeps && w.downloads == v.downloads
    ensures a.Answered? ==> ReportOf(w, k) == a.data && w.error == v.error
    ensures a.Refused? ==> ReportOf(w, k) == ReportOf(v, k) && w.error == Or(a.message, Str(LoadMessage(k)))
    ensures forall k' :: k' != k ==> ReportOf(w, k') == ReportOf(v, k')
  {
    var logged := v.(log := v.log + [Request.Get(ReportRequestUrl(k, v.dateRange))], loading := true);
    match a
    case Answered(data) =>
      (match k
       case MemberReport => logged.(memberReport := data)
       case FinancialReport => logged.(financialReport := data)
       case VehicleReport => logged.(vehicleReport := data)).(loading := false)
    case Refused(m) => logged.(error := Or(m, Str(LoadMessage(k))), loading := false)
  }

  /**
   * The effect on `[activeTab, dateRange]`: nothing when neither changed since
   * its last run; otherwise the open tab's report, if it has one. The range is
   * compared by value, where React compares the object's identity.
   */
  function Effect(v: ReportsView, a: Answer): (w: ReportsView)
    ensures v.lastDeps == Some((v.activeTab, v.dateRange)) ==> w == v
    ensures v.lastDeps != Some((v.activeTab, v.dateRange)) ==> w.lastDeps == Some((v.activeTab, v.dateRange))
    ensures TabReport(v.activeTab).None? ==> w.log == v.log
    ensures |w.log| <= |v.log| + 1
    ensures v.lastDeps != Some((v.activeTab, v.dateRange)) && TabReport(v.activeTab).Some? ==>
              w.log == v.log + [Request.Get(ReportRequestUrl(TabReport(v.activeTab).value, v.dateRange))]
              && w == Loaded(v.(lastDeps := Some((v.activeTab, v.dateRange))), TabReport(v.activeTab).value, a)
  {
    var deps := (v.activeTab, v.dateRange);
    if v.lastDeps == Some(deps) then v
    else
      var u := v.(lastDeps := Some(deps));
      match TabReport(v.activeTab)
      case None => u
      case Some(k) => Loaded(u, k, a)
  }

  /** handleDateRangeChange: `{...dateRange, [name]: value}`. */
  function RangeChanged(v: ReportsView, name: string, value: string): (w: ReportsView)
    ensures w == v.(dateRange := Update(v.dateRange, name, Str(value)))
  {
    v.(dateRange := Update(v.dateRange, name, Str(value)))
  }

  /** Changing one end of the range sets that end and leaves the other one as it was. */
  lemma {:induction false} RangeChangeKeepsOtherEnd(v: ReportsView, value: string)
    ensures StartDate(RangeChanged(v, "startDate", value).dateRange) == value
    ensures EndDate(RangeChanged(v, "startDate", value).dateRange) == EndDate(v.dateRange)
    ensures EndDate(RangeChanged(v, "endDate", value).dateRange) == value
    ensures StartDate(RangeChanged(v, "endDate", value).dateRange) == StartDate(v.dateRange)
  {
    LookupUpdate(v.dateRange, "startDate", Str(value), "startDate");
    LookupUpdate(v.dateRange, "startDate", Str(value), "endDate");
    LookupUpdate(v.dateRange, "endDate", Str(value), "endDate");
    LookupUpdate(v.dateRange, "endDate", Str(value), "startDate");
  }

  /** The effect refetches after a range change that changed the range. */
  lemma {:induction false} RangeChangeRefetches(v: ReportsView, name: string, value: string, a: Answer)
    requires v.lastDeps == Some((v.activeTab, v.dateRange))
    requires Lookup(v.dateRange, name) != Some(Str(value))
    requires TabReport(v.activeTab).Some?
    ensures var w := RangeChanged(v, name, value);
            Effect(w, a).log == v.log + [Request.Get(ReportRequestUrl(TabReport(v.activeTab).value, w.dateRange))]
  {
    var w := RangeChanged(v, name, value);
    LookupUpdate(v.dateRange, name, Str(value), name);
    assert w.dateRange != v.dateRange;
  }

  /** The effect requests the report of a report tab opened after its last run. */
  lemma {:induction false} TabChangeRefetches(v: ReportsView, key: string, a: Answer)
    requires v.lastDeps == Some((v.activeTab, v.dateRange))
    requires key != v.activeTab && TabReport(key).Some?
    ensures var w := v.(activeTab := key);
            Effect(w, a).log == v.log + [Request.Get(ReportRequestUrl(TabReport(key).value, v.dateRange))]
  {
    var w := v.(activeTab := key);
    assert w.lastDeps != Some((w.activeTab, w.dateRange));
  }

  /** handleExportReport: one GET; a success downloads `${activeTab}-report.pdf`. */
  function Exported(v: ReportsView, a: Answer): (w: ReportsView)
    ensures w.log == v.log + [Request.Get(ExportUrl(v.activeTab, v.dateRange))]
    ensures a.Answered? ==> w.downloads == v.downloads + [FileName(v.activeTab)] && w.error == v.error
    ensures a.Refused? ==> w.downloads == v.downloads && w.error == Or(a.message, Str(ExportMessage))
    ensures !w.loading
    ensures forall k :: ReportOf(w, k) == ReportOf(v, k)
  {
    var logged := v.(log := v.log + [Request.Get(ExportUrl(v.activeTab, v.dateRange))], loading := true);
    match a
    case Answered(_) => logged.(downloads := v.downloads + [FileName(v.activeTab)], loading := false)
    case Refused(m) => logged.(error := Or(m, Str(ExportMessage)), loading := false)
  }

  class ReportsPage {
    var loading: bool
    var error: Value
    var activeTab: string
    var dateRange: Fields
    var memberReport: Value
    var financialReport: Value
    var vehicleReport: Value
    var lastDeps: Option<Deps>
    ghost var log: seq<Request>
    ghost var downloads: seq<string>

    ghost function State(): ReportsView
      reads this
    {
      ReportsView(loading, error, activeTab, dateRange, memberReport, financialReport, vehicleReport,
                  lastDeps, log, downloads)
    }

    /** The page as mounted, before its effect has run. */
    constructor ()
      ensures State() == InitialReports()
    {
      loading, error, activeTab, dateRange := false, Null, "members", InitialRange;
      memberReport, financialReport, vehicleReport := Null, Null, Null;
      lastDeps := None;
      log, downloads := [], [];
    }

    /** fetchMemberReport, fetchFinancialReport and fetchVehicleReport. */
    method FetchReport(k: ApiServices.ReportKind, a: Answer)
      modifies this
      ensures State() == Loaded(old(State()), k, a)
    {
      var request := Request.Get(ReportRequestUrl(k, dateRange));
      match a {
        case Answered(data) =>
          match k {
            case MemberReport => log, memberReport, loading := log + [request], data, false;
            case FinancialReport => log, financialReport, loading := log + [request], data, false;
            case VehicleReport => log, vehicleReport, loading := log + [request], data, false;
          }
        case Refused(m) =>
          log, error, loading := log + [request], Or(m, Str(LoadMessage(k))), false;
      }
    }

    method RunEffect(a: Answer)
      modifies this
      ensures State() == Effect(old(State()), a)
    {
      var deps := (activeTab, dateRange);
      if lastDeps == Some(deps) {
        return;
      }
      lastDeps := Some(deps);
      if activeTab == "members" {
        FetchReport(ApiServices.MemberReport, a);
      } else if activeTab == "financial" {
        FetchReport(ApiServices.FinancialReport, a);
      } else if activeTab == "vehicles" {
        FetchReport(ApiServices.VehicleReport, a);
      }
    }

    /** handleTabChange. */
    method TabChange(key: string)
      modifies this
      ensures State() == old(State()).(activeTab := key)
    {
      activeTab := key;
    }

    /** handleDateRangeChange, for the input named `name`. */
    method DateRangeChange(name: string, value: string)
      modifies this
      ensures State() == RangeChanged(old(State()), name, value)
    {
      dateRange := Update(dateRange, name, Str(value));
    }

    method ExportReport(a: Answer)
      modifies this
      ensures State() == Exported(old(State()), a)
    {
      log := log + [Request.Get(ExportUrl(activeTab, dateRange))];
      loading := true;
      match a {
        case Answered(_) =>
          downloads := downloads + [FileName(activeTab)];
          loading := false;
        case Refused(m) =>
          error := Or(m, Str(ExportMessage));
          loading := false;
      }
    }
  }

  // ---------------------------------------------------------------------------
  // Chart data
  // ---------------------------------------------------------------------------

  /** No chart (the helper returned null), a TypeError while building it, or its labels and series. */
  datatype Chart = NoChart | Throws | Drawn(labels: seq<string>, series: seq<seq<Value>>)

  /** `[source.k0 || 0, source.k1 || 0, …]`. */
  function Counts(source: Value, keys: seq<string>): (data: seq<Value>)
    ensures |data| == |keys|
    ensures forall i :: 0 <= i < |keys| ==> Truthy(data[i]) || data[i] == Num(0)
    ensures forall i :: 0 <= i < |keys| && Truthy(OptProp(source, keys[i])) ==> data[i] == OptProp(source, keys[i])
    ensures forall i :: 0 <= i < |keys| && !Truthy(OptProp(source, keys[i])) ==> data[i] == Num(0)
  {
    seq(|keys|, i requires 0 <= i < |keys| => Or(OptProp(source, keys[i]), Num(0)))
  }

  /** The member statuses the pie counts, in the order of its labels. */
  const StatusKeys := MembersPage.FilterOptions

  const StatusLabels := ["نشط", "غير نشط", "متوفى", "منسحب"]

  /** getMemberStatusChartData. */
  function MemberStatusChart(report: Value): (c: Chart)
    ensures c != Throws
    ensures c.Drawn? <==> Truthy(report) && Truthy(OptProp(report, "statusDistribution"))
    ensures c.Drawn? ==> c.labels == StatusLabels && |c.series| == 1
                         && c.series[0] == Counts(OptProp(report, "statusDistribution"), StatusKeys)
  {
    if !Truthy(report) || !Truthy(Prop(report, "statusDistribution").value) then NoChart
    else Drawn(StatusLabels, [Counts(Prop(report, "statusDistribution").value, StatusKeys)])
  }

  /** The pie names each status as the members list's badge does. */
  lemma {:induction false} StatusLabelsAreBadgeTexts(i: nat)
    requires i < |StatusKeys|
    ensures StatusLabels[i] == MembersPage.MembershipStatusBadge(StatusKeys[i]).text
  {
    MembersPage.FilterOptionsHaveBadges(i);
  }

  /** A distribution object's counts land in the pie, position by position, missing ones as 0. */
  lemma {:induction false} MemberStatusChartOf(distribution: Fields)
    ensures var c := MemberStatusChart(Obj([("statusDistribution", Obj(distribution))]));
            c.Drawn? && |c.series[0]| == 4
            && forall i :: 0 <= i < 4 ==> c.series[0][i] == Or(Js.Get(distribution, StatusKeys[i]), Num(0))
  {
    var report := Obj([("statusDistribution", Obj(distribution))]);
    assert OptProp(report, "statusDistribution") == Obj(distribution);
  }

  /** `Object.keys(breakdown)`: an object's keys, an array's indices, nothing for other values. */
  function MonthKeys(breakdown: Value): (ks: seq<string>)
    ensures breakdown.Obj? ==> ks == Keys(breakdown.fields)
    ensures breakdown.Arr? ==> |ks| == |breakdown.items|
    ensures !breakdown.Obj? && !breakdown.Arr? ==> ks == []
  {
    if breakdown.Obj? then Keys(breakdown.fields)
    else if breakdown.Arr? then Indices(|breakdown.items|)
    else []
  }

  /** An array's keys: "0", "1", …. */
  function Indices(n: nat): (ks: seq<string>)
    ensures |ks| == n && forall i :: 0 <= i < n ==> ks[i] == NatToString(i)
  {
    seq(n, i requires 0 <= i < n => NatToString(i))
  }

  /** `breakdown[month]` for the i-th key. */
  function MonthAt(breakdown: Value, i: nat): Value
    requires i < |MonthKeys(breakdown)|
  {
    match breakdown
    case Obj(fs) => Js.Get(fs, fs[i].0)
    case Arr(xs) => xs[i]
  }

  /** `months.map((month) => breakdown[month][key] || 0)`, for months whose entry is not nullish. */
  function Series(breakdown: Value, key: string): (data: seq<Value>)
    ensures |data| == |MonthKeys(breakdown)|
    ensures forall i :: 0 <= i < |data| ==> Truthy(data[i]) || data[i] == Num(0)
    ensures forall i :: 0 <= i < |data| ==> data[i] == Or(OptProp(MonthAt(breakdown, i), key), Num(0))
  {
    seq(|MonthKeys(breakdown)|, i requires 0 <= i < |MonthKeys(breakdown)| =>
      Or(OptProp(MonthAt(breakdown, i), key), Num(0)))
  }

  predicate HasNullishMonth(breakdown: Value) {
    exists i :: 0 <= i < |MonthKeys(breakdown)| && Nullish(MonthAt(breakdown, i))
  }

  /** getFinancialChartData. */
  function FinancialChart(report: Value): (c: Chart)
    ensures c.NoChart? <==> !Truthy(report) || !Truthy(OptProp(report, "monthlyBreakdown"))
    ensures c.Throws? <==> !c.NoChart? && HasNullishMonth(OptProp(report, "monthlyBreakdown"))
    ensures c.Drawn? ==> var breakdown := OptProp(report, "monthlyBreakdown");
                         c.labels == MonthKeys(breakdown)
                         && c.series == [Series(breakdown, "income"), Series(breakdown, "expenses")]
    ensures c.Drawn? ==> |c.series| == 2 && |c.series[0]| == |c.labels| && |c.series[1]| == |c.labels|
  {
    if !Truthy(report) || !Truthy(Prop(report, "monthlyBreakdown").value) then NoChart
    else
      var breakdown := Prop(report, "monthlyBreakdown").value;
      if HasNullishMonth(breakdown) then Throws
      else Drawn(MonthKeys(breakdown), [Series(breakdown, "income"), Series(breakdown, "expenses")])
  }

  /**
   * A breakdown object of month objects: one bar pair per month, in key
   * order, each showing that month's income and expenses or 0.
   */
  lemma {:induction false} FinancialChartOfMonths(months: seq<(string, Fields)>)
    requires DistinctKeys(months)
    ensures var breakdown := Obj(seq(|months|, i requires 0 <= i < |months| => (months[i].0, Obj(months[i].1))));
            var c := FinancialChart(Obj([("monthlyBreakdown", breakdown)]));
            |months| > 0 ==>
              c.Drawn? && c.labels == Keys(months)
              && forall i :: 0 <= i < |months| ==>
                   c.series[0][i] == Or(Js.Get(months[i].1, "income"), Num(0))
                   && c.series[1][i] == Or(Js.Get(months[i].1, "expenses"), Num(0))
  {
    var fs := seq(|months|, i requires 0 <= i < |months| => (months[i].0, Obj(months[i].1)));
    var breakdown := Obj(fs);
    var report := Obj([("monthlyBreakdown", breakdown)]);
    if |months| > 0 {
      assert OptProp(report, "monthlyBreakdown") == breakdown;
      assert DistinctKeys(fs) by {
        forall i, j | 0 <= i < j < |fs| ensures fs[i].0 != fs[j].0 {
          assert fs[i].0 == months[i].0 && fs[j].0 == months[j].0;
        }
      }
      forall i | 0 <= i < |fs| ensures MonthAt(breakdown, i) == Obj(months[i].1) {
        LookupAt(fs, i);
      }
      assert !HasNullishMonth(breakdown);
      assert Keys(fs) == Keys(months);
    }
  }

  /** `${v.make} ${v.model}`. */
  function VehicleName(v: Value): (name: string)
    requires !Nullish(v)
  {
    ToStr(Prop(v, "make").value) + " " + ToStr(Prop(v, "model").value)
  }

  predicate HasNullishItem(items: seq<Value>) {
    exists i :: 0 <= i < |items| && Nullish(items[i])
  }

  /** One bar per vehicle, in order: `make model`, and its trip count or 0. */
  ghost predicate UsageBars(vs: seq<Value>, c: Chart) {
    c.Drawn? && |c.labels| == |vs| && |c.series| == 1 && |c.series[0]| == |vs|
    && forall i :: 0 <= i < |vs| ==>
         !Nullish(vs[i]) && c.labels[i] == VehicleName(vs[i])
         && c.series[0][i] == Or(OptProp(vs[i], "tripCount"), Num(0))
  }

  /** getVehicleUsageChartData: `vehicles.map(…)` throws unless it is an array of non-nullish items. */
  function VehicleUsageChart(report: Value): (c: Chart)
    ensures c.NoChart? <==> !Truthy(report) || !Truthy(OptProp(report, "vehicles"))
    ensures c.Throws? <==> !c.NoChart? && (!OptProp(report, "vehicles").Arr? || HasNullishItem(OptProp(report, "vehicles").items))
    ensures c.Drawn? ==> OptProp(report, "vehicles").Arr? && UsageBars(OptProp(report, "vehicles").items, c)
  {
    if !Truthy(report) || !Truthy(Prop(report, "vehicles").value) then NoChart
    else
      var vehicles := Prop(report, "vehicles").value;
      if !vehicles.Arr? || HasNullishItem(vehicles.items) then Throws
      else Drawn(VehicleNames(vehicles.items), [TripCounts(vehicles.items)])
  }

  function VehicleNames(vs: seq<Value>): (names: seq<string>)
    requires !HasNullishItem(vs)
    ensures |names| == |vs| && forall i :: 0 <= i < |vs| ==> names[i] == VehicleName(vs[i])
  {
    seq(|vs|, i requires 0 <= i < |vs| => VehicleName(vs[i]))
  }

  function TripCounts(vs: seq<Value>): (counts: seq<Value>)
    ensures |counts| == |vs| && forall i :: 0 <= i < |vs| ==> counts[i] == Or(OptProp(vs[i], "tripCount"), Num(0))
  {
    seq(|vs|, i requires 0 <= i < |vs| => Or(OptProp(vs[i], "tripCount"), Num(0)))
  }

  /** A vehicle with make and model strings and a trip count shows as a `make model` bar of that height. */
  lemma {:induction false} VehicleUsageOfOne(make: string, model: string, trips: int)
    requires trips != 0
    ensures var v := Obj([("make", Str(make)), ("model", Str(model)), ("tripCount", Num(trips))]);
            VehicleUsageChart(Obj([("vehicles", Arr([v]))])) == Drawn([make + " " + model], [[Num(trips)]])
  {
    var fs := [("make", Str(make)), ("model", Str(model)), ("tripCount", Num(trips))];
    var v := Obj(fs);
    var report := Obj([("vehicles", Arr([v]))]);
    assert OptProp(report, "vehicles") == Arr([v]);
    LookupFirst(fs, 1);
    LookupFirst(fs, 2);
    assert VehicleName(v) == make + " " + model;
    assert !HasNullishItem([v]);
    assert VehicleNames([v]) == [make + " " + model];
    assert TripCounts([v]) == [Num(trips)];
  }

  // ---------------------------------------------------------------------------
  // Label switches
  // ---------------------------------------------------------------------------

  /** `case c: return c` for each code: names that are already their own label. */
  function Identity(codes: seq<string>): (table: seq<(string, string)>)
    ensures |table| == |codes|
    ensures forall i :: 0 <= i < |codes| ==> table[i] == (codes[i], codes[i])
  {
    seq(|codes|, i requires 0 <= i < |codes| => (codes[i], codes[i]))
  }

  lemma {:induction false} LookupAppend<T>(a: seq<(string, T)>, b: seq<(string, T)>, k: string)
    ensures Lookup(a + b, k) == if Lookup(a, k).Some? then Lookup(a, k) else Lookup(b, k)
    decreases |a|
  {
    if |a| > 0 {
      assert (a + b)[1..] == a[1..] + b;
      if a[0].0 != k {
        LookupAppend(a[1..], b, k);
      }
    } else {
      assert a + b == b;
    }
  }

  lemma {:induction false} LookupFound<T>(fs: seq<(string, T)>, k: string) returns (j: nat)
    requires Lookup(fs, k).Some?
    ensures j < |fs| && fs[j] == (k, Lookup(fs, k).value)
    decreases |fs|
  {
    if fs[0].0 == k {
      j := 0;
    } else {
      var j' := LookupFound(fs[1..], k);
      j := j' + 1;
    }
  }

  /** Appending cases that return their own code changes no label. */
  lemma {:induction false} IdentityTail(table: seq<(string, string)>, codes: seq<string>, code: string)
    ensures Screen.Labelled(table + Identity(codes), code) == Screen.Labelled(table, code)
  {
    LookupAppend(table, Identity(codes), code);
    if Lookup(table, code).None? && Lookup(Identity(codes), code).Some? {
      var j := LookupFound(Identity(codes), code);
    }
  }

  const ArabicPaymentTypes := ["رسوم العضوية السنوية", "رسوم العضوية الشهرية", "رسوم النشاطات",
                               "تبرع عام", "تبرع للمشاريع", "تبرع كبير"]

  /** The payment-type switch: the list page's four codes, then six Arabic names returned as they are. */
  const PaymentTypes := [
    ("membership_fee", "رسوم عضوية"),
    ("donation", "تبرع"),
    ("event_fee", "رسوم فعالية"),
    ("other", "أخرى"),
    ("رسوم العضوية السنوية", "رسوم العضوية السنوية"),
    ("رسوم العضوية الشهرية", "رسوم العضوية الشهرية"),
    ("رسوم النشاطات", "رسوم النشاطات"),
    ("تبرع عام", "تبرع عام"),
    ("تبرع للمشاريع", "تبرع للمشاريع"),
    ("تبرع كبير", "تبرع كبير")
  ]

  /** getPaymentTypeName. */
  function PaymentTypeName(t: string): (name: string)
    ensures t != "membership_fee" && t != "donation" && t != "event_fee" && t != "other" ==> name == t
  {
    assert PaymentTypes == PaymentsPage.PaymentTypes + Identity(ArabicPaymentTypes);
    IdentityTail(PaymentsPage.PaymentTypes, ArabicPaymentTypes, t);
    Screen.Labelled(PaymentTypes, t)
  }

  /** The extra Arabic cases make no difference: the payments list names every type the same way. */
  lemma {:induction false} SamePaymentTypeNames(t: string)
    ensures PaymentTypeName(t) == PaymentsPage.PaymentTypeName(t)
  {
    assert PaymentTypes == PaymentsPage.PaymentTypes + Identity(ArabicPaymentTypes);
    IdentityTail(PaymentsPage.PaymentTypes, ArabicPaymentTypes, t);
  }

  /** The eight categories of the expenses filter with their Arabic names. */
  const Categories := [
    ("utilities", "مرافق"),
    ("rent", "إيجار"),
    ("salaries", "رواتب"),
    ("transportation", "مواصلات"),
    ("maintenance", "صيانة"),
    ("supplies", "مستلزمات"),
    ("events", "فعاليات"),
    ("other", "أخرى")
  ]

  const ArabicCategories := ["مصاريف إدارية", "مصاريف النقل", "مصاريف الصيانة", "مصاريف النشاطات", "مصاريف الخير"]

  const ExpenseCategories := Categories + Identity(ArabicCategories)

  /** getExpenseCategoryName: the eight categories translated, anything else as it is. */
  function ExpenseCategoryName(category: string): (name: string)
    ensures category !in ExpensesPage.FilterOptions ==> name == category
  {
    IdentityTail(Categories, ArabicCategories, category);
    CategoryKeys();
    Screen.Labelled(ExpenseCategories, category)
  }

  lemma {:induction false} CategoryKeys()
    ensures Keys(Categories) == ExpensesPage.FilterOptions
  {
  }

  lemma {:induction false} CategoryCodesDistinct()
    ensures DistinctKeys(Categories)
  {
  }

  lemma {:induction false} CategoryNamesDistinct()
    ensures forall i, j :: 0 <= i < j < |Categories| ==> Categories[i].1 != Categories[j].1
    ensures forall i :: 0 <= i < |Categories| ==> Categories[i].1 != Categories[i].0
  {
  }

  /** Every category the expenses filter offers has its own Arabic name, distinct from the others'. */
  lemma {:induction false} FilterCategoriesNamed(i: nat, j: nat)
    requires i < |ExpensesPage.FilterOptions| && j < |ExpensesPage.FilterOptions|
    ensures ExpenseCategoryName(ExpensesPage.FilterOptions[i]) == Categories[i].1
    ensures ExpenseCategoryName(ExpensesPage.FilterOptions[i]) != ExpensesPage.FilterOptions[i]
    ensures i != j ==> ExpenseCategoryName(ExpensesPage.FilterOptions[i]) != ExpenseCategoryName(ExpensesPage.FilterOptions[j])
  {
    var opts := ExpensesPage.FilterOptions;
    CategoryKeys();
    assert Categories[i].0 == opts[i] && Categories[j].0 == opts[j];
    CategoryCodesDistinct();
    CategoryNamesDistinct();
    IdentityTail(Categories, ArabicCategories, opts[i]);
    IdentityTail(Categories, ArabicCategories, opts[j]);
    LookupAt(Categories, i);
    LookupAt(Categories, j);
  }

  const VehicleStatuses := [
    ("available", "متاح"),
    ("in_use", "قيد الاستخدام"),
    ("in-use", "قيد الاستخدام"),
    ("maintenance", "صيانة"),
    ("out_of_service", "خارج الخدمة")
  ]

  /** getVehicleStatusName. */
  function VehicleStatusName(status: string): (name: string)
    ensures status !in VehiclesPage.Targets && status != "in-use" ==> name == status
  {
    Screen.Labelled(VehicleStatuses, status)
  }

  /** The hyphenated spelling is named like the underscored one. */
  lemma {:induction false} InUseSpellings()
    ensures VehicleStatusName("in-use") == VehicleStatusName("in_use") == "قيد الاستخدام"
  {
    LookupFirst(VehicleStatuses, 1);
    LookupFirst(VehicleStatuses, 2);
  }

  /** Apart from the extra spelling, the report names each status as the vehicles list's badge does. */
  lemma {:induction false} StatusNamesMatchBadges(status: string)
    requires status != "in-use"
    ensures VehicleStatusName(status) == VehiclesPage.StatusBadge(status).text
  {
    var t := VehiclesPage.Targets;
    if status == t[0] {
      LookupFirst(VehicleStatuses, 0);
      VehiclesPage.MenuMatchesBadges(0);
    } else if status == t[1] {
      LookupFirst(VehicleStatuses, 1);
      VehiclesPage.MenuMatchesBadges(1);
    } else if status == t[2] {
      LookupFirst(VehicleStatuses, 3);
      VehiclesPage.MenuMatchesBadges(2);
    } else if status == t[3] {
      LookupFirst(VehicleStatuses, 4);
      VehiclesPage.MenuMatchesBadges(3);
    }
  }
}
