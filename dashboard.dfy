/**
 * The dashboard: one request for the statistics, a spinner while it runs,
 * a blocking alert with a retry button when it fails, and otherwise the
 * charts and recent-activity tables computed from the statistics.
 */
module Dashboard {
  import opened Wrappers
  import opened Text
  import opened Js
  import opened Http
  import Screen
  import ApiServices
  import Reports
  import PaymentsPage
  import ExpensesPage
  import VehiclesPage

  // ---------------------------------------------------------------------------
  // Loading the statistics
  // ---------------------------------------------------------------------------

  const LoadMessage := "حدث خطأ أثناء تحميل البيانات"

  datatype DashboardView = DashboardView(stats: Value, loading: bool, error: Value, log: seq<Request>)

  function InitialDashboard(): DashboardView {
    DashboardView(Null, true, Null, [])
  }

  /** What the page shows: the spinner first, then the alert whenever an error is set, else the content. */
  datatype Shown = Loading | ErrorAlert(message: Value) | Content

  function ShownOf(v: DashboardView): (s: Shown)
    ensures s == Content <==> !v.loading && !Truthy(v.error)
    ensures s.ErrorAlert? ==> s.message == v.error
  {
    if v.loading then Loading else if Truthy(v.error) then ErrorAlert(v.error) else Content
  }

  /** fetchDashboardStats as written: a success never clears the error of an earlier attempt. */
  function AsWrittenFetched(v: DashboardView, a: Reports.Answer): (w: DashboardView)
    ensures w.log == v.log + [Request.Get(ApiServices.DashboardStatsUrl())] && !w.loading
    ensures a.Answered? ==> w.stats == a.data && w.error == v.error
    ensures a.Refused? ==> w.stats == v.stats && w.error == Or(a.message, Str(LoadMessage))
  {
    var sent := v.(log := v.log + [Request.Get(ApiServices.DashboardStatsUrl())], loading := true);
    match a
    case Answered(data) => sent.(stats := data, loading := false)
    case Refused(m) => sent.(error := Or(m, Str(LoadMessage)), loading := false)
  }

  /**
   * As written, the retry button cannot leave the alert: after a failure, a
   * retry that succeeds stores the statistics and still shows the error.
   */
  lemma {:induction false} AsWrittenRetryKeepsAlert(v: DashboardView, m: Value, data: Value)
    ensures var w := AsWrittenFetched(AsWrittenFetched(v, Reports.Refused(m)), Reports.Answered(data));
            w.stats == data && ShownOf(w) == ErrorAlert(Or(m, Str(LoadMessage)))
  {
  }

  /** fetchDashboardStats with the error cleared when a new attempt starts. */
  function Fetched(v: DashboardView, a: Reports.Answer): (w: DashboardView)
    ensures w.log == v.log + [Request.Get(ApiServices.DashboardStatsUrl())] && !w.loading
    ensures a.Answered? ==> w.stats == a.data && w.error == Null
    ensures a.Refused? ==> w.stats == v.stats && w.error == Or(a.message, Str(LoadMessage))
  {
    var sent := v.(log := v.log + [Request.Get(ApiServices.DashboardStatsUrl())], loading := true, error := Null);
    match a
    case Answered(data) => sent.(stats := data, loading := false)
    case Refused(m) => sent.(error := Or(m, Str(LoadMessage)), loading := false)
  }

  /** With the correction, every attempt ends on the dashboard or on the alert with this attempt's error. */
  lemma {:induction false} FetchedShows(v: DashboardView, a: Reports.Answer)
    ensures a.Answered? ==> ShownOf(Fetched(v, a)) == Content
    ensures a.Refused? ==> ShownOf(Fetched(v, a)) == ErrorAlert(Or(a.message, Str(LoadMessage)))
  {
    var w := Fetched(v, a);
    match a
    case Answered(_) =>
      assert !w.loading && w.error == Null;
    case Refused(m) =>
      assert LoadMessage[0] == 'ح';
      assert Truthy(Str(LoadMessage));
      assert Truthy(w.error);
  }

  /** With the correction, a successful retry shows the dashboard. */
  lemma {:induction false} RetryRecovers(v: DashboardView, m: Value, data: Value)
    ensures var w := Fetched(Fetched(v, Reports.Refused(m)), Reports.Answered(data));
            w.stats == data && ShownOf(w) == Content
  {
  }

  /** The correction changes nothing for an attempt made while no error is set, such as the first one. */
  lemma {:induction false} CorrectionOnlyAfterError(v: DashboardView, a: Reports.Answer)
    requires v.error == Null
    ensures Fetched(v, a) == AsWrittenFetched(v, a)
  {
  }

  class DashboardPage {
    var stats: Value
    var loading: bool
    var error: Value
    ghost var log: seq<Request>

    ghost function State(): DashboardView
      reads this
    {
      DashboardView(stats, loading, error, log)
    }

    constructor ()
      ensures State() == InitialDashboard()
    {
      stats, loading, error := Null, true, Null;
      log := [];
    }

    /** fetchDashboardStats as written, run on mount and by the retry button; the error is never cleared. */
    method FetchStats(a: Reports.Answer)
      modifies this
      ensures State() == AsWrittenFetched(old(State()), a)
    {
      loading := true;
      log := log + [Request.Get(ApiServices.DashboardStatsUrl())];
      match a {
        case Answered(data) =>
          stats := data;
          loading := false;
        case Refused(m) =>
          error := Or(m, Str(LoadMessage));
          loading := false;
      }
    }
  }

  // ---------------------------------------------------------------------------
  // Charts
  // ---------------------------------------------------------------------------

  /** getMemberStatusChartData: the statistics' member counts under the member statuses' names. */
  function MemberStatusChart(stats: Value): (c: Reports.Chart)
    ensures c != Reports.Throws
    ensures c.Drawn? <==> Truthy(OptProp(stats, "members"))
    ensures c.Drawn? ==> c.labels == Reports.StatusLabels
                         && c.series == [Reports.Counts(OptProp(stats, "members"), Reports.StatusKeys)]
  {
    if !Truthy(OptProp(stats, "members")) then Reports.NoChart
    else Reports.Drawn(Reports.StatusLabels, [Reports.Counts(Prop(stats, "members").value, Reports.StatusKeys)])
  }

  /** The dashboard's pie is the reports page's pie of a report whose distribution is `stats.members`. */
  lemma {:induction false} MemberChartAsInReports(stats: Value)
    ensures MemberStatusChart(stats)
         == Reports.MemberStatusChart(Obj([("statusDistribution", OptProp(stats, "members"))]))
  {
    var report := Obj([("statusDistribution", OptProp(stats, "members"))]);
    assert OptProp(report, "statusDistribution") == OptProp(stats, "members");
  }

  const VehicleKeys := ["available", "inUse", "maintenance"]

  const VehicleLabels := ["متاح", "قيد الاستخدام", "صيانة"]

  /** getVehicleStatusChartData. */
  function VehicleStatusChart(stats: Value): (c: Reports.Chart)
    ensures c != Reports.Throws
    ensures c.Drawn? <==> Truthy(OptProp(stats, "vehicles"))
    ensures c.Drawn? ==> c.labels == VehicleLabels && |c.series| == 1 && |c.series[0]| == 3
                         && forall i :: 0 <= i < 3 ==>
                              c.series[0][i] == Or(OptProp(OptProp(stats, "vehicles"), VehicleKeys[i]), Num(0))
  {
    if !Truthy(OptProp(stats, "vehicles")) then Reports.NoChart
    else Reports.Drawn(VehicleLabels, [Reports.Counts(Prop(stats, "vehicles").value, VehicleKeys)])
  }

  /** The pie names the first three vehicle statuses as the vehicles list and the reports page do. */
  lemma {:induction false} VehicleLabelsAreStatusNames(i: nat)
    requires i < 3
    ensures VehicleLabels[i] == VehiclesPage.StatusNames[i]
    ensures VehicleLabels[i] == VehiclesPage.StatusBadge(VehiclesPage.Targets[i]).text
    ensures VehicleLabels[i] == Reports.VehicleStatusName(VehiclesPage.Targets[i])
  {
    VehiclesPage.MenuMatchesBadges(i);
    Reports.StatusNamesMatchBadges(VehiclesPage.Targets[i]);
  }

  const ActivityMonths := ["يناير", "فبراير", "مارس", "أبريل"]

  /** `recent[list]?.length || 0`. */
  function RecentCount(recent: Value, list: string): (n: Value)
    ensures Truthy(n) || n == Num(0)
    ensures OptProp(recent, list).Arr? ==> n == Num(|OptProp(recent, list).items|)
    ensures Nullish(OptProp(recent, list)) ==> n == Num(0)
  {
    Or(OptProp(OptProp(recent, list), "length"), Num(0))
  }

  /**
   * getMonthlyActivityData: payments, expenses and trips over four months;
   * only the first month is counted, from the recent lists, and the other
   * three are fixed numbers.
   */
  function ActivityChart(stats: Value): (c: Reports.Chart)
    ensures c != Reports.Throws
    ensures c.Drawn? <==> Truthy(OptProp(stats, "recent"))
    ensures c.Drawn? ==> var recent := OptProp(stats, "recent");
                         c.labels == ActivityMonths
                         && c.series == [[RecentCount(recent, "payments"), Num(8), Num(12), Num(15)],
                                         [RecentCount(recent, "expenses"), Num(6), Num(9), Num(11)],
                                         [RecentCount(recent, "trips"), Num(4), Num(7), Num(10)]]
  {
    if !Truthy(OptProp(stats, "recent")) then Reports.NoChart
    else
      var recent := Prop(stats, "recent").value;
      Reports.Drawn(ActivityMonths,
                    [[RecentCount(recent, "payments"), Num(8), Num(12), Num(15)],
                     [RecentCount(recent, "expenses"), Num(6), Num(9), Num(11)],
                     [RecentCount(recent, "trips"), Num(4), Num(7), Num(10)]])
  }

  /** With three recent lists, each series starts with the length of its list. */
  lemma {:induction false} ActivityOfLists(payments: seq<Value>, expenses: seq<Value>, trips: seq<Value>)
    ensures var recent := Obj([("payments", Arr(payments)), ("expenses", Arr(expenses)), ("trips", Arr(trips))]);
            var c := ActivityChart(Obj([("recent", recent)]));
            c.Drawn? && c.series[0][0] == Num(|payments|) && c.series[1][0] == Num(|expenses|)
            && c.series[2][0] == Num(|trips|)
  {
    var fs := [("payments", Arr(payments)), ("expenses", Arr(expenses)), ("trips", Arr(trips))];
    var recent := Obj(fs);
    assert OptProp(Obj([("recent", recent)]), "recent") == recent;
    LookupFirst(fs, 1);
    LookupFirst(fs, 2);
  }

  // ---------------------------------------------------------------------------
  // Names in the recent tables
  // ---------------------------------------------------------------------------

  const Unspecified := "غير محدد"

  /** `fullName ? `${first} ${middle || ''} ${last}`.trim() : "not specified"`. */
  function FullName(name: Value): (s: string)
    ensures !Truthy(name) ==> s == Unspecified
    ensures Truthy(name) ==> s == Trim(ToStr(OptProp(name, "first")) + " " + ToStr(Or(OptProp(name, "middle"), Str("")))
                                       + " " + ToStr(OptProp(name, "last")))
  {
    if Truthy(name) then
      Trim(ToStr(Prop(name, "first").value) + " " + ToStr(Or(Prop(name, "middle").value, Str("")))
           + " " + ToStr(Prop(name, "last").value))
    else Unspecified
  }

  /** The recent-members cell: `member.fullName`, a TypeError (None) for a nullish member. */
  function MemberRowName(member: Value): (r: Option<string>)
    ensures r.None? <==> Nullish(member)
    ensures r.Some? ==> r.value == FullName(OptProp(member, "fullName"))
  {
    if Nullish(member) then None else Some(FullName(Prop(member, "fullName").value))
  }

  /** The recent-payments cell: `payment.member?.fullName`, a TypeError (None) for a nullish payment. */
  function PaymentRowName(payment: Value): (r: Option<string>)
    ensures r.None? <==> Nullish(payment)
    ensures r.Some? ==> r.value == FullName(OptProp(OptProp(payment, "member"), "fullName"))
  {
    if Nullish(payment) then None else Some(FullName(OptProp(Prop(payment, "member").value, "fullName")))
  }

  /** A payment without a member, or a member without a name, shows "not specified". */
  lemma {:induction false} UnnamedRows(payment: Fields, member: Fields)
    requires Lookup(payment, "member").None? && Lookup(member, "fullName").None?
    ensures PaymentRowName(Obj(payment)) == Some(Unspecified)
    ensures MemberRowName(Obj(member)) == Some(Unspecified)
  {
  }

  function NameOf(first: string, middle: string, last: string): Value {
    Obj([("first", Str(first)), ("middle", Str(middle)), ("last", Str(last))])
  }

  lemma {:induction false} NameParts(first: string, middle: string, last: string)
    ensures OptProp(NameOf(first, middle, last), "first") == Str(first)
    ensures OptProp(NameOf(first, middle, last), "middle") == Str(middle)
    ensures OptProp(NameOf(first, middle, last), "last") == Str(last)
  {
    var fs := [("first", Str(first)), ("middle", Str(middle)), ("last", Str(last))];
    LookupFirst(fs, 1);
    LookupFirst(fs, 2);
  }

  /**
   * A three-part name is shown as `first middle last`; without a middle name
   * the two spaces around it stay (trim only removes them at the ends).
   */
  lemma {:induction false} FullNameOfParts(first: string, middle: string, last: string)
    requires first != "" && !IsJsWhitespace(first[0])
    requires last != "" && !IsJsWhitespace(last[|last| - 1])
    ensures FullName(NameOf(first, middle, last)) == first + " " + middle + " " + last
    ensures middle == "" ==> FullName(NameOf(first, middle, last)) == first + "  " + last
  {
    NameParts(first, middle, last);
    var s := first + " " + middle + " " + last;
    assert s[0] == first[0];
    assert s[|s| - 1] == last[|last| - 1];
    TrimUnchanged(s);
    if middle == "" {
      assert Or(Str(middle), Str("")) == Str("");
      assert s == first + "  " + last;
    }
  }

  /** A name without a last part ends in the word "undefined". */
  lemma {:induction false} MissingLastName(first: string)
    requires first != "" && !IsJsWhitespace(first[0])
    ensures FullName(Obj([("first", Str(first))])) == first + "  undefined"
  {
    var name := Obj([("first", Str(first))]);
    assert Js.Get(name.fields, "first") == Str(first);
    assert Js.Get(name.fields, "middle") == Undefined;
    assert Js.Get(name.fields, "last") == Undefined;
    var s := first + " " + "" + " " + "undefined";
    assert s == first + "  undefined";
    assert s[0] == first[0] && s[|s| - 1] == 'd';
    TrimUnchanged(s);
  }

  // ---------------------------------------------------------------------------
  // Label switches
  // ---------------------------------------------------------------------------

  /** The dashboard's own copy of the payment-type switch. */
  const PaymentTypes := [
    ("membership_fee", "رسوم عضوية"),
    ("donation", "تبرع"),
    ("event_fee", "رسوم فعالية"),
    ("other", "أخرى"),
    ("رسوم العضوية السنوية", "رسوم العضوية السنوية"),
    ("رسوم العضوية الشهرية", "رسوم العضوية الشهرية"),
    ("رسوم النشاطات", "رسوم النشاطات"),
    ("تبرع عام", "تبرع عام"),
    ("تبرع للمشاريع", "تبرع للمشاريع"),
    ("تبرع كبير", "تبرع كبير")
  ]

  /** getPaymentTypeName. */
  function PaymentTypeName(t: string): (name: string)
    ensures name == PaymentsPage.PaymentTypeName(t)
    ensures t != "membership_fee" && t != "donation" && t != "event_fee" && t != "other" ==> name == t
  {
    assert PaymentTypes == Reports.PaymentTypes;
    Reports.SamePaymentTypeNames(t);
    Screen.Labelled(PaymentTypes, t)
  }

  /** The dashboard's own copy of the expense-category switch. */
  const ExpenseCategories := [
    ("utilities", "مرافق"),
    ("rent", "إيجار"),
    ("salaries", "رواتب"),
    ("transportation", "مواصلات"),
    ("maintenance", "صيانة"),
    ("supplies", "مستلزمات"),
    ("events", "فعاليات"),
    ("other", "أخرى"),
    ("مصاريف إدارية", "مصاريف إدارية"),
    ("مصاريف النقل", "مصاريف النقل"),
    ("مصاريف الصيانة", "مصاريف الصيانة"),
    ("مصاريف النشاطات", "مصاريف النشاطات"),
    ("مصاريف الخير", "مصاريف الخير")
  ]

  /** getExpenseCategoryName. */
  function ExpenseCategoryName(category: string): (name: string)
    ensures name == Reports.ExpenseCategoryName(category)
    ensures category !in ExpensesPage.FilterOptions ==> name == category
  {
    assert ExpenseCategories == Reports.ExpenseCategories;
    Screen.Labelled(ExpenseCategories, category)
  }
}
