/**
 * The request paths of the service layer: one list builder per resource,
 * written as the source writes it (a base `?page=…&limit=…` and an `if` per
 * optional filter), the single-record, status and approval paths, and the
 * report URLs. Each list builder is tied to the generic Http.ListUrl, and the
 * parse lemmas say what each one's query splits into.
 */
module ApiServices {
  import opened Text
  import opened Js
  import opened Http

  /** `&key=value` when the value is non-empty (the source's `if (v) url += …`), else nothing. */
  function AppendIf(url: string, key: string, value: string): string {
    if value != "" then url + "&" + key + "=" + value else url
  }

  /** `/{path}?page=${page}&limit=${limit}`. */
  function Base(path: string, page: int, limit: int): string {
    path + "?page=" + IntToString(page) + "&limit=" + IntToString(limit)
  }

  /** The filter as sent: present exactly when its value is non-empty. */
  function Opt(p: Param): (r: seq<Param>)
    ensures r == NonEmpty([p])
  {
    if p.value != "" then [p] else []
  }

  lemma {:induction false} BaseIsListUrl(path: string, page: int, limit: int)
    ensures Base(path, page, limit) == ListUrl(path, page, limit, [])
  {
    var pg, lm := IntToString(page), IntToString(limit);
    var lim := Param("limit", lm);
    assert [lim] + NonEmpty([]) == [lim];
    assert [lim][1..] == [];
    assert Suffix([lim]) == "&" + Pair(lim) + "";
    assert "&" + ("limit" + "=") == "&limit=";
    assert "?" + ("page" + "=") == "?page=";
    assert ListUrl(path, page, limit, []) == path + "?" + ("page" + "=" + pg) + ("&" + ("limit" + "=" + lm) + "");
  }

  /** Appending one optional filter extends the generic URL by that filter. */
  lemma {:induction false} AppendIfListUrl(path: string, page: int, limit: int, opts: seq<Param>, p: Param, opts': seq<Param>)
    requires opts' == opts + [p]
    ensures AppendIf(ListUrl(path, page, limit, opts), p.key, p.value)
         == ListUrl(path, page, limit, opts')
  {
    var first := Param("page", IntToString(page));
    var lim := Param("limit", IntToString(limit));
    var head, rest := path + "?" + Pair(first), [lim] + NonEmpty(opts);
    NonEmptyAppend(opts, p);
    SuffixAppend(rest, Opt(p));
    assert [lim] + NonEmpty(opts') == rest + Opt(p);
    assert ListUrl(path, page, limit, opts) == head + Suffix(rest);
    assert ListUrl(path, page, limit, opts') == head + (Suffix(rest) + Suffix(Opt(p)));
    SuffixOpt(p);
    AppendIfAfter(head, Suffix(rest), Suffix(Opt(p)), p.key, p.value);
  }

  lemma {:induction false} AppendIfAfter(head: string, s: string, t: string, key: string, value: string)
    requires t == if value != "" then "&" + key + "=" + value else ""
    ensures AppendIf(head + s, key, value) == head + (s + t)
  {
  }

  /** The text one optional filter adds: `&key=value`, or nothing for an empty value. */
  lemma {:induction false} SuffixOpt(p: Param)
    ensures Suffix(Opt(p)) == if p.value != "" then "&" + p.key + "=" + p.value else ""
  {
    if p.value != "" {
      assert [p][1..] == [];
      assert Suffix([p]) == "&" + Pair(p) + "";
    }
  }

  /** Two optional filters appended one after the other give the generic URL with both, in that order. */
  lemma {:induction false} TwoFiltersListUrl(path: string, page: int, limit: int, a: Param, b: Param)
    ensures AppendIf(AppendIf(Base(path, page, limit), a.key, a.value), b.key, b.value)
         == ListUrl(path, page, limit, [a, b])
  {
    BaseIsListUrl(path, page, limit);
    AppendIfListUrl(path, page, limit, [], a, [a]);
    AppendIfListUrl(path, page, limit, [a], b, [a, b]);
  }

  /** The same with three filters. */
  lemma {:induction false} ThreeFiltersListUrl(path: string, page: int, limit: int, a: Param, b: Param, c: Param)
    ensures AppendIf(AppendIf(AppendIf(Base(path, page, limit), a.key, a.value), b.key, b.value), c.key, c.value)
         == ListUrl(path, page, limit, [a, b, c])
  {
    TwoFiltersListUrl(path, page, limit, a, b);
    AppendIfListUrl(path, page, limit, [a, b], c, [a, b, c]);
  }

  lemma {:induction false} NonEmptyAppend(ps: seq<Param>, p: Param)
    ensures NonEmpty(ps + [p]) == NonEmpty(ps) + Opt(p)
    decreases |ps|
  {
    if |ps| == 0 {
      assert ps + [p] == [p];
    } else {
      assert (ps + [p])[1..] == ps[1..] + [p];
      NonEmptyAppend(ps[1..], p);
    }
  }

  lemma {:induction false} SuffixAppend(xs: seq<Param>, ys: seq<Param>)
    ensures Suffix(xs + ys) == Suffix(xs) + Suffix(ys)
    decreases |xs|
  {
    if |xs| == 0 {
      assert xs + ys == ys;
    } else {
      assert (xs + ys)[1..] == xs[1..] + ys;
      SuffixAppend(xs[1..], ys);
    }
  }

  // ---------------------------------------------------------------------------
  // List builders
  // ---------------------------------------------------------------------------

  /** memberService.getMembers. */
  function GetMembersUrl(page: int, limit: int, search: string, status: string): (url: string)
    ensures url == ListUrl("/members", page, limit, [Param("search", search), Param("status", status)])
  {
    TwoFiltersListUrl("/members", page, limit, Param("search", search), Param("status", status));
    AppendIf(AppendIf(Base("/members", page, limit), "search", search), "status", status)
  }

  /** paymentService.getPayments. */
  function GetPaymentsUrl(page: int, limit: int, search: string, status: string, memberId: string): (url: string)
    ensures url == ListUrl("/payments", page, limit,
                           [Param("search", search), Param("status", status), Param("member", memberId)])
  {
    ThreeFiltersListUrl("/payments", page, limit, Param("search", search), Param("status", status), Param("member", memberId));
    AppendIf(AppendIf(AppendIf(Base("/payments", page, limit), "search", search), "status", status),
             "member", memberId)
  }

  /** expenseService.getExpenses. */
  function GetExpensesUrl(page: int, limit: int, search: string, category: string): (url: string)
    ensures url == ListUrl("/expenses", page, limit, [Param("search", search), Param("category", category)])
  {
    TwoFiltersListUrl("/expenses", page, limit, Param("search", search), Param("category", category));
    AppendIf(AppendIf(Base("/expenses", page, limit), "search", search), "category", category)
  }

  /** vehicleService.getVehicles. */
  function GetVehiclesUrl(page: int, limit: int, search: string, status: string): (url: string)
    ensures url == ListUrl("/vehicles", page, limit, [Param("search", search), Param("status", status)])
  {
    TwoFiltersListUrl("/vehicles", page, limit, Param("search", search), Param("status", status));
    AppendIf(AppendIf(Base("/vehicles", page, limit), "search", search), "status", status)
  }

  /** tripService.getTrips. */
  function GetTripsUrl(page: int, limit: int, search: string, status: string, vehicleId: string): (url: string)
    ensures url == ListUrl("/trips", page, limit,
                           [Param("search", search), Param("status", status), Param("vehicle", vehicleId)])
  {
    ThreeFiltersListUrl("/trips", page, limit, Param("search", search), Param("status", status), Param("vehicle", vehicleId));
    AppendIf(AppendIf(AppendIf(Base("/trips", page, limit), "search", search), "status", status),
             "vehicle", vehicleId)
  }

  /** maintenanceService.getMaintenanceRecords. */
  function GetMaintenanceRecordsUrl(page: int, limit: int, search: string, vehicleId: string): (url: string)
    ensures url == ListUrl("/maintenance", page, limit, [Param("search", search), Param("vehicle", vehicleId)])
  {
    TwoFiltersListUrl("/maintenance", page, limit, Param("search", search), Param("vehicle", vehicleId));
    AppendIf(AppendIf(Base("/maintenance", page, limit), "search", search), "vehicle", vehicleId)
  }

  // ---------------------------------------------------------------------------
  // What each list URL carries
  // ---------------------------------------------------------------------------

  /** A filter value that the query split recovers as one value: it holds no `&`. */
  predicate SafeValue(v: string) {
    '&' !in v
  }

  lemma {:induction false} NonEmptyTwo(a: Param, b: Param)
    ensures NonEmpty([a, b]) == Opt(a) + Opt(b)
  {
    NonEmptyAppend([a], b);
    assert [a] + [b] == [a, b];
  }

  lemma {:induction false} NonEmptyThree(a: Param, b: Param, c: Param)
    ensures NonEmpty([a, b, c]) == Opt(a) + Opt(b) + Opt(c)
  {
    NonEmptyTwo(a, b);
    NonEmptyAppend([a, b], c);
    assert [a, b] + [c] == [a, b, c];
  }

  function PageAndLimit(page: int, limit: int): seq<Param> {
    [Param("page", IntToString(page)), Param("limit", IntToString(limit))]
  }

  lemma {:induction false} ParseTwoFilters(path: string, page: int, limit: int, a: Param, b: Param)
    requires '?' !in path && Safe(a) && Safe(b)
    ensures ParseUrl(ListUrl(path, page, limit, [a, b])) == ParsedUrl(path, PageAndLimit(page, limit) + Opt(a) + Opt(b))
  {
    assert AllSafe([a, b]);
    NonEmptyTwo(a, b);
    ParseListUrl(path, page, limit, [a, b]);
  }

  lemma {:induction false} ParseThreeFilters(path: string, page: int, limit: int, a: Param, b: Param, c: Param)
    requires '?' !in path && Safe(a) && Safe(b) && Safe(c)
    ensures ParseUrl(ListUrl(path, page, limit, [a, b, c]))
         == ParsedUrl(path, PageAndLimit(page, limit) + Opt(a) + Opt(b) + Opt(c))
  {
    var pl := PageAndLimit(page, limit);
    assert AllSafe([a, b, c]) by {
      forall i | 0 <= i < 3 ensures Safe([a, b, c][i]) {}
    }
    NonEmptyThree(a, b, c);
    ParseListUrl(path, page, limit, [a, b, c]);
    assert pl + (Opt(a) + Opt(b) + Opt(c)) == pl + Opt(a) + Opt(b) + Opt(c);
  }

  /**
   * getMembers: page and limit, then `search` iff the search is non-empty,
   * then `status` iff the status is non-empty, with the values as given.
   */
  lemma {:induction false} ParseMembersUrl(page: int, limit: int, search: string, status: string)
    requires SafeValue(search) && SafeValue(status)
    ensures ParseUrl(GetMembersUrl(page, limit, search, status))
         == ParsedUrl("/members", PageAndLimit(page, limit)
                                  + Opt(Param("search", search)) + Opt(Param("status", status)))
  {
    ParseTwoFilters("/members", page, limit, Param("search", search), Param("status", status));
  }

  /** With every default, the members URL is `/members?page=1&limit=10`. */
  lemma {:induction false} MembersUrlDefaults()
    ensures GetMembersUrl(1, 10, "", "") == "/members?page=1&limit=10"
  {
    assert IntToString(1) == "1";
    assert IntToString(10) == "10";
  }

  /** getPayments: the optional parts in the order search, status, member. */
  lemma {:induction false} ParsePaymentsUrl(page: int, limit: int, search: string, status: string, memberId: string)
    requires SafeValue(search) && SafeValue(status) && SafeValue(memberId)
    ensures ParseUrl(GetPaymentsUrl(page, limit, search, status, memberId))
         == ParsedUrl("/payments", PageAndLimit(page, limit) + Opt(Param("search", search))
                                   + Opt(Param("status", status)) + Opt(Param("member", memberId)))
  {
    ParseThreeFilters("/payments", page, limit,
                      Param("search", search), Param("status", status), Param("member", memberId));
  }

  /** getExpenses: the optional parts in the order search, category. */
  lemma {:induction false} ParseExpensesUrl(page: int, limit: int, search: string, category: string)
    requires SafeValue(search) && SafeValue(category)
    ensures ParseUrl(GetExpensesUrl(page, limit, search, category))
         == ParsedUrl("/expenses", PageAndLimit(page, limit)
                                   + Opt(Param("search", search)) + Opt(Param("category", category)))
  {
    ParseTwoFilters("/expenses", page, limit, Param("search", search), Param("category", category));
  }

  /** getVehicles: the optional parts in the order search, status. */
  lemma {:induction false} ParseVehiclesUrl(page: int, limit: int, search: string, status: string)
    requires SafeValue(search) && SafeValue(status)
    ensures ParseUrl(GetVehiclesUrl(page, limit, search, status))
         == ParsedUrl("/vehicles", PageAndLimit(page, limit)
                                   + Opt(Param("search", search)) + Opt(Param("status", status)))
  {
    ParseTwoFilters("/vehicles", page, limit, Param("search", search), Param("status", status));
  }

  /** getTrips: the optional parts in the order search, status, vehicle. */
  lemma {:induction false} ParseTripsUrl(page: int, limit: int, search: string, status: string, vehicleId: string)
    requires SafeValue(search) && SafeValue(status) && SafeValue(vehicleId)
    ensures ParseUrl(GetTripsUrl(page, limit, search, status, vehicleId))
         == ParsedUrl("/trips", PageAndLimit(page, limit) + Opt(Param("search", search))
                                + Opt(Param("status", status)) + Opt(Param("vehicle", vehicleId)))
  {
    ParseThreeFilters("/trips", page, limit,
                      Param("search", search), Param("status", status), Param("vehicle", vehicleId));
  }

  /** getMaintenanceRecords: the optional parts in the order search, vehicle. */
  lemma {:induction false} ParseMaintenanceRecordsUrl(page: int, limit: int, search: string, vehicleId: string)
    requires SafeValue(search) && SafeValue(vehicleId)
    ensures ParseUrl(GetMaintenanceRecordsUrl(page, limit, search, vehicleId))
         == ParsedUrl("/maintenance", PageAndLimit(page, limit)
                                      + Opt(Param("search", search)) + Opt(Param("vehicle", vehicleId)))
  {
    ParseTwoFilters("/maintenance", page, limit, Param("search", search), Param("vehicle", vehicleId));
  }

  lemma {:induction false} KeysOfTwoFilters(page: int, limit: int, a: Param, b: Param)
    ensures ParamKeys(PageAndLimit(page, limit) + Opt(a) + Opt(b)) <= {"page", "limit", a.key, b.key}
  {
    var ps := PageAndLimit(page, limit) + Opt(a) + Opt(b);
    forall i | 0 <= i < |ps| ensures ps[i].key in {"page", "limit", a.key, b.key} {
    }
  }

  /**
   * Expenses are never filtered by status: with `&`-free values the query
   * splits into no `status` parameter.
   */
  lemma {:induction false} NoStatusInExpensesUrl(page: int, limit: int, search: string, category: string)
    requires SafeValue(search) && SafeValue(category)
    ensures "status" !in ParamKeys(ParseUrl(GetExpensesUrl(page, limit, search, category)).params)
  {
    ParseExpensesUrl(page, limit, search, category);
    KeysOfTwoFilters(page, limit, Param("search", search), Param("category", category));
  }

  /** Nor are maintenance records. */
  lemma {:induction false} NoStatusInMaintenanceRecordsUrl(page: int, limit: int, search: string, vehicleId: string)
    requires SafeValue(search) && SafeValue(vehicleId)
    ensures "status" !in ParamKeys(ParseUrl(GetMaintenanceRecordsUrl(page, limit, search, vehicleId)).params)
  {
    ParseMaintenanceRecordsUrl(page, limit, search, vehicleId);
    KeysOfTwoFilters(page, limit, Param("search", search), Param("vehicle", vehicleId));
  }

  /** A search value `x&k=v` is written out exactly as a search `x` followed by a parameter `k=v`. */
  lemma {:induction false} InjectedSuffix(lim: Param, x: string, k: string, v: string)
    ensures Suffix([lim, Param("search", x + "&" + k + "=" + v)]) == Suffix([lim, Param("search", x), Param(k, v)])
  {
    var injected := Param("search", x + "&" + k + "=" + v);
    var sx := Param("search", x);
    var kv := Param(k, v);
    assert [lim, injected][1..] == [injected];
    assert [lim, sx, kv][1..] == [sx, kv];
    assert [sx, kv][1..] == [kv];
    assert Suffix([injected]) == "&" + Pair(injected);
    assert Suffix([kv]) == "&" + Pair(kv);
    assert Pair(injected) == Pair(sx) + "&" + Pair(kv);
    calc {
      Suffix([lim, injected]);
      "&" + Pair(lim) + ("&" + Pair(injected));
      "&" + Pair(lim) + ("&" + Pair(sx) + ("&" + Pair(kv)));
      Suffix([lim, sx, kv]);
    }
  }

  /** The one text the expenses URL for a search `x&k=v` could also have been written from. */
  lemma {:induction false} InjectedExpensesUrl(page: int, limit: int, x: string, k: string, v: string)
    ensures GetExpensesUrl(page, limit, x + "&" + k + "=" + v, "")
         == WithQuery("/expenses", Param("page", IntToString(page)),
                      [Param("limit", IntToString(limit)), Param("search", x), Param(k, v)])
  {
    var injected := Param("search", x + "&" + k + "=" + v);
    var lim := Param("limit", IntToString(limit));
    NonEmptyTwo(injected, Param("category", ""));
    assert [lim] + NonEmpty([injected, Param("category", "")]) == [lim, injected];
    InjectedSuffix(lim, x, k, v);
  }

  /**
   * Values are pasted in without escaping, so a search text `x&k=v` reads
   * back as a search for `x` and an extra parameter `k` with value `v`.
   */
  lemma {:induction false} SearchInjection(page: int, limit: int, x: string, k: string, v: string)
    requires SafeValue(x) && SafeValue(v) && Safe(Param(k, v))
    ensures ParseUrl(GetExpensesUrl(page, limit, x + "&" + k + "=" + v, "")).params
         == PageAndLimit(page, limit) + [Param("search", x), Param(k, v)]
  {
    var rest := [Param("limit", IntToString(limit)), Param("search", x), Param(k, v)];
    InjectedExpensesUrl(page, limit, x, k, v);
    IntToStringSafe(page);
    IntToStringSafe(limit);
    assert AllSafe(rest);
    ParseWithQuery("/expenses", Param("page", IntToString(page)), rest);
  }

  /** In particular a search text can make the expenses list look filtered by status. */
  lemma {:induction false} SearchIsNotEscaped()
    ensures "status" in ParamKeys(ParseUrl(GetExpensesUrl(1, 10, "x" + "&" + "status" + "=" + "approved", "")).params)
  {
    SearchInjection(1, 10, "x", "status", "approved");
    assert (PageAndLimit(1, 10) + [Param("search", "x"), Param("status", "approved")])[3].key == "status";
  }

  // ---------------------------------------------------------------------------
  // Single-record, status and approval paths
  // ---------------------------------------------------------------------------

  datatype Resource = Members | Payments | Expenses | Vehicles | Trips | Maintenance

  function Name(r: Resource): (n: string)
    ensures n != "" && '/' !in n && '?' !in n
  {
    match r
    case Members => "members"
    case Payments => "payments"
    case Expenses => "expenses"
    case Vehicles => "vehicles"
    case Trips => "trips"
    case Maintenance => "maintenance"
  }

  lemma {:induction false} NameInjective(r: Resource, s: Resource)
    ensures Name(r) == Name(s) <==> r == s
  {
  }

  /** `/{resource}`, where records are listed and created. */
  function CollectionPath(r: Resource): (p: string)
    ensures Split(p, '/') == ["", Name(r)]
  {
    SplitAtFirst("", '/', Name(r));
    assert "" + ['/'] + Name(r) == "/" + Name(r);
    "/" + Name(r)
  }

  /** `/{resource}/${id}`: a path of exactly the segments resource and id when the id holds no `/`. */
  function RecordPath(r: Resource, id: Value): (p: string)
    ensures '/' !in ToStr(id) ==> Split(p, '/') == ["", Name(r), ToStr(id)]
    ensures p == CollectionPath(r) + "/" + ToStr(id)
  {
    var i := ToStr(id);
    SplitAtFirst("", '/', Name(r) + "/" + i);
    SplitAtFirst(Name(r), '/', i);
    assert "" + ['/'] + (Name(r) + ['/'] + i) == "/" + Name(r) + "/" + i;
    assert Name(r) + ['/'] + i == Name(r) + "/" + i;
    "/" + Name(r) + "/" + i
  }

  /** getMember, getPayment, … */
  function GetRecord(r: Resource, id: Value): (q: Request)
    ensures q.Get? && q.url == RecordPath(r, id)
  {
    Request.Get("/" + Name(r) + "/" + ToStr(id))
  }

  /** createMember, createPayment, … */
  function CreateRecord(r: Resource, body: Value): (q: Request)
    ensures q.Post? && q.url == CollectionPath(r) && q.body == body
  {
    Post("/" + Name(r), body)
  }

  /** updateMember, updatePayment, … */
  function UpdateRecord(r: Resource, id: Value, body: Value): (q: Request)
    ensures q.Put? && q.url == RecordPath(r, id) && q.body == body
  {
    Put("/" + Name(r) + "/" + ToStr(id), body)
  }

  /** deleteMember, deletePayment, … */
  function DeleteRecord(r: Resource, id: Value): (q: Request)
    ensures q.Delete? && q.url == RecordPath(r, id)
  {
    Request.Delete("/" + Name(r) + "/" + ToStr(id))
  }

  /** Reading, updating and deleting one record all address the same path. */
  lemma {:induction false} SameRecordPath(r: Resource, id: Value, body: Value)
    ensures GetRecord(r, id).url == UpdateRecord(r, id, body).url == DeleteRecord(r, id).url
    ensures '/' !in ToStr(id) ==> Split(GetRecord(r, id).url, '/') == ["", Name(r), ToStr(id)]
  {
  }

  /** Only vehicles, trips and maintenance records have a status route. */
  predicate HasStatusRoute(r: Resource) {
    r == Vehicles || r == Trips || r == Maintenance
  }

  /** updateVehicleStatus, updateTripStatus, updateMaintenanceStatus: `{ status }` to `…/status`. */
  function UpdateStatus(r: Resource, id: Value, status: Value): (q: Request)
    requires HasStatusRoute(r)
    ensures q.Put? && q.url == RecordPath(r, id) + "/status"
    ensures q.body == Obj([("status", status)]) && Js.Get(q.body.fields, "status") == status
  {
    Put("/" + Name(r) + "/" + ToStr(id) + "/status", Obj([("status", status)]))
  }

  /** approveExpense: an empty object to `/expenses/{id}/approve`. */
  function Approve(id: Value): (q: Request)
    ensures q.Put? && q.url == RecordPath(Expenses, id) + "/approve" && q.body == Obj([])
  {
    assert "/expenses/" == "/" + Name(Expenses) + "/";
    Put("/expenses/" + ToStr(id) + "/approve", Obj([]))
  }

  /** rejectExpense: an empty object to `/expenses/{id}/reject`. */
  function Reject(id: Value): (q: Request)
    ensures q.Put? && q.url == RecordPath(Expenses, id) + "/reject" && q.body == Obj([])
  {
    assert "/expenses/" == "/" + Name(Expenses) + "/";
    Put("/expenses/" + ToStr(id) + "/reject", Obj([]))
  }

  /** With an id holding no `/`, the action is the fourth and last path segment. */
  lemma {:induction false} ApproveSegments(id: Value)
    requires '/' !in ToStr(id)
    ensures Split(Approve(id).url, '/') == ["", "expenses", ToStr(id), "approve"]
  {
    var u := Approve(id).url;
    assert u == RecordPath(Expenses, id) + "/approve";
    assert "/approve" == "/" + "approve";
    assert u == RecordPath(Expenses, id) + "/" + "approve";
    RecordActionSegments(Expenses, id, "approve");
    assert Split(u, '/') == ["", Name(Expenses), ToStr(id), "approve"];
    assert Name(Expenses) == "expenses";
  }

  lemma {:induction false} RejectSegments(id: Value)
    requires '/' !in ToStr(id)
    ensures Split(Reject(id).url, '/') == ["", "expenses", ToStr(id), "reject"]
  {
    var u := Reject(id).url;
    assert u == RecordPath(Expenses, id) + "/reject";
    assert "/reject" == "/" + "reject";
    assert u == RecordPath(Expenses, id) + "/" + "reject";
    RecordActionSegments(Expenses, id, "reject");
    assert Split(u, '/') == ["", Name(Expenses), ToStr(id), "reject"];
    assert Name(Expenses) == "expenses";
  }

  lemma {:induction false} StatusSegments(r: Resource, id: Value, status: Value)
    requires HasStatusRoute(r) && '/' !in ToStr(id)
    ensures Split(UpdateStatus(r, id, status).url, '/') == ["", Name(r), ToStr(id), "status"]
  {
    var u := UpdateStatus(r, id, status).url;
    assert u == RecordPath(r, id) + "/status";
    assert "/status" == "/" + "status";
    assert u == RecordPath(r, id) + "/" + "status";
    RecordActionSegments(r, id, "status");
  }

  lemma {:induction false} RecordActionSegments(r: Resource, id: Value, a: string)
    requires '/' !in a && '/' !in ToStr(id)
    ensures Split(RecordPath(r, id) + "/" + a, '/') == ["", Name(r), ToStr(id), a]
  {
    var p := RecordPath(r, id);
    assert p + "/" + a == p + ['/'] + a;
    SplitAppend(p, '/', a);
    assert ["", Name(r), ToStr(id)] + [a] == ["", Name(r), ToStr(id), a];
  }

  // ---------------------------------------------------------------------------
  // Reports
  // ---------------------------------------------------------------------------

  datatype ReportKind = MemberReport | FinancialReport | VehicleReport

  function ReportName(k: ReportKind): (n: string)
    ensures '?' !in n && '&' !in n && '/' !in n
  {
    match k
    case MemberReport => "members"
    case FinancialReport => "financial"
    case VehicleReport => "vehicles"
  }

  /**
   * getMemberReport, getFinancialReport, getVehicleReport: the report's own
   * path, whose last segment names the report, then the date query from the
   * first `?` on.
   */
  function ReportUrl(k: ReportKind, startDate: string, endDate: string): (url: string)
    ensures var path := "/reports/" + ReportName(k);
            '?' !in path && |path| < |url| && url[..|path|] == path && url[|path|] == '?'
  {
    var name := ReportName(k);
    PathThenQuery("/reports/", name, "?startDate=", startDate, "&endDate=", endDate);
    "/reports/" + name + "?startDate=" + startDate + "&endDate=" + endDate
  }

  lemma {:induction false} PathThenQuery(p1: string, p2: string, q1: string, q2: string, q3: string, q4: string)
    requires |q1| > 0 && q1[0] == '?'
    ensures var path, url := p1 + p2, p1 + p2 + q1 + q2 + q3 + q4;
            |path| < |url| && url[..|path|] == path && url[|path|] == '?'
  {
    var path, query := p1 + p2, q1 + q2 + q3 + q4;
    assert p1 + p2 + q1 + q2 + q3 + q4 == path + query;
    assert (path + query)[|path|] == query[0] == q1[0];
  }

  /** A report URL carries exactly the two dates, start first, with their values as given. */
  lemma {:induction false} ParseReportUrl(k: ReportKind, startDate: string, endDate: string)
    requires SafeValue(startDate) && SafeValue(endDate)
    ensures ParseUrl(ReportUrl(k, startDate, endDate))
         == ParsedUrl("/reports/" + ReportName(k), [Param("startDate", startDate), Param("endDate", endDate)])
  {
    var path := "/reports/" + ReportName(k);
    var s := Param("startDate", startDate);
    var e := Param("endDate", endDate);
    ReportParamsSafe(k, startDate, endDate);
    ReportUrlShape(k, startDate, endDate);
    ParseWithQuery(path, s, [e]);
  }

  lemma {:induction false} ReportParamsSafe(k: ReportKind, startDate: string, endDate: string)
    requires SafeValue(startDate) && SafeValue(endDate)
    ensures '?' !in "/reports/" + ReportName(k)
    ensures Safe(Param("startDate", startDate)) && AllSafe([Param("endDate", endDate)])
  {
    assert [Param("endDate", endDate)][0] == Param("endDate", endDate);
  }

  lemma {:induction false} ReportUrlShape(k: ReportKind, startDate: string, endDate: string)
    ensures ReportUrl(k, startDate, endDate)
         == WithQuery("/reports/" + ReportName(k), Param("startDate", startDate), [Param("endDate", endDate)])
  {
    assert Suffix([Param("endDate", endDate)]) == "&endDate=" + endDate;
  }

  /** getDashboardStats. */
  function DashboardStatsUrl(): (url: string)
    ensures ParseUrl(url) == ParsedUrl("/reports/dashboard", [])
  {
    assert '?' !in "/reports/dashboard";
    "/reports/dashboard"
  }
}
