/**
 * The expenses screen: the shared screen with a category filter, flat
 * inputs, and approve/reject buttons on the rows still pending. Its base URL
 * comes from the environment.
 */
module ExpensesPage {
  import opened Wrappers
  import opened Text
  import opened Js
  import opened Http
  import opened Screen
  import ApiServices

  const Fields: seq<Seed> := [
    Plain("category", Str(""), Blank),
    Plain("amount", Str(""), Blank),
    Day("date", Today),
    Plain("purpose", Str(""), Blank),
    Plain("approvalStatus", Str("pending"), Blank),
    Plain("spentBy", Str(""), Blank),
    Plain("notes", Str(""), Blank),
    Plain("receiptImage", Str(""), Blank)
  ]

  /** The expenses screen: a category filter, flat inputs, approve and reject on pending rows, no drop-down list. */
  function Page(env: Option<string>): (d: Descriptor)
    ensures d.resource == ApiServices.Expenses && d.base == EnvBase(env) && d.filterKey == "category"
    ensures d.fields == Fields && d.input == Flat && d.transitions == ApproveReject && d.options.None?
  {
    Descriptor(
      ApiServices.Expenses, EnvBase(env), "category", Fields, Flat, ApproveReject, None,
      Messages("حدث خطأ أثناء تحميل بيانات المصروفات", "حدث خطأ أثناء حفظ بيانات المصروفات",
               "حدث خطأ أثناء حذف المصروف", "حدث خطأ أثناء الموافقة على المصروف",
               "حدث خطأ أثناء رفض المصروف", ""))
  }

  /** The draft's keys, in the order of the form's state. */
  lemma {:induction false} DraftKeys()
    ensures SeedKeys(Fields) == ["category", "amount", "date", "purpose", "approvalStatus", "spentBy", "notes", "receiptImage"]
  {
  }

  /** The categories of the filter, after "all categories" (the empty value). */
  const FilterOptions := ["utilities", "rent", "salaries", "transportation", "maintenance",
                          "supplies", "events", "other"]

  const ApprovalBadges := [
    ("approved", Badge("success", "تمت الموافقة")),
    ("pending", Badge("warning", "قيد الانتظار")),
    ("rejected", Badge("danger", "مرفوض"))
  ]

  /** getApprovalStatusBadge. */
  function ApprovalStatusBadge(status: string): (b: Badge)
    ensures status != "approved" && status != "pending" && status != "rejected" ==> b == Badge("secondary", status)
  {
    BadgeFor(ApprovalBadges, "secondary", status)
  }

  /** A pending row offers edit, approve, reject and delete, in that order. */
  lemma {:induction false} PendingRowActions(env: Option<string>, row: Fields)
    requires Pending(row)
    ensures RowActions(Page(env), row)
         == [Edit(row), ApproveRow(Js.Get(row, "_id")), RejectRow(Js.Get(row, "_id")), DeleteRow(Js.Get(row, "_id"))]
  {
  }

  /** Any other row offers only edit and delete. */
  lemma {:induction false} SettledRowActions(env: Option<string>, row: Fields)
    requires !Pending(row)
    ensures RowActions(Page(env), row) == [Edit(row), DeleteRow(Js.Get(row, "_id"))]
  {
  }

  /** A new expense is drafted as pending, and so is one edited from a record without a status. */
  lemma {:induction false} DraftsArePending(nowIso: string, year: int, record: Value, toIso: Value -> Option<string>)
    requires record.Obj? && !Truthy(Js.Get(record.fields, "approvalStatus"))
    ensures Pending(CreateDraft(Fields, nowIso, year))
    ensures SeedEdit(Fields, record, toIso).Some? ==> Pending(SeedEdit(Fields, record, toIso).value)
  {
    var draft := CreateDraft(Fields, nowIso, year);
    assert forall j :: 0 <= j < 4 ==> draft[j].0 != draft[4].0;
    LookupFirst(draft, 4);
    if SeedEdit(Fields, record, toIso).Some? {
      assert SeedKey(Fields[4]) == "approvalStatus";
      SeededLookup(Fields, record, toIso, 4);
    }
  }

  /** fetchExpenses sends what the service's getExpenses sends, under the screen's base. */
  lemma {:induction false} ListUrlIsService(env: Option<string>, page: int, search: string, category: string)
    ensures PageListUrl(Page(env), page, search, category)
         == EnvBase(env) + ApiServices.GetExpensesUrl(page, Limit, search, category)
  {
    var service := ApiServices.GetExpensesUrl(page, Limit, search, category);
    assert ApiServices.CollectionPath(ApiServices.Expenses) == "/expenses";
    PageListUrlIsService(Page(env), page, search, category, service);
  }
}
