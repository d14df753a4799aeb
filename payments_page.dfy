/**
 * The payments screen: the shared screen with a date filter, checkbox-aware
 * inputs, a list of members for the form's drop-down, and no row
 * transitions. Its base URL comes from the environment.
 */
module PaymentsPage {
  import opened Wrappers
  import opened Text
  import opened Js
  import opened Http
  import opened Screen
  import ApiServices

  /** The draft as handleShowModal writes it: `isPaid: payment.isPaid || true`. */
  const AsWrittenFields: seq<Seed> := [
    Ref("member"),
    Plain("amount", Str(""), Blank),
    Day("paymentDate", Today),
    Day("dueDate", Blank),
    Plain("paymentMethod", Str("cash"), Blank),
    Plain("paymentType", Str("membership_fee"), Blank),
    Plain("isPaid", Bool(true), Blank),
    Plain("isInstallment", Bool(false), Blank),
    Plain("totalAmount", Str(""), Blank),
    Plain("installmentCount", Str(""), Blank),
    Plain("paidInstallments", Str(""), Blank),
    Plain("notes", Str(""), Blank)
  ]

  /** The draft with `isPaid` kept as stored and defaulting to true only when missing. */
  const Fields: seq<Seed> := AsWrittenFields[6 := Kept("isPaid", Bool(true))]

  /**
   * The payments screen as written: its draft is `AsWrittenFields`, so the
   * page object seeds an edited payment with `isPaid || true`.
   */
  function Page(env: Option<string>): (d: Descriptor)
    ensures d.resource == ApiServices.Payments && d.base == EnvBase(env) && d.filterKey == "date"
    ensures d.fields == AsWrittenFields && d.input == Checkbox && d.transitions == NoTransitions
    ensures d.options == Some(OptionsFeed(d.base + "/members?limit=1000", false))
  {
    Descriptor(
      ApiServices.Payments, EnvBase(env), "date", AsWrittenFields, Checkbox, NoTransitions,
      Some(OptionsFeed(EnvBase(env) + "/members?limit=1000", false)),
      Messages("حدث خطأ أثناء تحميل بيانات المدفوعات", "حدث خطأ أثناء حفظ بيانات المدفوعات",
               "حدث خطأ أثناء حذف المدفوعات", "", "", ""))
  }

  lemma {:induction false} IsPaidKey(fields: seq<Seed>)
    requires fields == AsWrittenFields || fields == Fields
    ensures SeedKey(fields[6]) == "isPaid"
    ensures forall j :: 0 <= j < 6 ==> SeedKey(fields[j]) != "isPaid"
  {
  }

  /**
   * As written, an edited payment is always seeded as paid (or with some
   * other truthy value): an unpaid one is turned into a paid one, and saving
   * the form unchanged marks it paid.
   */
  lemma {:induction false} AsWrittenEditIsPaid(record: Value, toIso: Value -> Option<string>)
    requires Truthy(record) && SeedEdit(AsWrittenFields, record, toIso).Some?
    ensures var v := Lookup(SeedEdit(AsWrittenFields, record, toIso).value, "isPaid");
            v.Some? && Truthy(v.value)
    ensures record.Obj? && Js.Get(record.fields, "isPaid") == Bool(false) ==>
              Lookup(SeedEdit(AsWrittenFields, record, toIso).value, "isPaid") == Some(Bool(true))
  {
    IsPaidKey(AsWrittenFields);
    SeededLookup(AsWrittenFields, record, toIso, 6);
  }

  /** With `??`, the edit draft shows the stored flag, and true only for a payment without one. */
  lemma {:induction false} EditKeepsIsPaid(record: Value, toIso: Value -> Option<string>)
    requires Truthy(record) && SeedEdit(Fields, record, toIso).Some?
    ensures var v := Lookup(SeedEdit(Fields, record, toIso).value, "isPaid");
            v == Some(if Nullish(Field(record, "isPaid")) then Bool(true) else Field(record, "isPaid"))
    ensures record.Obj? && Js.Get(record.fields, "isPaid") == Bool(false) ==>
              Lookup(SeedEdit(Fields, record, toIso).value, "isPaid") == Some(Bool(false))
  {
    IsPaidKey(Fields);
    SeededLookup(Fields, record, toIso, 6);
  }

  /** Both drafts agree on every other field and on a new payment. */
  lemma {:induction false} CorrectionOnlyTouchesIsPaid(record: Value, toIso: Value -> Option<string>, nowIso: string, year: int)
    requires Truthy(record)
    ensures forall i :: 0 <= i < |Fields| && i != 6 ==>
              EditValue(Fields[i], record, toIso) == EditValue(AsWrittenFields[i], record, toIso)
    ensures CreateDraft(Fields, nowIso, year) == CreateDraft(AsWrittenFields, nowIso, year)
    ensures InitialDraft(Fields) == InitialDraft(AsWrittenFields)
  {
    assert forall i :: 0 <= i < |Fields| && i != 6 ==> Fields[i] == AsWrittenFields[i];
    assert CreateValue(Fields[6], nowIso, year) == CreateValue(AsWrittenFields[6], nowIso, year);
    assert InitialValue(Fields[6]) == InitialValue(AsWrittenFields[6]);
  }

  /** The draft's keys, in the order of the form's state. */
  lemma {:induction false} DraftKeys()
    ensures SeedKeys(AsWrittenFields) == ["member", "amount", "paymentDate", "dueDate", "paymentMethod", "paymentType",
                                          "isPaid", "isInstallment", "totalAmount", "installmentCount",
                                          "paidInstallments", "notes"]
  {
  }

  lemma {:induction false} FieldsDistinct()
    ensures DistinctSeeds(AsWrittenFields)
  {
    EarlyKeysDistinct();
    MiddleKeysDistinct();
    LateKeysDistinct();
  }

  lemma {:induction false} EarlyKeysDistinct()
    ensures forall i, j :: 0 <= i < 4 && i < j < |AsWrittenFields| ==> SeedKey(AsWrittenFields[i]) != SeedKey(AsWrittenFields[j])
  {
  }

  lemma {:induction false} MiddleKeysDistinct()
    ensures forall i, j :: 4 <= i < 8 && i < j < |AsWrittenFields| ==> SeedKey(AsWrittenFields[i]) != SeedKey(AsWrittenFields[j])
  {
  }

  lemma {:induction false} LateKeysDistinct()
    ensures forall i, j :: 8 <= i < j < |AsWrittenFields| ==> SeedKey(AsWrittenFields[i]) != SeedKey(AsWrittenFields[j])
  {
  }

  /**
   * On the payments screen, editing a payment stored as unpaid seeds the
   * checkbox as paid, so saving the form unchanged marks it paid.
   */
  lemma {:induction false} PageEditMarksUnpaidPaid(env: Option<string>, record: Value, toIso: Value -> Option<string>)
    requires record.Obj? && Js.Get(record.fields, "isPaid") == Bool(false)
    requires SeedEdit(Page(env).fields, record, toIso).Some?
    ensures Lookup(SeedEdit(Page(env).fields, record, toIso).value, "isPaid") == Some(Bool(true))
  {
    AsWrittenEditIsPaid(record, toIso);
  }

  /** A new payment on the screen: paid today in cash as a membership fee, not in instalments. */
  lemma {:induction false} NewPaymentDefaults(nowIso: string, year: int)
    ensures var draft := CreateDraft(AsWrittenFields, nowIso, year);
            Lookup(draft, "member") == Some(Str(""))
            && Lookup(draft, "paymentDate") == Some(Str(DayOf(nowIso)))
            && Lookup(draft, "dueDate") == Some(Str(""))
            && Lookup(draft, "paymentMethod") == Some(Str("cash"))
            && Lookup(draft, "paymentType") == Some(Str("membership_fee"))
            && Lookup(draft, "isPaid") == Some(Bool(true))
            && Lookup(draft, "isInstallment") == Some(Bool(false))
  {
    NewPaymentDates(nowIso, year);
    NewPaymentKinds(nowIso, year);
  }

  lemma {:induction false} NewPaymentDates(nowIso: string, year: int)
    ensures var draft := CreateDraft(AsWrittenFields, nowIso, year);
            Lookup(draft, "member") == Some(Str(""))
            && Lookup(draft, "paymentDate") == Some(Str(DayOf(nowIso)))
            && Lookup(draft, "dueDate") == Some(Str(""))
  {
    FieldsDistinct();
    var f := AsWrittenFields;
    assert f[0] == Ref("member") && f[2] == Day("paymentDate", Today) && f[3] == Day("dueDate", Blank);
    CreatedLookup(f, nowIso, year, 0);
    CreatedLookup(f, nowIso, year, 2);
    CreatedLookup(f, nowIso, year, 3);
  }

  lemma {:induction false} NewPaymentKinds(nowIso: string, year: int)
    ensures var draft := CreateDraft(AsWrittenFields, nowIso, year);
            Lookup(draft, "paymentMethod") == Some(Str("cash"))
            && Lookup(draft, "paymentType") == Some(Str("membership_fee"))
            && Lookup(draft, "isPaid") == Some(Bool(true))
            && Lookup(draft, "isInstallment") == Some(Bool(false))
  {
    FieldsDistinct();
    var f := AsWrittenFields;
    assert f[4] == Plain("paymentMethod", Str("cash"), Blank) && f[5] == Plain("paymentType", Str("membership_fee"), Blank);
    assert f[6] == Plain("isPaid", Bool(true), Blank) && f[7] == Plain("isInstallment", Bool(false), Blank);
    CreatedLookup(f, nowIso, year, 4);
    CreatedLookup(f, nowIso, year, 5);
    CreatedLookup(f, nowIso, year, 6);
    CreatedLookup(f, nowIso, year, 7);
  }

  /** getPaymentStatusBadge. */
  function PaymentStatusBadge(isPaid: Value): (b: Badge)
    ensures Truthy(isPaid) <==> b == Badge("success", "مدفوع")
    ensures !Truthy(isPaid) <==> b == Badge("warning", "غير مدفوع")
  {
    if Truthy(isPaid) then Badge("success", "مدفوع") else Badge("warning", "غير مدفوع")
  }

  const PaymentTypes := [
    ("membership_fee", "رسوم عضوية"),
    ("donation", "تبرع"),
    ("event_fee", "رسوم فعالية"),
    ("other", "أخرى")
  ]

  const PaymentMethods := [
    ("cash", "نقدي"),
    ("bank_transfer", "تحويل بنكي"),
    ("credit_card", "بطاقة ائتمان"),
    ("check", "شيك")
  ]

  /** getPaymentTypeName. */
  function PaymentTypeName(t: string): (name: string)
    ensures Lookup(PaymentTypes, t).None? ==> name == t
  {
    Labelled(PaymentTypes, t)
  }

  /** getPaymentMethodName. */
  function PaymentMethodName(m: string): (name: string)
    ensures Lookup(PaymentMethods, m).None? ==> name == m
  {
    Labelled(PaymentMethods, m)
  }

  /** The draft's defaults are codes the table has names for. */
  lemma {:induction false} DefaultsAreNamed()
    ensures PaymentTypeName("membership_fee") == "رسوم عضوية"
    ensures PaymentMethodName("cash") == "نقدي"
  {
    LookupAt(PaymentTypes, 0);
    LookupAt(PaymentMethods, 0);
  }

  /**
   * The member cell: first and last name through `?.`, each `|| ""`,
   * separated by a space; "not specified" for a payment without a member.
   */
  function MemberCell(member: Value): (cell: string)
    ensures !Truthy(member) ==> cell == "غير محدد"
    ensures member.Obj? && Lookup(member.fields, "fullName").None? ==> cell == " "
  {
    if Truthy(member) then
      var name := Prop(member, "fullName").value;
      ToStr(Or(OptProp(name, "first"), Str(""))) + " " + ToStr(Or(OptProp(name, "last"), Str("")))
    else "غير محدد"
  }

  /** A member with both names shows them as `first last`. */
  lemma {:induction false} MemberCellOfNamed(first: string, last: string)
    requires first != "" && last != ""
    ensures MemberCell(Obj([("fullName", Obj([("first", Str(first)), ("last", Str(last))]))])) == first + " " + last
  {
    var name := Obj([("first", Str(first)), ("last", Str(last))]);
    assert Js.Get(name.fields, "first") == Str(first);
    assert name.fields[0].0 != name.fields[1].0;
    LookupFirst(name.fields, 1);
    assert Js.Get(name.fields, "last") == Str(last);
    assert Prop(Obj([("fullName", name)]), "fullName").value == name;
  }

  /** The date filter travels as `date`, after the search, each only when non-empty. */
  lemma {:induction false} ParseListUrl(env: Option<string>, page: int, search: string, date: string)
    requires '?' !in EnvBase(env)
    requires ApiServices.SafeValue(search) && ApiServices.SafeValue(date)
    ensures ParseUrl(PageListUrl(Page(env), page, search, date))
         == ParsedUrl(EnvBase(env) + "/payments",
                      ApiServices.PageAndLimit(page, Limit)
                      + ApiServices.Opt(Param("search", search)) + ApiServices.Opt(Param("date", date)))
  {
    var d := Page(env);
    assert d.base == EnvBase(env) && d.filterKey == "date" && d.resource == ApiServices.Payments;
    assert ApiServices.CollectionPath(d.resource) == "/payments";
    assert '&' !in "date" && '=' !in "date";
    assert Safe(Param(d.filterKey, date));
    ParsePageListUrl(d, page, search, date);
  }
}
