/**
 * The members screen: the shared screen with a membership-status filter,
 * nested name, contact and address groups edited through dotted input names,
 * and no row transitions.
 */
module MembersPage {
  import opened Wrappers
  import opened Text
  import opened Js
  import opened Http
  import opened Screen
  import ApiServices

  const Country := "المملكة العربية السعودية"

  /** The draft: `member.fullName.first` is read strictly, contact and address through `?.`. */
  const Fields: seq<Seed> := [
    Group("fullName", true, [("first", ""), ("middle", ""), ("last", "")]),
    Day("dateOfBirth", Blank),
    Plain("nationalId", Str(""), Blank),
    Group("contact", false, [("phone", ""), ("email", "")]),
    Group("primaryAddress", false, [("street", ""), ("city", ""), ("state", ""), ("postalCode", ""),
                                    ("country", Country)]),
    Plain("tribeAffiliation", Str(""), Blank),
    Plain("membershipStatus", Str("active"), Blank)
  ]

  const Page := Descriptor(
    ApiServices.Members, Localhost, "status", Fields, Dotted, NoTransitions, None,
    Messages("حدث خطأ أثناء تحميل بيانات الأعضاء", "حدث خطأ أثناء حفظ بيانات العضو",
             "حدث خطأ أثناء حذف العضو", "", "", ""))

  /** The members screen: localhost, a status filter, dotted inputs for the name groups, no row moves, no drop-down list. */
  lemma {:induction false} PageShape()
    ensures Page.resource == ApiServices.Members && Page.base == Localhost && Page.filterKey == "status"
    ensures Page.fields == Fields && Page.input == Dotted && Page.transitions == NoTransitions && Page.options.None?
  {
  }

  /** The draft's keys, in the order of the form's state. */
  lemma {:induction false} DraftKeys()
    ensures SeedKeys(Fields) == ["fullName", "dateOfBirth", "nationalId", "contact", "primaryAddress",
                                 "tribeAffiliation", "membershipStatus"]
  {
  }

  /** The options of the status filter, after "all statuses" (the empty value). */
  const FilterOptions := ["active", "inactive", "deceased", "withdrawn"]

  const StatusBadges := [
    ("active", Badge("success", "نشط")),
    ("inactive", Badge("warning", "غير نشط")),
    ("deceased", Badge("danger", "متوفى")),
    ("withdrawn", Badge("secondary", "منسحب"))
  ]

  /** getMembershipStatusBadge: the four statuses their own badge, anything else its code in `info`. */
  function MembershipStatusBadge(status: string): (b: Badge)
    ensures status !in FilterOptions ==> b == Badge("info", status)
  {
    BadgeFor(StatusBadges, "info", status)
  }

  /** Every status the filter offers is shown with its own badge, never the fallback. */
  lemma {:induction false} FilterOptionsHaveBadges(i: nat)
    requires i < |FilterOptions|
    ensures MembershipStatusBadge(FilterOptions[i]) == StatusBadges[i].1
    ensures MembershipStatusBadge(FilterOptions[i]).tone != "info"
  {
    assert StatusBadges[i].0 == FilterOptions[i];
    LookupAt(StatusBadges, i);
  }

  lemma {:induction false} FieldsDistinct()
    ensures DistinctSeeds(Fields)
  {
  }

  lemma {:induction false} GroupsBlank()
    ensures BlankParts(Fields[0].parts) == [("first", Str("")), ("middle", Str("")), ("last", Str(""))]
    ensures BlankParts(Fields[3].parts) == [("phone", Str("")), ("email", Str(""))]
    ensures BlankParts(Fields[4].parts)
         == [("street", Str("")), ("city", Str("")), ("state", Str("")), ("postalCode", Str("")), ("country", Str(Country))]
  {
  }

  /** No field of a member is filled with today's date or the current year. */
  lemma {:induction false} NothingDated(nowIso: string, year: int)
    ensures forall i :: 0 <= i < |Fields| ==> CreateValue(Fields[i], nowIso, year) == InitialValue(Fields[i])
  {
  }

  /**
   * A new member: no selection, an empty name, contact and address with the
   * country filled in, and the status active; the same as the first draft.
   */
  lemma {:induction false} NewMemberDraft(nowIso: string, year: int)
    ensures var draft := CreateDraft(Fields, nowIso, year);
            draft == InitialDraft(Fields)
            && Lookup(draft, "fullName") == Some(Obj([("first", Str("")), ("middle", Str("")), ("last", Str(""))]))
            && Lookup(draft, "contact") == Some(Obj([("phone", Str("")), ("email", Str(""))]))
            && Lookup(draft, "primaryAddress")
               == Some(Obj([("street", Str("")), ("city", Str("")), ("state", Str("")), ("postalCode", Str("")),
                            ("country", Str(Country))]))
            && Lookup(draft, "membershipStatus") == Some(Str("active"))
  {
    FieldsDistinct();
    GroupsBlank();
    NothingDated(nowIso, year);
    CreateDraftIsInitial(Fields, nowIso, year);
    CreatedLookup(Fields, nowIso, year, 0);
    CreatedLookup(Fields, nowIso, year, 3);
    CreatedLookup(Fields, nowIso, year, 4);
    CreatedLookup(Fields, nowIso, year, 6);
  }

  /** fetchMembers sends what the service's getMembers sends, under the localhost base. */
  lemma {:induction false} ListUrlIsService(page: int, search: string, status: string)
    ensures PageListUrl(Page, page, search, status)
         == Localhost + ApiServices.GetMembersUrl(page, Limit, search, status)
  {
    var service := ApiServices.GetMembersUrl(page, Limit, search, status);
    assert ApiServices.CollectionPath(ApiServices.Members) == "/members";
    PageListUrlIsService(Page, page, search, status, service);
  }

  /**
   * Editing a member without a `fullName` object throws inside
   * handleShowModal: nothing is seeded and the modal stays closed.
   */
  lemma {:induction false} EditWithoutFullNameThrows(record: Value, toIso: Value -> Option<string>)
    requires record.Obj? && Lookup(record.fields, "fullName").None?
    ensures SeedEdit(Fields, record, toIso).None?
  {
    assert EditValue(Fields[0], record, toIso).None?;
  }

  /**
   * The address and contact groups are read through `?.`: a member with only
   * an empty name gets the first draft, country included.
   */
  lemma {:induction false} EditOfBareMember(toIso: Value -> Option<string>)
    ensures SeedEdit(Fields, Obj([("fullName", Obj([]))]), toIso) == Some(InitialDraft(Fields))
  {
    var record := Obj([("fullName", Obj([]))]);
    var parts := [("first", ""), ("middle", ""), ("last", "")];
    assert EditParts(Obj([]), parts) == BlankParts(parts);
    forall i | 1 <= i < |Fields|
      ensures EditValue(Fields[i], record, toIso) == Some(InitialValue(Fields[i]))
    {
      AbsentFieldSeedsInitial(Fields[i], record, toIso);
    }
    SeedEditIsInitial(Fields, record, toIso);
  }

  /** Typing into `fullName.first` changes that one part of the name and nothing else. */
  lemma {:induction false} TypingFirstName(form: Fields, value: string)
    ensures var r := ApplyInput(Dotted, form, InputEvent("fullName.first", value, false, false));
            Lookup(r, "fullName") == Some(Obj(Update(Spread(Js.Get(form, "fullName")), "first", Str(value))))
            && forall k :: k != "fullName" ==> Lookup(r, k) == Lookup(form, k)
  {
    FirstNameSplit();
    var r := ApplyInput(Dotted, form, InputEvent("fullName.first", value, false, false));
  }

  lemma {:induction false} FirstNameSplit()
    ensures '.' in "fullName.first"
    ensures Split("fullName.first", '.') == ["fullName", "first"]
  {
    assert "fullName.first" == "fullName" + ['.'] + "first";
    assert '.' !in "fullName" && '.' !in "first";
    SplitTwo("fullName", '.', "first");
  }
}
