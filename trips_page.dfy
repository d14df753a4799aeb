/**
 * The trips screen: the shared screen with a status filter, flat inputs, a
 * per-row status drop-down, and the list of available vehicles for the
 * form, loaded again after every change because a trip changes what is
 * available.
 */
module TripsPage {
  import opened Wrappers
  import opened Text
  import opened Js
  import opened Http
  import opened Screen
  import ApiServices

  const Fields: seq<Seed> := [
    Ref("vehicle"),
    Plain("purpose", Str(""), Blank),
    Day("startDate", Today),
    Day("endDate", Blank),
    Plain("startOdometer", Str(""), Blank),
    Plain("endOdometer", Str(""), Blank),
    Plain("destination", Str(""), Blank),
    Plain("driver", Str(""), Blank),
    Plain("status", Str("scheduled"), Blank),
    Plain("notes", Str(""), Blank)
  ]

  const Targets := ["scheduled", "in_progress", "completed", "cancelled"]

  const StatusNames := ["مجدولة", "قيد التنفيذ", "مكتملة", "ملغاة"]

  /** The form's vehicle list: only available vehicles, up to a thousand. */
  const VehiclesPath := Localhost + "/vehicles"
  const VehicleOptionsUrl := VehiclesPath + "?status=available&limit=1000"

  const Page := Descriptor(
    ApiServices.Trips, Localhost, "status", Fields, Flat, Statuses(Targets),
    Some(OptionsFeed(VehicleOptionsUrl, true)),
    Messages("حدث خطأ أثناء تحميل بيانات الرحلات", "حدث خطأ أثناء حفظ بيانات الرحلة",
             "حدث خطأ أثناء حذف الرحلة", "", "", "حدث خطأ أثناء تحديث حالة الرحلة"))

  /**
   * The trips screen: localhost, a status filter, flat inputs, the four status
   * moves, and the available vehicles, reloaded after every change.
   */
  lemma {:induction false} PageShape()
    ensures Page.resource == ApiServices.Trips && Page.base == Localhost && Page.filterKey == "status"
    ensures Page.fields == Fields && Page.input == Flat && Page.transitions == Statuses(Targets)
    ensures Page.options == Some(OptionsFeed(VehicleOptionsUrl, true))
  {
  }

  /** The draft's keys, in the order of the form's state. */
  lemma {:induction false} DraftKeys()
    ensures SeedKeys(Fields) == ["vehicle", "purpose", "startDate", "endDate", "startOdometer", "endOdometer",
                                 "destination", "driver", "status", "notes"]
  {
  }

  const StatusBadges := [
    ("scheduled", Badge("info", "مجدولة")),
    ("in_progress", Badge("warning", "قيد التنفيذ")),
    ("completed", Badge("success", "مكتملة")),
    ("cancelled", Badge("danger", "ملغاة"))
  ]

  /** getStatusBadge. */
  function StatusBadge(status: string): (b: Badge)
    ensures status !in Targets ==> b == Badge("secondary", status)
  {
    BadgeFor(StatusBadges, "secondary", status)
  }

  lemma {:induction false} MenuMatchesBadges(i: nat)
    requires i < |Targets|
    ensures StatusBadge(Targets[i]).text == StatusNames[i]
    ensures StatusBadge(Targets[i]).tone != "secondary"
  {
    assert StatusBadges[i].0 == Targets[i];
    LookupAt(StatusBadges, i);
  }

  lemma {:induction false} VehicleOptionsUrlShape()
    ensures VehicleOptionsUrl == WithQuery(VehiclesPath, Param("status", "available"), [Param("limit", "1000")])
  {
    var first, second := Param("status", "available"), Param("limit", "1000");
    assert [second][1..] == [];
    assert Suffix([second]) == "&" + Pair(second) + "";
    assert "?" + ("status" + "=" + "available") + ("&" + ("limit" + "=" + "1000") + "") == "?status=available&limit=1000";
  }

  lemma {:induction false} VehicleOptionsSafe()
    ensures '?' !in VehiclesPath
    ensures Safe(Param("status", "available")) && AllSafe([Param("limit", "1000")])
  {
    assert [Param("limit", "1000")][0] == Param("limit", "1000");
  }

  /** The vehicle list asks for the available ones and a limit of 1000, nothing else. */
  lemma {:induction false} ParseVehicleOptionsUrl()
    ensures ParseUrl(VehicleOptionsUrl)
         == ParsedUrl(VehiclesPath, [Param("status", "available"), Param("limit", "1000")])
  {
    var first, second := Param("status", "available"), Param("limit", "1000");
    VehicleOptionsUrlShape();
    VehicleOptionsSafe();
    ParseWithQuery(VehiclesPath, first, [second]);
  }

  /**
   * After a saved form, a delete or a status change that succeeded, the trips
   * are fetched and then the vehicle list, in that order.
   */
  lemma {:induction false} ChangeRefreshesVehicles(v: View, o: Outcome, opt: Option<Value>)
    ensures Refreshed(Page, v, o, opt).log
         == v.log + [Request.Get(PageListUrl(Page, v.currentPage, v.searchTerm, v.filter)),
                     Request.Get(VehicleOptionsUrl)]
  {
  }

  lemma {:induction false} FieldsDistinct()
    ensures DistinctSeeds(Fields)
  {
  }

  /** A new trip is scheduled and starts today. */
  lemma {:induction false} NewTripDefaults(nowIso: string, year: int)
    ensures Lookup(CreateDraft(Fields, nowIso, year), "status") == Some(Str("scheduled"))
    ensures Lookup(CreateDraft(Fields, nowIso, year), "startDate") == Some(Str(DayOf(nowIso)))
  {
    FieldsDistinct();
    CreatedLookup(Fields, nowIso, year, 8);
    CreatedLookup(Fields, nowIso, year, 2);
  }

  /** An edited trip keeps its status, or falls back to scheduled. */
  lemma {:induction false} EditStatusFallback(record: Value, toIso: Value -> Option<string>)
    requires record.Obj? && SeedEdit(Fields, record, toIso).Some?
    ensures Lookup(SeedEdit(Fields, record, toIso).value, "status")
         == Some(if Truthy(Field(record, "status")) then Field(record, "status") else Str("scheduled"))
  {
    FieldsDistinct();
    SeededLookup(Fields, record, toIso, 8);
  }

  /** fetchTrips sends the service's getTrips without a vehicle, under the localhost base. */
  lemma {:induction false} ListUrlIsService(page: int, search: string, status: string)
    ensures PageListUrl(Page, page, search, status)
         == Localhost + ApiServices.GetTripsUrl(page, Limit, search, status, "")
  {
    var service := ApiServices.GetTripsUrl(page, Limit, search, status, "");
    TripsWithoutVehicle(page, search, status);
    assert ApiServices.CollectionPath(ApiServices.Trips) == "/trips";
    PageListUrlIsService(Page, page, search, status, service);
  }

  lemma {:induction false} TripsWithoutVehicle(page: int, search: string, status: string)
    ensures ApiServices.GetTripsUrl(page, Limit, search, status, "")
         == ListUrl("/trips", page, Limit, [Param("search", search), Param("status", status)])
  {
    var s, t := Param("search", search), Param("status", status);
    assert [s, t, Param("vehicle", "")] == [s, t] + [Param("vehicle", "")];
    NonEmptyDropsEmpty([s, t], Param("vehicle", ""));
  }

  lemma {:induction false} NonEmptyDropsEmpty(ps: seq<Param>, p: Param)
    requires p.value == ""
    ensures NonEmpty(ps + [p]) == NonEmpty(ps)
  {
    ApiServices.NonEmptyAppend(ps, p);
  }
}
