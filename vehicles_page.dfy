/**
 * The vehicles screen: the shared screen with a status filter, flat inputs,
 * and a per-row drop-down that sets one of four statuses.
 */
module VehiclesPage {
  import opened Wrappers
  import opened Text
  import opened Js
  import opened Http
  import opened Screen
  import ApiServices

  /** The draft; a new vehicle's year is the current year, an edited one's `vehicle.year || ""`. */
  const Fields: seq<Seed> := [
    Plain("make", Str(""), Blank),
    Plain("model", Str(""), Blank),
    Plain("year", Str(""), ThisYear),
    Plain("licensePlate", Str(""), Blank),
    Plain("status", Str("available"), Blank),
    Plain("currentOdometer", Str(""), Blank),
    Plain("fuelType", Str("gasoline"), Blank),
    Day("registrationExpiry", Blank),
    Day("insuranceExpiry", Blank),
    Plain("notes", Str(""), Blank)
  ]

  /** The statuses of the row drop-down, of the filter and of the form, in that order. */
  const Targets := ["available", "in_use", "maintenance", "out_of_service"]

  /** The text of each drop-down item (and filter option) for those statuses. */
  const StatusNames := ["متاح", "قيد الاستخدام", "صيانة", "خارج الخدمة"]

  const Page := Descriptor(
    ApiServices.Vehicles, Localhost, "status", Fields, Flat, Statuses(Targets), None,
    Messages("حدث خطأ أثناء تحميل بيانات المركبات", "حدث خطأ أثناء حفظ بيانات المركبة",
             "حدث خطأ أثناء حذف المركبة", "", "", "حدث خطأ أثناء تحديث حالة المركبة"))

  /** The vehicles screen: localhost, a status filter, flat inputs, the four status moves, no drop-down list. */
  lemma {:induction false} PageShape()
    ensures Page.resource == ApiServices.Vehicles && Page.base == Localhost && Page.filterKey == "status"
    ensures Page.fields == Fields && Page.input == Flat && Page.transitions == Statuses(Targets) && Page.options.None?
  {
  }

  /** The draft's keys, in the order of the form's state. */
  lemma {:induction false} DraftKeys()
    ensures SeedKeys(Fields) == ["make", "model", "year", "licensePlate", "status", "currentOdometer",
                                 "fuelType", "registrationExpiry", "insuranceExpiry", "notes"]
  {
  }

  const StatusBadges := [
    ("available", Badge("success", "متاح")),
    ("in_use", Badge("warning", "قيد الاستخدام")),
    ("maintenance", Badge("danger", "صيانة")),
    ("out_of_service", Badge("secondary", "خارج الخدمة"))
  ]

  /** getStatusBadge. */
  function StatusBadge(status: string): (b: Badge)
    ensures status !in Targets ==> b == Badge("info", status)
  {
    BadgeFor(StatusBadges, "info", status)
  }

  const FuelTypes := [("gasoline", "بنزين"), ("diesel", "ديزل"), ("electric", "كهربائي"), ("hybrid", "هجين")]

  /** getFuelTypeName. */
  function FuelTypeName(fuel: string): (name: string)
    ensures Lookup(FuelTypes, fuel).None? ==> name == fuel
  {
    Labelled(FuelTypes, fuel)
  }

  /** Each status the drop-down sets is shown afterwards with the badge that names it the same way. */
  lemma {:induction false} MenuMatchesBadges(i: nat)
    requires i < |Targets|
    ensures StatusBadge(Targets[i]).text == StatusNames[i]
    ensures StatusBadge(Targets[i]).tone != "info"
  {
    assert StatusBadges[i].0 == Targets[i];
    LookupAt(StatusBadges, i);
  }

  /** A row offers edit, the four statuses in order, then delete. */
  lemma {:induction false} RowActionsOfVehicle(row: Fields)
    ensures var id := Js.Get(row, "_id");
            RowActions(Page, row)
            == [Edit(row), SetStatus(id, "available"), SetStatus(id, "in_use"), SetStatus(id, "maintenance"),
                SetStatus(id, "out_of_service"), DeleteRow(id)]
  {
    var id := Js.Get(row, "_id");
    assert StatusItems(id, Targets)
        == [SetStatus(id, "available"), SetStatus(id, "in_use"), SetStatus(id, "maintenance"),
            SetStatus(id, "out_of_service")];
  }

  /** A new vehicle is drafted with the current year; the state's first draft leaves it blank. */
  lemma {:induction false} NewVehicleYear(nowIso: string, year: int)
    ensures Lookup(CreateDraft(Fields, nowIso, year), "year") == Some(Str(IntToString(year)))
    ensures Lookup(InitialDraft(Fields), "year") == Some(Str(""))
  {
    var draft := CreateDraft(Fields, nowIso, year);
    var first := InitialDraft(Fields);
    assert draft[2] == ("year", Str(IntToString(year))) && draft[0].0 != "year" && draft[1].0 != "year";
    LookupFirst(draft, 2);
    assert first[2] == ("year", Str("")) && first[0].0 != "year" && first[1].0 != "year";
    LookupFirst(first, 2);
  }

  lemma {:induction false} FieldsDistinct()
    ensures DistinctSeeds(Fields)
  {
  }

  /** A new vehicle is available and runs on gasoline. */
  lemma {:induction false} NewVehicleDefaults(nowIso: string, year: int)
    ensures Lookup(CreateDraft(Fields, nowIso, year), "status") == Some(Str("available"))
    ensures Lookup(CreateDraft(Fields, nowIso, year), "fuelType") == Some(Str("gasoline"))
  {
    FieldsDistinct();
    CreatedLookup(Fields, nowIso, year, 4);
    CreatedLookup(Fields, nowIso, year, 6);
  }

  /** An edited vehicle falls back to the same two values when its record has none. */
  lemma {:induction false} EditFallbacks(record: Value, toIso: Value -> Option<string>)
    requires record.Obj? && SeedEdit(Fields, record, toIso).Some?
    ensures !Truthy(Field(record, "status")) ==>
              Lookup(SeedEdit(Fields, record, toIso).value, "status") == Some(Str("available"))
    ensures !Truthy(Field(record, "fuelType")) ==>
              Lookup(SeedEdit(Fields, record, toIso).value, "fuelType") == Some(Str("gasoline"))
  {
    FieldsDistinct();
    SeededLookup(Fields, record, toIso, 4);
    SeededLookup(Fields, record, toIso, 6);
  }

  /** fetchVehicles sends what the service's getVehicles sends, under the localhost base. */
  lemma {:induction false} ListUrlIsService(page: int, search: string, status: string)
    ensures PageListUrl(Page, page, search, status)
         == Localhost + ApiServices.GetVehiclesUrl(page, Limit, search, status)
  {
    var service := ApiServices.GetVehiclesUrl(page, Limit, search, status);
    assert ApiServices.CollectionPath(ApiServices.Vehicles) == "/vehicles";
    PageListUrlIsService(Page, page, search, status, service);
  }
}
