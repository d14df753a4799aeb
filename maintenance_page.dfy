/**
 * The maintenance screen: the shared screen filtered by vehicle, flat
 * inputs, a per-row status drop-down, and the list of all vehicles for the
 * form and the filter. Its base URL comes from the environment.
 */
module MaintenancePage {
  import opened Wrappers
  import opened Text
  import opened Js
  import opened Http
  import opened Screen
  import ApiServices
  import TripsPage

  const Fields: seq<Seed> := [
    Ref("vehicle"),
    Plain("maintenanceType", Str(""), Blank),
    Plain("description", Str(""), Blank),
    Day("date", Today),
    Plain("cost", Str(""), Blank),
    Plain("odometer", Str(""), Blank),
    Plain("serviceProvider", Str(""), Blank),
    Plain("status", Str("scheduled"), Blank),
    Day("nextMaintenanceDate", Blank),
    Plain("notes", Str(""), Blank)
  ]

  const Targets := ["scheduled", "in_progress", "completed", "cancelled"]

  /**
   * The maintenance screen: a vehicle filter, flat inputs, the four status
   * moves, and the vehicles drop-down, loaded once.
   */
  function Page(env: Option<string>): (d: Descriptor)
    ensures d.resource == ApiServices.Maintenance && d.base == EnvBase(env) && d.filterKey == "vehicle"
    ensures d.fields == Fields && d.input == Flat && d.transitions == Statuses(Targets)
    ensures d.options == Some(OptionsFeed(d.base + "/vehicles?limit=1000", false))
  {
    Descriptor(
      ApiServices.Maintenance, EnvBase(env), "vehicle", Fields, Flat, Statuses(Targets),
      Some(OptionsFeed(EnvBase(env) + "/vehicles?limit=1000", false)),
      Messages("حدث خطأ أثناء تحميل سجلات الصيانة", "حدث خطأ أثناء حفظ سجل الصيانة",
               "حدث خطأ أثناء حذف سجل الصيانة", "", "", "حدث خطأ أثناء تحديث حالة الصيانة"))
  }

  /** The draft's keys, in the order of the form's state. */
  lemma {:induction false} DraftKeys()
    ensures SeedKeys(Fields) == ["vehicle", "maintenanceType", "description", "date", "cost", "odometer",
                                 "serviceProvider", "status", "nextMaintenanceDate", "notes"]
  {
  }

  const StatusBadges := [
    ("scheduled", Badge("info", "مجدولة")),
    ("in_progress", Badge("warning", "قيد التنفيذ")),
    ("completed", Badge("success", "مكتملة")),
    ("cancelled", Badge("danger", "ملغاة"))
  ]

  /** getStatusBadge. */
  function StatusBadge(status: string): (b: Badge)
    ensures status !in Targets ==> b == Badge("secondary", status)
  {
    BadgeFor(StatusBadges, "secondary", status)
  }

  /** Maintenance records and trips share their statuses, badges and drop-down. */
  lemma {:induction false} SameStatusesAsTrips(status: string)
    ensures StatusBadge(status) == TripsPage.StatusBadge(status)
    ensures Targets == TripsPage.Targets
  {
  }

  const MaintenanceTypes := [
    ("oil_change", "تغيير زيت"),
    ("tire_rotation", "تبديل إطارات"),
    ("brake_service", "صيانة فرامل"),
    ("engine_repair", "إصلاح محرك"),
    ("transmission", "صيانة ناقل الحركة"),
    ("electrical", "صيانة كهربائية"),
    ("inspection", "فحص دوري"),
    ("other", "أخرى")
  ]

  /** getMaintenanceTypeName. */
  function MaintenanceTypeName(t: string): (name: string)
    ensures Lookup(MaintenanceTypes, t).None? ==> name == t
  {
    Labelled(MaintenanceTypes, t)
  }

  /** Distinct maintenance types are never shown under the same name. */
  lemma {:induction false} MaintenanceTypeNamesDistinct(i: nat, j: nat)
    requires i < |MaintenanceTypes| && j < |MaintenanceTypes| && i != j
    ensures MaintenanceTypeName(MaintenanceTypes[i].0) != MaintenanceTypeName(MaintenanceTypes[j].0)
  {
    TypesDistinct();
    LabelledInjective(MaintenanceTypes, i, j);
  }

  lemma {:induction false} TypesDistinct()
    ensures DistinctKeys(MaintenanceTypes)
    ensures forall i, j :: 0 <= i < j < |MaintenanceTypes| ==> MaintenanceTypes[i].1 != MaintenanceTypes[j].1
  {
  }

  lemma {:induction false} FieldsDistinct()
    ensures DistinctSeeds(Fields)
  {
  }

  /**
   * An edited record's vehicle is the `_id` of its vehicle, or "" when it has
   * none; its status falls back to scheduled.
   */
  lemma {:induction false} EditSeedsVehicleId(record: Value, toIso: Value -> Option<string>)
    requires record.Obj? && SeedEdit(Fields, record, toIso).Some?
    ensures var draft := SeedEdit(Fields, record, toIso).value;
            Lookup(draft, "vehicle") == Some(Or(OptProp(Field(record, "vehicle"), "_id"), Str("")))
            && (!Truthy(Field(record, "status")) ==> Lookup(draft, "status") == Some(Str("scheduled")))
            && (Truthy(Field(record, "status")) ==> Lookup(draft, "status") == Some(Field(record, "status")))
  {
    FieldsDistinct();
    SeededLookup(Fields, record, toIso, 0);
    SeededLookup(Fields, record, toIso, 7);
  }

  /** Unlike trips, a change does not reload the vehicle list. */
  lemma {:induction false} ChangeLeavesVehicles(env: Option<string>, v: View, o: Outcome, opt: Option<Value>)
    ensures Refreshed(Page(env), v, o, opt) == Fetched(Page(env), v, o)
  {
  }

  /** fetchMaintenanceRecords sends what the service's getMaintenanceRecords sends, under the screen's base. */
  lemma {:induction false} ListUrlIsService(env: Option<string>, page: int, search: string, vehicle: string)
    ensures PageListUrl(Page(env), page, search, vehicle)
         == EnvBase(env) + ApiServices.GetMaintenanceRecordsUrl(page, Limit, search, vehicle)
  {
    var service := ApiServices.GetMaintenanceRecordsUrl(page, Limit, search, vehicle);
    assert ApiServices.CollectionPath(ApiServices.Maintenance) == "/maintenance";
    PageListUrlIsService(Page(env), page, search, vehicle, service);
  }
}
