/**
 * The list/edit screen that the six resource pages share: paging, a search
 * box and one filter, a modal form seeded for create or edit, submit, delete
 * behind a confirmation, and per-row transitions. A Descriptor says what
 * varies from page to page; the Screen class holds the page's state and its
 * methods are the page's handlers.
 *
 * Requests are not performed: each handler appends the request it issues to
 * a ghost log, and what the server answered is an input to the handler.
 */
module Screen {
  import opened Wrappers
  import opened Text
  import opened Js
  import opened Http
  import ApiServices

  /** The page size every screen asks for. */
  const Limit := 10

  /** `'http://localhost:8888/api'`, the base URL written into several pages. */
  const Localhost := "http://localhost:8888/api"

  /** `process.env.REACT_APP_API_URL || 'http://localhost:8888/api'`. */
  function EnvBase(env: Option<string>): (b: string)
    ensures env.Some? && env.value != "" ==> b == env.value
    ensures env.None? || env.value == "" ==> b == Localhost
  {
    if env.Some? && env.value != "" then env.value else Localhost
  }

  // ---------------------------------------------------------------------------
  // Descriptors
  // ---------------------------------------------------------------------------

  /** What the create form puts in a field instead of its edit fallback. */
  datatype Init = Blank | Today | ThisYear

  /** One field of the draft and how the modal fills it. */
  datatype Seed =
      /** edit: `record.key || fallback`. */
    | Plain(key: string, fallback: Value, init: Init)
      /** edit: `record.key ? new Date(record.key).toISOString().split('T')[0] : ''`. */
    | Day(key: string, init: Init)
      /** edit: `record.key ?? fallback`: only null and undefined fall back. */
    | Kept(key: string, fallback: Value)
      /** edit: `record.key?._id || ''`. */
    | Ref(key: string)
      /** A nested object; edit: `record.key.part || fallback`, or `record.key?.part` when not strict. */
    | Group(key: string, strict: bool, parts: seq<(string, string)>)

  /** How `handleInputChange` reads the event. */
  datatype InputStyle =
    | Flat      // `{...formData, [name]: value}`
    | Dotted    // a name `p.c` updates `formData[p][c]`
    | Checkbox  // a checkbox stores `checked` instead of `value`

  datatype Transitions =
    | NoTransitions
    | ApproveReject           // the approve and reject buttons on pending rows
    | Statuses(targets: seq<string>)  // the status drop-down

  /** A second list the page loads for its form's drop-down. */
  datatype OptionsFeed = OptionsFeed(url: string, refreshAfterChange: bool)

  /** The fallback texts of `err.response?.data?.message || '…'`. */
  datatype Messages = Messages(load: string, save: string, remove: string,
                               approve: string, reject: string, status: string)

  datatype Descriptor = Descriptor(
    resource: ApiServices.Resource,
    base: string,
    filterKey: string,
    fields: seq<Seed>,
    input: InputStyle,
    transitions: Transitions,
    options: Option<OptionsFeed>,
    messages: Messages)

  function SeedKey(s: Seed): string {
    match s
    case Plain(k, _, _) => k
    case Day(k, _) => k
    case Kept(k, _) => k
    case Ref(k) => k
    case Group(k, _, _) => k
  }

  function SeedKeys(fields: seq<Seed>): (ks: seq<string>)
    ensures |ks| == |fields|
    ensures forall i :: 0 <= i < |fields| ==> ks[i] == SeedKey(fields[i])
  {
    seq(|fields|, i requires 0 <= i < |fields| => SeedKey(fields[i]))
  }

  predicate StrictGroup(s: Seed) {
    s.Group? && s.strict
  }

  // ---------------------------------------------------------------------------
  // URLs of a screen
  // ---------------------------------------------------------------------------

  /** `${base}/{resource}?page=…&limit=10[&search=…][&filterKey=…]`, as the page's fetch builds it. */
  function PageListUrl(d: Descriptor, page: int, search: string, filter: string): (url: string)
    ensures url == ListUrl(d.base + ApiServices.CollectionPath(d.resource), page, Limit,
                           [Param("search", search), Param(d.filterKey, filter)])
  {
    var path := d.base + "/" + ApiServices.Name(d.resource);
    assert path == d.base + ApiServices.CollectionPath(d.resource);
    ApiServices.TwoFiltersListUrl(path, page, Limit, Param("search", search), Param(d.filterKey, filter));
    ApiServices.AppendIf(ApiServices.AppendIf(ApiServices.Base(path, page, Limit), "search", search),
                         d.filterKey, filter)
  }

  /**
   * What a screen's list request's query splits into: page, limit 10, the
   * search iff non-empty, then the screen's filter iff non-empty.
   */
  lemma {:induction false} ParsePageListUrl(d: Descriptor, page: int, search: string, filter: string)
    requires '?' !in d.base
    requires Safe(Param(d.filterKey, filter)) && ApiServices.SafeValue(search)
    ensures ParseUrl(PageListUrl(d, page, search, filter))
         == ParsedUrl(d.base + ApiServices.CollectionPath(d.resource),
                      ApiServices.PageAndLimit(page, Limit)
                      + ApiServices.Opt(Param("search", search)) + ApiServices.Opt(Param(d.filterKey, filter)))
  {
    ApiServices.ParseTwoFilters(d.base + ApiServices.CollectionPath(d.resource), page, Limit,
                                Param("search", search), Param(d.filterKey, filter));
  }

  /** Putting a base URL in front of a relative list URL is the list URL of the longer path. */
  lemma {:induction false} ListUrlUnderBase(base: string, path: string, page: int, limit: int, opts: seq<Param>)
    ensures ListUrl(base + path, page, limit, opts) == base + ListUrl(path, page, limit, opts)
  {
  }

  /** A screen's list request is the service's list URL with the screen's base in front. */
  lemma {:induction false} PageListUrlUnderBase(d: Descriptor, page: int, search: string, filter: string)
    ensures PageListUrl(d, page, search, filter)
         == d.base + ListUrl(ApiServices.CollectionPath(d.resource), page, Limit,
                             [Param("search", search), Param(d.filterKey, filter)])
  {
    ListUrlUnderBase(d.base, ApiServices.CollectionPath(d.resource), page, Limit,
                     [Param("search", search), Param(d.filterKey, filter)]);
  }

  /** The same, for a service URL already known to be that list URL. */
  lemma {:induction false} PageListUrlIsService(d: Descriptor, page: int, search: string, filter: string, service: string)
    requires service == ListUrl(ApiServices.CollectionPath(d.resource), page, Limit,
                                [Param("search", search), Param(d.filterKey, filter)])
    ensures PageListUrl(d, page, search, filter) == d.base + service
  {
    PageListUrlUnderBase(d, page, search, filter);
  }

  /** `${base}/{resource}/${id}`. */
  function RecordUrl(d: Descriptor, id: Value): (url: string)
    ensures url == d.base + ApiServices.RecordPath(d.resource, id)
  {
    d.base + "/" + ApiServices.Name(d.resource) + "/" + ToStr(id)
  }

  /** The request handleSubmit issues: PUT to the record selected, POST to the collection otherwise. */
  function SaveRequest(d: Descriptor, selected: Value, form: Fields): (q: Request)
    ensures q.Put? <==> Truthy(selected)
    ensures q.Post? <==> !Truthy(selected)
    ensures q.Put? ==> q.url == RecordUrl(d, Prop(selected, "_id").value)
    ensures q.Post? ==> q.url == d.base + ApiServices.CollectionPath(d.resource)
    ensures q.body == Obj(form)
  {
    if Truthy(selected) then
      Put(d.base + "/" + ApiServices.Name(d.resource) + "/" + ToStr(Prop(selected, "_id").value), Obj(form))
    else
      Post(d.base + "/" + ApiServices.Name(d.resource), Obj(form))
  }

  /**
   * Each request a screen writes by hand is the service layer's request for
   * the same resource with the screen's base URL in front.
   */
  lemma {:induction false} SaveMatchesServices(d: Descriptor, selected: Value, form: Fields)
    ensures Truthy(selected) ==>
              SaveRequest(d, selected, form).url
              == d.base + ApiServices.UpdateRecord(d.resource, Prop(selected, "_id").value, Obj(form)).url
    ensures !Truthy(selected) ==>
              SaveRequest(d, selected, form).url == d.base + ApiServices.CreateRecord(d.resource, Obj(form)).url
  {
  }

  lemma {:induction false} RecordRequestsMatchServices(d: Descriptor, id: Value, status: string)
    ensures RecordUrl(d, id) == d.base + ApiServices.DeleteRecord(d.resource, id).url
    ensures ApiServices.HasStatusRoute(d.resource) ==>
              RecordUrl(d, id) + "/status" == d.base + ApiServices.UpdateStatus(d.resource, id, Str(status)).url
  {
    var path := ApiServices.RecordPath(d.resource, id);
    assert RecordUrl(d, id) == d.base + path;
    if ApiServices.HasStatusRoute(d.resource) {
      assert ApiServices.UpdateStatus(d.resource, id, Str(status)).url == path + "/status";
      assert (d.base + path) + "/status" == d.base + (path + "/status");
    }
  }

  lemma {:induction false} ApproveMatchesService(d: Descriptor, id: Value)
    requires d.resource == ApiServices.Expenses
    ensures RecordUrl(d, id) + "/approve" == d.base + ApiServices.Approve(id).url
  {
    var path := ApiServices.RecordPath(d.resource, id);
    assert RecordUrl(d, id) == d.base + path;
    assert ApiServices.Approve(id).url == path + "/approve";
    assert (d.base + path) + "/approve" == d.base + (path + "/approve");
  }

  lemma {:induction false} RejectMatchesService(d: Descriptor, id: Value)
    requires d.resource == ApiServices.Expenses
    ensures RecordUrl(d, id) + "/reject" == d.base + ApiServices.Reject(id).url
  {
    var path := ApiServices.RecordPath(d.resource, id);
    assert RecordUrl(d, id) == d.base + path;
    assert ApiServices.Reject(id).url == path + "/reject";
    assert (d.base + path) + "/reject" == d.base + (path + "/reject");
  }

  // ---------------------------------------------------------------------------
  // Seeding the draft
  // ---------------------------------------------------------------------------

  /** The date part of an ISO timestamp: `iso.split('T')[0]`. */
  function DayOf(iso: string): (day: string)
    ensures 'T' !in day
    ensures 'T' !in iso ==> day == iso
  {
    Split(iso, 'T')[0]
  }

  /** The value the form gets when it is opened for a new record. */
  function CreateValue(s: Seed, nowIso: string, year: int): Value {
    match s
    case Plain(_, fallback, init) =>
      (match init
       case Blank => fallback
       case Today => Str(DayOf(nowIso))
       case ThisYear => Str(IntToString(year)))
    case Day(_, init) => if init == Blank then Str("") else if init == Today then Str(DayOf(nowIso)) else Str(IntToString(year))
    case Kept(_, fallback) => fallback
    case Ref(_) => Str("")
    case Group(_, _, parts) => Obj(BlankParts(parts))
  }

  /** The value of a field in the state's first draft (the `useState` literal). */
  function InitialValue(s: Seed): Value {
    match s
    case Plain(_, fallback, _) => fallback
    case Day(_, _) => Str("")
    case Kept(_, fallback) => fallback
    case Ref(_) => Str("")
    case Group(_, _, parts) => Obj(BlankParts(parts))
  }

  function BlankParts(parts: seq<(string, string)>): (r: Fields)
    ensures Keys(r) == Keys(parts)
    ensures forall i :: 0 <= i < |parts| ==> r[i].1 == Str(parts[i].1)
  {
    seq(|parts|, i requires 0 <= i < |parts| => (parts[i].0, Str(parts[i].1)))
  }

  function Fill(fields: seq<Seed>, value: Seed -> Value): (r: Fields)
    ensures |r| == |fields|
    ensures forall i :: 0 <= i < |fields| ==> r[i] == (SeedKey(fields[i]), value(fields[i]))
  {
    seq(|fields|, i requires 0 <= i < |fields| => (SeedKey(fields[i]), value(fields[i])))
  }

  /** The `useState` draft: each field under its key with its first-draft value, in order. */
  function InitialDraft(fields: seq<Seed>): (r: Fields)
    ensures Keys(r) == SeedKeys(fields)
    ensures forall i :: 0 <= i < |fields| ==> r[i].1 == InitialValue(fields[i])
  {
    var r := Fill(fields, InitialValue);
    DraftKeysAreSeedKeys(fields, r);
    r
  }

  /** The draft `handleShowModal` writes for a new record: each field's create value, in order. */
  function CreateDraft(fields: seq<Seed>, nowIso: string, year: int): (r: Fields)
    ensures Keys(r) == SeedKeys(fields)
    ensures forall i :: 0 <= i < |fields| ==> r[i].1 == CreateValue(fields[i], nowIso, year)
  {
    var r := Fill(fields, s => CreateValue(s, nowIso, year));
    DraftKeysAreSeedKeys(fields, r);
    r
  }

  lemma {:induction false} DraftKeysAreSeedKeys(fields: seq<Seed>, r: Fields)
    requires |r| == |fields| && forall i :: 0 <= i < |fields| ==> r[i].0 == SeedKey(fields[i])
    ensures Keys(r) == SeedKeys(fields)
  {
    var a, b := Keys(r), SeedKeys(fields);
    forall i | 0 <= i < |fields|
      ensures a[i] == b[i]
    {
    }
  }

  /**
   * The create draft is the first draft except in the fields filled with
   * today's date or the current year.
   */
  lemma {:induction false} CreateDraftFromInitial(fields: seq<Seed>, nowIso: string, year: int, i: int)
    requires 0 <= i < |fields|
    ensures Keys(CreateDraft(fields, nowIso, year)) == Keys(InitialDraft(fields))
    ensures ((fields[i].Plain? || fields[i].Day?) && fields[i].init != Blank)
            || CreateDraft(fields, nowIso, year)[i] == InitialDraft(fields)[i]
  {
  }

  /** Without a field filled with today's date or the current year, the create draft is the first draft. */
  lemma {:induction false} CreateDraftIsInitial(fields: seq<Seed>, nowIso: string, year: int)
    requires forall i :: 0 <= i < |fields| ==> CreateValue(fields[i], nowIso, year) == InitialValue(fields[i])
    ensures CreateDraft(fields, nowIso, year) == InitialDraft(fields)
  {
    var c, d := CreateDraft(fields, nowIso, year), InitialDraft(fields);
    forall i | 0 <= i < |fields|
      ensures c[i] == d[i]
    {
      assert c[i] == (SeedKey(fields[i]), CreateValue(fields[i], nowIso, year));
    }
    assert c == d;
  }

  /** Every field of the draft has its own key. */
  predicate DistinctSeeds(fields: seq<Seed>) {
    forall i, j :: 0 <= i < j < |fields| ==> SeedKey(fields[i]) != SeedKey(fields[j])
  }

  /** A new record's draft holds each field's create value under the field's key. */
  lemma {:induction false} CreatedLookup(fields: seq<Seed>, nowIso: string, year: int, i: nat)
    requires DistinctSeeds(fields) && i < |fields|
    ensures Lookup(CreateDraft(fields, nowIso, year), SeedKey(fields[i])) == Some(CreateValue(fields[i], nowIso, year))
  {
    LookupFirst(CreateDraft(fields, nowIso, year), i);
  }

  /** `record.key` on a record that is truthy, so never a TypeError. */
  function Field(record: Value, key: string): Value
    requires Truthy(record)
  {
    Prop(record, key).value
  }

  /**
   * The edit value of one field; None when evaluating it throws (a strict
   * group missing from the record, or a date toISOString rejects).
   */
  function EditValue(s: Seed, record: Value, toIso: Value -> Option<string>): (r: Option<Value>)
    requires Truthy(record)
    ensures !StrictGroup(s) && !s.Day? ==> r.Some?
    ensures s.Plain? ==> r == Some(if Truthy(Field(record, s.key)) then Field(record, s.key) else s.fallback)
    ensures s.Day? && !Truthy(Field(record, s.key)) ==> r == Some(Str(""))
    ensures s.Kept? ==> r == Some(if Nullish(Field(record, s.key)) then s.fallback else Field(record, s.key))
  {
    match s
    case Plain(k, fallback, _) => Some(Or(Field(record, k), fallback))
    case Day(k, _) =>
      var v := Field(record, k);
      if !Truthy(v) then Some(Str(""))
      else (match toIso(v)
            case None => None
            case Some(iso) => Some(Str(DayOf(iso))))
    case Kept(k, fallback) => Some(if Nullish(Field(record, k)) then fallback else Field(record, k))
    case Ref(k) => Some(Or(OptProp(Field(record, k), "_id"), Str("")))
    case Group(k, strict, parts) =>
      var g := Field(record, k);
      if strict && Nullish(g) then None else Some(Obj(EditParts(g, parts)))
  }

  /** `{ part: g?.part || fallback, … }`. */
  function EditParts(g: Value, parts: seq<(string, string)>): (r: Fields)
    ensures Keys(r) == Keys(parts)
    ensures forall i :: 0 <= i < |parts| ==> r[i].1 == Or(OptProp(g, parts[i].0), Str(parts[i].1))
  {
    seq(|parts|, i requires 0 <= i < |parts| => (parts[i].0, Or(OptProp(g, parts[i].0), Str(parts[i].1))))
  }

  /** The edit draft, or None when the object literal throws part-way (nothing is then set). */
  function SeedEdit(fields: seq<Seed>, record: Value, toIso: Value -> Option<string>): (r: Option<Fields>)
    requires Truthy(record)
    ensures r.Some? <==> forall i :: 0 <= i < |fields| ==> EditValue(fields[i], record, toIso).Some?
    ensures r.Some? ==> |r.value| == |fields|
    ensures r.Some? ==> forall i :: 0 <= i < |fields| ==>
              r.value[i] == (SeedKey(fields[i]), EditValue(fields[i], record, toIso).value)
    decreases |fields|
  {
    if |fields| == 0 then Some([])
    else
      match EditValue(fields[0], record, toIso)
      case None => None
      case Some(v) =>
        match SeedEdit(fields[1..], record, toIso)
        case None =>
          assert exists i :: 1 <= i < |fields| && EditValue(fields[i], record, toIso).None? by {
            var j :| 0 <= j < |fields[1..]| && EditValue(fields[1..][j], record, toIso).None?;
            assert fields[1..][j] == fields[j + 1];
          }
          None
        case Some(rest) =>
          assert forall i :: 1 <= i < |fields| ==> fields[i] == fields[1..][i - 1];
          Some([(SeedKey(fields[0]), v)] + rest)
  }

  /**
   * An edit of a record that has none of the fields gives back the first
   * draft, as long as no field reads a nested object strictly: every edit
   * fallback is the create default.
   */
  lemma {:induction false} EmptyRecordSeedsInitial(fields: seq<Seed>, toIso: Value -> Option<string>)
    requires forall i :: 0 <= i < |fields| ==> !StrictGroup(fields[i])
    ensures SeedEdit(fields, Obj([]), toIso) == Some(InitialDraft(fields))
  {
    var e := Obj([]);
    forall i | 0 <= i < |fields|
      ensures EditValue(fields[i], e, toIso) == Some(InitialValue(fields[i]))
    {
      AbsentFieldSeedsInitial(fields[i], e, toIso);
    }
    SeedEditIsInitial(fields, e, toIso);
  }

  /** A field the record lacks is seeded with its first-draft value, unless it is read strictly. */
  lemma {:induction false} AbsentFieldSeedsInitial(s: Seed, record: Value, toIso: Value -> Option<string>)
    requires record.Obj? && Lookup(record.fields, SeedKey(s)).None? && !StrictGroup(s)
    ensures EditValue(s, record, toIso) == Some(InitialValue(s))
  {
    if s.Group? {
      assert EditParts(Undefined, s.parts) == BlankParts(s.parts);
    }
  }

  /** The edit draft holds each field's edit value under its key, keys being distinct. */
  lemma {:induction false} SeededLookup(fields: seq<Seed>, record: Value, toIso: Value -> Option<string>, i: nat)
    requires Truthy(record) && SeedEdit(fields, record, toIso).Some? && i < |fields|
    requires forall j :: 0 <= j < i ==> SeedKey(fields[j]) != SeedKey(fields[i])
    ensures Lookup(SeedEdit(fields, record, toIso).value, SeedKey(fields[i]))
         == EditValue(fields[i], record, toIso)
  {
    var e := SeedEdit(fields, record, toIso).value;
    LookupFirst(e, i);
  }

  /** When every field is seeded with its first-draft value, the edit draft is the first draft. */
  lemma {:induction false} SeedEditIsInitial(fields: seq<Seed>, record: Value, toIso: Value -> Option<string>)
    requires Truthy(record)
    requires forall i :: 0 <= i < |fields| ==> EditValue(fields[i], record, toIso) == Some(InitialValue(fields[i]))
    ensures SeedEdit(fields, record, toIso) == Some(InitialDraft(fields))
  {
    var r := SeedEdit(fields, record, toIso);
    var d := InitialDraft(fields);
    assert r.Some?;
    assert |r.value| == |d| == |fields|;
    forall i | 0 <= i < |fields|
      ensures r.value[i] == d[i]
    {
      assert r.value[i] == (SeedKey(fields[i]), EditValue(fields[i], record, toIso).value);
      assert d[i] == (SeedKey(fields[i]), InitialValue(fields[i]));
    }
    assert r.value == d;
  }

  // ---------------------------------------------------------------------------
  // handleInputChange
  // ---------------------------------------------------------------------------

  datatype InputEvent = InputEvent(name: string, value: string, isCheckbox: bool, checked: bool)

  /**
   * `{...v}` for the value of a nested group: its entries, or none for anything
   * but an object. A string would spread its index properties in JavaScript;
   * no screen reaches that case, since every dotted input's parent is an
   * object-valued group of the draft.
   */
  function Spread(v: Value): Fields {
    if v.Obj? then v.fields else []
  }

  /** What the input stores: `checked` for a checkbox on a checkbox-aware page, `value` otherwise. */
  function Stored(style: InputStyle, e: InputEvent): (v: Value)
    ensures style == Checkbox && e.isCheckbox ==> v == Bool(e.checked)
    ensures !(style == Checkbox && e.isCheckbox) ==> v == Str(e.value)
  {
    if style == Checkbox && e.isCheckbox then Bool(e.checked) else Str(e.value)
  }

  /** True when the name is handled as `parent.child`. */
  predicate IsDotted(style: InputStyle, name: string) {
    style == Dotted && '.' in name
  }

  function ApplyInput(style: InputStyle, form: Fields, e: InputEvent): (r: Fields)
    ensures !IsDotted(style, e.name) ==>
              Lookup(r, e.name) == Some(Stored(style, e))
              && forall k :: k != e.name ==> Lookup(r, k) == Lookup(form, k)
    ensures IsDotted(style, e.name) ==>
              var parts := Split(e.name, '.');
              |parts| >= 2
              && (forall k :: k != parts[0] ==> Lookup(r, k) == Lookup(form, k))
              && Lookup(r, parts[0]) == Some(Obj(Update(Spread(Js.Get(form, parts[0])), parts[1], Str(e.value))))
  {
    if IsDotted(style, e.name) then
      var parts := Split(e.name, '.');
      SplitHasTwo(e.name, '.');
      var parent, child := parts[0], parts[1];
      var inner := Update(Spread(Js.Get(form, parent)), child, Str(e.value));
      UpdateLookups(form, parent, Obj(inner));
      Update(form, parent, Obj(inner))
    else
      UpdateLookups(form, e.name, Stored(style, e));
      Update(form, e.name, Stored(style, e))
  }

  lemma {:induction false} UpdateLookups(form: Fields, k: string, v: Value)
    ensures Lookup(Update(form, k, v), k) == Some(v)
    ensures forall k' :: k' != k ==> Lookup(Update(form, k, v), k') == Lookup(form, k')
  {
    LookupUpdate(form, k, v, k);
    forall k' | k' != k ensures Lookup(Update(form, k, v), k') == Lookup(form, k') {
      LookupUpdate(form, k, v, k');
    }
  }

  lemma {:induction false} SplitHasTwo(s: string, sep: char)
    requires sep in s
    ensures |Split(s, sep)| >= 2
    decreases |s|
  {
    if s[0] != sep {
      assert sep in s[1..];
      SplitHasTwo(s[1..], sep);
    }
  }

  /**
   * A dotted name `p.c` changes the one sub-field: `formData[p][c]` holds the
   * value, every other sub-field of `p` and every other top-level field keep
   * theirs.
   */
  lemma {:induction false} DottedInputChangesOneSubField(form: Fields, e: InputEvent, c': string)
    requires IsDotted(Dotted, e.name)
    ensures var parts := Split(e.name, '.');
            var r := ApplyInput(Dotted, form, e);
            Js.Get(r, parts[0]).Obj?
            && Lookup(Js.Get(r, parts[0]).fields, parts[1]) == Some(Str(e.value))
            && (c' != parts[1] ==> Lookup(Js.Get(r, parts[0]).fields, c') == Lookup(Spread(Js.Get(form, parts[0])), c'))
  {
    var parts := Split(e.name, '.');
    SplitHasTwo(e.name, '.');
    var inner := Update(Spread(Js.Get(form, parts[0])), parts[1], Str(e.value));
    LookupUpdate(Spread(Js.Get(form, parts[0])), parts[1], Str(e.value), parts[1]);
    LookupUpdate(Spread(Js.Get(form, parts[0])), parts[1], Str(e.value), c');
  }

  // ---------------------------------------------------------------------------
  // Labels, badges and what the card body shows
  // ---------------------------------------------------------------------------

  /** A `switch` over known codes with `default: return code`: the code itself when unknown. */
  function Labelled(table: seq<(string, string)>, code: string): (name: string)
    ensures Lookup(table, code).Some? ==> name == Lookup(table, code).value
    ensures Lookup(table, code).None? ==> name == code
  {
    Lookup(table, code).GetOr(code)
  }

  /** A status badge: its Bootstrap colour (`bg-…`) and its text. */
  datatype Badge = Badge(tone: string, text: string)

  /** A badge `switch`: the known codes' badges, else `fallbackTone` showing the code itself. */
  function BadgeFor(table: seq<(string, Badge)>, fallbackTone: string, code: string): (b: Badge)
    ensures Lookup(table, code).Some? ==> b == Lookup(table, code).value
    ensures Lookup(table, code).None? ==> b == Badge(fallbackTone, code)
  {
    Lookup(table, code).GetOr(Badge(fallbackTone, code))
  }

  /**
   * Distinct codes of a table whose labels are distinct get distinct labels:
   * the column never shows two known codes the same way.
   */
  lemma {:induction false} LabelledInjective(table: seq<(string, string)>, i: nat, j: nat)
    requires DistinctKeys(table) && i < |table| && j < |table| && i != j
    requires table[i].1 != table[j].1
    ensures Labelled(table, table[i].0) != Labelled(table, table[j].0)
  {
    LookupAt(table, i);
    LookupAt(table, j);
  }

  /** What the list card shows. */
  datatype Body = Spinner | NoData | Rows(items: seq<Value>)

  /**
   * `loading ? spinner : rows.length === 0 ? no-data : rows.map(…)`. None is a
   * TypeError: rows that are null or undefined, or a value without `map`
   * whose length is not 0.
   */
  function ListBody(loading: bool, rows: Value): (b: Option<Body>)
    ensures loading ==> b == Some(Spinner)
    ensures !loading && rows.Arr? ==> b == Some(if |rows.items| == 0 then NoData else Rows(rows.items))
    ensures !loading && rows == Str("") ==> b == Some(NoData)
    ensures !loading && (Nullish(rows) || rows.Bool? || rows.Num? || (rows.Str? && rows.s != "")) ==> b.None?
  {
    if loading then Some(Spinner)
    else
      match Prop(rows, "length")
      case None => None
      case Some(n) =>
        assert rows.Str? ==> n == Num(Utf16Length(rows.s));
        if n == Num(0) then Some(NoData)
        else if rows.Arr? then Some(Rows(rows.items))
        else None
  }

  /** `{error && <Alert …>}`. */
  predicate AlertShown(error: Value) {
    Truthy(error)
  }

  // ---------------------------------------------------------------------------
  // Rows, actions and the pager
  // ---------------------------------------------------------------------------

  /** The buttons of one table row, in the order they appear. */
  datatype Action =
    | Edit(record: Fields)
    | ApproveRow(id: Value)
    | RejectRow(id: Value)
    | SetStatus(id: Value, status: string)
    | DeleteRow(id: Value)

  function StatusItems(id: Value, targets: seq<string>): (r: seq<Action>)
    ensures |r| == |targets|
    ensures forall i :: 0 <= i < |r| ==> r[i] == SetStatus(id, targets[i])
  {
    seq(|targets|, i requires 0 <= i < |targets| => SetStatus(id, targets[i]))
  }

  /** A row is pending when `row.approvalStatus === "pending"`. */
  predicate Pending(row: Fields) {
    Js.Get(row, "approvalStatus") == Str("pending")
  }

  function RowActions(d: Descriptor, row: Fields): (r: seq<Action>)
    ensures |r| >= 2 && r[0] == Edit(row) && r[|r| - 1] == DeleteRow(Js.Get(row, "_id"))
    ensures (exists i :: 0 <= i < |r| && r[i].ApproveRow?) <==> d.transitions == ApproveReject && Pending(row)
    ensures (exists i :: 0 <= i < |r| && r[i].RejectRow?) <==> d.transitions == ApproveReject && Pending(row)
    ensures forall i :: 0 <= i < |r| && r[i].SetStatus? ==>
              d.transitions.Statuses? && r[i].status in d.transitions.targets
  {
    var id := Js.Get(row, "_id");
    var middle :=
      match d.transitions
      case NoTransitions => []
      case ApproveReject => if Pending(row) then [ApproveRow(id), RejectRow(id)] else []
      case Statuses(targets) => StatusItems(id, targets);
    var r := [Edit(row)] + middle + [DeleteRow(id)];
    assert forall i :: 0 < i < |r| - 1 ==> r[i] == middle[i - 1];
    if d.transitions == ApproveReject && Pending(row) then
      assert r[1].ApproveRow? && r[2].RejectRow?;
      r
    else
      r
  }

  datatype PageButton = PageButton(target: int, disabled: bool)
  datatype PageItem = PageItem(number: int, active: bool)
  datatype Pager = Pager(prev: PageButton, items: seq<PageItem>, next: PageButton)

  /**
   * renderPagination: nothing for a single page; otherwise one item per
   * page 1..totalPages, the current one active, Prev and Next stepping by one
   * and disabled on the first and the last page.
   */
  method RenderPagination(currentPage: int, totalPages: int) returns (p: Option<Pager>)
    ensures p.None? <==> totalPages <= 1
    ensures p.Some? ==> |p.value.items| == totalPages
    ensures p.Some? ==> forall i :: 0 <= i < |p.value.items| ==>
              p.value.items[i] == PageItem(i + 1, i + 1 == currentPage)
    ensures p.Some? ==> p.value.prev == PageButton(currentPage - 1, currentPage == 1)
    ensures p.Some? ==> p.value.next == PageButton(currentPage + 1, currentPage == totalPages)
    ensures p.Some? ==> ((exists i :: 0 <= i < |p.value.items| && p.value.items[i].active)
                         <==> 1 <= currentPage <= totalPages)
  {
    if totalPages <= 1 {
      return None;
    }
    var items: seq<PageItem> := [];
    var number := 1;
    while number <= totalPages
      invariant 1 <= number <= totalPages + 1
      invariant |items| == number - 1
      invariant forall i :: 0 <= i < |items| ==> items[i] == PageItem(i + 1, i + 1 == currentPage)
    {
      items := items + [PageItem(number, number == currentPage)];
      number := number + 1;
    }
    if 1 <= currentPage <= totalPages {
      assert items[currentPage - 1].active;
    }
    return Some(Pager(PageButton(currentPage - 1, currentPage == 1), items,
                      PageButton(currentPage + 1, currentPage == totalPages)));
  }

  // ---------------------------------------------------------------------------
  // The screen's state and handlers
  // ---------------------------------------------------------------------------

  /** What the list request answered: the page of rows and the pagination counts, or an error. */
  datatype Outcome =
    | Loaded(data: Value, pages: int, total: int)
    | Failed(message: Value)   // `err.response?.data?.message`

  /** What a create, update, delete or transition request answered. */
  datatype Ack = Done | Refused(message: Value)

  /** The values the list depends on (the effect's dependency list). */
  datatype Query = Query(page: int, search: string, filter: string)

  /** Every piece of the screen's state, the requests issued so far last. */
  datatype View = View(
    rows: Value, options: Value, loading: bool, error: Value,
    currentPage: int, totalPages: int, total: int,
    searchTerm: string, filter: string,
    showModal: bool, selected: Value, formData: Fields,
    lastQuery: Option<Query>, log: seq<Request>)

  function InitialView(d: Descriptor): View {
    View(Arr([]), Arr([]), true, Null, 1, 1, 0, "", "", false, Null, InitialDraft(d.fields), None, [])
  }

  /** The state after the list request went out from state v and `o` came back. */
  function Fetched(d: Descriptor, v: View, o: Outcome): (w: View)
    ensures w.log == v.log + [Request.Get(PageListUrl(d, v.currentPage, v.searchTerm, v.filter))]
    ensures !w.loading
    ensures o.Loaded? ==> w.rows == o.data && w.totalPages == o.pages && w.total == o.total && w.error == v.error
    ensures o.Failed? ==> w.rows == v.rows && w.totalPages == v.totalPages && w.total == v.total
                          && w.error == Or(o.message, Str(d.messages.load))
  {
    var logged := v.(log := v.log + [Request.Get(PageListUrl(d, v.currentPage, v.searchTerm, v.filter))]);
    match o
    case Loaded(data, pages, total) => logged.(rows := data, totalPages := pages, total := total, loading := false)
    case Failed(m) => logged.(error := Or(m, Str(d.messages.load)), loading := false)
  }

  /** The state after the drop-down's list was requested; a failure only goes to the console. */
  function OptionsFetched(d: Descriptor, v: View, o: Option<Value>): (w: View)
    requires d.options.Some?
    ensures w.log == v.log + [Request.Get(d.options.value.url)]
    ensures o.Some? ==> w.options == o.value
    ensures w == v.(log := w.log, options := if o.Some? then o.value else v.options)
  {
    var logged := v.(log := v.log + [Request.Get(d.options.value.url)]);
    if o.Some? then logged.(options := o.value) else logged
  }

  /** After a successful change: the list again, and the drop-down's list too where the page refreshes it. */
  function Refreshed(d: Descriptor, v: View, o: Outcome, opt: Option<Value>): (r: View)
    ensures var f := Fetched(d, v, o);
            if d.options.Some? && d.options.value.refreshAfterChange
            then r.log == f.log + [Request.Get(d.options.value.url)]
                 && r == f.(log := r.log, options := if opt.Some? then opt.value else v.options)
            else r == f
  {
    var w := Fetched(d, v, o);
    if d.options.Some? && d.options.value.refreshAfterChange then OptionsFetched(d, w, opt) else w
  }

  /** `setError(err.response?.data?.message || fallback)`. */
  function Failure(v: View, message: Value, fallback: string): View {
    v.(error := Or(message, Str(fallback)))
  }

  /** A refused request always raises the alert: every page's fallback message is non-empty. */
  lemma {:induction false} FailureRaisesAlert(v: View, message: Value, fallback: string)
    requires fallback != ""
    ensures AlertShown(Failure(v, message, fallback).error)
    ensures Truthy(message) ==> Failure(v, message, fallback).error == message
  {
  }

  class Screen {
    const d: Descriptor
    var rows: Value
    var options: Value
    var loading: bool
    var error: Value
    var currentPage: int
    var totalPages: int
    var total: int
    var searchTerm: string
    var filter: string
    var showModal: bool
    var selected: Value
    var formData: Fields
    var lastQuery: Option<Query>
    ghost var log: seq<Request>

    ghost function State(): View
      reads this
    {
      View(rows, options, loading, error, currentPage, totalPages, total, searchTerm, filter,
           showModal, selected, formData, lastQuery, log)
    }

    /** The state of a freshly mounted page, before its effect has run. */
    constructor (d: Descriptor)
      ensures this.d == d && State() == InitialView(d)
    {
      this.d := d;
      rows, options, loading, error := Arr([]), Arr([]), true, Null;
      currentPage, totalPages, total := 1, 1, 0;
      searchTerm, filter := "", "";
      showModal, selected, formData := false, Null, InitialDraft(d.fields);
      lastQuery := None;
      log := [];
    }

    /** fetchX: one GET of the current page; success replaces the rows and counts, failure only sets the error. */
    method Fetch(o: Outcome)
      modifies this
      ensures State() == Fetched(d, old(State()), o)
    {
      var request := Request.Get(PageListUrl(d, currentPage, searchTerm, filter));
      match o {
        case Loaded(data, pages, n) =>
          log, rows, totalPages, total, loading := log + [request], data, pages, n, false;
        case Failed(m) =>
          log, error, loading := log + [request], Or(m, Str(d.messages.load)), false;
      }
    }

    /** fetchMembers / fetchVehicles of the pages with a drop-down. */
    method FetchOptions(o: Option<Value>)
      requires d.options.Some?
      modifies this
      ensures State() == OptionsFetched(d, old(State()), o)
    {
      log := log + [Request.Get(d.options.value.url)];
      if o.Some? {
        options := o.value;
      }
    }

    /**
     * The effect on `[currentPage, searchTerm, filter]`: it fetches (and loads
     * the drop-down's list) only when one of them differs from its last run.
     */
    method RunEffect(o: Outcome, opt: Option<Value>)
      modifies this
      ensures var q := Query(old(currentPage), old(searchTerm), old(filter));
              var v := old(State()).(lastQuery := Some(q));
              if old(lastQuery) == Some(q) then State() == old(State())
              else if d.options.Some? then State() == OptionsFetched(d, Fetched(d, v, o), opt)
              else State() == Fetched(d, v, o)
    {
      var q := Query(currentPage, searchTerm, filter);
      if lastQuery == Some(q) {
        return;
      }
      lastQuery := Some(q);
      Fetch(o);
      if d.options.Some? {
        FetchOptions(opt);
      }
    }

    method PageChange(n: int)
      modifies this
      ensures State() == old(State()).(currentPage := n)
    {
      currentPage := n;
    }

    /** handleSearch: the new term, and back to the first page. */
    method Search(value: string)
      modifies this
      ensures State() == old(State()).(searchTerm := value, currentPage := 1)
    {
      searchTerm := value;
      currentPage := 1;
    }

    /** The filter's change handler: the new value, and back to the first page. */
    method FilterChange(value: string)
      modifies this
      ensures State() == old(State()).(filter := value, currentPage := 1)
    {
      filter := value;
      currentPage := 1;
    }

    /** The alert's dismiss button. */
    method DismissError()
      modifies this
      ensures State() == old(State()).(error := Null)
    {
      error := Null;
    }

    /**
     * handleShowModal: a truthy record selects it and seeds the draft from it;
     * anything else clears the selection and seeds the create draft. When
     * seeding the edit draft throws, the selection has already happened and
     * nothing else does.
     */
    method ShowModal(record: Value, nowIso: string, year: int, toIso: Value -> Option<string>)
      modifies this
      ensures Truthy(record) && SeedEdit(d.fields, record, toIso).Some? ==>
                State() == old(State()).(selected := record, formData := SeedEdit(d.fields, record, toIso).value,
                                         showModal := true)
      ensures Truthy(record) && SeedEdit(d.fields, record, toIso).None? ==>
                State() == old(State()).(selected := record)
      ensures !Truthy(record) ==>
                State() == old(State()).(selected := Null, formData := CreateDraft(d.fields, nowIso, year),
                                         showModal := true)
    {
      if Truthy(record) {
        selected := record;
        var seeded := SeedEdit(d.fields, record, toIso);
        if seeded.None? {
          return;
        }
        formData := seeded.value;
      } else {
        selected := Null;
        formData := CreateDraft(d.fields, nowIso, year);
      }
      showModal := true;
    }

    method CloseModal()
      modifies this
      ensures State() == old(State()).(showModal := false)
    {
      showModal := false;
    }

    method InputChange(e: InputEvent)
      modifies this
      ensures State() == old(State()).(formData := ApplyInput(d.input, old(formData), e))
    {
      formData := ApplyInput(d.input, formData, e);
    }

    /**
     * handleSubmit: PUT or POST of the draft; on success the modal closes and
     * the list is fetched again, on failure only the error is set.
     */
    method Submit(ack: Ack, o: Outcome, opt: Option<Value>)
      modifies this
      ensures var v := old(State()).(log := old(log) + [SaveRequest(d, old(selected), old(formData))]);
              match ack
              case Done => State() == Refreshed(d, v.(showModal := false), o, opt)
              case Refused(m) => State() == Failure(v, m, d.messages.save)
    {
      log := log + [SaveRequest(d, selected, formData)];
      ghost var v := State();
      assert v == old(State()).(log := old(log) + [SaveRequest(d, old(selected), old(formData))]);
      match ack {
        case Done =>
          CloseModal();
          Refresh(o, opt);
        case Refused(m) =>
          error := Or(m, Str(d.messages.save));
      }
    }

    method Refresh(o: Outcome, opt: Option<Value>)
      modifies this
      ensures State() == Refreshed(d, old(State()), o, opt)
    {
      Fetch(o);
      if d.options.Some? && d.options.value.refreshAfterChange {
        FetchOptions(opt);
      }
    }

    /** The delete handler: nothing at all unless the user confirms. */
    method DeleteRecord(id: Value, confirmed: bool, ack: Ack, o: Outcome, opt: Option<Value>)
      modifies this
      ensures !confirmed ==> State() == old(State())
      ensures confirmed ==>
                var v := old(State()).(log := old(log) + [Request.Delete(RecordUrl(d, id))]);
                match ack
                case Done => State() == Refreshed(d, v, o, opt)
                case Refused(m) => State() == Failure(v, m, d.messages.remove)
    {
      if !confirmed {
        return;
      }
      log := log + [Request.Delete(RecordUrl(d, id))];
      ghost var v := State();
      assert v == old(State()).(log := old(log) + [Request.Delete(RecordUrl(d, id))]);
      match ack {
        case Done =>
          Refresh(o, opt);
        case Refused(m) =>
          error := Or(m, Str(d.messages.remove));
      }
    }

    /** handleApproveExpense: PUT `{}` to `…/approve`, then the list again. */
    method Approve(id: Value, ack: Ack, o: Outcome)
      requires d.transitions == ApproveReject
      modifies this
      ensures var v := old(State()).(log := old(log) + [Put(RecordUrl(d, id) + "/approve", Obj([]))]);
              match ack
              case Done => State() == Fetched(d, v, o)
              case Refused(m) => State() == Failure(v, m, d.messages.approve)
    {
      log := log + [Put(RecordUrl(d, id) + "/approve", Obj([]))];
      ghost var v := State();
      assert v == old(State()).(log := old(log) + [Put(RecordUrl(d, id) + "/approve", Obj([]))]);
      match ack {
        case Done =>
          Fetch(o);
        case Refused(m) =>
          error := Or(m, Str(d.messages.approve));
      }
    }

    /** handleRejectExpense: PUT `{}` to `…/reject`, then the list again. */
    method Reject(id: Value, ack: Ack, o: Outcome)
      requires d.transitions == ApproveReject
      modifies this
      ensures var v := old(State()).(log := old(log) + [Put(RecordUrl(d, id) + "/reject", Obj([]))]);
              match ack
              case Done => State() == Fetched(d, v, o)
              case Refused(m) => State() == Failure(v, m, d.messages.reject)
    {
      log := log + [Put(RecordUrl(d, id) + "/reject", Obj([]))];
      ghost var v := State();
      assert v == old(State()).(log := old(log) + [Put(RecordUrl(d, id) + "/reject", Obj([]))]);
      match ack {
        case Done =>
          Fetch(o);
        case Refused(m) =>
          error := Or(m, Str(d.messages.reject));
      }
    }

    /** handleUpdateStatus: PUT `{ status }` to `…/status`, then the list (and drop-down list) again. */
    method UpdateStatus(id: Value, status: string, ack: Ack, o: Outcome, opt: Option<Value>)
      requires d.transitions.Statuses?
      modifies this
      ensures var v := old(State()).(log := old(log) + [Put(RecordUrl(d, id) + "/status",
                                                            Obj([("status", Str(status))]))]);
              match ack
              case Done => State() == Refreshed(d, v, o, opt)
              case Refused(m) => State() == Failure(v, m, d.messages.status)
    {
      log := log + [Put(RecordUrl(d, id) + "/status", Obj([("status", Str(status))]))];
      ghost var v := State();
      assert v == old(State()).(log := old(log) + [Put(RecordUrl(d, id) + "/status", Obj([("status", Str(status))]))]);
      match ack {
        case Done =>
          Refresh(o, opt);
        case Refused(m) =>
          error := Or(m, Str(d.messages.status));
      }
    }
  }
}
