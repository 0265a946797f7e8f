/** The category set-up screen: the category list with add, delete and
    inline edit (applied at once and rolled back when the server refuses
    it), the cuisine picker that feeds the add form, and the resolver that
    finds a displayable timing among the keys different backends use.
    Categories are the raw JSON objects the backend returned; an entry's id
    is its numeric `id` property. */
module CategoriesSetup {
  import opened Text
  import opened Util
  import opened JsValue
  import opened ToastProvider

  /** The own properties `{ ...v }` copies: an object's fields, nothing for
      any other value. */
  function FieldsOf(v: Value): map<string, Value> {
    if v.Obj? then v.fields else map[]
  }

  /** Whether the entry's `id` is the number id (`c.id === id`). */
  predicate HasId(c: Value, id: int) {
    Get(c, "id") == Num(id)
  }

  // ---------------------------------------------------------------- timings

  /** The text one timing candidate contributes: a non-blank string as it
      is, or for an object its non-blank `text`, else its non-blank
      `value`. */
  function CandidateText(c: Value): (r: Option<string>)
    ensures r.Some? ==> !IsBlank(r.value)
  {
    if c.Str? && !IsBlank(c.s) then Some(c.s)
    else if c.Obj? || c.Arr? then
      if Get(c, "text").Str? && !IsBlank(Get(c, "text").s) then Some(Get(c, "text").s)
      else if Get(c, "value").Str? && !IsBlank(Get(c, "value").s) then Some(Get(c, "value").s)
      else None
    else None
  }

  /** The loop of `resolveTimings`: the first candidate that contributes a
      text, or "-". */
  function FirstTiming(cands: seq<Value>): string {
    if cands == [] then "-"
    else
      var t := CandidateText(cands[0]);
      if t.Some? then t.value else FirstTiming(cands[1..])
  }

  /** The candidates in the order `resolveTimings` tries them. */
  function TimingCandidates(cat: Value): seq<Value> {
    [Get(cat, "timings"), Get(cat, "time"), Get(cat, "schedule"), Get(cat, "menuType"),
     Get(cat, "opening_hours"), Get(cat, "hours"), Get(cat, "timing")]
  }

  /** `resolveTimings(cat)` */
  function ResolveTimings(cat: Value): string {
    if !Truthy(cat) then "-" else FirstTiming(TimingCandidates(cat))
  }

  /** The loop returns the text of the first candidate that has one, and
      "-" exactly when none has. */
  lemma {:induction false} FirstTimingMeaning(cands: seq<Value>)
    ensures (forall i :: 0 <= i < |cands| ==> CandidateText(cands[i]).None?) ==> FirstTiming(cands) == "-"
    ensures forall i :: 0 <= i < |cands| && CandidateText(cands[i]).Some?
                        && (forall j :: 0 <= j < i ==> CandidateText(cands[j]).None?)
                        ==> FirstTiming(cands) == CandidateText(cands[i]).value
  {
    if cands != [] {
      FirstTimingMeaning(cands[1..]);
      forall i | 0 <= i < |cands| && CandidateText(cands[i]).Some?
                 && (forall j :: 0 <= j < i ==> CandidateText(cands[j]).None?)
        ensures FirstTiming(cands) == CandidateText(cands[i]).value
      {
        if i > 0 {
          assert cands[1..][i - 1] == cands[i];
          assert forall j :: 0 <= j < i - 1 ==> cands[1..][j] == cands[j + 1];
        }
      }
      if forall i :: 0 <= i < |cands| ==> CandidateText(cands[i]).None? {
        assert forall i :: 0 <= i < |cands| - 1 ==> cands[1..][i] == cands[i + 1];
      }
    }
  }

  /** What the timings column shows is never blank. */
  lemma {:induction false} FirstTimingNeverBlank(cands: seq<Value>)
    ensures !IsBlank(FirstTiming(cands))
  {
    if cands == [] || CandidateText(cands[0]).None? {
      if cands != [] {
        FirstTimingNeverBlank(cands[1..]);
      } else {
        TrimNoSpace("-");
      }
    }
  }

  lemma ResolveTimingsNeverBlank(cat: Value)
    ensures !IsBlank(ResolveTimings(cat))
  {
    FirstTimingNeverBlank(TimingCandidates(cat));
    TrimNoSpace("-");
  }

  // --------------------------------------------------------------- cuisines

  /** A cuisine of the picker; both fields are what the backend sent. */
  datatype CuisineOption = CuisineOption(id: Value, name: Value)

  /** `{ id: c.id ?? c.pk ?? c.value ?? 0, name: c.name ?? c.title ?? c.label ?? String(c) }` */
  function CuisineOptionOf(c: Value): CuisineOption {
    CuisineOption(Coalesce(Coalesce(Coalesce(Get(c, "id"), Get(c, "pk")), Get(c, "value")), Num(0)),
                  Coalesce(Coalesce(Coalesce(Get(c, "name"), Get(c, "title")), Get(c, "label")),
                           Str(ToStr(c))))
  }

  predicate HasTruthyId(o: CuisineOption) { Truthy(o.id) }

  /** The picker's cuisines for a response: `[]` for a non-array, `None`
      when reading a `null` or `undefined` element throws, else the
      normalised entries whose id is truthy. */
  function CuisineOptions(data: Value): (r: Option<seq<CuisineOption>>)
    ensures !data.Arr? ==> r == Some([])
    ensures data.Arr? ==> (r.None? <==> exists i :: 0 <= i < |data.elems| && IsNullish(data.elems[i]))
  {
    if !data.Arr? then Some([])
    else if exists i :: 0 <= i < |data.elems| && IsNullish(data.elems[i]) then None
    else Some(Filter(Map(data.elems, CuisineOptionOf), HasTruthyId))
  }

  /** A response that is not an array offers no cuisine, a `null` or
      `undefined` element makes the load fail, and otherwise only
      cuisines with a truthy id are offered, and every such cuisine of the
      response is. */
  lemma CuisineOptionsMeaning(data: Value, o: CuisineOption)
    ensures !data.Arr? ==> CuisineOptions(data) == Some([])
    ensures CuisineOptions(data).None? ==> exists i :: 0 <= i < |data.elems| && IsNullish(data.elems[i])
    ensures CuisineOptions(data).Some? && data.Arr? ==>
              (o in CuisineOptions(data).value <==>
                 Truthy(o.id) && exists i :: 0 <= i < |data.elems| && CuisineOptionOf(data.elems[i]) == o)
  {
    if !data.Arr? || CuisineOptions(data).None? {
      return;
    }
    var all := Map(data.elems, CuisineOptionOf);
    FilterMembership(all, HasTruthyId, o);
    if o in all {
      var i :| 0 <= i < |all| && all[i] == o;
      assert CuisineOptionOf(data.elems[i]) == o;
    }
    if exists i :: 0 <= i < |data.elems| && CuisineOptionOf(data.elems[i]) == o {
      var i :| 0 <= i < |data.elems| && CuisineOptionOf(data.elems[i]) == o;
      assert all[i] == o;
    }
  }

  /** The outcome of looking a cuisine up by name. */
  datatype Lookup = Found(id: Value) | NotFound | Throws

  /** `cuisines.find(c => c.name.toLowerCase() === name.trim().toLowerCase())`:
      the first cuisine whose lower-cased name equals the lower-cased
      trimmed name; calling `toLowerCase` on a name that is not a string
      throws. */
  function FindCuisine(cs: seq<CuisineOption>, name: string): (r: Lookup)
    ensures r.Found? ==> exists i :: 0 <= i < |cs| && cs[i].id == r.id
  {
    if cs == [] then NotFound
    else if !cs[0].name.Str? then Throws
    else if Lower(cs[0].name.s) == Lower(Trim(name)) then Found(cs[0].id)
    else
      var r := FindCuisine(cs[1..], name);
      if r.Found? then
        var i :| 0 <= i < |cs[1..]| && cs[1..][i].id == r.id;
        assert cs[i + 1].id == r.id;
        r
      else r
  }

  /** The cuisine's name is a string that differs from the looked-up name
      after trimming and lower-casing. */
  predicate Misses(o: CuisineOption, name: string) {
    o.name.Str? && Lower(o.name.s) != Lower(Trim(name))
  }

  /** The three outcomes of the lookup: not found exactly when every name
      is a string that differs; a throw exactly when a name that is not a
      string comes before any match; a found id is the first matching
      cuisine's. */
  lemma {:induction false} FindCuisineMeaning(cs: seq<CuisineOption>, name: string)
    ensures FindCuisine(cs, name) == NotFound <==> forall i :: 0 <= i < |cs| ==> Misses(cs[i], name)
    ensures FindCuisine(cs, name) == Throws <==>
              exists k :: 0 <= k < |cs| && !cs[k].name.Str? && forall j :: 0 <= j < k ==> Misses(cs[j], name)
    ensures FindCuisine(cs, name).Found? ==>
              exists k :: 0 <= k < |cs| && cs[k].id == FindCuisine(cs, name).id
                          && cs[k].name.Str? && Lower(cs[k].name.s) == Lower(Trim(name))
                          && forall j :: 0 <= j < k ==> Misses(cs[j], name)
  {
    if cs == [] {
      return;
    }
    var rest := cs[1..];
    if !cs[0].name.Str? {
      assert !Misses(cs[0], name);
      return;
    }
    if Lower(cs[0].name.s) == Lower(Trim(name)) {
      assert !Misses(cs[0], name);
      return;
    }
    assert Misses(cs[0], name);
    FindCuisineMeaning(rest, name);
    assert forall i :: 0 <= i < |rest| ==> rest[i] == cs[i + 1];
    if forall i :: 0 <= i < |rest| ==> Misses(rest[i], name) {
      assert forall i :: 0 <= i < |cs| ==> Misses(cs[i], name) by {
        forall i | 0 <= i < |cs| ensures Misses(cs[i], name) {
          if i > 0 {
            assert cs[i] == rest[i - 1];
          }
        }
      }
    }
    if exists k :: 0 <= k < |rest| && !rest[k].name.Str? && forall j :: 0 <= j < k ==> Misses(rest[j], name) {
      var k :| 0 <= k < |rest| && !rest[k].name.Str? && forall j :: 0 <= j < k ==> Misses(rest[j], name);
      assert forall j :: 0 <= j < k + 1 ==> Misses(cs[j], name) by {
        forall j | 0 <= j < k + 1 ensures Misses(cs[j], name) {
          if j > 0 {
            assert cs[j] == rest[j - 1];
          }
        }
      }
      assert !cs[k + 1].name.Str?;
    }
    if exists k :: 0 <= k < |cs| && !cs[k].name.Str? && forall j :: 0 <= j < k ==> Misses(cs[j], name) {
      var k :| 0 <= k < |cs| && !cs[k].name.Str? && forall j :: 0 <= j < k ==> Misses(cs[j], name);
      assert k > 0;
      assert !rest[k - 1].name.Str?;
      assert forall j :: 0 <= j < k - 1 ==> Misses(rest[j], name) by {
        forall j | 0 <= j < k - 1 ensures Misses(rest[j], name) {
          assert rest[j] == cs[j + 1];
        }
      }
    }
    if FindCuisine(rest, name).Found? {
      var k :| 0 <= k < |rest| && rest[k].id == FindCuisine(rest, name).id
               && rest[k].name.Str? && Lower(rest[k].name.s) == Lower(Trim(name))
               && forall j :: 0 <= j < k ==> Misses(rest[j], name);
      assert cs[k + 1] == rest[k];
      assert forall j :: 0 <= j < k + 1 ==> Misses(cs[j], name) by {
        forall j | 0 <= j < k + 1 ensures Misses(cs[j], name) {
          if j > 0 {
            assert cs[j] == rest[j - 1];
          }
        }
      }
    }
  }

  /** The add form. */
  datatype Form = Form(categoryName: string, timings: string, cuisineId: string, cuisineName: string)

  const EmptyForm: Form := Form("", "", "", "")

  /** `cuisineIdResolved` for the form: `Number(cuisineId)` when an id is
      stored, else the id of the cuisine named, else `undefined`. `None`
      when the name lookup throws. */
  function ResolveCuisine(form: Form, cs: seq<CuisineOption>): (r: Option<Value>)
    ensures form.cuisineId != [] ==> r == Some(ToNumber(Str(form.cuisineId)))
    ensures form.cuisineId == [] && form.cuisineName == [] ==> r == Some(Undefined)
  {
    if form.cuisineId != [] then Some(ToNumber(Str(form.cuisineId)))
    else if form.cuisineName != [] then
      match FindCuisine(cs, form.cuisineName)
      case Found(id) => Some(id)
      case NotFound => Some(Undefined)
      case Throws => None
    else Some(Undefined)
  }

  /** A stored id decides alone, as the number its digits spell, whatever
      name is typed; a typed name that matches no cuisine leaves the
      cuisine out, and a name that cannot be compared makes the lookup
      throw. */
  lemma ResolveCuisineMeaning(form: Form, cs: seq<CuisineOption>, otherName: string)
    ensures form.cuisineId != [] ==>
              ResolveCuisine(form, cs) == ResolveCuisine(form.(cuisineName := otherName), cs)
    ensures form.cuisineId != [] && AllDigits(Trim(form.cuisineId)) && !IsBlank(form.cuisineId) ==>
              ResolveCuisine(form, cs) == Some(Num(DigitsValue(Trim(form.cuisineId))))
    ensures form.cuisineId == [] && (forall i :: 0 <= i < |cs| ==> Misses(cs[i], form.cuisineName)) ==>
              ResolveCuisine(form, cs) == Some(Undefined)
    ensures form.cuisineId == [] && form.cuisineName != [] && ResolveCuisine(form, cs).None? ==>
              exists k :: 0 <= k < |cs| && !cs[k].name.Str?
  {
    FindCuisineMeaning(cs, form.cuisineName);
  }

  /** The keys under which the add payload repeats the timings. */
  const TimingPayloadKeys: set<string> := {"timing", "timings", "time", "opening_hours", "schedule"}

  /** The body `handleAdd` posts for the form and the resolved cuisine. */
  function AddPayload(form: Form, cuisine: Value): map<string, Value> {
    var t := Trim(form.timings);
    var base := map["name" := Str(Trim(form.categoryName))];
    var timed := if t != [] then
                   base["timing" := Str(t)]["timings" := Str(t)]["time" := Str(t)]
                       ["opening_hours" := Str(t)]["schedule" := Str(t)]
                 else base;
    if Truthy(cuisine) then timed["cuisines" := Arr([cuisine])]["cuisine" := cuisine]["cuisine_id" := cuisine]
    else timed
  }

  /** The payload carries the trimmed name; the trimmed timings under all
      five timing keys when they are not blank and under none otherwise;
      and a truthy cuisine id as a one-element list and twice singly. */
  lemma AddPayloadMeaning(form: Form, cuisine: Value)
    ensures var p := AddPayload(form, cuisine);
            && p["name"] == Str(Trim(form.categoryName))
            && (!IsBlank(form.timings) ==>
                  forall k :: k in TimingPayloadKeys ==> k in p && p[k] == Str(Trim(form.timings)))
            && (IsBlank(form.timings) ==> forall k :: k in TimingPayloadKeys ==> k !in p)
            && (Truthy(cuisine) ==>
                  p["cuisines"] == Arr([cuisine]) && p["cuisine"] == cuisine && p["cuisine_id"] == cuisine)
            && (!Truthy(cuisine) ==> "cuisines" !in p && "cuisine" !in p && "cuisine_id" !in p)
  {
  }

  /** A stored cuisine id wins over the name; without one, the first
      cuisine whose name matches case-insensitively is used. */
  lemma ResolveCuisinePrecedence(form: Form, cs: seq<CuisineOption>, k: nat)
    requires form.cuisineId == [] && form.cuisineName != [] && k < |cs|
    requires forall j :: 0 <= j <= k ==> cs[j].name.Str?
    requires Lower(cs[k].name.s) == Lower(Trim(form.cuisineName))
    requires forall j :: 0 <= j < k ==> Lower(cs[j].name.s) != Lower(Trim(form.cuisineName))
    ensures ResolveCuisine(form, cs) == Some(cs[k].id)
  {
    FindFirstMatch(cs, form.cuisineName, k);
  }

  lemma {:induction false} FindFirstMatch(cs: seq<CuisineOption>, name: string, k: nat)
    requires k < |cs| && forall j :: 0 <= j <= k ==> cs[j].name.Str?
    requires Lower(cs[k].name.s) == Lower(Trim(name))
    requires forall j :: 0 <= j < k ==> Lower(cs[j].name.s) != Lower(Trim(name))
    ensures FindCuisine(cs, name) == Found(cs[k].id)
  {
    if k > 0 {
      assert Lower(cs[0].name.s) != Lower(Trim(name));
      var rest := cs[1..];
      assert forall j :: 0 <= j < k - 1 ==> rest[j] == cs[j + 1];
      FindFirstMatch(rest, name, k - 1);
    }
  }

  /** The selection after ticking the checkbox of cuisine id: removed when
      present, appended otherwise. */
  function Toggled(selected: seq<Value>, id: Value): seq<Value> {
    if id in selected then Filter(selected, (x: Value) => x != id) else selected + [id]
  }

  /** Ticking flips the membership of that cuisine only, and ticking an
      unselected cuisine twice restores the selection. */
  lemma ToggledMeaning(selected: seq<Value>, id: Value, x: Value)
    ensures id in Toggled(selected, id) <==> id !in selected
    ensures x != id ==> (x in Toggled(selected, id) <==> x in selected)
    ensures id !in selected ==> Toggled(Toggled(selected, id), id) == selected
  {
    var p := (v: Value) => v != id;
    FilterMembership(selected, p, x);
    FilterMembership(selected, p, id);
    if id !in selected {
      FilterConcat(selected, [id], p);
      FilterAll(selected, p);
      assert Filter([id], p) == [];
    }
  }

  predicate IsSelected(o: CuisineOption, selected: seq<Value>) {
    o.id in selected
  }

  /** The cuisines ticked, in the order the picker lists them. */
  function SelectedCuisines(cs: seq<CuisineOption>, selected: seq<Value>): seq<CuisineOption> {
    Filter(cs, (o: CuisineOption) => IsSelected(o, selected))
  }

  /** The form after Done: the first ticked id (or "") and the names of the
      ticked cuisines, in picker order, joined by ", ". */
  function AfterDone(form: Form, cs: seq<CuisineOption>, selected: seq<Value>): Form {
    var first := if |selected| > 0 && Truthy(selected[0]) then ToStr(selected[0]) else "";
    form.(cuisineId := first,
          cuisineName := JoinValues(Map(SelectedCuisines(cs, selected), (o: CuisineOption) => o.name), ", "))
  }

  /** Done names exactly the ticked cuisines, keeps the text and timings
      fields, and stores "" as the id when nothing is ticked. */
  lemma AfterDoneMeaning(form: Form, cs: seq<CuisineOption>, selected: seq<Value>, o: CuisineOption)
    ensures o in SelectedCuisines(cs, selected) <==> o in cs && o.id in selected
    ensures AfterDone(form, cs, selected).categoryName == form.categoryName
    ensures AfterDone(form, cs, selected).timings == form.timings
    ensures selected == [] ==> AfterDone(form, cs, selected).cuisineId == ""
    ensures |selected| > 0 && Truthy(selected[0]) ==>
              AfterDone(form, cs, selected).cuisineId == ToStr(selected[0])
  {
    FilterMembership(cs, (c: CuisineOption) => IsSelected(c, selected), o);
  }

  // ---------------------------------------------------------- delete, edit

  /** The list after a successful delete of id. */
  function WithoutCategory(cats: seq<Value>, id: int): seq<Value> {
    Filter(cats, (c: Value) => !HasId(c, id))
  }

  /** A delete removes exactly the entries with that id. */
  lemma WithoutCategoryMeaning(cats: seq<Value>, id: int, x: Value)
    ensures x in WithoutCategory(cats, id) <==> x in cats && !HasId(x, id)
  {
    FilterMembership(cats, (c: Value) => !HasId(c, id), x);
  }

  /** Whether the edit name passes the guard of `saveEdit`. */
  predicate NameAccepted(name: Value) {
    name.Str? && !IsBlank(name.s)
  }

  /** The body `saveEdit` sends: the trimmed name and, when truthy, the
      timings. */
  function EditPayload(name: string, timings: Value): (p: map<string, Value>)
    ensures "name" in p && p["name"] == Str(Trim(name))
    ensures "timings" in p <==> Truthy(timings)
    ensures "timings" in p ==> p["timings"] == timings
  {
    var base := map["name" := Str(Trim(name))];
    if Truthy(timings) then base["timings" := timings] else base
  }

  /** Surrounding white space in the name changes nothing that is sent,
      an accepted name is sent non-blank, and empty or absent timings are
      not sent at all. */
  lemma EditPayloadMeaning(name: string, timings: Value)
    ensures EditPayload(Trim(name), timings) == EditPayload(name, timings)
    ensures NameAccepted(Str(name)) ==> !IsBlank(EditPayload(name, timings)["name"].s)
    ensures "timings" !in EditPayload(name, Str("")) && "timings" !in EditPayload(name, Null)
    ensures EditPayload(name, timings).Keys <= {"name", "timings"}
  {
    TrimIdempotent(name);
  }

  /** `{ ...c, name, timings, time, timing, opening_hours, schedule }` with
      the payload's values; the last four are never in the payload, so
      they are set to `undefined`. */
  function EditedEntry(c: Value, p: map<string, Value>): Value
    requires "name" in p
  {
    var timings := if "timings" in p then p["timings"] else Undefined;
    Obj(FieldsOf(c)["name" := p["name"]]["timings" := timings]["time" := Undefined]
                   ["timing" := Undefined]["opening_hours" := Undefined]["schedule" := Undefined])
  }

  /** The list after the optimistic update of entry id. */
  function WithEntryEdited(cats: seq<Value>, id: int, p: map<string, Value>): seq<Value>
    requires "name" in p
  {
    Map(cats, (c: Value) => if HasId(c, id) then EditedEntry(c, p) else c)
  }

  /** `{ ...c, ...res }` for the entries with that id. */
  function WithResponseMerged(cats: seq<Value>, id: int, res: Value): seq<Value> {
    Map(cats, (c: Value) => if HasId(c, id) then Obj(FieldsOf(c) + FieldsOf(res)) else c)
  }

  /** The optimistic update changes only the entries with that id: they get
      the new name and keep their id, and a non-blank timings string is
      what their timings column then shows. */
  lemma WithEntryEditedMeaning(cats: seq<Value>, id: int, name: string, timings: Value)
    ensures var p := EditPayload(name, timings);
            var r := WithEntryEdited(cats, id, p);
            && |r| == |cats|
            && (forall i :: 0 <= i < |cats| && !HasId(cats[i], id) ==> r[i] == cats[i])
            && (forall i :: 0 <= i < |cats| && HasId(cats[i], id) ==>
                  HasId(r[i], id) && Get(r[i], "name") == Str(Trim(name)))
            && (forall i :: 0 <= i < |cats| && HasId(cats[i], id) && timings.Str? && !IsBlank(timings.s) ==>
                  ResolveTimings(r[i]) == timings.s)
  {
    var p := EditPayload(name, timings);
    var r := WithEntryEdited(cats, id, p);
    forall i | 0 <= i < |cats| && HasId(cats[i], id) && timings.Str? && !IsBlank(timings.s)
      ensures ResolveTimings(r[i]) == timings.s
    {
      assert Get(r[i], "timings") == timings;
      assert CandidateText(timings) == Some(timings.s);
    }
  }

  class CategoriesScreen {
    var categories: seq<Value>
    var loading: bool
    var form: Form
    var cuisines: seq<CuisineOption>
    var deletingIds: set<int>
    var showCuisineDropdown: bool
    var selectedCuisineIds: seq<Value>
    var editingId: Option<Value>
    var editName: Value
    var editTimings: Value
    /** The messages shown through the toast helpers, oldest first. */
    var notices: seq<Notice>

    constructor ()
      ensures categories == [] && !loading && form == EmptyForm && cuisines == []
      ensures deletingIds == {} && !showCuisineDropdown && selectedCuisineIds == []
      ensures editingId == None && editName == Undefined && editTimings == Undefined && notices == []
    {
      categories := [];
      loading := false;
      form := EmptyForm;
      cuisines := [];
      deletingIds := {};
      showCuisineDropdown := false;
      selectedCuisineIds := [];
      editingId := None;
      editName := Undefined;
      editTimings := Undefined;
      notices := [];
    }

    /** `loadCategories()`: an array response becomes the list, anything
        else the empty list; a failure empties the list and says so. */
    method LoadCategories(response: Outcome)
      modifies this`categories, this`loading, this`notices
      ensures !loading
      ensures response.Resolved? ==>
                categories == (if response.data.Arr? then response.data.elems else [])
                && notices == old(notices)
      ensures response.Rejected? ==>
                categories == [] && notices == old(notices) + [Notice(Error, "Failed to load categories")]
    {
      loading := true;
      match response {
        case Resolved(data) =>
          categories := if data.Arr? then data.elems else [];
        case Rejected(_) =>
          notices := notices + [Notice(Error, "Failed to load categories")];
          categories := [];
      }
      loading := false;
    }

    /** `loadCuisines()` once its request settled; any failure leaves the
        picker empty. */
    method LoadCuisines(response: Outcome)
      modifies this`cuisines
      ensures response.Resolved? && CuisineOptions(response.data).Some? ==>
                cuisines == CuisineOptions(response.data).value
      ensures response.Rejected? || CuisineOptions(response.data).None? ==> cuisines == []
    {
      if response.Resolved? && CuisineOptions(response.data).Some? {
        cuisines := CuisineOptions(response.data).value;
      } else {
        cuisines := [];
      }
    }

    /** `handleAdd()` once the create call settled. Returns the payload
        posted, `None` when no call was made. A blank name only warns; a
        failed create or a throwing cuisine lookup reports an error and
        changes nothing else; a created category is appended and the form
        reset. */
    method HandleAdd(response: Outcome) returns (payload: Option<map<string, Value>>)
      modifies this`categories, this`form, this`notices
      ensures IsBlank(old(form.categoryName)) ==>
                payload.None? && categories == old(categories) && form == old(form)
                && notices == old(notices) + [Notice(Warning, "Please enter a category name")]
      ensures !IsBlank(old(form.categoryName)) && ResolveCuisine(old(form), cuisines).None? ==>
                payload.None? && categories == old(categories) && form == old(form)
                && notices == old(notices) + [Notice(Error, "Failed to add category")]
      ensures !IsBlank(old(form.categoryName)) && ResolveCuisine(old(form), cuisines).Some? ==>
                payload == Some(AddPayload(old(form), ResolveCuisine(old(form), cuisines).value))
      ensures payload.Some? && response.Resolved? ==>
                categories == old(categories) + [response.data] && form == EmptyForm
                && notices == old(notices) + [Notice(Success, "Category added successfully")]
      ensures payload.Some? && response.Rejected? ==>
                categories == old(categories) && form == old(form)
                && notices == old(notices) + [Notice(Error, "Failed to add category")]
    {
      if IsBlank(form.categoryName) {
        notices := notices + [Notice(Warning, "Please enter a category name")];
        return None;
      }
      var cuisine := ResolveCuisine(form, cuisines);
      if cuisine.None? {
        notices := notices + [Notice(Error, "Failed to add category")];
        return None;
      }
      payload := Some(AddPayload(form, cuisine.value));
      match response {
        case Resolved(created) =>
          categories := categories + [created];
          form := EmptyForm;
          notices := notices + [Notice(Success, "Category added successfully")];
        case Rejected(_) =>
          notices := notices + [Notice(Error, "Failed to add category")];
      }
    }

    /** The checkbox of cuisine id. */
    method ToggleCuisine(id: Value)
      modifies this`selectedCuisineIds
      ensures selectedCuisineIds == Toggled(old(selectedCuisineIds), id)
    {
      selectedCuisineIds := Toggled(selectedCuisineIds, id);
    }

    /** The Done button of the picker. */
    method CuisineDone()
      modifies this`form, this`showCuisineDropdown
      ensures form == AfterDone(old(form), cuisines, selectedCuisineIds)
      ensures !showCuisineDropdown
    {
      form := AfterDone(form, cuisines, selectedCuisineIds);
      showCuisineDropdown := false;
    }

    /** The confirmed delete of id, up to the request: the id is marked as
        being deleted. */
    method BeginDelete(id: int)
      modifies this`deletingIds
      ensures deletingIds == old(deletingIds) + {id}
    {
      deletingIds := deletingIds + {id};
    }

    /** The confirmed delete once the request settled: on success the
        entries with that id are gone; either way the id is no longer
        marked. */
    method FinishDelete(id: int, response: Outcome)
      modifies this`categories, this`deletingIds, this`notices
      ensures deletingIds == old(deletingIds) - {id}
      ensures response.Resolved? ==>
                categories == WithoutCategory(old(categories), id)
                && notices == old(notices) + [Notice(Success, "Category deleted successfully")]
      ensures response.Rejected? ==>
                categories == old(categories)
                && notices == old(notices) + [Notice(Error, "Failed to delete category")]
    {
      match response {
        case Resolved(_) =>
          categories := WithoutCategory(categories, id);
          notices := notices + [Notice(Success, "Category deleted successfully")];
        case Rejected(_) =>
          notices := notices + [Notice(Error, "Failed to delete category")];
      }
      deletingIds := deletingIds - {id};
    }

    /** `startEdit(category)`: the edit fields start from the entry's name
        and the first present of its timing keys. */
    method StartEdit(category: Value)
      modifies this`editingId, this`editName, this`editTimings
      ensures editingId == Some(Get(category, "id")) && editName == Get(category, "name")
      ensures editTimings ==
        Coalesce(Get(category, "timings"), Coalesce(Get(category, "time"),
        Coalesce(Get(category, "schedule"), Coalesce(Get(category, "opening_hours"),
        Coalesce(Get(category, "timing"), Coalesce(Get(category, "hours"),
        Coalesce(Get(category, "created_at"), Str(""))))))))
    {
      editingId := Some(Get(category, "id"));
      editName := Get(category, "name");
      editTimings :=
        Coalesce(Get(category, "timings"), Coalesce(Get(category, "time"),
        Coalesce(Get(category, "schedule"), Coalesce(Get(category, "opening_hours"),
        Coalesce(Get(category, "timing"), Coalesce(Get(category, "hours"),
        Coalesce(Get(category, "created_at"), Str(""))))))));
    }

    /** `cancelEdit()` */
    method CancelEdit()
      modifies this`editingId, this`editName, this`editTimings
      ensures editingId == None && editName == Undefined && editTimings == Undefined
    {
      editingId := None;
      editName := Undefined;
      editTimings := Undefined;
    }

    /** `saveEdit(id)` once the update call settled. A blank name only
        warns, and a name that is not a string stops before anything
        changes. Otherwise the entry is updated at once; a failed call
        restores the list as it was before, a successful one merges the
        server's answer and ends the edit. */
    method SaveEdit(id: int, response: Outcome) returns (payload: Option<map<string, Value>>)
      modifies this`categories, this`editingId, this`editName, this`editTimings, this`notices
      ensures !NameAccepted(old(editName)) ==>
                payload.None? && categories == old(categories) && editingId == old(editingId)
                && editName == old(editName) && editTimings == old(editTimings)
      ensures !Truthy(old(editName)) || (old(editName).Str? && IsBlank(old(editName).s)) ==>
                notices == old(notices) + [Notice(Warning, "Category name cannot be empty")]
      ensures Truthy(old(editName)) && !old(editName).Str? ==> notices == old(notices)
      ensures NameAccepted(old(editName)) ==>
                payload == Some(EditPayload(old(editName).s, old(editTimings)))
      ensures NameAccepted(old(editName)) && response.Rejected? ==>
                categories == old(categories) && editingId == old(editingId)
                && editName == old(editName) && editTimings == old(editTimings)
                && notices == old(notices) + [Notice(Error, "Failed to update category")]
      ensures NameAccepted(old(editName)) && response.Resolved? ==>
                var edited := WithEntryEdited(old(categories), id, payload.value);
                && categories == (if Truthy(response.data) then WithResponseMerged(edited, id, response.data)
                                  else edited)
                && editingId == None && editName == Undefined && editTimings == Undefined
                && notices == old(notices) + [Notice(Success, "Category updated")]
    {
      if !Truthy(editName) || (editName.Str? && IsBlank(editName.s)) {
        notices := notices + [Notice(Warning, "Category name cannot be empty")];
        return None;
      }
      if !editName.Str? {
        return None;
      }
      var p := EditPayload(editName.s, editTimings);
      payload := Some(p);
      var snapshot := categories;
      categories := WithEntryEdited(categories, id, p);
      match response {
        case Resolved(res) =>
          if Truthy(res) {
            categories := WithResponseMerged(categories, id, res);
          }
          editingId := None;
          editName := Undefined;
          editTimings := Undefined;
          notices := notices + [Notice(Success, "Category updated")];
        case Rejected(_) =>
          categories := snapshot;
          notices := notices + [Notice(Error, "Failed to update category")];
      }
    }
  }
}
