/** The cuisine navigation bar of the point-of-sale screen: it loads the
    cuisine list once, normalises each raw record to an id and a name,
    makes the first cuisine active and reports every selection to the
    screen that hosts it. */
module PosSubcategory {
  import opened Text
  import opened Util
  import opened JsValue

  datatype Cuisine = Cuisine(id: int, name: string)

  /** The keys whose first string value names a cuisine. */
  const NameKeys: seq<string> := ["name", "cuisine_name", "master_cuisine_name", "master_cuisine"]

  /** The record built for the raw cuisine c at position idx. */
  function CuisineOf(c: Value, idx: nat): Cuisine {
    var name := FirstString(c, NameKeys);
    Cuisine(PositionalId(Get(c, "id"), idx),
            if name.Some? then name.value else "Cuisine " + NatToString(idx + 1))
  }

  /** A cuisine keeps a non-zero numeric id and otherwise gets its 1-based
      position; it keeps the first string name among the four keys and
      otherwise is called "Cuisine " followed by that position. */
  lemma CuisineOfMeaning(c: Value, idx: nat)
    ensures var r := CuisineOf(c, idx);
            var n := ToNumber(Get(c, "id"));
            && r.id != 0
            && (n.Num? && n.n != 0 ==> r.id == n.n)
            && (!(n.Num? && n.n != 0) ==> r.id == idx + 1)
            && (forall i :: 0 <= i < |NameKeys| && Get(c, NameKeys[i]).Str?
                  && (forall j :: 0 <= j < i ==> !Get(c, NameKeys[j]).Str?)
                  ==> r.name == Get(c, NameKeys[i]).s)
            && ((forall i :: 0 <= i < |NameKeys| ==> !Get(c, NameKeys[i]).Str?)
                  ==> StartsWith(r.name, "Cuisine ")
                      && AllDigits(r.name[8..]) && DigitsValue(r.name[8..]) == idx + 1)
  {
    var r := CuisineOf(c, idx);
    var name := FirstString(c, NameKeys);
    forall i | 0 <= i < |NameKeys| && Get(c, NameKeys[i]).Str?
                 && (forall j :: 0 <= j < i ==> !Get(c, NameKeys[j]).Str?)
      ensures r.name == Get(c, NameKeys[i]).s
    {
      var k :| 0 <= k < |NameKeys| && Get(c, NameKeys[k]) == Str(name.value)
               && forall j :: 0 <= j < k ==> !Get(c, NameKeys[j]).Str?;
    }
    if name.None? {
      assert r.name[8..] == NatToString(idx + 1);
      NatToStringRoundTrip(idx + 1);
    }
  }

  /** `list.map(CuisineOf)`, or `None` when reading a property of a `null`
      or `undefined` element throws. */
  function NormaliseCuisines(list: seq<Value>): (r: Option<seq<Cuisine>>)
    ensures r.None? <==> exists i :: 0 <= i < |list| && IsNullish(list[i])
    ensures r.Some? ==> |r.value| == |list|
                        && forall i :: 0 <= i < |list| ==> r.value[i] == CuisineOf(list[i], i)
  {
    if exists i :: 0 <= i < |list| && IsNullish(list[i]) then None
    else Some(seq(|list|, i requires 0 <= i < |list| => CuisineOf(list[i], i)))
  }

  /** The navigation bar's state. `selections` records, in order, every
      cuisine passed to the host's `onCuisineSelect` callback. */
  class CuisineNav {
    var cuisines: seq<Cuisine>
    var active: Option<int>
    var loading: bool
    var error: Option<string>
    const hasCallback: bool
    var selections: seq<Cuisine>

    constructor (hasCallback: bool)
      ensures cuisines == [] && active == None && !loading && error == None
      ensures this.hasCallback == hasCallback && selections == []
    {
      cuisines := [];
      active := None;
      loading := false;
      error := None;
      this.hasCallback := hasCallback;
      selections := [];
    }

    /** Loading on mount. A non-empty list makes its first cuisine active
        and reports it once; an empty list leaves the active id alone; a
        failure stores the error message and keeps the previous list. */
    method Load(response: Outcome)
      modifies this
      ensures !loading
      ensures response.Resolved? && NormaliseCuisines(ArrayOrResults(response.data)).Some? ==>
        var cs := NormaliseCuisines(ArrayOrResults(response.data)).value;
        && cuisines == cs && error == None
        && (cs != [] ==>
              active == Some(cs[0].id)
              && selections == old(selections) + (if hasCallback then [cs[0]] else []))
        && (cs == [] ==> active == old(active) && selections == old(selections))
      ensures response.Resolved? && NormaliseCuisines(ArrayOrResults(response.data)).None? ==>
        cuisines == old(cuisines) && active == old(active) && selections == old(selections)
        && var bad := FirstNullish(ArrayOrResults(response.data));
           bad.Some? && error == Some(ReadPropertyError(bad.value, "id"))
      ensures response.Rejected? ==>
        cuisines == old(cuisines) && active == old(active) && selections == old(selections)
        && error == Some(MessageOr(response.error, "Failed to load cuisines"))
    {
      loading := true;
      error := None;
      match response {
        case Resolved(data) =>
          var normalised := NormaliseCuisines(ArrayOrResults(data));
          if normalised.Some? {
            var cs := normalised.value;
            cuisines := cs;
            if |cs| > 0 {
              active := Some(cs[0].id);
              if hasCallback {
                selections := selections + [cs[0]];
              }
            }
          } else {
            var bad := FirstNullish(ArrayOrResults(data));
            var message := ReadPropertyError(bad.value, "id");
            ThrownMeaning(bad.value, "id", "Failed to load cuisines");
            error := Some(MessageOr(Thrown(message), "Failed to load cuisines"));
          }
        case Rejected(e) =>
          error := Some(MessageOr(e, "Failed to load cuisines"));
      }
      loading := false;
    }

    /** A click makes the cuisine active and reports it to the host. */
    method Click(c: Cuisine)
      modifies this`active, this`selections
      ensures active == Some(c.id)
      ensures selections == old(selections) + (if hasCallback then [c] else [])
    {
      active := Some(c.id);
      if hasCallback {
        selections := selections + [c];
      }
    }
  }
}
