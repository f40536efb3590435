/** controllers/locationController.js: creating a location under its
    normalised name, toggling it and reading it. Geocoding is an input. */
module LocationController {
  import opened Common
  import opened Text
  import opened LocationModel
  import opened Store
  import opened Answer

  datatype LocationView = LocationDoc(location: Location) | ActiveFlag(message: string, isActive: bool)

  datatype LocationOutcome = LocationOutcome(locations: seq<Location>, answer: Answer<LocationView>)

  /** `Location.findById(id)`. */
  function FindLocation(locations: seq<Location>, id: string): (r: Option<nat>)
    ensures r.Some? ==> r.value < |locations| && locations[r.value].id == id
    ensures r.None? <==> forall j :: 0 <= j < |locations| ==> locations[j].id != id
  {
    FindFirst(locations, (l: Location) => l.id == id)
  }

  /** `Location.findOne({ name })`. */
  function FindLocationNamed(locations: seq<Location>, name: string): (r: Option<nat>)
    ensures r.Some? ==> r.value < |locations| && locations[r.value].name == name
    ensures r.None? <==> forall j :: 0 <= j < |locations| ==> locations[j].name != name
  {
    FindFirst(locations, (l: Location) => l.name == name)
  }

  /** No two locations share a name, as the unique index demands. */
  predicate DistinctNames(locations: seq<Location>) {
    forall i, j :: 0 <= i < j < |locations| ==> locations[i].name != locations[j].name
  }

  // ----------------------------------------------------------- createLocation

  /** The outcome of `createLocation` where `geocoded` is what the geocoder
      returned for the name. */
  function CreateLocationOutcome(locations: seq<Location>, name: Option<string>, state: Option<string>,
                                 geocoded: Option<seq<int>>, newId: string, production: bool): LocationOutcome
  {
    if name.None? then LocationOutcome(locations, Thrown(UndefinedRead("trim"), production))
    else
      var n := NormaliseName(name.value);
      if FindLocationNamed(locations, n).Some? then LocationOutcome(locations, Says(400, "Location already exists"))
      else if n == [] then LocationOutcome(locations, Thrown(MissingPaths(["name"]), production))
      else
        var loc := NewLocation(newId, n, Trim(if Truthy(state) then state.value else DefaultState),
                               geocoded.GetOr(DefaultCoordinates));
        LocationOutcome(locations + [loc], Answer(201, Json(LocationDoc(loc))))
  }

  method CreateLocation(db: Database, name: Option<string>, state: Option<string>, geocoded: Option<seq<int>>,
                        newId: string, production: bool) returns (answer: Answer<LocationView>)
    modifies db`locations
    ensures LocationOutcome(db.locations, answer)
         == CreateLocationOutcome(old(db.locations), name, state, geocoded, newId, production)
  {
    if name.None? {
      return Thrown(UndefinedRead("trim"), production);
    }
    var normalised := ToLower(Trim(name.value));
    var existing := FindLocationNamed(db.locations, normalised);
    if existing.Some? {
      return Says(400, "Location already exists");
    }
    if normalised == [] {
      return Thrown(MissingPaths(["name"]), production);
    }
    var stateGiven := if Truthy(state) then state.value else DefaultState;
    var loc := NewLocation(newId, normalised, stateGiven, geocoded.GetOr(DefaultCoordinates));
    NormaliseNameIdempotent(name.value);
    loc := PreSave(loc, true, true);
    db.locations := db.locations + [loc];
    answer := Answer(201, Json(LocationDoc(loc)));
  }

  /** A location is created exactly when a name is given whose normalised
      form is non-empty and not yet taken; a taken name is answered 400 and
      nothing else is; a refused request stores nothing. */
  lemma CreateLocationDecision(locations: seq<Location>, name: string, state: Option<string>,
                               geocoded: Option<seq<int>>, newId: string, production: bool)
    ensures var o := CreateLocationOutcome(locations, Some(name), state, geocoded, newId, production);
      var n := NormaliseName(name);
      && (o.answer.status == 201 <==> n != [] && forall j :: 0 <= j < |locations| ==> locations[j].name != n)
      && (o.answer.status == 400 && o.answer.payload.Note? <==> exists j :: 0 <= j < |locations| && locations[j].name == n)
      && (o.answer.status != 201 ==> o.locations == locations)
  {
    var n := NormaliseName(name);
    var o := CreateLocationOutcome(locations, Some(name), state, geocoded, newId, production);
    if FindLocationNamed(locations, n).Some? {
      assert o == LocationOutcome(locations, Says(400, "Location already exists"));
    } else if n == [] {
      var a := Thrown<LocationView>(MissingPaths(["name"]), production);
      assert a.status == 400;
      assert o == LocationOutcome(locations, a);
    } else {
      var loc := NewLocation(newId, n, Trim(if Truthy(state) then state.value else DefaultState),
                             geocoded.GetOr(DefaultCoordinates));
      assert o == LocationOutcome(locations + [loc], Answer(201, Json(LocationDoc(loc))));
    }
  }

  /** A created location is appended under the normalised name, in state
      'Lagos' unless another is given, at [0, 0] unless the geocoder found
      it, active and without votes. */
  lemma CreateLocationStores(locations: seq<Location>, name: string, state: Option<string>,
                             geocoded: Option<seq<int>>, newId: string, production: bool)
    requires NormaliseName(name) != [] && FindLocationNamed(locations, NormaliseName(name)).None?
    ensures var o := CreateLocationOutcome(locations, Some(name), state, geocoded, newId, production);
      && o.answer.status == 201
      && |o.locations| == |locations| + 1
      && o.locations[..|locations|] == locations
      && o.locations[|locations|].name == NormaliseName(name)
      && o.locations[|locations|].state == (if Truthy(state) then Trim(state.value) else DefaultState)
      && o.locations[|locations|].coordinates == (if geocoded.Some? then geocoded.value else [0, 0])
      && o.locations[|locations|].isActive && o.locations[|locations|].helpfulVotes == 0
  {
    DefaultStateTrimmed();
    var loc := NewLocation(newId, NormaliseName(name), Trim(if Truthy(state) then state.value else DefaultState),
                           geocoded.GetOr(DefaultCoordinates));
    var o := CreateLocationOutcome(locations, Some(name), state, geocoded, newId, production);
    assert o == LocationOutcome(locations + [loc], Answer(201, Json(LocationDoc(loc))));
    assert (locations + [loc])[..|locations|] == locations;
  }

  /** Creating a location keeps location names distinct. */
  lemma CreateLocationKeepsNamesDistinct(locations: seq<Location>, name: Option<string>, state: Option<string>,
                                         geocoded: Option<seq<int>>, newId: string, production: bool)
    requires DistinctNames(locations)
    ensures DistinctNames(CreateLocationOutcome(locations, name, state, geocoded, newId, production).locations)
  {
    var o := CreateLocationOutcome(locations, name, state, geocoded, newId, production);
    if name.Some? && NormaliseName(name.value) != [] && FindLocationNamed(locations, NormaliseName(name.value)).None? {
      var n := NormaliseName(name.value);
      var loc := NewLocation(newId, n, Trim(if Truthy(state) then state.value else DefaultState),
                             geocoded.GetOr(DefaultCoordinates));
      assert o.locations == locations + [loc];
      forall i, j | 0 <= i < j < |o.locations|
        ensures o.locations[i].name != o.locations[j].name
      {
        assert o.locations[i] == locations[i];
      }
    }
  }

  /** The duplicate check is insensitive to case and surrounding spaces:
      once a name is stored, any spelling with the same normalised form is
      refused. */
  lemma CreateLocationTwice(locations: seq<Location>, name1: string, name2: string, state: Option<string>,
                            geocoded: Option<seq<int>>, id1: string, id2: string, production: bool)
    requires CreateLocationOutcome(locations, Some(name1), state, geocoded, id1, production).answer.status == 201
    requires NormaliseName(name1) == NormaliseName(name2)
    ensures var s1 := CreateLocationOutcome(locations, Some(name1), state, geocoded, id1, production).locations;
      CreateLocationOutcome(s1, Some(name2), state, geocoded, id2, production)
        == LocationOutcome(s1, Says(400, "Location already exists"))
  {
    var s1 := CreateLocationOutcome(locations, Some(name1), state, geocoded, id1, production).locations;
    assert s1[|locations|].name == NormaliseName(name2);
  }

  // ------------------------------------------------------- toggleLocationStatus

  function ToggleOutcome(locations: seq<Location>, id: string): LocationOutcome {
    match FindLocation(locations, id)
    case None => LocationOutcome(locations, Says(404, "Location not found"))
    case Some(i) =>
      var l := locations[i].(isActive := !locations[i].isActive);
      LocationOutcome(locations[i := l], Answer(200, Json(ActiveFlag("Location status updated", l.isActive))))
  }

  method ToggleLocationStatus(db: Database, id: string) returns (answer: Answer<LocationView>)
    modifies db`locations
    ensures LocationOutcome(db.locations, answer) == ToggleOutcome(old(db.locations), id)
  {
    var found := FindLocation(db.locations, id);
    if found.None? {
      return Says(404, "Location not found");
    }
    var l := db.locations[found.value];
    l := l.(isActive := !l.isActive);
    l := PreSave(l, false, false);
    db.locations := db.locations[found.value := l];
    answer := Answer(200, Json(ActiveFlag("Location status updated", l.isActive)));
  }

  /** Toggling flips only the active flag of that location, and toggling
      twice restores the collection. */
  lemma ToggleTwice(locations: seq<Location>, id: string)
    ensures var o := ToggleOutcome(locations, id);
      var f := FindLocation(locations, id);
      && (f.None? ==> o.answer.status == 404 && o.locations == locations)
      && (f.Some? ==>
            && |o.locations| == |locations|
            && o.locations[f.value] == locations[f.value].(isActive := !locations[f.value].isActive)
            && (forall j :: 0 <= j < |locations| && j != f.value ==> o.locations[j] == locations[j]))
      && ToggleOutcome(o.locations, id).locations == locations
  {
    var f := FindLocation(locations, id);
    if f.Some? {
      var o := ToggleOutcome(locations, id);
      assert o.locations[f.value].id == id;
      forall j | 0 <= j < f.value
        ensures o.locations[j] == locations[j]
      {
      }
      assert FindLocation(o.locations, id) == f;
    }
  }

  // ------------------------------------------------------------ getLocationById

  function LocationById(locations: seq<Location>, id: string): (a: Answer<LocationView>)
    ensures a.status == 200 <==> exists j :: 0 <= j < |locations| && locations[j].id == id
    ensures a.status == 200 ==> a.payload.Json? && a.payload.value.LocationDoc? && a.payload.value.location.id == id
    ensures a.status != 200 ==> a == Says(404, "Location not found")
  {
    match FindLocation(locations, id)
    case None => Says(404, "Location not found")
    case Some(i) => Answer(200, Json(LocationDoc(locations[i])))
  }
}
