/** models/Location.js: a named area with its state, a GeoJSON point, an
    active flag and a vote counter, and the pre-save normalisation. */
module LocationModel {
  import opened Common
  import opened Text

  datatype Location = Location(id: string, name: string, state: string, coordinates: seq<int>,
                               isActive: bool, helpfulVotes: int)

  /** The stored form of a location name: trimmed, then lower-cased. */
  function NormaliseName(s: string): (r: string)
    ensures |r| <= |s|
    ensures r == [] || (!IsSpace(r[0]) && !IsSpace(r[|r| - 1]))
    ensures forall i :: 0 <= i < |r| ==> !IsUpper(r[i])
  {
    ToLower(Trim(s))
  }

  /** Normalising a normalised name changes nothing. */
  lemma NormaliseNameIdempotent(s: string)
    ensures NormaliseName(NormaliseName(s)) == NormaliseName(s)
  {
    var t := Trim(s);
    var r := ToLower(t);
    if r != [] {
      CaseMappingKeepsSpaces(t[0]);
      CaseMappingKeepsSpaces(t[|t| - 1]);
    }
    TrimOfTrimmed(r);
    ToLowerIdempotent(t);
  }

  /** A location as `Location.create` builds it: given fields plus the
      schema defaults (active, no votes). */
  function NewLocation(id: string, name: string, state: string, coordinates: seq<int>): (l: Location)
    ensures l.isActive && l.helpfulVotes == 0
    ensures l.name == name && l.state == state && l.coordinates == coordinates
  {
    Location(id, name, state, coordinates, true, 0)
  }

  const DefaultState: string := "Lagos"
  const DefaultCoordinates: seq<int> := [0, 0]

  /** Trimming leaves the default state as it is. */
  lemma DefaultStateTrimmed()
    ensures Trim(DefaultState) == DefaultState
  {
    assert DefaultState[0] == 'L' && DefaultState[|DefaultState| - 1] == 's';
    TrimOfTrimmed(DefaultState);
  }

  /** The pre-save hook: a modified name is trimmed and lower-cased, a
      modified state trimmed; nothing else changes. */
  method PreSave(l: Location, nameModified: bool, stateModified: bool) returns (r: Location)
    ensures r == l.(name := r.name, state := r.state)
    ensures r.name == (if nameModified then NormaliseName(l.name) else l.name)
    ensures r.state == (if stateModified then Trim(l.state) else l.state)
  {
    r := l;
    if nameModified {
      r := r.(name := ToLower(Trim(r.name)));
    }
    if stateModified {
      r := r.(state := Trim(r.state));
    }
  }
}
