/**
 * The favourite locations of the location picker as a value: the list
 * transforms its handlers apply (`find`/`some`, spread-append, `filter`,
 * `map`) and the invariants they keep.
 */
module Favourites {
  import opened Options
  import opened JsString
  import opened Seqs

  /** A resolved place, handed to the caller of the picker. Coordinates are copied through, never computed on. */
  datatype LocationData = LocationData(address: string, latitude: real, longitude: real)

  /** A favourite: a place with a user-chosen label (`name`; `label` is a keyword here). */
  datatype SavedLocation = SavedLocation(name: string, address: string, latitude: real, longitude: real)
  {
    /** The place without its label. */
    function Location(): LocationData {
      LocationData(address, latitude, longitude)
    }
  }

  /** The most favourites the save dialog lets the user reach. */
  const MaxFavourites := 3

  /** Some favourite's label equals `name` ignoring case (the rename guard's `some`). */
  predicate LabelTaken(locations: seq<SavedLocation>, name: string) {
    exists k :: 0 <= k < |locations| && EqualsIgnoreCase(locations[k].name, name)
  }

  /** `locations.find(loc => loc.label.toLowerCase() === label.toLowerCase())`: the first match. */
  function FindIgnoringCase(locations: seq<SavedLocation>, name: string): (r: Option<SavedLocation>)
    ensures r.Some? <==> LabelTaken(locations, name)
    ensures r.Some? ==> r.value in locations && EqualsIgnoreCase(r.value.name, name)
    ensures r.Some? ==> exists i :: 0 <= i < |locations| && locations[i] == r.value &&
                                    forall j :: 0 <= j < i ==> !EqualsIgnoreCase(locations[j].name, name)
  {
    if locations == [] then None
    else if EqualsIgnoreCase(locations[0].name, name) then Some(locations[0])
    else
      var rest := FindIgnoringCase(locations[1..], name);
      assert forall k :: 1 <= k < |locations| ==> locations[k] == locations[1..][k - 1];
      if rest.Some? then
        var i :| 0 <= i < |locations[1..]| && locations[1..][i] == rest.value &&
                 forall j :: 0 <= j < i ==> !EqualsIgnoreCase(locations[1..][j].name, name);
        assert locations[i + 1] == rest.value;
        rest
      else
        rest
  }

  /** No two favourites have labels equal ignoring case. */
  predicate LabelsUnique(locations: seq<SavedLocation>) {
    forall i, j :: 0 <= i < j < |locations| ==> !EqualsIgnoreCase(locations[i].name, locations[j].name)
  }

  /** The entry a successful save appends: the typed label, the prediction's text as address, the details' coordinates. */
  function NewFavourite(name: string, description: string, latitude: real, longitude: real): (r: SavedLocation)
    ensures r.name == name && r.Location() == LocationData(description, latitude, longitude)
  {
    SavedLocation(name, description, latitude, longitude)
  }

  /** Appending a favourite whose label is not taken keeps the labels unique. */
  lemma AppendKeepsUnique(locations: seq<SavedLocation>, entry: SavedLocation)
    requires LabelsUnique(locations)
    requires !LabelTaken(locations, entry.name)
    ensures LabelsUnique(locations + [entry])
  {
    var r := locations + [entry];
    forall i, j | 0 <= i < j < |r| ensures !EqualsIgnoreCase(r[i].name, r[j].name) {
      if j == |locations| {
        assert !EqualsIgnoreCase(locations[i].name, entry.name);
      }
    }
  }

  /** `locations.filter(loc => loc.label !== label)`: the comparison is exact, case included. */
  function RemoveLabel(locations: seq<SavedLocation>, name: string): (r: seq<SavedLocation>)
    ensures |r| <= |locations|
    ensures forall e :: e in r ==> e in locations && e.name != name
    ensures forall e :: e in locations && e.name != name ==> e in r
  {
    if locations == [] then []
    else if locations[0].name != name then [locations[0]] + RemoveLabel(locations[1..], name)
    else RemoveLabel(locations[1..], name)
  }

  /** Delete keeps the surviving favourites in their original order. */
  lemma {:induction false} RemoveKeepsOrder(locations: seq<SavedLocation>, name: string)
    ensures IsSubsequence(RemoveLabel(locations, name), locations)
  {
    if locations != [] {
      RemoveKeepsOrder(locations[1..], name);
      var rest := RemoveLabel(locations[1..], name);
      if locations[0].name != name {
        assert ([locations[0]] + rest)[1..] == rest;
      } else if rest != [] {
        assert rest[0] in locations[1..];
        assert rest[0] != locations[0];
      }
    }
  }

  /** Deleting a label no favourite carries (exactly) leaves the list as it was. */
  lemma {:induction false} RemoveAbsentIsIdentity(locations: seq<SavedLocation>, name: string)
    requires forall e :: e in locations ==> e.name != name
    ensures RemoveLabel(locations, name) == locations
  {
    if locations != [] {
      RemoveAbsentIsIdentity(locations[1..], name);
      assert [locations[0]] + locations[1..] == locations;
    }
  }

  /** Deleting drops one entry per favourite carrying exactly that label. */
  lemma {:induction false} RemoveCount(locations: seq<SavedLocation>, name: string)
    ensures |RemoveLabel(locations, name)| == |locations| - multiset(Labels(locations))[name]
  {
    if locations != [] {
      RemoveCount(locations[1..], name);
      assert Labels(locations) == [locations[0].name] + Labels(locations[1..]);
    }
  }

  /** The labels, in list order. */
  function Labels(locations: seq<SavedLocation>): (r: seq<string>)
    ensures |r| == |locations|
    ensures forall k :: 0 <= k < |r| ==> r[k] == locations[k].name
  {
    if locations == [] then [] else [locations[0].name] + Labels(locations[1..])
  }

  /** Deleting keeps the labels unique. */
  lemma {:induction false} RemoveKeepsUnique(locations: seq<SavedLocation>, name: string)
    requires LabelsUnique(locations)
    ensures LabelsUnique(RemoveLabel(locations, name))
  {
    if locations != [] {
      var tail := locations[1..];
      assert LabelsUnique(tail) by {
        forall i, j | 0 <= i < j < |tail| ensures !EqualsIgnoreCase(tail[i].name, tail[j].name) {
          assert tail[i] == locations[i + 1] && tail[j] == locations[j + 1];
        }
      }
      RemoveKeepsUnique(tail, name);
      var rest := RemoveLabel(tail, name);
      if locations[0].name != name {
        var r := [locations[0]] + rest;
        forall i, j | 0 <= i < j < |r| ensures !EqualsIgnoreCase(r[i].name, r[j].name) {
          if i == 0 {
            assert r[j] in tail;
            var k :| 0 <= k < |tail| && tail[k] == r[j];
            assert locations[k + 1] == r[j];
          } else {
            assert r[i] == rest[i - 1] && r[j] == rest[j - 1];
          }
        }
      }
    }
  }

  /** `locations.map(loc => loc.label === oldLabel ? { ...loc, label: newLabel } : loc)`. */
  function RenameLabel(locations: seq<SavedLocation>, oldLabel: string, newLabel: string): (r: seq<SavedLocation>)
    ensures |r| == |locations|
    ensures forall k :: 0 <= k < |r| ==> r[k].Location() == locations[k].Location()
    ensures forall k :: 0 <= k < |r| ==>
      r[k].name == (if locations[k].name == oldLabel then newLabel else locations[k].name)
  {
    if locations == [] then []
    else
      var head := if locations[0].name == oldLabel then locations[0].(name := newLabel) else locations[0];
      [head] + RenameLabel(locations[1..], oldLabel, newLabel)
  }

  /** The rename guard lets a rename through unless the new label differs from the old one
      ignoring case and some favourite already carries it ignoring case. */
  predicate RenameAllowed(locations: seq<SavedLocation>, oldLabel: string, newLabel: string) {
    !(!EqualsIgnoreCase(newLabel, oldLabel) && LabelTaken(locations, newLabel))
  }

  /** A rename the guard allows keeps the labels unique. */
  lemma RenameKeepsUnique(locations: seq<SavedLocation>, oldLabel: string, newLabel: string)
    requires LabelsUnique(locations)
    requires RenameAllowed(locations, oldLabel, newLabel)
    ensures LabelsUnique(RenameLabel(locations, oldLabel, newLabel))
  {
    var r := RenameLabel(locations, oldLabel, newLabel);
    forall i, j | 0 <= i < j < |r| ensures !EqualsIgnoreCase(r[i].name, r[j].name) {
      var a, b := locations[i], locations[j];
      if a.name == oldLabel && b.name == oldLabel {
        // impossible: the two labels would be equal
      } else if a.name == oldLabel {
        if EqualsIgnoreCase(newLabel, oldLabel) {
          assert !EqualsIgnoreCase(a.name, b.name);
        } else {
          assert !EqualsIgnoreCase(b.name, newLabel);
        }
      } else if b.name == oldLabel {
        if EqualsIgnoreCase(newLabel, oldLabel) {
          assert !EqualsIgnoreCase(a.name, b.name);
        } else {
          assert !EqualsIgnoreCase(a.name, newLabel);
        }
      }
    }
  }

  /** Renaming to the label an entry already has changes nothing. */
  lemma {:induction false} RenameToSameIsIdentity(locations: seq<SavedLocation>, name: string)
    ensures RenameLabel(locations, name, name) == locations
  {
    if locations != [] {
      RenameToSameIsIdentity(locations[1..], name);
      assert [locations[0]] + locations[1..] == locations;
    }
  }
}
