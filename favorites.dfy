/** The saved-locations list: named coordinate pairs in insertion order, seeded with
    three cities, grown by a save that refuses a pair already present and shrunk by
    removal at a position. */
module Favorites {

  /** A latitude or longitude: an exact, one-to-one stand-in for the JavaScript number
      that holds it. The dashboard only ever compares coordinates with `===`, so equal
      stand-ins mean equal numbers and nothing else about them is needed. The
      four-decimal coordinates written in the dashboard itself are written here in
      ten-thousandths of a degree. */
  type Degrees = int

  datatype SavedLocation = SavedLocation(name: string, latitude: Degrees, longitude: Degrees)

  const Mumbai := SavedLocation("Mumbai", 190760, 728777)
  const Delhi := SavedLocation("Delhi", 286139, 772090)
  const Bangalore := SavedLocation("Bangalore", 129716, 775946)

  /** The list the dashboard starts with. */
  const Seed: seq<SavedLocation> := [Mumbai, Delhi, Bangalore]

  /** No two entries share a coordinate pair. */
  ghost predicate DistinctCoords(s: seq<SavedLocation>)
  {
    forall i, j :: 0 <= i < j < |s| ==>
      s[i].latitude != s[j].latitude || s[i].longitude != s[j].longitude
  }

  lemma SeedDistinct()
    ensures DistinctCoords(Seed) && |Seed| == 3
  {
  }

  /** `s.some(loc => loc.latitude === lat && loc.longitude === lon)`. */
  function HasCoords(s: seq<SavedLocation>, lat: Degrees, lon: Degrees): (b: bool)
    ensures b <==> exists i :: 0 <= i < |s| && s[i].latitude == lat && s[i].longitude == lon
  {
    if s == [] then false
    else (s[0].latitude == lat && s[0].longitude == lon) || HasCoords(s[1..], lat, lon)
  }

  /** `s.filter((_, i) => i !== index)`: the entry at `index` is dropped; an index that
      names no entry drops nothing. */
  function RemoveAt(s: seq<SavedLocation>, index: int): (r: seq<SavedLocation>)
    ensures 0 <= index < |s| ==> r == s[..index] + s[index + 1..]
    ensures !(0 <= index < |s|) ==> r == s
  {
    if s == [] then []
    else if index == 0 then RemoveAt(s[1..], index - 1)
    else [s[0]] + RemoveAt(s[1..], index - 1)
  }

  /** Removing at a valid position shortens the list by one and keeps the other entries
      in their order: those before the position stay put, those after move up by one. */
  lemma RemoveKeepsOrder(s: seq<SavedLocation>, index: int)
    requires 0 <= index < |s|
    ensures |RemoveAt(s, index)| == |s| - 1
    ensures forall k :: 0 <= k < index ==> RemoveAt(s, index)[k] == s[k]
    ensures forall k :: index <= k < |s| - 1 ==> RemoveAt(s, index)[k] == s[k + 1]
  {
  }

  /** Removal keeps the coordinate pairs distinct. */
  lemma {:induction false} RemoveKeepsDistinct(s: seq<SavedLocation>, index: int)
    requires DistinctCoords(s)
    ensures DistinctCoords(RemoveAt(s, index))
  {
    if 0 <= index < |s| {
      var r := RemoveAt(s, index);
      forall i, j | 0 <= i < j < |r|
        ensures r[i].latitude != r[j].latitude || r[i].longitude != r[j].longitude
      {
        var i' := if i < index then i else i + 1;
        var j' := if j < index then j else j + 1;
        assert r[i] == s[i'] && r[j] == s[j'] && i' < j';
      }
    }
  }

  /** Appending a location whose pair is not yet present keeps the pairs distinct. */
  lemma {:induction false} AppendKeepsDistinct(s: seq<SavedLocation>, loc: SavedLocation)
    requires DistinctCoords(s)
    requires !HasCoords(s, loc.latitude, loc.longitude)
    ensures DistinctCoords(s + [loc])
  {
    var r := s + [loc];
    forall i, j | 0 <= i < j < |r|
      ensures r[i].latitude != r[j].latitude || r[i].longitude != r[j].longitude
    {
      if j == |s| {
        assert r[i] == s[i];
      }
    }
  }
}
