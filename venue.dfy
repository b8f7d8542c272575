/** What the venue detail views share: the amenity labels built from the
    venue's `meta` flags, and the location lines. */
module Venue {
  import opened Common

  /** `venue.meta`, each flag as its truthiness. */
  datatype Meta = Meta(wifi: bool, parking: bool, breakfast: bool, pets: bool)

  /** `venue.location`; an empty string stands for a missing or empty field. */
  datatype Location = Location(address: string, city: string, country: string)

  /** The amenities a venue can list, in the order the views list them. */
  datatype Amenity = Wifi | Parking | Breakfast | Pets

  function Label(a: Amenity): string
  {
    match a
    case Wifi => "Free Wi-Fi"
    case Parking => "Parking"
    case Breakfast => "Breakfast included"
    case Pets => "Pets allowed"
  }

  /** Different amenities carry different labels. */
  lemma LabelsDistinct(a: Amenity, b: Amenity)
    requires a != b
    ensures Label(a) != Label(b)
  {
    assert |Label(Wifi)| == 10 && |Label(Parking)| == 7 && |Label(Breakfast)| == 18 && |Label(Pets)| == 12;
  }

  /** The position of an amenity in the fixed order. */
  function Rank(a: Amenity): nat
  {
    match a
    case Wifi => 0
    case Parking => 1
    case Breakfast => 2
    case Pets => 3
  }

  /** Whether `meta` sets the flag of an amenity. */
  predicate Flag(m: Meta, a: Amenity)
  {
    match a
    case Wifi => m.wifi
    case Parking => m.parking
    case Breakfast => m.breakfast
    case Pets => m.pets
  }

  /** The amenity at position `i` of the fixed order. */
  function At(i: nat): (a: Amenity)
    requires i < 4
    ensures Rank(a) == i
  {
    if i == 0 then Wifi else if i == 1 then Parking else if i == 2 then Breakfast else Pets
  }

  /** The amenities among the first `n` of the fixed order whose flag `m` sets, in that order. */
  function Upto(m: Meta, n: nat): (list: seq<Amenity>)
    requires n <= 4
    ensures forall i, j :: 0 <= i < j < |list| ==> Rank(list[i]) < Rank(list[j])
    ensures forall k :: 0 <= k < |list| ==> Rank(list[k]) < n
    ensures forall a :: a in list <==> Rank(a) < n && Flag(m, a)
    ensures |list| <= n
  {
    if n == 0 then []
    else
      var prev := Upto(m, n - 1);
      assert forall a :: Rank(a) == n - 1 ==> a == At(n - 1);
      prev + (if Flag(m, At(n - 1)) then [At(n - 1)] else [])
  }

  /** The amenities of the truthy flags, in the order Wi-Fi, Parking, Breakfast, Pets;
      `meta?.x` makes a missing `meta` give none. */
  function Amenities(meta: Option<Meta>): (list: seq<Amenity>)
    ensures forall a :: a in list <==> meta.Some? && Flag(meta.value, a)
    ensures forall i, j :: 0 <= i < j < |list| ==> Rank(list[i]) < Rank(list[j])
    ensures list == [] <==> meta.None? || meta.value == Meta(false, false, false, false)
  {
    if meta.None? then []
    else
      var list := Upto(meta.value, 4);
      assert list != [] ==> list[0] in list;
      assert list == [] ==> !Flag(meta.value, Wifi) && !Flag(meta.value, Parking)
                            && !Flag(meta.value, Breakfast) && !Flag(meta.value, Pets);
      list
  }

  /** The labels of a list of amenities. */
  function LabelsOf(list: seq<Amenity>): (labels: seq<string>)
    ensures |labels| == |list| && forall k :: 0 <= k < |list| ==> labels[k] == Label(list[k])
  {
    seq(|list|, k requires 0 <= k < |list| => Label(list[k]))
  }

  /** The amenity labels the views show. */
  function AmenityList(meta: Option<Meta>): (labels: seq<string>)
    ensures labels == [] <==> meta.None? || meta.value == Meta(false, false, false, false)
  {
    LabelsOf(Amenities(meta))
  }

  /** A label is listed exactly when its flag is set, and no label is listed twice. */
  lemma AmenityLabels(meta: Option<Meta>)
    ensures forall a :: Label(a) in AmenityList(meta) <==> meta.Some? && Flag(meta.value, a)
    ensures forall i, j :: 0 <= i < j < |AmenityList(meta)| ==> AmenityList(meta)[i] != AmenityList(meta)[j]
  {
    var list, labels := Amenities(meta), AmenityList(meta);
    forall a
      ensures Label(a) in labels <==> a in list
    {
      if Label(a) in labels {
        var k :| 0 <= k < |labels| && labels[k] == Label(a);
        if list[k] != a {
          LabelsDistinct(list[k], a);
        }
      }
      if a in list {
        var k :| 0 <= k < |list| && list[k] == a;
        assert labels[k] == Label(a);
      }
    }
    forall i, j | 0 <= i < j < |labels|
      ensures labels[i] != labels[j]
    {
      LabelsDistinct(list[i], list[j]);
    }
  }

  /** The component code: one `push` per truthy flag, in that order. */
  method BuildAmenities(meta: Option<Meta>) returns (amenities: seq<string>)
    ensures amenities == AmenityList(meta)
  {
    amenities := [];
    ghost var m := if meta.Some? then meta.value else Meta(false, false, false, false);
    ghost var before := amenities;
    ghost var step := 0;
    if meta.Some? && meta.value.wifi {
      amenities := amenities + ["Free Wi-Fi"];
    }
    PushStep(m, step, before, amenities);
    step := step + 1;
    before := amenities;
    if meta.Some? && meta.value.parking {
      amenities := amenities + ["Parking"];
    }
    PushStep(m, step, before, amenities);
    step := step + 1;
    before := amenities;
    if meta.Some? && meta.value.breakfast {
      amenities := amenities + ["Breakfast included"];
    }
    PushStep(m, step, before, amenities);
    step := step + 1;
    before := amenities;
    if meta.Some? && meta.value.pets {
      amenities := amenities + ["Pets allowed"];
    }
    PushStep(m, step, before, amenities);
  }

  /** One conditional `push` extends the labels of the first `i` amenities
      to those of the first `i + 1`. */
  lemma PushStep(m: Meta, i: nat, before: seq<string>, after: seq<string>)
    requires i < 4 && before == LabelsOf(Upto(m, i))
    requires after == if Flag(m, At(i)) then before + [Label(At(i))] else before
    ensures after == LabelsOf(Upto(m, i + 1))
  {
    var next := Upto(m, i + 1);
    assert next == Upto(m, i) + (if Flag(m, At(i)) then [At(i)] else []);
    assert LabelsOf(next) == after by {
      assert |LabelsOf(next)| == |after|;
      forall k | 0 <= k < |after|
        ensures LabelsOf(next)[k] == after[k]
      {
        if k < |before| {
          assert next[k] == Upto(m, i)[k];
        }
      }
    }
  }

  /** The lines under "Location": address, city and country, in that order,
      each only when non-empty. */
  function LocationLines(loc: Location): (lines: seq<string>)
    ensures lines == NonEmpty([loc.address, loc.city, loc.country])
    ensures |lines| <= 3
    ensures lines == [] <==> loc.address == "" && loc.city == "" && loc.country == ""
  {
    var a := if loc.address != "" then [loc.address] else [];
    var c := if loc.city != "" then [loc.city] else [];
    var k := if loc.country != "" then [loc.country] else [];
    NonEmptySingle(loc.address);
    NonEmptySingle(loc.city);
    NonEmptySingle(loc.country);
    NonEmptyAppend([loc.address], [loc.city]);
    NonEmptyAppend([loc.address, loc.city], [loc.country]);
    assert [loc.address] + [loc.city] == [loc.address, loc.city];
    assert [loc.address, loc.city] + [loc.country] == [loc.address, loc.city, loc.country];
    a + c + k
  }
}
