/**
 * The city annotations of plot_z25.py: the map extent is the bounding box of
 * the metadata's coordinate lists, and the populated-places records are
 * walked once, labelling every place of at least 500000 people inside that
 * box except Oakland, and counting the labels.
 */
module CityLabels {
  import opened Wrappers

  /** A populated-places record: its name, its POP_MAX attribute if any, and its point. */
  datatype Place = Place(name: string, popMax: Option<int>, lon: real, lat: real)

  /** The inclusive geographic box the map shows. */
  datatype Extent = Extent(lonMin: real, lonMax: real, latMin: real, latMax: real)

  /** The one place never labelled, because its label overlaps its neighbours'. */
  const SkippedName: string := "Oakland"

  /** The smallest population that gets a label. */
  const MinPopulation: int := 500000

  /** The least element of a non-empty list. */
  function Min(s: seq<real>): (m: real)
    requires |s| > 0
    ensures m in s
    ensures forall i :: 0 <= i < |s| ==> m <= s[i]
  {
    if |s| == 1 then s[0]
    else
      var rest := Min(s[1..]);
      if s[0] <= rest then s[0] else rest
  }

  /** The greatest element of a non-empty list. */
  function Max(s: seq<real>): (m: real)
    requires |s| > 0
    ensures m in s
    ensures forall i :: 0 <= i < |s| ==> s[i] <= m
  {
    if |s| == 1 then s[0]
    else
      var rest := Max(s[1..]);
      if s[0] >= rest then s[0] else rest
  }

  /** The map extent: from the least to the greatest of each coordinate list. */
  function BoundingBox(lonList: seq<real>, latList: seq<real>): (e: Extent)
    requires |lonList| > 0 && |latList| > 0
    ensures e.lonMin <= e.lonMax && e.latMin <= e.latMax
    ensures forall i :: 0 <= i < |lonList| ==> e.lonMin <= lonList[i] <= e.lonMax
    ensures forall i :: 0 <= i < |latList| ==> e.latMin <= latList[i] <= e.latMax
    ensures e.lonMin in lonList && e.lonMax in lonList && e.latMin in latList && e.latMax in latList
  {
    Extent(Min(lonList), Max(lonList), Min(latList), Max(latList))
  }

  /** POP_MAX is present, non-zero (Python truthiness) and at least MinPopulation. */
  predicate IsMajor(p: Place)
  {
    p.popMax.Some? && p.popMax.value != 0 && p.popMax.value >= MinPopulation
  }

  /** The point lies in the box, borders included. */
  predicate InExtent(p: Place, e: Extent)
  {
    e.lonMin <= p.lon <= e.lonMax && e.latMin <= p.lat <= e.latMax
  }

  /** The record gets a marker and a label. */
  predicate IsLabelled(p: Place, e: Extent)
  {
    p.name != SkippedName && IsMajor(p) && InExtent(p, e)
  }

  /** The records labelled, in the order the reader yields them. */
  function Labelled(records: seq<Place>, e: Extent): seq<Place>
  {
    if records == [] then []
    else
      var last := records[|records| - 1];
      Labelled(records[..|records| - 1], e) + (if IsLabelled(last, e) then [last] else [])
  }

  /** The population test is simply "at least 500000": the non-zero test never decides. */
  lemma IsMajorIsThreshold(p: Place)
    ensures IsMajor(p) <==> p.popMax.Some? && p.popMax.value >= MinPopulation
  {
  }

  /** Every labelled record passes all three tests; in particular no Oakland is labelled. */
  lemma {:induction false} LabelledSound(records: seq<Place>, e: Extent)
    ensures forall p :: p in Labelled(records, e) ==> p.name != SkippedName && IsMajor(p) && InExtent(p, e)
    ensures |Labelled(records, e)| <= |records|
  {
    if records != [] {
      LabelledSound(records[..|records| - 1], e);
    }
  }

  /**
   * Each record that passes the tests is labelled once for each time the
   * reader yields it; every other record is never labelled.
   */
  lemma {:induction false} LabelledExactlyOnce(records: seq<Place>, e: Extent, p: Place)
    ensures multiset(Labelled(records, e))[p] == if IsLabelled(p, e) then multiset(records)[p] else 0
  {
    if records != [] {
      var init := records[..|records| - 1];
      var last := records[|records| - 1];
      LabelledExactlyOnce(init, e, p);
      assert records == init + [last];
      assert multiset(records) == multiset(init) + multiset([last]);
    }
  }

  /**
   * The loop over the populated-places records: returns the places drawn, in
   * order, and the count of them that the script logs.
   */
  method LabelCities(records: seq<Place>, e: Extent) returns (drawn: seq<Place>, citiesPlotted: nat)
    ensures drawn == Labelled(records, e)
    ensures citiesPlotted == |drawn|
  {
    drawn := [];
    citiesPlotted := 0;
    var i := 0;
    while i < |records|
      invariant 0 <= i <= |records|
      invariant drawn == Labelled(records[..i], e)
      invariant citiesPlotted == |drawn|
    {
      var rec := records[i];
      assert records[..i + 1][..i] == records[..i];
      i := i + 1;
      if rec.name == SkippedName {
        continue;
      }
      if rec.popMax.Some? && rec.popMax.value != 0 && rec.popMax.value >= MinPopulation {
        if e.lonMin <= rec.lon <= e.lonMax && e.latMin <= rec.lat <= e.latMax {
          drawn := drawn + [rec];
          citiesPlotted := citiesPlotted + 1;
        }
      }
    }
    assert records[..i] == records;
  }
}
