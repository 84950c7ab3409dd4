/** The list of locations handed to the distance-matrix builder and the
    solver (index 0 is the depot), and how a solver's location index is
    resolved back to a delivery. Both optimization entry points build this
    list the same way. */
module Locations {
  import opened Support
  import opened Models

  /** A distance or time matrix as produced outside this model. */
  type Matrix = seq<seq<int>>

  predicate HasCoordinates(d: Delivery)
  {
    d.coordinates.Some?
  }

  /** The deliveries that have coordinates, in their original order. */
  function Located(ds: seq<Delivery>): seq<Delivery>
  {
    Filter(HasCoordinates, ds)
  }

  /** The coordinates of the located deliveries, in order. */
  function LocatedCoords(ds: seq<Delivery>): seq<Coord>
  {
    if ds == [] then []
    else (if HasCoordinates(ds[0]) then [ds[0].coordinates.value] else []) + LocatedCoords(ds[1..])
  }

  /** One coordinate per located delivery, in order, each that delivery's. */
  lemma {:induction false} LocatedCoordsMatch(ds: seq<Delivery>)
    ensures |LocatedCoords(ds)| == |Located(ds)|
    ensures forall k :: 0 <= k < |LocatedCoords(ds)| ==> Located(ds)[k].coordinates == Some(LocatedCoords(ds)[k])
  {
    if ds != [] {
      LocatedCoordsMatch(ds[1..]);
      assert Located(ds) == (if HasCoordinates(ds[0]) then [ds[0]] else []) + Located(ds[1..]);
    }
  }

  lemma {:induction false} LocatedCoordsAppend(s: seq<Delivery>, t: seq<Delivery>)
    ensures LocatedCoords(s + t) == LocatedCoords(s) + LocatedCoords(t)
  {
    if s == [] {
      assert s + t == t;
    } else {
      assert (s + t)[0] == s[0] && (s + t)[1..] == s[1..] + t;
      LocatedCoordsAppend(s[1..], t);
    }
  }

  lemma StepLocatedCoords(ds: seq<Delivery>, i: nat)
    requires i < |ds|
    ensures LocatedCoords(ds[..i + 1])
            == LocatedCoords(ds[..i]) + (if HasCoordinates(ds[i]) then [ds[i].coordinates.value] else [])
  {
    assert ds[..i + 1] == ds[..i] + [ds[i]];
    LocatedCoordsAppend(ds[..i], [ds[i]]);
    assert [ds[i]][1..] == [];
  }

  /** The location list: the depot followed by the coordinates of every
      delivery that has them, in delivery order. */
  method BuildLocations(depot: Coord, ds: seq<Delivery>) returns (coords: seq<Coord>)
    ensures coords == [depot] + LocatedCoords(ds)
    ensures |coords| == 1 + |Located(ds)|
  {
    LocatedCoordsMatch(ds);
    coords := [depot];
    for i := 0 to |ds|
      invariant coords == [depot] + LocatedCoords(ds[..i])
    {
      StepLocatedCoords(ds, i);
      if ds[i].coordinates.Some? {
        coords := coords + [ds[i].coordinates.value];
      }
    }
    assert ds[..|ds|] == ds;
  }

  /** Location index `k` resolved as the source writes it: `deliveries[k - 1]`
      over ALL deliveries of the batch, with Python's list indexing. */
  function DeliveryAtAsWritten(ds: seq<Delivery>, k: int): Option<Delivery>
  {
    PyIndex(ds, k - 1)
  }

  /** Location index `k` resolved against the deliveries that actually
      contributed a location, with Python's list indexing. */
  function DeliveryAt(ds: seq<Delivery>, k: int): Option<Delivery>
  {
    PyIndex(Located(ds), k - 1)
  }

  /** Every non-depot location index resolves to a delivery of the batch that
      sits exactly at that location; any index past the end resolves to nothing. */
  lemma DeliveryAtMatchesLocation(depot: Coord, ds: seq<Delivery>, k: int)
    requires 1 <= k
    ensures var locs := [depot] + LocatedCoords(ds);
            (k < |locs| <==> DeliveryAt(ds, k).Some?)
            && (k < |locs| ==> DeliveryAt(ds, k).value in ds
                               && DeliveryAt(ds, k).value.coordinates == Some(locs[k]))
  {
    var locs := [depot] + LocatedCoords(ds);
    LocatedCoordsMatch(ds);
    if k < |locs| {
      assert locs[k] == LocatedCoords(ds)[k - 1];
      assert Located(ds)[k - 1] in Located(ds);
    }
  }

  /** When every delivery has coordinates the two resolutions agree. */
  lemma DeliveryAtAgreesWhenAllLocated(ds: seq<Delivery>, k: int)
    requires forall d :: d in ds ==> HasCoordinates(d)
    ensures DeliveryAt(ds, k) == DeliveryAtAsWritten(ds, k)
  {
    FilterAll(HasCoordinates, ds);
  }

  /** With one delivery lacking coordinates, location 1 (the second
      delivery's coordinates) is resolved by the source to the first
      delivery, which is not at that location. */
  lemma DeliveryAtAsWrittenMisaligned()
    ensures var depot := Coord(18.4861, -69.9312);
            var c := Coord(18.45, -69.9);
            var d0 := NewDelivery(1, 7, 3, "sin coordenadas", None);
            var d1 := NewDelivery(2, 7, 3, "con coordenadas", Some(c));
            var locs := [depot] + LocatedCoords([d0, d1]);
            && locs == [depot, c]
            && DeliveryAtAsWritten([d0, d1], 1) == Some(d0)
            && d0.coordinates != Some(locs[1])
            && DeliveryAt([d0, d1], 1) == Some(d1)
  {
    var c := Coord(18.45, -69.9);
    var d0 := NewDelivery(1, 7, 3, "sin coordenadas", None);
    var d1 := NewDelivery(2, 7, 3, "con coordenadas", Some(c));
    assert [d0, d1][1..] == [d1];
    assert Located([d1]) == [d1] + Located([]);
    assert Located([d0, d1]) == [d1];
    assert [d1][1..] == [];
    assert LocatedCoords([d1]) == [c];
    assert LocatedCoords([d0, d1]) == [c];
  }
}
