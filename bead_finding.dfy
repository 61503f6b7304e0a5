/** The bead finder: a Z maximum projection, XY local maxima (found by a foreign
    peak detector), a strict XY border filter, a Z position per maximum taken
    from the median-filtered Z profile, a strict Z border filter and a
    nearest-neighbour distance filter. Coordinates are integer voxel indices. */
module BeadFinding {
  import opened Wrappers
  import opened Volumes

  /** A local maximum of the projection, as the peak detector reports it. */
  datatype YX = YX(y: int, x: int)

  /** A bead position in voxel indices. */
  datatype Bead = Bead(z: int, y: int, x: int)

  datatype FinderError =
    | ImageClosed      // `find_beads` after `close` has set the image to None
    | EmptyProjection  // the maximum over an axis of length zero raises ValueError

  /** The border margin, in voxels, that `BeadFinder.__init__` sets. */
  const DefaultBorder: int := 5

  /** A bead whose nearest other bead is this many voxels away or closer is
      discarded. Compared on squares: a distance is > 5 iff its square is > 25. */
  const NeighbourDistance: int := 5

  /** `np.argmax`: the first index at which `s` takes its maximum. */
  function ArgMax(s: seq<int>): (k: nat)
    requires |s| > 0
    ensures k < |s|
    ensures forall j :: 0 <= j < |s| ==> s[j] <= s[k]
    ensures forall j :: 0 <= j < k ==> s[j] < s[k]
  {
    if |s| == 1 then 0
    else
      var k := ArgMax(s[..|s| - 1]);
      if s[|s| - 1] > s[k] then |s| - 1 else k
  }

  /** `np.max(image, axis=0)`: each (y, x) of the projection is the largest
      value of its Z column. */
  function MaxProjection(image: Grid3<int>): (m: seq<seq<int>>)
    requires image.Valid() && image.Depth() > 0
    ensures |m| == image.height
    ensures forall y :: 0 <= y < image.height ==> |m[y]| == image.width
    ensures forall z, y, x :: 0 <= z < image.Depth() && image.InPlane(y, x) ==>
      image.planes[z][y][x] <= m[y][x]
    ensures forall y, x :: image.InPlane(y, x) ==>
      exists z :: 0 <= z < image.Depth() && image.planes[z][y][x] == m[y][x]
  {
    var m := seq(image.height, y requires 0 <= y < image.height =>
      seq(image.width, x requires 0 <= x < image.width => ColumnMax(image, y, x)));
    assert forall y, x :: image.InPlane(y, x) ==> m[y][x] == ColumnMax(image, y, x);
    m
  }

  function ColumnMax(image: Grid3<int>, y: nat, x: nat): (m: int)
    requires image.Valid() && image.Depth() > 0 && image.InPlane(y, x)
    ensures forall z :: 0 <= z < image.Depth() ==> image.planes[z][y][x] <= m
    ensures exists z :: 0 <= z < image.Depth() && image.planes[z][y][x] == m
  {
    var column := image.Column(y, x);
    var k := ArgMax(column);
    assert column[k] == image.planes[k][y][x];
    column[k]
  }

  /** The XY border test of `_maxima`, strict on every side. */
  function InsideXY(height: int, width: int, border: int): YX -> bool
  {
    (p: YX) => border < p.y < height - border && border < p.x < width - border
  }

  /** `_maxima` after peak detection: the maxima inside the XY border, and those
      "not in" that list, each in input order. */
  function SplitMaxima(maxima: seq<YX>, height: int, width: int, border: int): (r: (seq<YX>, seq<YX>))
    ensures Interleaves(maxima, r.0, r.1)
    ensures forall p :: p in r.0 <==>
      p in maxima && border < p.y < height - border && border < p.x < width - border
    ensures forall p :: p in r.1 <==>
      p in maxima && !(border < p.y < height - border && border < p.x < width - border)
  {
    var inside := InsideXY(height, width, border);
    var kept := Filter(maxima, inside);
    var discarded := Filter(maxima, (p: YX) => p !in kept);
    SplitMaximaFacts(maxima, inside, kept, discarded);
    (kept, discarded)
  }

  lemma SplitMaximaFacts(maxima: seq<YX>, inside: YX -> bool, kept: seq<YX>, discarded: seq<YX>)
    requires kept == Filter(maxima, inside)
    requires discarded == Filter(maxima, (p: YX) => p !in kept)
    ensures Interleaves(maxima, kept, discarded)
    ensures forall p :: p in kept <==> p in maxima && inside(p)
    ensures forall p :: p in discarded <==> p in maxima && !inside(p)
  {
    forall p ensures p in kept <==> p in maxima && inside(p) {
      FilterMembers(maxima, inside, p);
    }
    FilterAgrees(maxima, (p: YX) => p !in kept, Complement(inside));
    FilterPartitions(maxima, inside);
    forall p ensures p in discarded <==> p in maxima && !inside(p) {
      FilterMembers(maxima, Complement(inside), p);
    }
  }

  /** The foreign median filter returns a profile as long as its input. */
  ghost predicate PreservesLength(filter: seq<int> -> seq<int>)
  {
    forall s :: |filter(s)| == |s|
  }

  /** The bead at maximum `p`: its z is the first argmax of the filtered Z
      profile of column (y, x), and it keeps that (y, x). */
  function LocateBead(image: Grid3<int>, medianZ: seq<int> -> seq<int>, p: YX): (b: Bead)
    requires image.Valid() && image.Depth() > 0 && PreservesLength(medianZ)
    requires image.InPlane(p.y, p.x)
    ensures b.y == p.y && b.x == p.x && 0 <= b.z < image.Depth()
    ensures var profile := medianZ(image.Column(p.y, p.x));
      (forall z :: 0 <= z < |profile| ==> profile[z] <= profile[b.z])
      && (forall z :: 0 <= z < b.z ==> profile[z] < profile[b.z])
  {
    var profile := medianZ(image.Column(p.y, p.x));
    Bead(ArgMax(profile), p.y, p.x)
  }

  predicate AllInPlane(image: Grid3<int>, ps: seq<YX>)
  {
    forall p :: p in ps ==> image.InPlane(p.y, p.x)
  }

  /** `LocateBead` applied to every maximum, in order. */
  function LocateAll(image: Grid3<int>, medianZ: seq<int> -> seq<int>, ps: seq<YX>): (bs: seq<Bead>)
    requires image.Valid() && image.Depth() > 0 && PreservesLength(medianZ)
    requires AllInPlane(image, ps)
    ensures |bs| == |ps|
    ensures forall i :: 0 <= i < |ps| ==> bs[i] == LocateBead(image, medianZ, ps[i])
    decreases |ps|
  {
    if |ps| == 0 then []
    else LocateAll(image, medianZ, ps[..|ps| - 1]) + [LocateBead(image, medianZ, ps[|ps| - 1])]
  }

  /** The Z test of `_find_bead_positions`: strict on both sides, or waived. */
  function KeepZ(depth: int, border: int, noFilter: bool): Bead -> bool
  {
    (b: Bead) => border < b.z < depth - border || noFilter
  }

  /** `_find_bead_positions`: locate every maximum and sort it by the Z test. */
  method FindBeadPositions(image: Grid3<int>, border: int, medianZ: seq<int> -> seq<int>,
                           xyBeads: seq<YX>, noFilter: bool)
    returns (beadPos: seq<Bead>, discarded: seq<Bead>)
    requires image.Valid() && image.Depth() > 0 && PreservesLength(medianZ)
    requires AllInPlane(image, xyBeads)
    ensures beadPos == Filter(LocateAll(image, medianZ, xyBeads), KeepZ(image.Depth(), border, noFilter))
    ensures discarded == Filter(LocateAll(image, medianZ, xyBeads), Complement(KeepZ(image.Depth(), border, noFilter)))
  {
    var keep := KeepZ(image.Depth(), border, noFilter);
    beadPos, discarded := [], [];
    var i := 0;
    while i < |xyBeads|
      invariant 0 <= i <= |xyBeads|
      invariant beadPos == Filter(LocateAll(image, medianZ, xyBeads[..i]), keep)
      invariant discarded == Filter(LocateAll(image, medianZ, xyBeads[..i]), Complement(keep))
    {
      var p := xyBeads[i];
      var profile := medianZ(image.Column(p.y, p.x));
      var z := ArgMax(profile);
      ghost var located := LocateAll(image, medianZ, xyBeads[..i]);
      LocateAllStep(image, medianZ, xyBeads, i);
      FilterStep(located, Bead(z, p.y, p.x), keep);
      FilterStep(located, Bead(z, p.y, p.x), Complement(keep));
      if border < z < image.Depth() - border || noFilter {
        beadPos := beadPos + [Bead(z, p.y, p.x)];
      } else {
        discarded := discarded + [Bead(z, p.y, p.x)];
      }
      i := i + 1;
    }
    assert xyBeads[..i] == xyBeads;
  }

  lemma LocateAllStep(image: Grid3<int>, medianZ: seq<int> -> seq<int>, ps: seq<YX>, i: nat)
    requires image.Valid() && image.Depth() > 0 && PreservesLength(medianZ)
    requires AllInPlane(image, ps) && i < |ps|
    ensures LocateAll(image, medianZ, ps[..i + 1]) == LocateAll(image, medianZ, ps[..i]) + [LocateBead(image, medianZ, ps[i])]
  {
    assert ps[..i + 1][..i] == ps[..i];
  }

  /** A located bead comes from one of the maxima and sits where `LocateBead` puts it. */
  lemma LocatedFrom(image: Grid3<int>, medianZ: seq<int> -> seq<int>, ps: seq<YX>, b: Bead)
    requires image.Valid() && image.Depth() > 0 && PreservesLength(medianZ)
    requires AllInPlane(image, ps)
    requires b in LocateAll(image, medianZ, ps)
    ensures YX(b.y, b.x) in ps
    ensures b == LocateBead(image, medianZ, YX(b.y, b.x))
  {
    var bs := LocateAll(image, medianZ, ps);
    var i :| 0 <= i < |bs| && bs[i] == b;
    assert ps[i] in ps;
  }

  /** With `no_filter` every located bead is kept and none is discarded. */
  lemma NoFilterKeepsAll(image: Grid3<int>, border: int, medianZ: seq<int> -> seq<int>, xyBeads: seq<YX>)
    requires image.Valid() && image.Depth() > 0 && PreservesLength(medianZ)
    requires AllInPlane(image, xyBeads)
    ensures Filter(LocateAll(image, medianZ, xyBeads), KeepZ(image.Depth(), border, true))
         == LocateAll(image, medianZ, xyBeads)
    ensures Filter(LocateAll(image, medianZ, xyBeads), Complement(KeepZ(image.Depth(), border, true))) == []
  {
    FilterAll(LocateAll(image, medianZ, xyBeads), KeepZ(image.Depth(), border, true));
  }

  /** With filtering on, a located bead is kept iff its z is strictly inside
      the Z border; kept and discarded together are the located beads in order. */
  lemma ZFilterSplits(image: Grid3<int>, border: int, medianZ: seq<int> -> seq<int>, xyBeads: seq<YX>)
    requires image.Valid() && image.Depth() > 0 && PreservesLength(medianZ)
    requires AllInPlane(image, xyBeads)
    ensures var located := LocateAll(image, medianZ, xyBeads);
      var keep := KeepZ(image.Depth(), border, false);
      Interleaves(located, Filter(located, keep), Filter(located, Complement(keep)))
      && (forall b :: b in Filter(located, keep) <==> b in located && border < b.z < image.Depth() - border)
      && (forall b :: b in Filter(located, Complement(keep)) <==>
            b in located && !(border < b.z < image.Depth() - border))
  {
    var located := LocateAll(image, medianZ, xyBeads);
    var keep := KeepZ(image.Depth(), border, false);
    FilterPartitions(located, keep);
    forall b ensures b in Filter(located, keep) <==> b in located && border < b.z < image.Depth() - border {
      FilterMembers(located, keep, b);
    }
    forall b ensures b in Filter(located, Complement(keep)) <==>
      b in located && !(border < b.z < image.Depth() - border) {
      FilterMembers(located, Complement(keep), b);
    }
  }

  function SquaredDistance(a: Bead, b: Bead): nat
  {
    (a.z - b.z) * (a.z - b.z) + (a.y - b.y) * (a.y - b.y) + (a.x - b.x) * (a.x - b.x)
  }

  /** Every other bead (one with different coordinates) is more than five voxels
      away; vacuously true for a lone bead, whose nearest distance is infinity. */
  predicate Isolated(b: Bead, beads: seq<Bead>)
  {
    forall n :: n in beads && n != b ==> SquaredDistance(b, n) > NeighbourDistance * NeighbourDistance
  }

  function IsolatedIn(beads: seq<Bead>): Bead -> bool
  {
    (b: Bead) => Isolated(b, beads)
  }

  /** `filter_beads_by_neighbour_distance`: for each bead, the smallest distance
      to a bead with different coordinates (None standing for infinity, distances
      kept squared), and the bead is valid iff that is more than five voxels. */
  method FilterByNeighbourDistance(beads: seq<Bead>) returns (valid: seq<Bead>, discarded: seq<Bead>)
    ensures valid == Filter(beads, IsolatedIn(beads))
    ensures discarded == Filter(beads, Complement(IsolatedIn(beads)))
  {
    valid, discarded := [], [];
    var i := 0;
    while i < |beads|
      invariant 0 <= i <= |beads|
      invariant valid == Filter(beads[..i], IsolatedIn(beads))
      invariant discarded == Filter(beads[..i], Complement(IsolatedIn(beads)))
    {
      var bead := beads[i];
      var smallest := NearestSquaredDistance(bead, beads);
      var isolated := smallest.None? || smallest.value > NeighbourDistance * NeighbourDistance;
      IsolatedByNearest(bead, beads, smallest);
      if isolated {
        valid := valid + [bead];
      } else {
        discarded := discarded + [bead];
      }
      assert beads[..i + 1][..i] == beads[..i];
      i := i + 1;
    }
    assert beads[..i] == beads;
  }

  /** The inner loop of `filter_beads_by_neighbour_distance`: the smallest
      squared distance from `bead` to a bead with other coordinates, or None
      when there is none. */
  method NearestSquaredDistance(bead: Bead, beads: seq<Bead>) returns (smallest: Option<nat>)
    ensures smallest.None? ==> forall k :: 0 <= k < |beads| ==> beads[k] == bead
    ensures smallest.Some? ==>
      (forall k :: 0 <= k < |beads| && beads[k] != bead ==> smallest.value <= SquaredDistance(bead, beads[k]))
      && exists k :: 0 <= k < |beads| && beads[k] != bead && smallest.value == SquaredDistance(bead, beads[k])
  {
    smallest := None;
    var j := 0;
    while j < |beads|
      invariant 0 <= j <= |beads|
      invariant smallest.None? ==> forall k :: 0 <= k < j ==> beads[k] == bead
      invariant smallest.Some? ==>
        (forall k :: 0 <= k < j && beads[k] != bead ==> smallest.value <= SquaredDistance(bead, beads[k]))
        && exists k :: 0 <= k < j && beads[k] != bead && smallest.value == SquaredDistance(bead, beads[k])
    {
      var neighbour := beads[j];
      if bead != neighbour {
        var distance := SquaredDistance(bead, neighbour);
        if smallest.None? || distance < smallest.value {
          smallest := Some(distance);
        }
      }
      j := j + 1;
    }
  }

  /** A bead is isolated iff it has no neighbour or its nearest one is more than five away. */
  lemma IsolatedByNearest(bead: Bead, beads: seq<Bead>, smallest: Option<nat>)
    requires smallest.None? ==> forall k :: 0 <= k < |beads| ==> beads[k] == bead
    requires smallest.Some? ==>
      (forall k :: 0 <= k < |beads| && beads[k] != bead ==> smallest.value <= SquaredDistance(bead, beads[k]))
      && exists k :: 0 <= k < |beads| && beads[k] != bead && smallest.value == SquaredDistance(bead, beads[k])
    ensures (smallest.None? || smallest.value > NeighbourDistance * NeighbourDistance) == Isolated(bead, beads)
  {
    if smallest.Some? {
      var k :| 0 <= k < |beads| && beads[k] != bead && smallest.value == SquaredDistance(bead, beads[k]);
      assert beads[k] in beads;
    }
  }

  /** The neighbour filter splits its input in order, and a bead is valid iff
      every bead with other coordinates is more than five voxels away. */
  lemma NeighbourFilterSplits(beads: seq<Bead>)
    ensures Interleaves(beads, Filter(beads, IsolatedIn(beads)), Filter(beads, Complement(IsolatedIn(beads))))
    ensures forall b :: b in Filter(beads, IsolatedIn(beads)) <==>
      b in beads && forall n :: n in beads && n != b ==> SquaredDistance(b, n) > 25
    ensures forall b :: b in Filter(beads, Complement(IsolatedIn(beads))) <==>
      b in beads && exists n :: n in beads && n != b && SquaredDistance(b, n) <= 25
  {
    FilterPartitions(beads, IsolatedIn(beads));
    forall b ensures b in Filter(beads, IsolatedIn(beads)) <==> b in beads && Isolated(b, beads) {
      FilterMembers(beads, IsolatedIn(beads), b);
    }
    forall b ensures b in Filter(beads, Complement(IsolatedIn(beads))) <==> b in beads && !Isolated(b, beads) {
      FilterMembers(beads, Complement(IsolatedIn(beads)), b);
    }
  }

  /** Two beads exactly five voxels apart are both discarded. */
  lemma FiveApartBothDiscarded()
    ensures var beads := [Bead(10, 10, 10), Bead(10, 13, 14)];
      Filter(beads, IsolatedIn(beads)) == []
      && Filter(beads, Complement(IsolatedIn(beads))) == beads
  {
    var beads := [Bead(10, 10, 10), Bead(10, 13, 14)];
    assert SquaredDistance(beads[0], beads[1]) == 25 && SquaredDistance(beads[1], beads[0]) == 25;
    assert beads[0] in beads && beads[1] in beads;
    assert !Isolated(beads[0], beads) && !Isolated(beads[1], beads);
    assert beads[..1] == [beads[0]];
  }

  /** Two beads sqrt(26) > 5 voxels apart are both kept, and a lone bead is kept. */
  lemma JustOverFiveApartBothKept(lone: Bead)
    ensures var beads := [Bead(10, 10, 10), Bead(11, 10, 15)];
      Filter(beads, IsolatedIn(beads)) == beads
    ensures Filter([lone], IsolatedIn([lone])) == [lone]
  {
    var beads := [Bead(10, 10, 10), Bead(11, 10, 15)];
    assert SquaredDistance(beads[0], beads[1]) == 26 && SquaredDistance(beads[1], beads[0]) == 26;
    assert Isolated(beads[0], beads) && Isolated(beads[1], beads);
    assert beads[..1] == [beads[0]];
    assert Isolated(lone, [lone]);
  }

  /** What `find_beads` returns once the peak detector has given `maxima`:
      the neighbour-filtered Z-and-XY survivors, and as discarded the Z-border
      rejects followed by the XY-border rejects, each given a z. */
  function FindBeadsSpec(image: Grid3<int>, border: int, maxima: seq<YX>,
                         medianZ: seq<int> -> seq<int>): (seq<Bead>, seq<Bead>)
    requires image.Valid() && image.Depth() > 0 && PreservesLength(medianZ)
    requires AllInPlane(image, maxima)
  {
    var split := SplitMaxima(maxima, image.height, image.width, border);
    var located := LocateAll(image, medianZ, split.0);
    var beads := Filter(located, KeepZ(image.Depth(), border, false));
    var zDiscarded := Filter(located, Complement(KeepZ(image.Depth(), border, false)));
    var xyDiscarded := Filter(LocateAll(image, medianZ, split.1), KeepZ(image.Depth(), border, true));
    (Filter(beads, IsolatedIn(beads)), zDiscarded + xyDiscarded)
  }

  /** `find_beads` from the detected maxima on. */
  method FindBeadsFromMaxima(image: Grid3<int>, border: int, maxima: seq<YX>, medianZ: seq<int> -> seq<int>)
    returns (beads: seq<Bead>, discarded: seq<Bead>)
    requires image.Valid() && image.Depth() > 0 && PreservesLength(medianZ)
    requires AllInPlane(image, maxima)
    ensures (beads, discarded) == FindBeadsSpec(image, border, maxima, medianZ)
  {
    var split := SplitMaxima(maxima, image.height, image.width, border);
    var xyBeads, discardedXY := split.0, split.1;
    var zBeads, zDiscarded := FindBeadPositions(image, border, medianZ, xyBeads, false);
    var xyDiscardedBeads, _ := FindBeadPositions(image, border, medianZ, discardedXY, true);
    discarded := zDiscarded + xyDiscardedBeads;
    var byNeighbourDistance;
    beads, byNeighbourDistance := FilterByNeighbourDistance(zBeads);
  }

  /** Every accepted bead comes from a detected maximum, lies strictly inside
      the XY and Z borders, sits at the first argmax of its filtered profile,
      and is more than five voxels from every other bead that passed both
      border tests. */
  lemma AcceptedBeadsPassEveryFilter(image: Grid3<int>, border: int, maxima: seq<YX>,
                                     medianZ: seq<int> -> seq<int>, b: Bead)
    requires image.Valid() && image.Depth() > 0 && PreservesLength(medianZ)
    requires AllInPlane(image, maxima)
    requires b in FindBeadsSpec(image, border, maxima, medianZ).0
    ensures YX(b.y, b.x) in maxima
    ensures border < b.y < image.height - border && border < b.x < image.width - border
    ensures border < b.z < image.Depth() - border
    ensures b == LocateBead(image, medianZ, YX(b.y, b.x))
    ensures var split := SplitMaxima(maxima, image.height, image.width, border);
      var located := LocateAll(image, medianZ, split.0);
      Isolated(b, Filter(located, KeepZ(image.Depth(), border, false)))
  {
    var split := SplitMaxima(maxima, image.height, image.width, border);
    var located := LocateAll(image, medianZ, split.0);
    var beads := Filter(located, KeepZ(image.Depth(), border, false));
    FilterMembers(beads, IsolatedIn(beads), b);
    FilterMembers(located, KeepZ(image.Depth(), border, false), b);
    LocatedFrom(image, medianZ, split.0, b);
  }

  /** Every discarded bead fails the XY border test or the Z border test; the
      XY rejects each appear once, given a z. */
  lemma DiscardedBeadsFailABorder(image: Grid3<int>, border: int, maxima: seq<YX>,
                                  medianZ: seq<int> -> seq<int>, b: Bead)
    requires image.Valid() && image.Depth() > 0 && PreservesLength(medianZ)
    requires AllInPlane(image, maxima)
    requires b in FindBeadsSpec(image, border, maxima, medianZ).1
    ensures YX(b.y, b.x) in maxima
    ensures !(border < b.y < image.height - border && border < b.x < image.width - border)
         || !(border < b.z < image.Depth() - border)
  {
    var split := SplitMaxima(maxima, image.height, image.width, border);
    var keep := KeepZ(image.Depth(), border, false);
    if b in Filter(LocateAll(image, medianZ, split.0), Complement(keep)) {
      FilterMembers(LocateAll(image, medianZ, split.0), Complement(keep), b);
      LocatedFrom(image, medianZ, split.0, b);
    } else {
      NoFilterKeepsAll(image, border, medianZ, split.1);
      LocatedFrom(image, medianZ, split.1, b);
    }
  }

  /** Beads rejected by the neighbour filter appear in neither returned list. */
  lemma NeighbourRejectsAreDropped(image: Grid3<int>, border: int, maxima: seq<YX>,
                                   medianZ: seq<int> -> seq<int>, b: Bead)
    requires image.Valid() && image.Depth() > 0 && PreservesLength(medianZ)
    requires AllInPlane(image, maxima)
    requires var split := SplitMaxima(maxima, image.height, image.width, border);
      var beads := Filter(LocateAll(image, medianZ, split.0), KeepZ(image.Depth(), border, false));
      b in Filter(beads, Complement(IsolatedIn(beads)))
    ensures b !in FindBeadsSpec(image, border, maxima, medianZ).0
    ensures b !in FindBeadsSpec(image, border, maxima, medianZ).1
  {
    var split := SplitMaxima(maxima, image.height, image.width, border);
    var located := LocateAll(image, medianZ, split.0);
    var beads := Filter(located, KeepZ(image.Depth(), border, false));
    FilterMembers(beads, Complement(IsolatedIn(beads)), b);
    FilterMembers(beads, IsolatedIn(beads), b);
    FilterMembers(located, KeepZ(image.Depth(), border, false), b);
    LocatedFrom(image, medianZ, split.0, b);
    if b in FindBeadsSpec(image, border, maxima, medianZ).1 {
      DiscardedBeadsFailABorder(image, border, maxima, medianZ, b);
      assert false;
    }
  }

  /** The stateful finder: `close` sets the image to None. */
  class BeadFinder {
    var image: Option<Grid3<int>>
    const border: int

    constructor (image: Grid3<int>)
      ensures this.image == Some(image) && border == DefaultBorder
    {
      this.image := Some(image);
      border := DefaultBorder;
    }

    /** `find_beads`. `detectPeaks` stands for `peak_local_max` (min_distance 2,
        threshold_abs 3000) applied to the size-3 median filter of the projection;
        `medianZ` for the size-2 median filter of a Z profile. */
    method FindBeads(detectPeaks: seq<seq<int>> -> seq<YX>, medianZ: seq<int> -> seq<int>)
      returns (r: Result<(seq<Bead>, seq<Bead>), FinderError>)
      requires image.Some? ==> image.value.Valid()
      requires PreservesLength(medianZ)
      requires image.Some? && image.value.Depth() > 0 ==>
        AllInPlane(image.value, detectPeaks(MaxProjection(image.value)))
      ensures image.None? ==> r == Failure(ImageClosed)
      ensures image.Some? && image.value.Depth() == 0 ==> r == Failure(EmptyProjection)
      ensures image.Some? && image.value.Depth() > 0 ==>
        r == Success(FindBeadsSpec(image.value, border, detectPeaks(MaxProjection(image.value)), medianZ))
    {
      if image.None? {
        return Failure(ImageClosed);
      }
      var volume := image.value;
      if volume.Depth() == 0 {
        return Failure(EmptyProjection);
      }
      var maxima := detectPeaks(MaxProjection(volume));
      var beads, discarded := FindBeadsFromMaxima(volume, border, maxima, medianZ);
      r := Success((beads, discarded));
    }

    method Close()
      modifies this
      ensures image == None
    {
      image := None;
    }
  }
}
