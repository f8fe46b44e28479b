/**
 * The ribbon vertex buffer built by `Sketch.addObjects` (app.js): every
 * spaced point of the closed curve is pushed twice, once per half-width,
 * displaced by a shared binormal accumulator; afterwards the two seam
 * vertices are overwritten by copies so that the loop closes exactly.
 *
 * The curve samples and the Frenet binormals come from three.js and are
 * taken here as opaque input sequences of length `number + 1`.
 */
module Ribbon {
  import opened Vectors

  /** Number of curve segments sampled (`number`). */
  const Segments: nat := 1000

  /** The two half-widths of the ribbon (`dimensions`). */
  const Dimensions: seq<real> := [-0.1, 0.1]

  /** Index count given to each material group by `addGroup`. */
  const GroupIndexCount: nat := 6000

  // ---------------------------------------------------------------------
  // Specification of the buffer
  // ---------------------------------------------------------------------

  /**
   * Value of the accumulator `binormalShift` after the first `n` steps of
   * one pass of width `d` that started from `start`; each step is
   * `shift := (shift + binormals[i]) * d`.
   */
  function Shift(start: Vec3, binormals: seq<Vec3>, d: real, n: nat): Vec3
    requires n <= |binormals|
  {
    if n == 0 then start
    else Scale(Add(Shift(start, binormals, d, n - 1), binormals[n - 1]), d)
  }

  /**
   * Value of the accumulator when pass `k` begins. It is zero only for the
   * first pass: the accumulator is declared once and carries over.
   */
  function PassStart(binormals: seq<Vec3>, dims: seq<real>, k: nat): Vec3
    requires k <= |dims|
  {
    if k == 0 then Zero
    else Shift(PassStart(binormals, dims, k - 1), binormals, dims[k - 1], |binormals|)
  }

  /** The vertices pushed by one pass of width `d` starting from `start`. */
  function Row(points: seq<Vec3>, binormals: seq<Vec3>, d: real, start: Vec3): seq<Vec3>
    requires |points| == |binormals|
  {
    seq(|points|, i requires 0 <= i < |points| => Add(points[i], Shift(start, binormals, d, i + 1)))
  }

  /** The vertices pushed by the first `k` passes, in push order. */
  function Rows(points: seq<Vec3>, binormals: seq<Vec3>, dims: seq<real>, k: nat): (r: seq<Vec3>)
    requires |points| == |binormals| && k <= |dims|
    ensures |r| == k * |points|
  {
    if k == 0 then []
    else
      var prefix := Rows(points, binormals, dims, k - 1);
      assert (k - 1) * |points| + |points| == k * |points|;
      prefix + Row(points, binormals, dims[k - 1], PassStart(binormals, dims, k - 1))
  }

  /** The whole buffer `finalPoints` before the seam is stitched. */
  function OffsetPoints(points: seq<Vec3>, binormals: seq<Vec3>, dims: seq<real>): seq<Vec3>
    requires |points| == |binormals|
  {
    Rows(points, binormals, dims, |dims|)
  }

  /** `s[target].copy(s[source])` on a buffer of distinct vectors. */
  function Copy(s: seq<Vec3>, target: nat, source: nat): seq<Vec3>
    requires target < |s| && source < |s|
  {
    s[target := s[source]]
  }

  /**
   * The two seam copies: the start of the first row takes the value at
   * index `number`, index `number + 1` takes the value at `2 * number + 1`.
   * Afterwards both seam pairs are equal and nothing else has changed.
   */
  function StitchSeam(s: seq<Vec3>, number: nat): (r: seq<Vec3>)
    requires 2 * number + 1 < |s|
    ensures |r| == |s|
    ensures r[0] == r[number] == s[number]
    ensures r[number + 1] == r[2 * number + 1] == s[2 * number + 1]
    ensures forall j :: 0 <= j < |s| && j != 0 && j != number + 1 ==> r[j] == s[j]
  {
    Copy(Copy(s, 0, number), number + 1, 2 * number + 1)
  }

  // ---------------------------------------------------------------------
  // Plane geometry and material groups
  // ---------------------------------------------------------------------

  /** `addGroup(start, count, materialIndex)`. */
  datatype Group = Group(start: nat, count: nat, materialIndex: nat)

  /** Vertices of a `PlaneGeometry` with the given segment counts. */
  function PlaneVertexCount(widthSegments: nat, heightSegments: nat): nat {
    (widthSegments + 1) * (heightSegments + 1)
  }

  /** Indices of a `PlaneGeometry`: two triangles per grid cell. */
  function PlaneIndexCount(widthSegments: nat, heightSegments: nat): nat {
    6 * widthSegments * heightSegments
  }

  /** The two groups added to the plane: same range, materials 0 and 1. */
  function MaterialGroups(): (r: seq<Group>)
    ensures |r| == 2
    ensures r[0].start == r[1].start == 0 && r[0].count == r[1].count == GroupIndexCount
    ensures r[0].materialIndex == 0 && r[1].materialIndex == 1
  {
    [Group(0, GroupIndexCount, 0), Group(0, GroupIndexCount, 1)]
  }

  /**
   * Both groups span the whole index range of the `number`-segment plane
   * exactly when `number` is the sketch's own segment count: the group
   * size is a literal, not derived from `number`.
   */
  lemma GroupsSpanPlane(number: nat)
    ensures (forall g :: g in MaterialGroups() ==> g.start == 0 && g.count == PlaneIndexCount(number, 1))
            <==> number == Segments
  {
    var r := MaterialGroups();
    assert r[0] in r;
    assert PlaneIndexCount(number, 1) == 6 * number;
  }

  // ---------------------------------------------------------------------
  // Properties of the buffer
  // ---------------------------------------------------------------------

  lemma MulStep(k: nat, n: nat, m: nat)
    requires k < n
    ensures k * m + m <= n * m
  {
    var j := n - k - 1;
    assert n * m == k * m + m + j * m;
  }

  lemma {:induction false} RowsAt(points: seq<Vec3>, binormals: seq<Vec3>, dims: seq<real>, n: nat, k: nat, i: nat)
    requires |points| == |binormals| && n <= |dims| && k < n && i < |points|
    ensures k * |points| + i < |Rows(points, binormals, dims, n)|
    ensures Rows(points, binormals, dims, n)[k * |points| + i]
            == Add(points[i], Shift(PassStart(binormals, dims, k), binormals, dims[k], i + 1))
  {
    var m := |points|;
    MulStep(k, n, m);
    var prefix := Rows(points, binormals, dims, n - 1);
    var row := Row(points, binormals, dims[n - 1], PassStart(binormals, dims, n - 1));
    assert Rows(points, binormals, dims, n) == prefix + row;
    if k < n - 1 {
      RowsAt(points, binormals, dims, n - 1, k, i);
      MulStep(k, n - 1, m);
    } else {
      assert k * m == |prefix|;
      assert (prefix + row)[k * m + i] == row[i];
    }
  }

  /**
   * Closed form of the buffer: the entry pushed at step `i` of pass `k`
   * is `points[i]` plus the accumulator after that step.
   */
  lemma RibbonPointAt(points: seq<Vec3>, binormals: seq<Vec3>, dims: seq<real>, k: nat, i: nat)
    requires |points| == |binormals| && k < |dims| && i < |points|
    ensures |OffsetPoints(points, binormals, dims)| == |dims| * |points|
    ensures k * |points| + i < |OffsetPoints(points, binormals, dims)|
    ensures OffsetPoints(points, binormals, dims)[k * |points| + i]
            == Add(points[i], Shift(PassStart(binormals, dims, k), binormals, dims[k], i + 1))
  {
    RowsAt(points, binormals, dims, |dims|, k, i);
  }

  /**
   * The buffer read back as one accumulator stream: subtracting each
   * entry's curve point recovers the accumulator, which starts at zero,
   * obeys `shift := (shift + binormals[i]) * d` at every step, and runs on
   * from the last entry of a pass into the first entry of the next.
   */
  lemma BufferRecurrence(points: seq<Vec3>, binormals: seq<Vec3>, dims: seq<real>, k: nat, i: nat)
    requires |points| == |binormals| && k < |dims| && i < |points|
    ensures var r := OffsetPoints(points, binormals, dims);
            var j := k * |points| + i;
            j < |r| &&
            r[j] == Add(points[i], Scale(Add(
                      if i > 0 then Sub(r[j - 1], points[i - 1])
                      else if k > 0 then Sub(r[j - 1], points[|points| - 1])
                      else Zero,
                      binormals[i]), dims[k]))
  {
    var r := OffsetPoints(points, binormals, dims);
    var m := |points|;
    RibbonPointAt(points, binormals, dims, k, i);
    var start := PassStart(binormals, dims, k);
    if i > 0 {
      RibbonPointAt(points, binormals, dims, k, i - 1);
      SubAddCancel(points[i - 1], Shift(start, binormals, dims[k], i));
    } else if k > 0 {
      RibbonPointAt(points, binormals, dims, k - 1, m - 1);
      assert (k - 1) * m + (m - 1) == k * m - 1;
      SubAddCancel(points[m - 1], Shift(PassStart(binormals, dims, k - 1), binormals, dims[k - 1], m));
    }
  }

  /**
   * The two seam copies commute: neither reads what the other writes, so
   * the second copy does not undo the first.
   */
  lemma SeamCopiesCommute(s: seq<Vec3>, number: nat)
    requires 2 * number + 1 < |s|
    ensures StitchSeam(s, number) == Copy(Copy(s, number + 1, 2 * number + 1), 0, number)
  {
  }

  // ---------------------------------------------------------------------
  // The construction as the source performs it
  // ---------------------------------------------------------------------

  /**
   * The `dimensions.forEach` loop: one shared accumulator, one fresh vector
   * pushed per step, inputs left untouched.
   */
  method OffsetAlongBinormals(number: nat, spacedPoints: seq<Vec3>, binormals: seq<Vec3>, dims: seq<real>)
    returns (finalPoints: seq<Vec3>)
    requires |spacedPoints| == number + 1 && |binormals| == number + 1
    ensures |finalPoints| == |dims| * (number + 1)
    ensures finalPoints == OffsetPoints(spacedPoints, binormals, dims)
  {
    var binormalShift := Zero;
    finalPoints := [];
    var k := 0;
    while k < |dims|
      invariant 0 <= k <= |dims|
      invariant binormalShift == PassStart(binormals, dims, k)
      invariant finalPoints == Rows(spacedPoints, binormals, dims, k)
    {
      var d := dims[k];
      ghost var row := Row(spacedPoints, binormals, d, PassStart(binormals, dims, k));
      ghost var before := finalPoints;
      var i := 0;
      while i <= number
        invariant 0 <= i <= number + 1
        invariant binormalShift == Shift(PassStart(binormals, dims, k), binormals, d, i)
        invariant finalPoints == before + row[..i]
      {
        var point := spacedPoints[i];
        binormalShift := Scale(Add(binormalShift, binormals[i]), d);
        finalPoints := finalPoints + [Add(point, binormalShift)];
        assert row[..i + 1] == row[..i] + [row[i]];
        i := i + 1;
      }
      assert row[..number + 1] == row;
      k := k + 1;
    }
  }

  /**
   * `addObjects` from the curve samples to the buffer handed to
   * `setFromPoints`: both widths, then the two seam copies. The buffer has
   * exactly as many vertices as the `number` by 1 plane.
   */
  method BuildRibbonPoints(number: nat, spacedPoints: seq<Vec3>, binormals: seq<Vec3>)
    returns (finalPoints: seq<Vec3>)
    requires |spacedPoints| == number + 1 && |binormals| == number + 1
    ensures |finalPoints| == 2 * (number + 1) == PlaneVertexCount(number, 1)
    ensures finalPoints == StitchSeam(OffsetPoints(spacedPoints, binormals, Dimensions), number)
  {
    finalPoints := OffsetAlongBinormals(number, spacedPoints, binormals, Dimensions);
    finalPoints := finalPoints[0 := finalPoints[number]];
    finalPoints := finalPoints[number + 1 := finalPoints[2 * number + 1]];
  }

  /**
   * After stitching, the first vertex of each row is the row's last
   * vertex: the curve point at index `number` displaced by the accumulator
   * at the end of that pass.
   */
  lemma SeamVertices(number: nat, spacedPoints: seq<Vec3>, binormals: seq<Vec3>)
    requires |spacedPoints| == number + 1 && |binormals| == number + 1
    ensures var r := StitchSeam(OffsetPoints(spacedPoints, binormals, Dimensions), number);
            |r| == 2 * (number + 1) &&
            r[0] == r[number] == Add(spacedPoints[number], PassStart(binormals, Dimensions, 1)) &&
            r[number + 1] == r[2 * number + 1] == Add(spacedPoints[number], PassStart(binormals, Dimensions, 2))
  {
    RibbonPointAt(spacedPoints, binormals, Dimensions, 0, number);
    RibbonPointAt(spacedPoints, binormals, Dimensions, 1, number);
  }
}
