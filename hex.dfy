/** Axial hex coordinates: the pixel transform and the hexagonal disk (lib/hex.ts). */
module Hex {
  import opened Common

  datatype Axial = Axial(q: int, r: int)
  datatype Point = Point(x: real, y: real)

  const HEX_SIZE: real := 30.0

  /** `Math.sqrt(3)`. Only its positivity is used below; the value is the
      decimal form of the double the source computes. */
  const SQRT3: real := 1.7320508075688772

  /** `axialToPixel`: the pointy-top axial-to-pixel transform. */
  function AxialToPixel(c: Axial): (p: Point)
    ensures p.y == 45.0 * c.r as real
    ensures p.x == HEX_SIZE * SQRT3 * (c.q as real + c.r as real / 2.0)
  {
    Point(HEX_SIZE * (SQRT3 * c.q as real + (SQRT3 / 2.0) * c.r as real),
          HEX_SIZE * (3.0 / 2.0) * c.r as real)
  }

  /** `hexCenter(q, r)` */
  function HexCenter(q: int, r: int): (p: Point)
    ensures p.x == HEX_SIZE * SQRT3 * (q as real + r as real / 2.0) && p.y == 45.0 * r as real
  {
    AxialToPixel(Axial(q, r))
  }

  /** Centres along a row are `30·√3` apart at the same height; the next row
      is 45 lower and shifted right by half that width. */
  lemma HexCenterSpacing(q: int, r: int)
    ensures HexCenter(q + 1, r).y == HexCenter(q, r).y
    ensures HexCenter(q + 1, r).x - HexCenter(q, r).x == HEX_SIZE * SQRT3
    ensures HexCenter(q, r + 1).y - HexCenter(q, r).y == 45.0
    ensures HexCenter(q, r + 1).x - HexCenter(q, r).x == HEX_SIZE * SQRT3 / 2.0
  {
    var k := HEX_SIZE * SQRT3;
    assert HexCenter(q + 1, r).x == k * (q as real + r as real / 2.0) + k;
    assert HexCenter(q, r + 1).x == k * (q as real + r as real / 2.0) + k / 2.0;
  }

  /** Distinct hexes have distinct centres: `y` fixes `r`, then `x` fixes `q`. */
  lemma AxialToPixelInjective(a: Axial, b: Axial)
    requires AxialToPixel(a) == AxialToPixel(b)
    ensures a == b
  {
    assert a.r == b.r;
    var k := HEX_SIZE * SQRT3;
    assert k * (a.q as real + a.r as real / 2.0) == k * (b.q as real + b.r as real / 2.0);
    assert a.q as real + a.r as real / 2.0 == b.q as real + b.r as real / 2.0;
  }

  // ---------------------------------------------------------------------
  // The hexagonal disk.

  /** The first and last `r` of column `q` in the loop of `axialDisk`. */
  function RowStart(radius: int, q: int): int { Max(-radius, -q - radius) }
  function RowEnd(radius: int, q: int): int { Min(radius, -q + radius) }

  /** `(q, r)`, `(q, r + 1)`, ..., `(q, r2)`: what the inner loop pushes from `r` on. */
  function RowFrom(q: int, r: int, r2: int): seq<Axial>
    decreases r2 + 1 - r
  {
    if r > r2 then [] else [Axial(q, r)] + RowFrom(q, r + 1, r2)
  }

  /** Column `q` of the disk. */
  function Row(radius: int, q: int): seq<Axial> {
    RowFrom(q, RowStart(radius, q), RowEnd(radius, q))
  }

  /** Columns `q` .. `radius`, in loop order. */
  function DiskFrom(radius: int, q: int): seq<Axial>
    decreases radius + 1 - q
  {
    if q > radius then [] else Row(radius, q) + DiskFrom(radius, q + 1)
  }

  /** The reference value of `axialDisk(radius)`. */
  function Disk(radius: int): seq<Axial> {
    DiskFrom(radius, -radius)
  }

  /** `axialDisk`: nested loops pushing every coordinate of the disk. */
  method AxialDisk(radius: int) returns (res: seq<Axial>)
    ensures res == Disk(radius)
  {
    res := [];
    var q := -radius;
    while q <= radius
      invariant res + DiskFrom(radius, q) == Disk(radius)
      decreases radius + 1 - q
    {
      var r1 := Max(-radius, -q - radius);
      var r2 := Min(radius, -q + radius);
      ghost var before := res;
      var r := r1;
      while r <= r2
        invariant res + RowFrom(q, r, r2) == before + Row(radius, q)
        decreases r2 + 1 - r
      {
        res := res + [Axial(q, r)];
        r := r + 1;
      }
      assert res == before + Row(radius, q);
      assert before + DiskFrom(radius, q) == res + DiskFrom(radius, q + 1);
      q := q + 1;
    }
  }

  lemma {:induction false} RowFromFacts(q: int, r: int, r2: int, c: Axial)
    ensures |RowFrom(q, r, r2)| == Max(0, r2 - r + 1)
    ensures c in RowFrom(q, r, r2) <==> c.q == q && r <= c.r <= r2
    ensures forall i, j :: 0 <= i < j < |RowFrom(q, r, r2)| ==> RowFrom(q, r, r2)[i].r < RowFrom(q, r, r2)[j].r
    ensures forall d :: d in RowFrom(q, r, r2) ==> d.q == q && r <= d.r
    decreases r2 + 1 - r
  {
    if r <= r2 {
      RowFromFacts(q, r + 1, r2, c);
      var t := RowFrom(q, r + 1, r2);
      var s := RowFrom(q, r, r2);
      forall i, j | 0 <= i < j < |s| ensures s[i].r < s[j].r {
        assert s[j] == t[j - 1];
        assert s[j] in t;
        if i > 0 { assert s[i] == t[i - 1]; }
      }
    }
  }

  /** Hex distance from the origin. */
  function Distance(c: Axial): int {
    Max(Abs(c.q), Max(Abs(c.r), Abs(c.q + c.r)))
  }

  lemma {:induction false} DiskFromMembership(radius: int, q0: int, c: Axial)
    requires -radius <= q0
    ensures c in DiskFrom(radius, q0) <==> q0 <= c.q && Distance(c) <= radius
    decreases radius + 1 - q0
  {
    if q0 <= radius {
      DiskFromMembership(radius, q0 + 1, c);
      RowFromFacts(q0, RowStart(radius, q0), RowEnd(radius, q0), c);
    }
  }

  /** `axialDisk(R)` contains exactly the hexes within distance `R` of the origin. */
  lemma DiskMembership(radius: int, c: Axial)
    ensures c in Disk(radius) <==> Distance(c) <= radius
  {
    if radius >= 0 {
      DiskFromMembership(radius, -radius, c);
    }
  }

  /** Order of enumeration: by `q`, then by `r`. */
  predicate Before(a: Axial, b: Axial) {
    a.q < b.q || (a.q == b.q && a.r < b.r)
  }

  ghost predicate StrictlyOrdered(s: seq<Axial>) {
    forall i, j :: 0 <= i < j < |s| ==> Before(s[i], s[j])
  }

  lemma {:induction false} DiskFromOrdered(radius: int, q0: int)
    ensures StrictlyOrdered(DiskFrom(radius, q0))
    ensures forall c :: c in DiskFrom(radius, q0) ==> c.q >= q0
    decreases radius + 1 - q0
  {
    if q0 <= radius {
      DiskFromOrdered(radius, q0 + 1);
      var row, rest := Row(radius, q0), DiskFrom(radius, q0 + 1);
      RowFromFacts(q0, RowStart(radius, q0), RowEnd(radius, q0), Axial(q0, 0));
      var s := row + rest;
      forall i, j | 0 <= i < j < |s| ensures Before(s[i], s[j]) {
        if j < |row| {
          assert s[i] == row[i] && s[j] == row[j];
        } else if i < |row| {
          assert s[i] == row[i] && s[i] in row;
          assert s[j] == rest[j - |row|] && s[j] in rest;
        } else {
          assert s[i] == rest[i - |row|] && s[j] == rest[j - |row|];
        }
      }
      forall c | c in s ensures c.q >= q0 {
        if c in row {} else { assert c in rest; }
      }
    }
  }

  /** `axialDisk` lists each hex once, ordered by `q` then `r`. */
  lemma DiskOrdered(radius: int)
    ensures StrictlyOrdered(Disk(radius))
    ensures forall i, j :: 0 <= i < j < |Disk(radius)| ==> Disk(radius)[i] != Disk(radius)[j]
  {
    DiskFromOrdered(radius, -radius);
  }

  lemma RowLength(radius: int, q: int)
    requires -radius <= q <= radius
    ensures |Row(radius, q)| == 2 * radius + 1 - Abs(q)
  {
    RowFromFacts(q, RowStart(radius, q), RowEnd(radius, q), Axial(q, 0));
  }

  lemma {:induction false} DiskFromSizeNonNeg(radius: int, q0: int)
    requires 0 <= q0 <= radius + 1
    ensures 2 * |DiskFrom(radius, q0)| == (radius + 1 - q0) * (3 * radius + 2 - q0)
    decreases radius + 1 - q0
  {
    if q0 <= radius {
      DiskFromSizeNonNeg(radius, q0 + 1);
      RowLength(radius, q0);
      var a := radius - q0;
      // (a + 1)(a + 2R + 2) == 2(a + R + 1) + a(a + 2R + 1)
      assert (a + 1) * (a + 2 * radius + 2) == a * (a + 2 * radius + 2) + (a + 2 * radius + 2);
      assert a * (a + 2 * radius + 2) == a * (a + 2 * radius + 1) + a;
    }
  }

  lemma {:induction false} DiskFromSizeNeg(radius: int, q0: int)
    requires -radius <= q0 <= 0
    ensures 2 * |DiskFrom(radius, q0)| == 2 * |DiskFrom(radius, 0)| + (-q0) * (4 * radius + 1 + q0)
    decreases -q0
  {
    if q0 < 0 {
      DiskFromSizeNeg(radius, q0 + 1);
      RowLength(radius, q0);
      var m := -q0;
      // m(4R + 1 - m) == 2(2R + 1 - m) + (m - 1)(4R + 2 - m)
      assert (m - 1) * (4 * radius + 2 - m) == m * (4 * radius + 2 - m) - (4 * radius + 2 - m);
      assert m * (4 * radius + 2 - m) == m * (4 * radius + 1 - m) + m;
    }
  }

  lemma SizeAlgebra(r: int, l0: int, l: int)
    requires 2 * l0 == (r + 1) * (3 * r + 2)
    requires 2 * l == 2 * l0 + r * (3 * r + 1)
    ensures l == 3 * r * (r + 1) + 1
  {
    var sq := r * r;
    assert (r + 1) * (3 * r + 2) == 3 * sq + 5 * r + 2;
    assert r * (3 * r + 1) == 3 * sq + r;
    assert 3 * r * (r + 1) == 3 * sq + 3 * r;
  }

  /** `axialDisk(R)` has `3R(R+1) + 1` hexes for `R >= 0` and none for `R < 0`. */
  lemma DiskSize(radius: int)
    ensures radius >= 0 ==> |Disk(radius)| == 3 * radius * (radius + 1) + 1
    ensures radius < 0 ==> Disk(radius) == []
  {
    if radius >= 0 {
      DiskFromSizeNonNeg(radius, 0);
      DiskFromSizeNeg(radius, -radius);
      SizeAlgebra(radius, |DiskFrom(radius, 0)|, |Disk(radius)|);
    }
  }
}
