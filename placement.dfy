/** `PlaceholderBuildings` of the embed page: twelve batches of candidate
    cells, each with its own seeded generator, draw footprints and parts for
    the cells that pass the batch's rejection tests; the concatenated list then
    loses off-map and on-water entries and far-back entries move to z = -4.

    Each batch is specified by pure functions that thread the seed through the
    draws in the order the source makes them; the imperative methods that
    mutate a generator and push into lists are proved equal to them. */
module EmbedPlacement {
  import opened Geometry
  import opened Lcg
  import opened Wrappers

  datatype Part = Part(width: real, depth: real, height: real, offsetX: real, offsetZ: real)
  datatype Building = Building(x: real, z: real, parts: seq<Part>)
  datatype Footprint = Footprint(width: real, depth: real, height: real)
  datatype Area = Area(x: real, z: real, radius: real)
  datatype Cell = Cell(x: real, z: real)

  function Abs(v: real): real {
    if v < 0.0 then -v else v
  }

  function Max(a: real, b: real): real {
    if a < b then b else a
  }

  /** `Math.sqrt(dx ** 2 + dz ** 2) < limit`, compared on squares. */
  predicate Within(dx: real, dz: real, limit: real) {
    0.0 < limit && dx * dx + dz * dz < limit * limit
  }

  /** The squared comparison decides exactly what the square-root comparison
      of the source decides. */
  lemma WithinIsDistanceTest(dx: real, dz: real, limit: real, dist: real)
    requires IsSqrt(dist, dx * dx + dz * dz)
    ensures Within(dx, dz, limit) <==> dist < limit
  {
    SqrtLess(dist, dx * dx + dz * dz, limit);
  }

  /** A wider circle contains a narrower one. */
  lemma WithinMonotone(dx: real, dz: real, narrow: real, wide: real)
    requires narrow <= wide
    ensures Within(dx, dz, narrow) ==> Within(dx, dz, wide)
  {
    if 0.0 < narrow {
      assert narrow * narrow <= narrow * wide <= wide * wide;
    }
  }

  /** The exclusion circles: buildings, logo, harbour, boat and plaza (the
      first and last entries coincide), then the six container slots. */
  const FixedAreas: seq<Area> := [
    Area(8.0, 7.0, 3.0), Area(9.39, -9.2, 4.0), Area(0.0, 6.0, 2.5),
    Area(-8.0, 0.0, 6.0), Area(-8.0, 6.0, 3.0), Area(8.0, 7.0, 3.0)]
  const ContainerAreas: seq<Area> := [
    Area(-2.0, -2.0, 1.5), Area(-2.0, -0.8, 1.5), Area(0.0, -2.0, 1.5),
    Area(0.0, -0.8, 1.5), Area(2.0, -2.0, 1.5), Area(2.0, -0.8, 1.5)]
  const OccupiedAreas: seq<Area> := FixedAreas + ContainerAreas

  /** The open water rectangle centred on the harbour at (-8, 0), 8.4 wide and
      24 deep. */
  predicate OnWater(x: real, z: real) {
    Abs(x + 8.0) < 4.2 && Abs(z) < 12.0
  }

  /** The extra clearance: small in front of Building 1, one unit elsewhere. */
  function Margin(x: real, z: real): real {
    if z > 9.0 && Abs(x - 8.0) < 5.0 then 0.3 else 1.0
  }

  /** `isPositionFree`: off the water and outside every widened exclusion
      circle. */
  predicate IsPositionFree(x: real, z: real, radius: real) {
    !OnWater(x, z)
    && forall i :: 0 <= i < |OccupiedAreas| ==>
         !Within(x - OccupiedAreas[i].x, z - OccupiedAreas[i].z, OccupiedAreas[i].radius + radius + Margin(x, z))
  }

  /** The margin rule, in words: a point on the water is never free; any other
      point is free exactly when each area's centre is at least
      area radius + radius + margin away. */
  lemma PositionFreeMeaning(x: real, z: real, radius: real)
    ensures OnWater(x, z) ==> !IsPositionFree(x, z, radius)
    ensures !OnWater(x, z) ==>
      (IsPositionFree(x, z, radius) <==>
        forall a :: a in OccupiedAreas ==>
          (x - a.x) * (x - a.x) + (z - a.z) * (z - a.z) >= (a.radius + radius + Margin(x, z)) * (a.radius + radius + Margin(x, z))
          || a.radius + radius + Margin(x, z) <= 0.0)
  {
    if !OnWater(x, z) {
      if IsPositionFree(x, z, radius) {
        forall a | a in OccupiedAreas
          ensures (x - a.x) * (x - a.x) + (z - a.z) * (z - a.z) >= (a.radius + radius + Margin(x, z)) * (a.radius + radius + Margin(x, z))
                  || a.radius + radius + Margin(x, z) <= 0.0
        {
          var i :| 0 <= i < |OccupiedAreas| && OccupiedAreas[i] == a;
          assert !Within(x - a.x, z - a.z, a.radius + radius + Margin(x, z));
        }
      }
    }
  }

  /** A smaller footprint is free wherever a larger one is. */
  lemma PositionFreeMonotone(x: real, z: real, small: real, large: real)
    requires small <= large
    ensures IsPositionFree(x, z, large) ==> IsPositionFree(x, z, small)
  {
    if IsPositionFree(x, z, large) {
      forall i | 0 <= i < |OccupiedAreas|
        ensures !Within(x - OccupiedAreas[i].x, z - OccupiedAreas[i].z, OccupiedAreas[i].radius + small + Margin(x, z))
      {
        var a := OccupiedAreas[i];
        WithinMonotone(x - a.x, z - a.z, a.radius + small + Margin(x, z), a.radius + large + Margin(x, z));
      }
    }
  }

  /** The rejection tests one batch applies. A limit of 0 stands for a test
      the batch does not make, since nothing is closer than 0. The logo test
      (2.5 around (0, 6)) is made by every batch. */
  datatype Checks = Checks(free: bool, waterOnly: bool, building1: real, droneStart: real)

  predicate LogoClear(x: real, z: real) {
    !Within(x - 0.0, z - 6.0, 2.5)
  }

  predicate Accepted(ch: Checks, x: real, z: real, radius: real) {
    (ch.free ==> IsPositionFree(x, z, radius))
    && (ch.waterOnly ==> !OnWater(x, z))
    && LogoClear(x, z)
    && !Within(x - 8.0, z - 7.0, ch.building1)
    && !Within(x - 0.0, z - 7.0, ch.droneStart)
  }

  lemma AcceptedMonotone(ch: Checks, x: real, z: real, small: real, large: real)
    requires small <= large
    ensures Accepted(ch, x, z, large) ==> Accepted(ch, x, z, small)
  {
    PositionFreeMonotone(x, z, small, large);
  }

  /** `lo + random() * size`. */
  datatype Span = Span(lo: real, size: real)

  /** Whether a batch thins out a band of cells: a cell of the band is
      skipped when one draw exceeds `keepAtMost`. */
  datatype Thinning =
    | Keep
    | Thin(zLo: real, zHi: real, xBounded: bool, xLo: real, xHi: real, keepAtMost: real)

  /** Whether a batch shifts each cell by two draws scaled by `amplitude`. */
  datatype Offset = Exact | Jitter(amplitude: real)

  /** How a batch builds the parts of an accepted building. */
  datatype PartsRule =
    | RandomParts   // one to three drawn parts
    | WholeBase     // one part equal to the base footprint, no draws
    | TwoParts      // two drawn parts

  datatype Config = Config(thinning: Thinning, offset: Offset, width: Span, depth: Span,
                           height: Span, checks: Checks, parts: PartsRule)

  predicate WellFormed(cfg: Config) {
    0.0 < cfg.width.lo && 0.0 < cfg.depth.lo && 0.0 < cfg.height.lo
    && 0.0 <= cfg.width.size && 0.0 <= cfg.depth.size && 0.0 <= cfg.height.size
    && (cfg.offset.Jitter? ==> 0.0 <= cfg.offset.amplitude)
  }

  /** The smallest collision radius a batch's footprints can have. */
  function FloorRadius(cfg: Config): real {
    Max(cfg.width.lo, cfg.depth.lo) / 2.0
  }

  function Radius(f: Footprint): real {
    Max(f.width, f.depth) / 2.0
  }

  /** A draw v in [0, 1) placed in a span. */
  function InSpan(sp: Span, v: real): (r: real)
    ensures 0.0 <= v < 1.0 && 0.0 <= sp.size ==> sp.lo <= r <= sp.lo + sp.size
  {
    assert 0.0 <= v < 1.0 && 0.0 <= sp.size ==> 0.0 <= v * sp.size <= sp.size;
    sp.lo + v * sp.size
  }

  /** The value of the draw that follows seed `s`, placed in a span. */
  function Draw(sp: Span, s: Seed): real {
    InSpan(sp, Value(Step(s)))
  }

  /** A cell lies in the thinned band of a batch. */
  predicate InBand(t: Thinning, c: Cell) {
    t.Thin? && t.zLo <= c.z <= t.zHi && (t.xBounded ==> t.xLo <= c.x <= t.xHi)
  }

  /** `o + (v - 0.5) * a`: a coordinate shifted by a draw v. */
  function Shifted(o: real, a: real, v: real): (r: real)
    ensures 0.0 <= a && 0.0 <= v < 1.0 ==> Abs(r - o) <= a / 2.0
  {
    assert 0.0 <= a && 0.0 <= v < 1.0 ==> 0.0 <= v * a <= a;
    assert (v - 0.5) * a == v * a - a / 2.0;
    o + (v - 0.5) * a
  }

  /** The candidate position of a cell and the seed after the offset draws. */
  function Position(off: Offset, c: Cell, s: Seed): (r: (Cell, Seed))
    ensures off.Exact? ==> r == (c, s)
    ensures off.Jitter? ==> r.1 == StepN(s, 2)
    ensures off.Jitter? && 0.0 <= off.amplitude ==>
      Abs(r.0.x - c.x) <= off.amplitude / 2.0 && Abs(r.0.z - c.z) <= off.amplitude / 2.0
  {
    match off
    case Exact => (c, s)
    case Jitter(a) =>
      (Cell(Shifted(c.x, a, Value(Step(s))), Shifted(c.z, a, Value(Step(Step(s))))), Step(Step(s)))
  }

  /** The three base draws: width, depth, height. */
  function BaseFootprint(cfg: Config, s: Seed): (r: (Footprint, Seed))
    ensures r.1 == StepN(s, 3)
    ensures WellFormed(cfg) ==>
      cfg.width.lo <= r.0.width <= cfg.width.lo + cfg.width.size
      && cfg.depth.lo <= r.0.depth <= cfg.depth.lo + cfg.depth.size
      && cfg.height.lo <= r.0.height <= cfg.height.lo + cfg.height.size
      && FloorRadius(cfg) <= Radius(r.0)
  {
    (Footprint(Draw(cfg.width, s), Draw(cfg.depth, Step(s)), Draw(cfg.height, Step(Step(s)))),
     Step(Step(Step(s))))
  }

  /** `random() > 0.5 ? 2 : (random() > 0.3 ? 3 : 1)`, with the seed after the
      one or two draws it makes. */
  function PartCount(s: Seed): (r: (nat, Seed))
    ensures r.0 == 2 <==> Value(Step(s)) > 0.5
    ensures r.0 == 2 ==> r.1 == StepN(s, 1)
    ensures r.0 != 2 ==> r.1 == StepN(s, 2) && (r.0 == 3 <==> Value(Step(Step(s))) > 0.3)
    ensures 1 <= r.0 <= 3
  {
    if Value(Step(s)) > 0.5 then (2, Step(s))
    else if Value(Step(Step(s))) > 0.3 then (3, Step(Step(s)))
    else (1, Step(Step(s)))
  }

  /** b * (0.7 + v * 0.6) for a draw v in [0, 1) stays in [0.7 b, 1.3 b). */
  lemma SizeFactor(b: real, v: real)
    requires 0.0 < b && 0.0 <= v < 1.0
    ensures b * 0.7 <= b * (0.7 + v * 0.6) < b * 1.3
  {
    assert b * (0.7 + v * 0.6) == b * 0.7 + (b * v) * 0.6;
    assert 0.0 <= b * v < b;
  }

  /** b * (0.8 + v * 0.4) for a draw v in [0, 1) stays in [0.8 b, 1.2 b). */
  lemma HeightFactor(b: real, v: real)
    requires 0.0 < b && 0.0 <= v < 1.0
    ensures b * 0.8 <= b * (0.8 + v * 0.4) < b * 1.2
  {
    assert b * (0.8 + v * 0.4) == b * 0.8 + (b * v) * 0.4;
    assert 0.0 <= b * v < b;
  }

  /** (v - 0.5) * b * 0.5 for a draw v in [0, 1) stays within a quarter of b. */
  lemma OffsetFactor(b: real, v: real)
    requires 0.0 < b && 0.0 <= v < 1.0
    ensures -b / 4.0 <= (v - 0.5) * b * 0.5 < b / 4.0
  {
    assert (v - 0.5) * b * 0.5 == (v * b) * 0.5 - b / 4.0;
    assert 0.0 <= v * b < b;
  }

  /** The part a window of five draws v1..v5 gives. */
  function PartOf(base: Footprint, v1: real, v2: real, v3: real, v4: real, v5: real): Part {
    Part(base.width * (0.7 + v1 * 0.6),
         base.depth * (0.7 + v2 * 0.6),
         base.height * (0.8 + v3 * 0.4),
         (v4 - 0.5) * base.width * 0.5,
         (v5 - 0.5) * base.depth * 0.5)
  }

  /** A part's sizes are the base's scaled by [0.7, 1.3) (height by
      [0.8, 1.2)) and its offsets lie within a quarter of the base. */
  predicate FitsBase(base: Footprint, p: Part) {
    base.width * 0.7 <= p.width < base.width * 1.3
    && base.depth * 0.7 <= p.depth < base.depth * 1.3
    && base.height * 0.8 <= p.height < base.height * 1.2
    && -base.width / 4.0 <= p.offsetX < base.width / 4.0
    && -base.depth / 4.0 <= p.offsetZ < base.depth / 4.0
  }

  predicate PositiveBase(base: Footprint) {
    0.0 < base.width && 0.0 < base.depth && 0.0 < base.height
  }

  // One lemma per field keeps each nonlinear fact in a context of its own.

  lemma PartWidthFits(base: Footprint, v1: real, v2: real, v3: real, v4: real, v5: real)
    requires PositiveBase(base) && 0.0 <= v1 < 1.0
    ensures base.width * 0.7 <= PartOf(base, v1, v2, v3, v4, v5).width < base.width * 1.3
  {
    assert PartOf(base, v1, v2, v3, v4, v5).width == base.width * (0.7 + v1 * 0.6);
    SizeFactor(base.width, v1);
  }

  lemma PartDepthFits(base: Footprint, v1: real, v2: real, v3: real, v4: real, v5: real)
    requires PositiveBase(base) && 0.0 <= v2 < 1.0
    ensures base.depth * 0.7 <= PartOf(base, v1, v2, v3, v4, v5).depth < base.depth * 1.3
  {
    assert PartOf(base, v1, v2, v3, v4, v5).depth == base.depth * (0.7 + v2 * 0.6);
    SizeFactor(base.depth, v2);
  }

  lemma PartHeightFits(base: Footprint, v1: real, v2: real, v3: real, v4: real, v5: real)
    requires PositiveBase(base) && 0.0 <= v3 < 1.0
    ensures base.height * 0.8 <= PartOf(base, v1, v2, v3, v4, v5).height < base.height * 1.2
  {
    assert PartOf(base, v1, v2, v3, v4, v5).height == base.height * (0.8 + v3 * 0.4);
    HeightFactor(base.height, v3);
  }

  lemma PartOffsetXFits(base: Footprint, v1: real, v2: real, v3: real, v4: real, v5: real)
    requires PositiveBase(base) && 0.0 <= v4 < 1.0
    ensures -base.width / 4.0 <= PartOf(base, v1, v2, v3, v4, v5).offsetX < base.width / 4.0
  {
    assert PartOf(base, v1, v2, v3, v4, v5).offsetX == (v4 - 0.5) * base.width * 0.5;
    OffsetFactor(base.width, v4);
  }

  lemma PartOffsetZFits(base: Footprint, v1: real, v2: real, v3: real, v4: real, v5: real)
    requires PositiveBase(base) && 0.0 <= v5 < 1.0
    ensures -base.depth / 4.0 <= PartOf(base, v1, v2, v3, v4, v5).offsetZ < base.depth / 4.0
  {
    assert PartOf(base, v1, v2, v3, v4, v5).offsetZ == (v5 - 0.5) * base.depth * 0.5;
    OffsetFactor(base.depth, v5);
  }

  lemma PartOfFits(base: Footprint, v1: real, v2: real, v3: real, v4: real, v5: real)
    requires PositiveBase(base)
    requires 0.0 <= v1 < 1.0 && 0.0 <= v2 < 1.0 && 0.0 <= v3 < 1.0 && 0.0 <= v4 < 1.0 && 0.0 <= v5 < 1.0
    ensures FitsBase(base, PartOf(base, v1, v2, v3, v4, v5))
  {
    PartWidthFits(base, v1, v2, v3, v4, v5);
    PartDepthFits(base, v1, v2, v3, v4, v5);
    PartHeightFits(base, v1, v2, v3, v4, v5);
    PartOffsetXFits(base, v1, v2, v3, v4, v5);
    PartOffsetZFits(base, v1, v2, v3, v4, v5);
  }

  /** One drawn part: five draws for width, depth, height and the two
      offsets; every drawn part fits its base. */
  function DrawPart(base: Footprint, s: Seed): (r: (Part, Seed))
    ensures r.1 == StepN(s, 5)
    ensures PositiveBase(base) ==> FitsBase(base, r.0)
  {
    var s1 := Step(s);
    var s2 := Step(s1);
    var s3 := Step(s2);
    var s4 := Step(s3);
    var s5 := Step(s4);
    assert StepN(s4, 1) == s5;
    assert StepN(s, 5) == s5;
    if PositiveBase(base) then
      PartOfFits(base, Value(s1), Value(s2), Value(s3), Value(s4), Value(s5));
      (PartOf(base, Value(s1), Value(s2), Value(s3), Value(s4), Value(s5)), s5)
    else
      (PartOf(base, Value(s1), Value(s2), Value(s3), Value(s4), Value(s5)), s5)
  }

  /** n drawn parts, in order, and the seed after them. */
  function DrawParts(base: Footprint, n: nat, s: Seed): (r: (seq<Part>, Seed))
    decreases n
  {
    if n == 0 then ([], s)
    else
      var (ps, s1) := DrawParts(base, n - 1, s);
      var (p, s2) := DrawPart(base, s1);
      (ps + [p], s2)
  }

  /** n parts take exactly 5 n draws. */
  lemma {:induction false} DrawPartsLength(base: Footprint, n: nat, s: Seed)
    ensures |DrawParts(base, n, s).0| == n
    ensures DrawParts(base, n, s).1 == StepN(s, 5 * n)
    decreases n
  {
    if n > 0 {
      DrawPartsLength(base, n - 1, s);
      StreamSplit(s, 5 * (n - 1), 5);
      assert 5 * (n - 1) + 5 == 5 * n;
    }
  }

  /** Every drawn part fits the base. */
  lemma {:induction false} DrawPartsFit(base: Footprint, n: nat, s: Seed)
    requires PositiveBase(base)
    ensures forall p :: p in DrawParts(base, n, s).0 ==> FitsBase(base, p)
    decreases n
  {
    if n > 0 {
      DrawPartsFit(base, n - 1, s);
    }
  }

  /** The parts of an accepted building under a batch's rule. */
  function BuildParts(rule: PartsRule, base: Footprint, s: Seed): (r: (seq<Part>, Seed))
  {
    match rule
    case RandomParts =>
      var (n, s1) := PartCount(s);
      DrawParts(base, n, s1)
    case WholeBase => ([Part(base.width, base.depth, base.height, 0.0, 0.0)], s)
    case TwoParts => DrawParts(base, 2, s)
  }

  /** The number of parts each rule gives, and every part fits the base. */
  lemma BuildPartsShape(rule: PartsRule, base: Footprint, s: Seed)
    ensures rule.RandomParts? ==> 1 <= |BuildParts(rule, base, s).0| <= 3
    ensures rule.WholeBase? ==> |BuildParts(rule, base, s).0| == 1
    ensures rule.TwoParts? ==> |BuildParts(rule, base, s).0| == 2
    ensures PositiveBase(base) ==> forall p :: p in BuildParts(rule, base, s).0 ==> FitsBase(base, p)
  {
    match rule
    case RandomParts =>
      DrawPartsLength(base, PartCount(s).0, PartCount(s).1);
      if PositiveBase(base) {
        DrawPartsFit(base, PartCount(s).0, PartCount(s).1);
      }
    case WholeBase =>
    case TwoParts =>
      DrawPartsLength(base, 2, s);
      if PositiveBase(base) {
        DrawPartsFit(base, 2, s);
      }
  }

  /** One candidate cell: the optional thinning draw, the offset draws, the
      three base draws, the tests, and the parts of an accepted building. */
  function PlaceCell(cfg: Config, c: Cell, s: Seed): (Option<Building>, Seed) {
    if InBand(cfg.thinning, c) && Value(Step(s)) > cfg.thinning.keepAtMost then
      (None, Step(s))
    else
      var s0 := if InBand(cfg.thinning, c) then Step(s) else s;
      var (p, s1) := Position(cfg.offset, c, s0);
      var (base, s2) := BaseFootprint(cfg, s1);
      if Accepted(cfg.checks, p.x, p.z, Radius(base)) then
        var (parts, s3) := BuildParts(cfg.parts, base, s2);
        (Some(Building(p.x, p.z, parts)), s3)
      else
        (None, s2)
  }

  /** Every building a cell yields is sound for that cell. */
  lemma PlaceCellSound(cfg: Config, c: Cell, s: Seed)
    requires WellFormed(cfg)
    ensures PlaceCell(cfg, c, s).0.Some? ==> Sound(cfg, c, PlaceCell(cfg, c, s).0.value)
  {
    if !(InBand(cfg.thinning, c) && Value(Step(s)) > cfg.thinning.keepAtMost) {
      var s0 := if InBand(cfg.thinning, c) then Step(s) else s;
      var (p, s1) := Position(cfg.offset, c, s0);
      var (base, s2) := BaseFootprint(cfg, s1);
      BuildPartsShape(cfg.parts, base, s2);
      assert InRanges(cfg, base);
    }
  }

  /** A base footprint within a batch's three spans. */
  predicate InRanges(cfg: Config, f: Footprint) {
    cfg.width.lo <= f.width <= cfg.width.lo + cfg.width.size
    && cfg.depth.lo <= f.depth <= cfg.depth.lo + cfg.depth.size
    && cfg.height.lo <= f.height <= cfg.height.lo + cfg.height.size
  }

  /** What the model guarantees of every building a batch places from cell c:
      there is a base footprint drawn from the batch's spans such that the
      building passed the batch's tests at that footprint's own radius and
      its parts fit that footprint; the building lies within the jitter of
      its cell and has the number of parts the batch's rule gives. */
  ghost predicate Sound(cfg: Config, c: Cell, b: Building) {
    (exists f :: InRanges(cfg, f) && Accepted(cfg.checks, b.x, b.z, Radius(f))
                 && forall p :: p in b.parts ==> FitsBase(f, p))
    && (cfg.offset.Exact? ==> b.x == c.x && b.z == c.z)
    && (cfg.offset.Jitter? ==> Abs(b.x - c.x) <= cfg.offset.amplitude / 2.0 && Abs(b.z - c.z) <= cfg.offset.amplitude / 2.0)
    && (cfg.parts.RandomParts? ==> 1 <= |b.parts| <= 3)
    && (cfg.parts.WholeBase? ==> |b.parts| == 1)
    && (cfg.parts.TwoParts? ==> |b.parts| == 2)
  }

  /** Since every footprint of a batch is at least as wide as its smallest,
      a sound building passed the batch's tests at the batch's smallest
      radius too. */
  lemma SoundAtFloor(cfg: Config, c: Cell, b: Building)
    requires Sound(cfg, c, b)
    ensures Accepted(cfg.checks, b.x, b.z, FloorRadius(cfg))
  {
    var f :| InRanges(cfg, f) && Accepted(cfg.checks, b.x, b.z, Radius(f))
             && forall p :: p in b.parts ==> FitsBase(f, p);
    AcceptedMonotone(cfg.checks, b.x, b.z, FloorRadius(cfg), Radius(f));
  }

  /** The cells of a batch in visiting order and what they yield. */
  function Segment(cfg: Config, cells: seq<Cell>, s: Seed): (r: (seq<Building>, Seed))
    decreases |cells|
  {
    if |cells| == 0 then ([], s)
    else
      var (bs, s1) := Segment(cfg, cells[..|cells| - 1], s);
      var (b, s2) := PlaceCell(cfg, cells[|cells| - 1], s1);
      (if b.Some? then bs + [b.value] else bs, s2)
  }

  /** Visiting one more cell extends a segment by what that cell yields. */
  lemma SegmentStep(cfg: Config, cells: seq<Cell>, j: nat, s: Seed)
    requires j < |cells|
    ensures var (bs, s1) := Segment(cfg, cells[..j], s);
            var (b, s2) := PlaceCell(cfg, cells[j], s1);
            Segment(cfg, cells[..j + 1], s) == (if b.Some? then bs + [b.value] else bs, s2)
  {
    assert cells[..j + 1][..j] == cells[..j];
  }

  /** Every building of a segment comes from one of its cells and is sound for
      it; a segment never yields more buildings than it has cells. */
  lemma {:induction false} SegmentSound(cfg: Config, cells: seq<Cell>, s: Seed)
    requires WellFormed(cfg)
    ensures |Segment(cfg, cells, s).0| <= |cells|
    ensures forall b :: b in Segment(cfg, cells, s).0 ==> exists c :: c in cells && Sound(cfg, c, b)
    decreases |cells|
  {
    if |cells| > 0 {
      var init := cells[..|cells| - 1];
      var last := cells[|cells| - 1];
      SegmentSound(cfg, init, s);
      var s1 := Segment(cfg, init, s).1;
      PlaceCellSound(cfg, last, s1);
      assert cells == init + [last];
      forall b | b in Segment(cfg, cells, s).0
        ensures exists c :: c in cells && Sound(cfg, c, b)
      {
        if b in Segment(cfg, init, s).0 {
          var c :| c in init && Sound(cfg, c, b);
          assert c in cells;
        } else {
          assert Sound(cfg, last, b);
        }
      }
    }
  }

  /** Cells listed one by one, as in the `forEach` batches. */
  datatype Run = Run(cfg: Config, cells: seq<Cell>)

  /** The runs of one batch share its generator, one after the other. */
  function Batch(runs: seq<Run>, s: Seed): (r: (seq<Building>, Seed))
    decreases |runs|
  {
    if |runs| == 0 then ([], s)
    else
      var (bs, s1) := Batch(runs[..|runs| - 1], s);
      var (more, s2) := Segment(runs[|runs| - 1].cfg, runs[|runs| - 1].cells, s1);
      (bs + more, s2)
  }

  /** The properties every placed building has whatever batch placed it. */
  predicate Placed(b: Building) {
    LogoClear(b.x, b.z) && 1 <= |b.parts| <= 3
  }

  /** Every building of a batch comes from a cell of one of its loops and
      is sound for that loop's configuration and cell. */
  lemma {:induction false} BatchSound(runs: seq<Run>, s: Seed)
    requires forall k :: 0 <= k < |runs| ==> WellFormed(runs[k].cfg)
    ensures forall b :: b in Batch(runs, s).0 ==>
              exists k, c :: 0 <= k < |runs| && c in runs[k].cells && Sound(runs[k].cfg, c, b)
    decreases |runs|
  {
    if |runs| > 0 {
      var init := runs[..|runs| - 1];
      var last := runs[|runs| - 1];
      BatchSound(init, s);
      var s1 := Batch(init, s).1;
      SegmentSound(last.cfg, last.cells, s1);
      forall b | b in Batch(runs, s).0
        ensures exists k, c :: 0 <= k < |runs| && c in runs[k].cells && Sound(runs[k].cfg, c, b)
      {
        if b in Batch(init, s).0 {
          var k, c :| 0 <= k < |init| && c in init[k].cells && Sound(init[k].cfg, c, b);
          assert init[k] == runs[k];
        } else {
          var c :| c in last.cells && Sound(last.cfg, c, b);
          assert runs[|runs| - 1] == last;
        }
      }
    }
  }

  /** Whatever loop placed it, a building of a batch is clear of the logo
      and has one to three parts. */
  lemma {:induction false} BatchPlaced(runs: seq<Run>, s: Seed)
    requires forall k :: 0 <= k < |runs| ==> WellFormed(runs[k].cfg)
    ensures forall b :: b in Batch(runs, s).0 ==> Placed(b)
  {
    BatchSound(runs, s);
  }

  // ---- Grids ----

  /** A loop `for (v = start; ...; v += step)` that takes `count` turns. */
  datatype Axis = Axis(start: real, step: real, count: nat)

  function Points(a: Axis): seq<real> {
    seq(a.count, k => a.start + k as real * a.step)
  }

  /** One turn of the outer loop: the inner loop's cells at outer value o. */
  function Row(o: real, inner: seq<real>, xOuter: bool): (r: seq<Cell>)
    ensures |r| == |inner|
  {
    seq(|inner|, j requires 0 <= j < |inner| => if xOuter then Cell(o, inner[j]) else Cell(inner[j], o))
  }

  /** Nested loops over two axes, outer first; `xOuter` says which coordinate
      the outer loop runs over. */
  function Grid(outer: seq<real>, inner: seq<real>, xOuter: bool): (r: seq<Cell>)
    ensures |r| == |outer| * |inner|
    decreases |outer|
  {
    if |outer| == 0 then []
    else Grid(outer[..|outer| - 1], inner, xOuter) + Row(outer[|outer| - 1], inner, xOuter)
  }

  /** Each cell of a grid pairs a value of each axis, in the orientation the
      loops give. */
  lemma {:induction false} GridCells(outer: seq<real>, inner: seq<real>, xOuter: bool)
    ensures forall c :: c in Grid(outer, inner, xOuter) ==>
      if xOuter then c.x in outer && c.z in inner else c.z in outer && c.x in inner
    decreases |outer|
  {
    if |outer| > 0 {
      GridCells(outer[..|outer| - 1], inner, xOuter);
    }
  }

  /** One more turn of the outer loop appends that turn's row. */
  lemma GridStep(outer: seq<real>, i: nat, inner: seq<real>, xOuter: bool)
    requires i < |outer|
    ensures Grid(outer[..i + 1], inner, xOuter) == Grid(outer[..i], inner, xOuter) + Row(outer[i], inner, xOuter)
  {
    assert outer[..i + 1][..i] == outer[..i];
  }

  // ---- The batches ----

  const SizeA: Span := Span(0.7, 1.0)
  const LowB: Span := Span(0.4, 0.8)

  const MainConfig: Config :=
    Config(Keep, Exact, SizeA, SizeA, Span(0.4, 0.9), Checks(true, false, 0.0, 0.0), RandomParts)
  const BehindBuilding1Config: Config :=
    Config(Keep, Jitter(0.1), Span(0.8, 1.2), Span(0.8, 1.2), LowB, Checks(true, false, 3.0, 0.0), RandomParts)
  const CenterBackConfig: Config :=
    Config(Keep, Jitter(0.1), SizeA, SizeA, LowB, Checks(true, false, 0.0, 0.0), RandomParts)
  const BetweenBuilding1AndCenterConfig: Config :=
    Config(Thin(5.8, 7.2, true, 0.0, 8.0, 0.3), Exact, SizeA, SizeA, LowB, Checks(true, false, 2.5, 0.0), WholeBase)
  const LeftOfCenterConfig: Config :=
    Config(Keep, Jitter(0.1), SizeA, SizeA, LowB, Checks(true, false, 0.0, 0.0), RandomParts)
  const LeftBetweenConfig: Config :=
    Config(Thin(5.8, 7.2, false, 0.0, 0.0, 0.4), Jitter(0.1), SizeA, SizeA, LowB, Checks(true, false, 0.0, 0.0), RandomParts)
  const BetweenWaterAndCenterConfig: Config :=
    Config(Keep, Jitter(0.1), SizeA, SizeA, LowB, Checks(true, false, 0.0, 0.0), RandomParts)
  const LeftOfBuilding1SmallConfig: Config :=
    Config(Keep, Jitter(0.2), Span(0.3, 0.4), Span(0.3, 0.4), Span(0.2, 0.4), Checks(true, false, 0.0, 0.0), RandomParts)
  const FrontOfBuilding1Config: Config :=
    Config(Keep, Jitter(0.2), Span(0.5, 0.7), Span(0.5, 0.7), Span(0.3, 0.6), Checks(true, false, 0.0, 0.0), RandomParts)
  const BeforeBuilding1GridConfig: Config :=
    Config(Keep, Jitter(0.1), Span(0.4, 0.6), Span(0.4, 0.6), Span(0.25, 0.5), Checks(true, false, 2.5, 0.0), RandomParts)
  const LeftOfBuilding1Config: Config :=
    Config(Keep, Jitter(0.1), SizeA, SizeA, LowB, Checks(true, false, 3.0, 0.0), RandomParts)
  const MarkerConfig: Config :=
    Config(Keep, Jitter(0.3), SizeA, SizeA, Span(0.2, 0.4), Checks(false, true, 3.0, 1.5), RandomParts)
  const BeforeLogoNearConfig: Config :=
    Config(Keep, Jitter(0.1), Span(0.5, 0.9), Span(0.5, 0.9), Span(0.3, 0.6), Checks(true, false, 0.0, 1.5), RandomParts)
  const BeforeLogoBackConfig: Config :=
    Config(Keep, Jitter(0.1), Span(0.5, 0.9), Span(0.5, 0.9), Span(0.3, 0.6), Checks(true, false, 0.0, 0.0), RandomParts)
  const SmallRightConfig: Config :=
    Config(Keep, Exact, Span(0.7, 0.8), Span(0.7, 0.8), Span(0.3, 0.5), Checks(false, true, 3.0, 1.5), TwoParts)

  /** A grid batch as its nested loops give it. */
  function GridRun(cfg: Config, outer: Axis, inner: Axis, xOuter: bool): Run {
    Run(cfg, Grid(Points(outer), Points(inner), xOuter))
  }

  const MainRuns: seq<Run> := [GridRun(MainConfig, Axis(-12.0, 2.5, 10), Axis(-12.0, 2.5, 10), true)]
  const BehindBuilding1Runs: seq<Run> := [GridRun(BehindBuilding1Config, Axis(2.0, 2.0, 3), Axis(-3.0, 2.0, 4), false)]
  const CenterBackRuns: seq<Run> := [GridRun(CenterBackConfig, Axis(0.0, 1.2, 6), Axis(-2.0, 1.2, 4), false)]
  const BetweenBuilding1AndCenterRuns: seq<Run> :=
    [GridRun(BetweenBuilding1AndCenterConfig, Axis(0.5, 1.0, 8), Axis(-7.0, 1.0, 12), false)]
  const LeftOfCenterRuns: seq<Run> := [GridRun(LeftOfCenterConfig, Axis(-2.0, 1.0, 5), Axis(-6.0, 1.0, 6), false)]
  const LeftBetweenRuns: seq<Run> := [GridRun(LeftBetweenConfig, Axis(4.0, 1.0, 4), Axis(-6.0, 1.0, 6), false)]
  const BetweenWaterAndCenterRuns: seq<Run> :=
    [GridRun(BetweenWaterAndCenterConfig, Axis(-7.0, 1.0, 7), Axis(-3.0, 1.0, 7), true)]
  const BeforeLogoRuns: seq<Run> := [
    GridRun(BeforeLogoNearConfig, Axis(6.3, 0.4, 2), Axis(-5.0, 0.8, 13), false),
    GridRun(BeforeLogoNearConfig, Axis(7.2, 0.5, 3), Axis(-5.0, 0.9, 12), false),
    GridRun(BeforeLogoBackConfig, Axis(3.5, 0.4, 5), Axis(-5.0, 0.8, 13), false)]
  const BeforeBuilding1Runs: seq<Run> := [
    Run(LeftOfBuilding1SmallConfig, [Cell(6.0, 9.8)]),
    Run(FrontOfBuilding1Config, [Cell(8.5, 10.2)]),
    GridRun(BeforeBuilding1GridConfig, Axis(9.5, 1.8, 1), Axis(5.0, 1.8, 3), false)]
  const LeftOfBuilding1Runs: seq<Run> := [GridRun(LeftOfBuilding1Config, Axis(6.0, 1.5, 3), Axis(-6.0, 1.5, 4), false)]
  const MarkerRuns: seq<Run> := [GridRun(MarkerConfig, Axis(0.0, 2.5, 2), Axis(-3.5, 2.5, 1), false)]
  const SmallRightRuns: seq<Run> := [Run(SmallRightConfig, [Cell(0.5, 1.5), Cell(0.0, 2.5)])]

  /** The list before the final filter: the batches in the order the source
      appends them, each from its own seed. */
  function Unfiltered(): seq<Building> {
    Batch(MainRuns, 12345).0
    + Batch(BehindBuilding1Runs, 54321).0
    + Batch(CenterBackRuns, 98765).0
    + Batch(BetweenBuilding1AndCenterRuns, 11111).0
    + Batch(LeftOfCenterRuns, 22222).0
    + Batch(LeftBetweenRuns, 33333).0
    + Batch(BetweenWaterAndCenterRuns, 44444).0
    + Batch(BeforeLogoRuns, 99999).0
    + Batch(BeforeBuilding1Runs, 55555).0
    + Batch(LeftOfBuilding1Runs, 66666).0
    + Batch(MarkerRuns, 77777).0
    + Batch(SmallRightRuns, 88888).0
  }

  // ---- The final map and filter ----

  const MapSize: real := 12.0

  /** The closed water rectangle of the final filter. */
  predicate InWaterRect(x: real, z: real) {
    -12.2 <= x <= -3.8 && -12.0 <= z <= 12.0
  }

  predicate Dropped(b: Building) {
    Abs(b.x) > MapSize || Abs(b.z) > MapSize || InWaterRect(b.x, b.z)
  }

  /** Far-back entries right of the harbour move forward to z = -4; nothing
      else about the building changes. */
  function Relocate(b: Building): (r: Building)
    ensures r.x == b.x && r.parts == b.parts
    ensures b.x > -8.0 && b.z < -10.0 ==> r.z == -4.0
    ensures !(b.x > -8.0 && b.z < -10.0) ==> r == b
  {
    if b.x > -8.0 && b.z < -10.0 then b.(z := -4.0) else b
  }

  /** The relocation cannot bring a building near the logo. */
  lemma RelocateKeepsLogoClear(b: Building)
    requires LogoClear(b.x, b.z)
    ensures LogoClear(Relocate(b).x, Relocate(b).z)
  {
    var r := Relocate(b);
    if r.z == -4.0 {
      assert (r.z - 6.0) * (r.z - 6.0) == 100.0;
    }
  }

  function FinalFilter(bs: seq<Building>): seq<Building>
    decreases |bs|
  {
    if |bs| == 0 then []
    else (if Dropped(bs[0]) then [] else [Relocate(bs[0])]) + FinalFilter(bs[1..])
  }

  /** Every output is the relocation of a kept input, and lies on the map off
      the water rectangle; the output is never longer than the input. */
  lemma {:induction false} FinalFilterSound(bs: seq<Building>)
    ensures |FinalFilter(bs)| <= |bs|
    ensures forall o :: o in FinalFilter(bs) ==> exists b :: b in bs && !Dropped(b) && o == Relocate(b)
    ensures forall o :: o in FinalFilter(bs) ==>
      Abs(o.x) <= MapSize && Abs(o.z) <= MapSize && !InWaterRect(o.x, o.z)
    decreases |bs|
  {
    if |bs| > 0 {
      FinalFilterSound(bs[1..]);
      forall o | o in FinalFilter(bs)
        ensures exists b :: b in bs && !Dropped(b) && o == Relocate(b)
      {
        if o !in FinalFilter(bs[1..]) {
          assert o == Relocate(bs[0]) && !Dropped(bs[0]);
        } else {
          var b :| b in bs[1..] && !Dropped(b) && o == Relocate(b);
          assert b in bs;
        }
      }
    }
  }

  /** Every kept input appears, relocated, in the output. */
  lemma {:induction false} FinalFilterKeeps(bs: seq<Building>, b: Building)
    requires b in bs && !Dropped(b)
    ensures Relocate(b) in FinalFilter(bs)
    decreases |bs|
  {
    if bs[0] != b {
      FinalFilterKeeps(bs[1..], b);
    }
  }

  /** The filter works entry by entry, so it keeps relative order: filtering
      a concatenation is concatenating the filtered parts. */
  lemma {:induction false} FinalFilterAppend(a: seq<Building>, b: seq<Building>)
    ensures FinalFilter(a + b) == FinalFilter(a) + FinalFilter(b)
    decreases |a|
  {
    if |a| > 0 {
      assert (a + b)[1..] == a[1..] + b;
      FinalFilterAppend(a[1..], b);
    } else {
      assert a + b == b;
    }
  }

  /** The layout the page renders. */
  function Layout(): seq<Building> {
    FinalFilter(Unfiltered())
  }

  /** Every rendered building is on the map, off the water, clear of the logo
      and made of one to three parts. */
  lemma LayoutSound()
    ensures forall o :: o in Layout() ==>
      Abs(o.x) <= MapSize && Abs(o.z) <= MapSize && !InWaterRect(o.x, o.z)
      && LogoClear(o.x, o.z) && 1 <= |o.parts| <= 3
  {
    BatchPlaced(MainRuns, 12345);
    BatchPlaced(BehindBuilding1Runs, 54321);
    BatchPlaced(CenterBackRuns, 98765);
    BatchPlaced(BetweenBuilding1AndCenterRuns, 11111);
    BatchPlaced(LeftOfCenterRuns, 22222);
    BatchPlaced(LeftBetweenRuns, 33333);
    BatchPlaced(BetweenWaterAndCenterRuns, 44444);
    BatchPlaced(BeforeLogoRuns, 99999);
    BatchPlaced(BeforeBuilding1Runs, 55555);
    BatchPlaced(LeftOfBuilding1Runs, 66666);
    BatchPlaced(MarkerRuns, 77777);
    BatchPlaced(SmallRightRuns, 88888);
    var all := Unfiltered();
    assert forall b :: b in all ==> Placed(b);
    FinalFilterSound(all);
    forall o | o in Layout()
      ensures LogoClear(o.x, o.z) && 1 <= |o.parts| <= 3
    {
      var b :| b in all && !Dropped(b) && o == Relocate(b);
      RelocateKeepsLogoClear(b);
    }
  }

  // ---- The relocation and the exclusion zones ----

  /** A segment keeps what its first k cells yield. */
  lemma {:induction false} SegmentPrefix(cfg: Config, cells: seq<Cell>, k: nat, s: Seed)
    requires k <= |cells|
    ensures forall b :: b in Segment(cfg, cells[..k], s).0 ==> b in Segment(cfg, cells, s).0
    decreases |cells|
  {
    if k < |cells| {
      var init := cells[..|cells| - 1];
      assert init[..k] == cells[..k];
      SegmentPrefix(cfg, init, k, s);
    } else {
      assert cells[..k] == cells;
    }
  }

  /** What cell j yields, on the seed the earlier cells leave, is part of
      the segment. */
  lemma SegmentHas(cfg: Config, cells: seq<Cell>, j: nat, s: Seed)
    requires j < |cells|
    ensures var b := PlaceCell(cfg, cells[j], Segment(cfg, cells[..j], s).1).0;
            b.Some? ==> b.value in Segment(cfg, cells, s).0
  {
    SegmentStep(cfg, cells, j, s);
    SegmentPrefix(cfg, cells, j + 1, s);
  }

  /** Turn i of the outer loop and turn j of the inner loop visit cell
      i * |inner| + j of the grid. */
  lemma {:induction false} GridAt(outer: seq<real>, inner: seq<real>, xOuter: bool, i: nat, j: nat)
    requires i < |outer| && j < |inner|
    ensures i * |inner| + j < |Grid(outer, inner, xOuter)|
    ensures Grid(outer, inner, xOuter)[i * |inner| + j] == Row(outer[i], inner, xOuter)[j]
    decreases |outer|
  {
    var n := |outer|;
    var m := |inner|;
    var init := outer[..n - 1];
    assert n * m == (n - 1) * m + m;
    if i < n - 1 {
      GridAt(init, inner, xOuter, i, j);
      assert init[i] == outer[i];
    }
  }

  /** The main grid accepts cell (-2, -12) on any seed: no zone comes near
      it even at the largest radius the batch can draw. */
  lemma MainCellAccepted(t: Seed)
    ensures var b := PlaceCell(MainConfig, Cell(-2.0, -12.0), t).0;
            b.Some? && b.value.x == -2.0 && b.value.z == -12.0
  {
    var base := BaseFootprint(MainConfig, t).0;
    MainRadiusAtMost(t);
    RelocationTarget();
    PositionFreeMonotone(-2.0, -12.0, Radius(base), 0.85);
    assert Accepted(MainConfig.checks, -2.0, -12.0, Radius(base));
  }

  /** The main batch's footprints have radius at most (0.7 + 1.0) / 2. */
  lemma MainRadiusAtMost(t: Seed)
    ensures Radius(BaseFootprint(MainConfig, t).0) <= 0.85
  {
    assert WellFormed(MainConfig);
  }

  /** The largest distance from a building's centre that one of its parts
      reaches along either axis. */
  function PartReach(p: Part): real {
    Max(Abs(p.offsetX) + p.width / 2.0, Abs(p.offsetZ) + p.depth / 2.0)
  }

  function Reach(parts: seq<Part>): (r: real)
    ensures 0.0 <= r
    ensures forall k :: 0 <= k < |parts| ==> PartReach(parts[k]) <= r
    decreases |parts|
  {
    if |parts| == 0 then 0.0 else Max(Reach(parts[..|parts| - 1]), PartReach(parts[|parts| - 1]))
  }

  /** The relocation as evidently intended: the move to z = -4 happens only
      when the new position is free for the building's reach. */
  function RelocateChecked(b: Building): Building {
    if b.x > -8.0 && b.z < -10.0 && IsPositionFree(b.x, -4.0, Reach(b.parts)) then b.(z := -4.0) else b
  }

  /** The checked relocation never moves a building into an exclusion zone:
      a building free where it stood, for any radius up to its reach, is
      free where it ends up; and like `Relocate` it changes only z. */
  lemma RelocateCheckedKeepsFree(b: Building, r: real)
    requires 0.0 <= r <= Reach(b.parts)
    ensures IsPositionFree(b.x, b.z, r) ==>
              IsPositionFree(RelocateChecked(b).x, RelocateChecked(b).z, r)
    ensures RelocateChecked(b).x == b.x && RelocateChecked(b).parts == b.parts
    ensures RelocateChecked(b) == b || RelocateChecked(b) == Relocate(b)
  {
    if RelocateChecked(b) != b {
      PositionFreeMonotone(b.x, -4.0, r, Reach(b.parts));
    }
  }

  /** A cell whose building, whatever the seed, stands on the cell itself. */
  predicate KeptExactly(cfg: Config, c: Cell, t: Seed) {
    PlaceCell(cfg, c, t).0.Some? && PlaceCell(cfg, c, t).0.value.x == c.x && PlaceCell(cfg, c, t).0.value.z == c.z
  }

  /** A grid cell that every seed keeps yields a building of the grid's
      segment standing on that cell. */
  lemma GridSegmentHas(cfg: Config, outer: seq<real>, inner: seq<real>, xOuter: bool, i: nat, j: nat, s: Seed)
    requires i < |outer| && j < |inner|
    requires forall t: Seed :: KeptExactly(cfg, Row(outer[i], inner, xOuter)[j], t)
    ensures var c := Row(outer[i], inner, xOuter)[j];
            exists b :: b in Segment(cfg, Grid(outer, inner, xOuter), s).0 && b.x == c.x && b.z == c.z
  {
    var cells := Grid(outer, inner, xOuter);
    var k := i * |inner| + j;
    GridAt(outer, inner, xOuter, i, j);
    var t := Segment(cfg, cells[..k], s).1;
    assert KeptExactly(cfg, cells[k], t);
    SegmentHas(cfg, cells, k, s);
  }

  /** The main batch places a building at cell (-2, -12), the first cell of
      its fifth outer turn. */
  lemma MainBatchHas()
    ensures exists b :: b in Batch(MainRuns, 12345).0 && b.x == -2.0 && b.z == -12.0
  {
    var axis := Points(Axis(-12.0, 2.5, 10));
    var c := Row(axis[4], axis, true)[0];
    assert c == Cell(-2.0, -12.0);
    forall t: Seed
      ensures KeptExactly(MainConfig, c, t)
    {
      MainCellAccepted(t);
    }
    GridSegmentHas(MainConfig, axis, axis, true, 4, 0, 12345);
    BatchOfOne(MainRuns, 12345);
  }

  /** (-2, -12) is free even at radius 0.85; (-2, -4) is free at no radius,
      as it lies 2 from the container slot at (-2, -2). */
  lemma RelocationTarget()
    ensures IsPositionFree(-2.0, -12.0, 0.85)
    ensures forall r :: 0.0 <= r ==> !IsPositionFree(-2.0, -4.0, r)
  {
    assert Within(-2.0 - OccupiedAreas[6].x, -4.0 - OccupiedAreas[6].z, OccupiedAreas[6].radius + 0.0 + Margin(-2.0, -4.0));
    forall r | 0.0 <= r
      ensures !IsPositionFree(-2.0, -4.0, r)
    {
      PositionFreeMonotone(-2.0, -4.0, 0.0, r);
    }
  }

  /** A list holding the building at (-2, -12) keeps it through the final
      filter and moves it to (-2, -4); the checked relocation would not. */
  lemma RelocatedIntoZone(bs: seq<Building>, b: Building)
    requires b in bs && b.x == -2.0 && b.z == -12.0
    ensures !Dropped(b) && IsPositionFree(b.x, b.z, 0.85)
    ensures Relocate(b) in FinalFilter(bs) && !IsPositionFree(Relocate(b).x, Relocate(b).z, 0.0)
    ensures RelocateChecked(b) == b
  {
    RelocationTarget();
    FinalFilterKeeps(bs, b);
  }

  /** The relocation as written is not re-tested: the main grid's building
      at (-2, -12), free there even at radius 0.85, survives the final
      filter and moves to (-2, -4), where no radius is free; the checked
      relocation leaves it in place. */
  lemma RelocationBreaksZones()
    ensures exists b :: b in Unfiltered() && !Dropped(b) && IsPositionFree(b.x, b.z, 0.85)
                        && Relocate(b) in Layout() && !IsPositionFree(Relocate(b).x, Relocate(b).z, 0.0)
                        && RelocateChecked(b) == b
  {
    MainBatchHas();
    var b :| b in Batch(MainRuns, 12345).0 && b.x == -2.0 && b.z == -12.0;
    var all := Unfiltered();
    assert b in all;
    RelocatedIntoZone(all, b);
  }

  // ---- The generator as the page runs it ----

  /** The body of the parts loop: five draws, in the source's order. */
  method NextPart(rng: Rng, base: Footprint) returns (p: Part)
    modifies rng
    ensures (p, rng.seed) == DrawPart(base, old(rng.seed))
  {
    var v1 := rng.Next();
    var v2 := rng.Next();
    var v3 := rng.Next();
    var v4 := rng.Next();
    var v5 := rng.Next();
    p := PartOf(base, v1, v2, v3, v4, v5);
  }

  /** `for (let p = 0; p < numParts; p++) parts.push(...)`. */
  method NextParts(rng: Rng, base: Footprint, n: nat) returns (parts: seq<Part>)
    modifies rng
    ensures (parts, rng.seed) == DrawParts(base, n, old(rng.seed))
  {
    parts := [];
    var k := 0;
    while k < n
      invariant 0 <= k <= n
      invariant (parts, rng.seed) == DrawParts(base, k, old(rng.seed))
    {
      var part := NextPart(rng, base);
      parts := parts + [part];
      k := k + 1;
    }
  }

  /** One turn of a batch loop: the thinning `continue`, the offsets, the
      base draws, the tests and, for an accepted cell, its parts. */
  method PlaceAt(rng: Rng, cfg: Config, c: Cell) returns (b: Option<Building>)
    modifies rng
    ensures (b, rng.seed) == PlaceCell(cfg, c, old(rng.seed))
  {
    if InBand(cfg.thinning, c) {
      var keep := rng.Next();
      if keep > cfg.thinning.keepAtMost {
        return None;
      }
    }
    var x, z := c.x, c.z;
    if cfg.offset.Jitter? {
      var ox := rng.Next();
      var oz := rng.Next();
      x := Shifted(c.x, cfg.offset.amplitude, ox);
      z := Shifted(c.z, cfg.offset.amplitude, oz);
    }
    var w := rng.Next();
    var d := rng.Next();
    var h := rng.Next();
    var base := Footprint(InSpan(cfg.width, w), InSpan(cfg.depth, d), InSpan(cfg.height, h));
    if !Accepted(cfg.checks, x, z, Radius(base)) {
      return None;
    }
    var parts: seq<Part>;
    match cfg.parts {
      case RandomParts =>
        var first := rng.Next();
        var n := 2;
        if first <= 0.5 {
          var second := rng.Next();
          n := if second > 0.3 then 3 else 1;
        }
        parts := NextParts(rng, base, n);
      case WholeBase =>
        parts := [Part(base.width, base.depth, base.height, 0.0, 0.0)];
      case TwoParts =>
        parts := NextParts(rng, base, 2);
    }
    b := Some(Building(x, z, parts));
  }

  /** A `forEach` over a list of fixed positions. */
  method PlaceAll(rng: Rng, cfg: Config, cells: seq<Cell>) returns (out: seq<Building>)
    modifies rng
    ensures (out, rng.seed) == Segment(cfg, cells, old(rng.seed))
  {
    out := [];
    var i := 0;
    while i < |cells|
      invariant 0 <= i <= |cells|
      invariant (out, rng.seed) == Segment(cfg, cells[..i], old(rng.seed))
    {
      assert cells[..i + 1][..i] == cells[..i];
      var b := PlaceAt(rng, cfg, cells[i]);
      if b.Some? {
        out := out + [b.value];
      }
      i := i + 1;
    }
    assert cells[..|cells|] == cells;
  }

  /** Placing two lists of cells one after the other is placing their
      concatenation. */
  lemma {:induction false} SegmentAppend(cfg: Config, a: seq<Cell>, b: seq<Cell>, s: Seed)
    ensures Segment(cfg, a + b, s).0 == Segment(cfg, a, s).0 + Segment(cfg, b, Segment(cfg, a, s).1).0
    ensures Segment(cfg, a + b, s).1 == Segment(cfg, b, Segment(cfg, a, s).1).1
    decreases |b|
  {
    if |b| == 0 {
      assert a + b == a;
    } else {
      var b' := b[..|b| - 1];
      assert (a + b)[..|a + b| - 1] == a + b';
      assert (a + b)[|a + b| - 1] == b[|b| - 1];
      SegmentAppend(cfg, a, b', s);
    }
  }

  /** The inner loop of a grid at outer value o. */
  method PlaceRow(rng: Rng, cfg: Config, o: real, inner: Axis, xOuter: bool) returns (out: seq<Building>)
    modifies rng
    ensures (out, rng.seed) == Segment(cfg, Row(o, Points(inner), xOuter), old(rng.seed))
  {
    var values := Points(inner);
    ghost var cells := Row(o, values, xOuter);
    out := [];
    var j := 0;
    while j < |values|
      invariant 0 <= j <= |values|
      invariant (out, rng.seed) == Segment(cfg, cells[..j], old(rng.seed))
    {
      var v := values[j];
      var c := if xOuter then Cell(o, v) else Cell(v, o);
      assert cells[j] == c;
      SegmentStep(cfg, cells, j, old(rng.seed));
      var b := PlaceAt(rng, cfg, c);
      if b.Some? {
        out := out + [b.value];
      }
      j := j + 1;
    }
    assert cells[..|values|] == cells;
  }

  /** Two nested `for` loops over a grid, pushing each accepted building. */
  method PlaceGrid(rng: Rng, cfg: Config, outer: Axis, inner: Axis, xOuter: bool) returns (out: seq<Building>)
    modifies rng
    ensures (out, rng.seed) == Segment(cfg, Grid(Points(outer), Points(inner), xOuter), old(rng.seed))
  {
    var outers := Points(outer);
    out := [];
    var i := 0;
    while i < |outers|
      invariant 0 <= i <= |outers|
      invariant (out, rng.seed) == Segment(cfg, Grid(outers[..i], Points(inner), xOuter), old(rng.seed))
    {
      var o := outers[i];
      GridStep(outers, i, Points(inner), xOuter);
      ghost var done := Grid(outers[..i], Points(inner), xOuter);
      ghost var row := Row(o, Points(inner), xOuter);
      SegmentAppend(cfg, done, row, old(rng.seed));
      var more := PlaceRow(rng, cfg, o, inner, xOuter);
      out := out + more;
      i := i + 1;
    }
    assert outers[..|outers|] == outers;
  }

  /** `PlaceholderBuildings`: run every batch on its own generator, append the
      batches in the source's order and apply the final map and filter. */
  method PlaceholderBuildings() returns (buildings: seq<Building>)
    ensures buildings == Layout()
  {
    var behindRng := new Rng(54321);
    var behind := PlaceGrid(behindRng, BehindBuilding1Config, Axis(2.0, 2.0, 3), Axis(-3.0, 2.0, 4), false);

    var mainRng := new Rng(12345);
    var main := PlaceGrid(mainRng, MainConfig, Axis(-12.0, 2.5, 10), Axis(-12.0, 2.5, 10), true);

    var centerRng := new Rng(98765);
    var centerBack := PlaceGrid(centerRng, CenterBackConfig, Axis(0.0, 1.2, 6), Axis(-2.0, 1.2, 4), false);

    var betweenRng := new Rng(11111);
    var between := PlaceGrid(betweenRng, BetweenBuilding1AndCenterConfig, Axis(0.5, 1.0, 8), Axis(-7.0, 1.0, 12), false);

    var leftRng := new Rng(22222);
    var leftOfCenter := PlaceGrid(leftRng, LeftOfCenterConfig, Axis(-2.0, 1.0, 5), Axis(-6.0, 1.0, 6), false);

    var leftBetweenRng := new Rng(33333);
    var leftBetween := PlaceGrid(leftBetweenRng, LeftBetweenConfig, Axis(4.0, 1.0, 4), Axis(-6.0, 1.0, 6), false);

    var waterRng := new Rng(44444);
    var betweenWater := PlaceGrid(waterRng, BetweenWaterAndCenterConfig, Axis(-7.0, 1.0, 7), Axis(-3.0, 1.0, 7), true);

    var frontRng := new Rng(55555);
    var front1 := PlaceAll(frontRng, LeftOfBuilding1SmallConfig, [Cell(6.0, 9.8)]);
    var front2 := PlaceAll(frontRng, FrontOfBuilding1Config, [Cell(8.5, 10.2)]);
    var front3 := PlaceGrid(frontRng, BeforeBuilding1GridConfig, Axis(9.5, 1.8, 1), Axis(5.0, 1.8, 3), false);

    var leftOfB1Rng := new Rng(66666);
    var leftOfBuilding1 := PlaceGrid(leftOfB1Rng, LeftOfBuilding1Config, Axis(6.0, 1.5, 3), Axis(-6.0, 1.5, 4), false);

    var markerRng := new Rng(77777);
    var marker := PlaceGrid(markerRng, MarkerConfig, Axis(0.0, 2.5, 2), Axis(-3.5, 2.5, 1), false);

    var logoRng := new Rng(99999);
    var logo1 := PlaceGrid(logoRng, BeforeLogoNearConfig, Axis(6.3, 0.4, 2), Axis(-5.0, 0.8, 13), false);
    var logo2 := PlaceGrid(logoRng, BeforeLogoNearConfig, Axis(7.2, 0.5, 3), Axis(-5.0, 0.9, 12), false);
    var logo3 := PlaceGrid(logoRng, BeforeLogoBackConfig, Axis(3.5, 0.4, 5), Axis(-5.0, 0.8, 13), false);

    var smallRng := new Rng(88888);
    var smallRight := PlaceAll(smallRng, SmallRightConfig, [Cell(0.5, 1.5), Cell(0.0, 2.5)]);

    BatchOfOne(MainRuns, 12345);
    BatchOfOne(BehindBuilding1Runs, 54321);
    BatchOfOne(CenterBackRuns, 98765);
    BatchOfOne(BetweenBuilding1AndCenterRuns, 11111);
    BatchOfOne(LeftOfCenterRuns, 22222);
    BatchOfOne(LeftBetweenRuns, 33333);
    BatchOfOne(BetweenWaterAndCenterRuns, 44444);
    BatchOfThree(BeforeBuilding1Runs, 55555);
    BatchOfOne(LeftOfBuilding1Runs, 66666);
    BatchOfOne(MarkerRuns, 77777);
    BatchOfThree(BeforeLogoRuns, 99999);
    BatchOfOne(SmallRightRuns, 88888);

    var all := main + behind + centerBack + between + leftOfCenter + leftBetween + betweenWater
      + (logo1 + logo2 + logo3) + (front1 + front2 + front3) + leftOfBuilding1 + marker + smallRight;
    buildings := FinalFilter(all);
  }

  /** A batch of one run is that run's segment. */
  lemma BatchOfOne(runs: seq<Run>, s: Seed)
    requires |runs| == 1
    ensures Batch(runs, s).0 == Segment(runs[0].cfg, runs[0].cells, s).0
  {
    assert runs[..0] == [];
  }

  /** A batch of three runs threads the seed through them in order. */
  lemma BatchOfThree(runs: seq<Run>, s: Seed)
    requires |runs| == 3
    ensures var (a, s1) := Segment(runs[0].cfg, runs[0].cells, s);
            var (b, s2) := Segment(runs[1].cfg, runs[1].cells, s1);
            Batch(runs, s).0 == a + b + Segment(runs[2].cfg, runs[2].cells, s2).0
  {
    assert runs[..2][..1] == runs[..1];
    assert runs[..2][1] == runs[1];
    assert runs[..1][..0] == [];
    assert Batch(runs[..1], s).0 == Segment(runs[0].cfg, runs[0].cells, s).0;
  }
}
