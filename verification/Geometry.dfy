// Screen edges, spans along them and the points they map to (src/geometry.rs, the edge checks and the pointer
// placement of src/bridge.rs, and the strip arithmetic of src/capture_probe.rs), over real numbers.
module Geometry {
  import opened Protocol

  datatype Rect = Rect(x: real, y: real, width: real, height: real) {
    predicate Valid() {
      width >= 1.0 && height >= 1.0
    }
  }

  datatype Edge = Top | Bottom | Left | Right {
    predicate Horizontal() {
      Top? || Bottom?
    }
  }

  const EPSILON := 16.0 / 4_503_599_627_370_496.0

  function Clamp(v: real, low: real, high: real): (r: real)
    requires low <= high
    ensures low <= r <= high
    ensures low <= v <= high ==> r == v
  {
    if v < low then low else if v > high then high else v
  }

  function Least(a: real, b: real): real {
    if a <= b then a else b
  }

  /** A relative position or distance on a side, in pixels. */
  function Pixels(relative: real, length: real): real {
    relative * length
  }

  datatype Boundary = Boundary(edge: Edge, start: real, end: real) {
    predicate Valid() {
      0.0 <= start < end <= 1.0
    }

    /** Where a point of the edge lies within the span, from 0 to 1; nothing beside the span. */
    function FractionAt(rect: Rect, x: real, y: real): Outcome<Option<real>> {
      if !Valid() || !rect.Valid() then Failed
      else
        var along := if edge.Horizontal() then (x - rect.x) / rect.width else (y - rect.y) / rect.height;
        if start - EPSILON <= along <= end + EPSILON
        then Ok(Some(Clamp((along - start) / (end - start), 0.0, 1.0)))
        else Ok(None)
    }

    /** The relative position on the edge of a position within the span. */
    function Inner(fraction: real): real {
      start + fraction * (end - start)
    }

    /** The point just inside the screen that a position within the span stands for. */
    function PointAt(rect: Rect, fraction: real, inset: real): Outcome<(real, real)> {
      if !Valid() || !rect.Valid() || !(0.0 <= fraction <= 1.0) || inset <= 0.0 then Failed
      else
        var t := Inner(fraction);
        var ix, iy := Least(inset, rect.width / 2.0), Least(inset, rect.height / 2.0);
        var tangentX := Clamp(rect.x + Pixels(t, rect.width), rect.x + 0.5, rect.x + rect.width - 0.5);
        var tangentY := Clamp(rect.y + Pixels(t, rect.height), rect.y + 0.5, rect.y + rect.height - 0.5);
        Ok(match edge
           case Top => (tangentX, rect.y + iy)
           case Bottom => (tangentX, rect.y + rect.height - iy)
           case Left => (rect.x + ix, tangentY)
           case Right => (rect.x + rect.width - ix, tangentY))
    }

    function Length(rect: Rect): real {
      if edge.Horizontal() then rect.width else rect.height
    }

    /** How far along the edge a point lies, in pixels. */
    function Tangent(rect: Rect, x: real, y: real): real {
      if edge.Horizontal() then x - rect.x else y - rect.y
    }
  }

  /** Every placement is strictly inside the screen, for every screen, span, fraction and inset. */
  lemma PointIsInside(b: Boundary, rect: Rect, fraction: real, inset: real)
    requires b.PointAt(rect, fraction, inset).Ok?
    ensures var (x, y) := b.PointAt(rect, fraction, inset).value;
            rect.x < x < rect.x + rect.width && rect.y < y < rect.y + rect.height
  {
  }

  /** How far a point is inside the screen, seen from this side of it. */
  function Depth(edge: Edge, rect: Rect, x: real, y: real): real {
    match edge
    case Top => y - rect.y
    case Bottom => rect.y + rect.height - y
    case Left => x - rect.x
    case Right => rect.x + rect.width - x
  }

  function Opposite(edge: Edge): Edge {
    match edge
    case Top => Bottom
    case Bottom => Top
    case Left => Right
    case Right => Left
  }

  /** A placement lies on the side of its edge: as deep inside as the inset says, but never past the middle, so the
      opposite side is no nearer. */
  lemma PointIsAtItsEdge(b: Boundary, rect: Rect, fraction: real, inset: real)
    requires b.PointAt(rect, fraction, inset).Ok?
    ensures var (x, y) := b.PointAt(rect, fraction, inset).value;
            var near, far := Depth(b.edge, rect, x, y), Depth(Opposite(b.edge), rect, x, y);
            0.0 < near <= far && (near == inset || (near == far && near < inset))
  {
  }

  /** The tangent of a placement is the span's point, kept half a pixel away from the corners. */
  lemma TangentOfPoint(b: Boundary, rect: Rect, fraction: real, inset: real)
    requires b.PointAt(rect, fraction, inset).Ok?
    ensures var (x, y) := b.PointAt(rect, fraction, inset).value;
            b.Tangent(rect, x, y) == OffCorners(Pixels(b.Inner(fraction), b.Length(rect)), b.Length(rect))
  {
    hide Boundary.Inner, Pixels;
    var t := b.Inner(fraction);
    ShiftedClamp(rect.x, Pixels(t, rect.width), rect.width);
    ShiftedClamp(rect.y, Pixels(t, rect.height), rect.height);
  }

  function OffCorners(p: real, length: real): real
    requires length >= 1.0
  {
    Clamp(p, 0.5, length - 0.5)
  }

  lemma ShiftedClamp(x: real, v: real, length: real)
    requires length >= 1.0
    ensures Clamp(x + v, x + 0.5, x + length - 0.5) - x == OffCorners(v, length)
  {
  }

  lemma SpanPoint(b: Boundary, fraction: real)
    requires b.Valid() && 0.0 <= fraction <= 1.0
    ensures b.start <= b.Inner(fraction) <= b.end
  {
    var span := b.end - b.start;
    Product(fraction, span);
    Product(1.0 - fraction, span);
    Distribute(1.0, fraction, span);
  }

  lemma DivideBetween(p: real, q: real, length: real)
    requires length > 0.0
    ensures p <= Pixels(q, length) <==> p / length <= q
    ensures p >= Pixels(q, length) <==> p / length >= q
  {
    var r := p / length;
    assert r * length == p;
    if r <= q {
      Product(q - r, length);
      Distribute(q, r, length);
    } else {
      Product(r - q, length);
      Distribute(r, q, length);
    }
  }

  lemma Product(a: real, b: real)
    requires a >= 0.0 && b >= 0.0
    ensures a * b >= 0.0
    ensures a > 0.0 && b > 0.0 ==> a * b > 0.0
  {
  }

  lemma Distribute(a: real, b: real, c: real)
    ensures (a - b) * c == a * c - b * c
  {
  }

  /** The span, widened by the rounding allowance, reaches a point half a pixel away from both corners. */
  predicate Reachable(b: Boundary, length: real) {
    Pixels(b.end + EPSILON, length) >= 0.5 && Pixels(b.start - EPSILON, length) <= length - 0.5
  }

  /** Exactly when the span reaches past the corner pixels does a placed point map back onto the span; and then the
      fraction comes back to within half a pixel of tangent, and exactly unless a corner was near. */
  lemma FractionComesBack(b: Boundary, rect: Rect, fraction: real, inset: real)
    requires b.PointAt(rect, fraction, inset).Ok?
    ensures var (x, y) := b.PointAt(rect, fraction, inset).value;
            var back := b.FractionAt(rect, x, y);
            && back.Ok? && (back.value.Some? <==> Reachable(b, b.Length(rect)))
            && (back.value.Some? ==> Restored(b, b.Length(rect), fraction, back.value.value))
  {
    hide Boundary.Inner, Pixels, OffCorners, Boundary.PointAt, Restored, Reachable;
    var (x, y) := b.PointAt(rect, fraction, inset).value;
    TangentOfPoint(b, rect, fraction, inset);
    var p := b.Tangent(rect, x, y);
    Accepted(b, rect, fraction, inset);
    SpanPoint(b, fraction);
    OnSpan(b, b.Inner(fraction), p, b.Length(rect));
    NearEnough(b, fraction, p, b.Length(rect));
    assert b.FractionAt(rect, x, y) == Ok(Along(b, p / b.Length(rect)));
  }

  lemma Accepted(b: Boundary, rect: Rect, fraction: real, inset: real)
    requires b.PointAt(rect, fraction, inset).Ok?
    ensures b.Valid() && rect.Valid() && 0.0 <= fraction <= 1.0
  {
  }

  /** The fraction came back to within half a pixel, and exactly when its point is half a pixel off both corners. */
  predicate Restored(b: Boundary, length: real, fraction: real, back: real) {
    && -0.5 <= Pixels(back - fraction, Pixels(b.end - b.start, length)) <= 0.5
    && (0.5 <= Pixels(b.Inner(fraction), length) <= length - 0.5 ==> back == fraction)
  }

  function Along(b: Boundary, along: real): Option<real>
    requires b.Valid()
  {
    if b.start - EPSILON <= along <= b.end + EPSILON
    then Some(Clamp((along - b.start) / (b.end - b.start), 0.0, 1.0)) else None
  }

  lemma OnSpan(b: Boundary, t: real, p: real, length: real)
    requires b.Valid() && length >= 1.0 && b.start <= t <= b.end
    requires p == OffCorners(Pixels(t, length), length)
    ensures Along(b, p / length).Some? <==> Reachable(b, length)
  {
    hide Pixels;
    DivideBetween(p, b.start - EPSILON, length);
    DivideBetween(p, b.end + EPSILON, length);
    PixelsOrdered(b.start - EPSILON, t, length);
    PixelsOrdered(t, b.end + EPSILON, length);
  }

  lemma PixelsOrdered(p: real, q: real, length: real)
    requires p <= q && length > 0.0
    ensures Pixels(p, length) <= Pixels(q, length)
  {
    Product(q - p, length);
    Distribute(q, p, length);
  }

  lemma NearEnough(b: Boundary, fraction: real, p: real, length: real)
    requires b.Valid() && length >= 1.0 && 0.0 <= fraction <= 1.0
    requires p == OffCorners(Pixels(b.Inner(fraction), length), length)
    ensures Restored(b, length, fraction, Clamp((p / length - b.start) / (b.end - b.start), 0.0, 1.0))
  {
    hide Pixels;
    var span, t := b.end - b.start, b.Inner(fraction);
    var raw := (p / length - b.start) / span;
    RawDistance(b, fraction, p, length);
    SpanPoint(b, fraction);
    PixelsOrdered(0.0, t, length);
    PixelsOrdered(t, 1.0, length);
    PixelsOfUnits(length);
    PixelsPositive(span, length);
    ShrinkingClamp(raw, fraction, Pixels(span, length));
    if 0.5 <= Pixels(t, length) <= length - 0.5 {
      NoDistance(raw - fraction, Pixels(span, length));
    }
  }

  lemma PixelsOfUnits(length: real)
    ensures Pixels(0.0, length) == 0.0 && Pixels(1.0, length) == length
  {
  }

  lemma PixelsPositive(p: real, length: real)
    requires p > 0.0 && length > 0.0
    ensures Pixels(p, length) > 0.0
  {
  }

  lemma NoDistance(d: real, scale: real)
    requires scale > 0.0 && Pixels(d, scale) == 0.0
    ensures d == 0.0
  {
  }

  /** Undoing the two divisions: distances in fractions are distances in pixels. */
  lemma RawDistance(b: Boundary, fraction: real, p: real, length: real)
    requires b.Valid() && length > 0.0
    ensures var raw := (p / length - b.start) / (b.end - b.start);
            Pixels(raw - fraction, Pixels(b.end - b.start, length)) == p - Pixels(b.Inner(fraction), length)
  {
    var span, along := b.end - b.start, p / length;
    assert along * length == p;
    var raw := (along - b.start) / span;
    assert raw * span == along - b.start;
    assert (raw - fraction) * span == along - b.Inner(fraction) by {
      Distribute(raw, fraction, span);
    }
    Regroup(raw - fraction, span, length);
    Distribute(along, b.Inner(fraction), length);
  }

  lemma Regroup(a: real, b: real, c: real)
    ensures a * (b * c) == (a * b) * c
  {
  }

  /** Clamping to [0, 1] never moves away from a value in [0, 1]. */
  lemma ShrinkingClamp(raw: real, f: real, scale: real)
    requires 0.0 <= f <= 1.0 && scale > 0.0
    ensures Between(Pixels(Clamp(raw, 0.0, 1.0) - f, scale), Pixels(raw - f, scale))
  {
    hide Pixels;
    PixelsOfUnits(scale);
    if raw >= f {
      PixelsOrdered(0.0, Clamp(raw, 0.0, 1.0) - f, scale);
      PixelsOrdered(Clamp(raw, 0.0, 1.0) - f, raw - f, scale);
    } else {
      PixelsOrdered(Clamp(raw, 0.0, 1.0) - f, 0.0, scale);
      PixelsOrdered(raw - f, Clamp(raw, 0.0, 1.0) - f, scale);
    }
  }

  /** `v` lies between 0 and `w`. */
  predicate Between(v: real, w: real) {
    0.0 <= v <= w || w <= v <= 0.0
  }

  /** A span of at least one pixel is always reachable, so a crossing and its return agree to half a pixel. */
  lemma OnePixelIsEnough(b: Boundary, length: real)
    requires b.Valid() && length >= 1.0 && Pixels(b.end - b.start, length) >= 1.0
    ensures Reachable(b, length)
  {
    hide Pixels;
    PixelsOfUnits(length);
    PixelsOrdered(b.end - b.start, b.end + EPSILON, length);
    PixelsOrdered(b.start - EPSILON, 1.0 - (b.end - b.start), length);
    PixelsDifference(1.0, b.end - b.start, length);
  }

  lemma PixelsDifference(p: real, q: real, length: real)
    ensures Pixels(p - q, length) == Pixels(p, length) - Pixels(q, length)
  {
  }

  /** Every point of a span that does not reach past the corner pixels is lost: where it is placed lies beside the
      span. */
  lemma CornerSpanIsLost(b: Boundary, rect: Rect, fraction: real, inset: real)
    requires b.PointAt(rect, fraction, inset).Ok? && !Reachable(b, b.Length(rect))
    ensures var (x, y) := b.PointAt(rect, fraction, inset).value; b.FractionAt(rect, x, y) == Ok(None)
  {
    FractionComesBack(b, rect, fraction, inset);
  }

  /** There are such spans: the first 0.0002 of the top of a screen of 1920 by 1080, some 0.4 pixels. Wherever in it
      a pointer is placed, it is placed beside it. */
  lemma NarrowSpanIsLost(fraction: real, inset: real)
    requires 0.0 <= fraction <= 1.0 && inset > 0.0
    ensures var b, rect := Boundary(Top, 0.0, 0.0002), Rect(0.0, 0.0, 1920.0, 1080.0);
            && b.PointAt(rect, fraction, inset).Ok?
            && var (x, y) := b.PointAt(rect, fraction, inset).value; b.FractionAt(rect, x, y) == Ok(None)
  {
    var b, rect := Boundary(Top, 0.0, 0.0002), Rect(0.0, 0.0, 1920.0, 1080.0);
    assert Pixels(b.end + EPSILON, 1920.0) < 0.5;
    CornerSpanIsLost(b, rect, fraction, inset);
  }

  // ---- Configured edges ----

  datatype EdgeConfig = EdgeConfig(id: string, output: string, boundary: Boundary)

  const MAX_EDGES := 16

  /** Bytes of a string in UTF-8, the unit in which its length is limited. */
  function Bytes(s: string): nat {
    if s == "" then 0
    else
      var c := s[0] as int;
      (if c < 0x80 then 1 else if c < 0x800 then 2 else if c < 0x1_0000 then 3 else 4) + Bytes(s[1..])
  }

  predicate IdCharacter(c: char) {
    'a' <= c <= 'z' || 'A' <= c <= 'Z' || '0' <= c <= '9' || c == '-' || c == '_'
  }

  predicate ControlCharacter(c: char) {
    c as int < 0x20 || 0x7F <= c as int < 0xA0
  }

  predicate ValidEdgeId(id: string) {
    id != "" && Bytes(id) <= 64 && forall i :: 0 <= i < |id| ==> IdCharacter(id[i])
  }

  predicate ValidEdge(e: EdgeConfig) {
    && ValidEdgeId(e.id)
    && e.output != "" && Bytes(e.output) <= 128 && (forall i :: 0 <= i < |e.output| ==> !ControlCharacter(e.output[i]))
    && e.boundary.Valid()
  }

  /** Two spans that cannot both be crossed at one point. */
  predicate Apart(a: EdgeConfig, b: EdgeConfig) {
    a.output != b.output || a.boundary.edge != b.boundary.edge
    || a.boundary.start >= b.boundary.end || b.boundary.start >= a.boundary.end
  }

  predicate ValidEdges(edges: seq<EdgeConfig>) {
    && 0 < |edges| <= MAX_EDGES
    && (forall i :: 0 <= i < |edges| ==> ValidEdge(edges[i]))
    && forall i, j :: 0 <= i < j < |edges| ==> edges[i].id != edges[j].id && Apart(edges[j], edges[i])
  }

  /** The check that walks the edges once, each against the ones before it. */
  method ValidateEdges(edges: seq<EdgeConfig>) returns (ok: bool)
    ensures ok <==> ValidEdges(edges)
  {
    hide ValidEdge, Apart;
    if !(0 < |edges| <= MAX_EDGES) {
      return false;
    }
    var ids := {};
    for index := 0 to |edges|
      invariant forall i :: 0 <= i < index ==> ValidEdge(edges[i])
      invariant forall i, j :: 0 <= i < j < index ==> edges[i].id != edges[j].id && Apart(edges[j], edges[i])
      invariant forall i :: 0 <= i < index ==> edges[i].id in ids
      invariant forall id :: id in ids ==> exists i :: 0 <= i < index && edges[i].id == id
    {
      var edge := edges[index];
      if !ValidEdge(edge) || edge.id in ids {
        return false;
      }
      ids := ids + {edge.id};
      for previous := 0 to index
        invariant forall i :: 0 <= i < previous ==> Apart(edge, edges[i])
      {
        if !Apart(edge, edges[previous]) {
          return false;
        }
      }
    }
    return true;
  }

  /** First pixel and number of pixels of the strip that catches the pointer on a span. */
  function StripOffset(b: Boundary, length: nat): int {
    (b.start * length as real).Floor
  }

  function StripExtent(b: Boundary, length: nat): int {
    ((b.end - b.start) * length as real).Floor
  }

  /** Every strip lies inside its edge. */
  lemma StripInside(b: Boundary, length: nat)
    requires b.Valid()
    ensures 0 <= StripOffset(b, length) && 0 <= StripExtent(b, length)
    ensures StripOffset(b, length) + StripExtent(b, length) <= (b.end * length as real).Floor <= length
  {
    var l := length as real;
    assert b.start * l >= 0.0;
    assert (b.end - b.start) * l >= 0.0;
    assert (1.0 - b.end) * l >= 0.0;
    assert b.start * l + (b.end - b.start) * l == b.end * l;
  }

  /** Validated edges give strips that share no pixel. */
  lemma StripsDisjoint(edges: seq<EdgeConfig>, i: nat, j: nat, length: nat)
    requires ValidEdges(edges) && i < |edges| && j < |edges| && i != j
    requires edges[i].output == edges[j].output && edges[i].boundary.edge == edges[j].boundary.edge
    ensures var a, b := edges[i].boundary, edges[j].boundary;
            || StripOffset(a, length) + StripExtent(a, length) <= StripOffset(b, length)
            || StripOffset(b, length) + StripExtent(b, length) <= StripOffset(a, length)
  {
    var a, b := edges[i].boundary, edges[j].boundary;
    var l := length as real;
    assert ValidEdge(edges[i]) && ValidEdge(edges[j]);
    assert Apart(edges[if i < j then j else i], edges[if i < j then i else j]);
    StripInside(a, length);
    StripInside(b, length);
    if a.start >= b.end {
      assert (a.start - b.end) * l >= 0.0;
    } else {
      assert (b.start - a.end) * l >= 0.0;
    }
  }

  /** A strip is its span, to the pixel: it begins in the pixel in which the span begins, and ends less than two pixels
      before the span does. */
  lemma StripIsItsSpan(b: Boundary, length: nat)
    requires b.Valid()
    ensures var start, end := b.start * length as real, b.end * length as real;
            var offset := StripOffset(b, length) as real;
            var past := (StripOffset(b, length) + StripExtent(b, length)) as real;
            offset <= start < offset + 1.0 && past <= end < past + 2.0
  {
    var l := length as real;
    assert b.start * l + (b.end - b.start) * l == b.end * l;
  }

  // ---- Placing the pointer ----

  /** The logical size of an output, unless it is disabled. */
  datatype Output = Disabled | Enabled(width: nat, height: nat)

  const INSET := 4.0

  function Placement(outputs: map<string, Output>, edge: EdgeConfig, fraction: real): Outcome<InputEvent> {
    if edge.output !in outputs || outputs[edge.output].Disabled? then Failed
    else
      var size := outputs[edge.output];
      var point :- edge.boundary.PointAt(Rect(0.0, 0.0, size.width as real, size.height as real), fraction, INSET);
      Ok(AbsoluteInput(Truncated(point.0), Truncated(point.1), size.width, size.height))
  }

  function Truncated(v: real): nat {
    if v <= 0.0 then 0 else v.Floor
  }

  /** Whatever the outputs, the edge and the fraction, a placement is a valid absolute event. */
  lemma PlacementIsValid(outputs: map<string, Output>, edge: EdgeConfig, fraction: real)
    requires Placement(outputs, edge, fraction).Ok?
    ensures var e := Placement(outputs, edge, fraction).value; e.AbsoluteInput? && e.Valid()
  {
    var size := outputs[edge.output];
    PointIsInside(edge.boundary, Rect(0.0, 0.0, size.width as real, size.height as real), fraction, INSET);
  }

  /** A placement is made for the whole output, in the pixel of its point: at most the inset deep inside the edge's
      side, and along it where the fraction of the span lies, half a pixel away from the corners. */
  lemma PlacementIsAtItsEdge(outputs: map<string, Output>, edge: EdgeConfig, fraction: real)
    requires Placement(outputs, edge, fraction).Ok?
    ensures edge.output in outputs && outputs[edge.output].Enabled?
    ensures var e, size, b := Placement(outputs, edge, fraction).value, outputs[edge.output], edge.boundary;
            var length := if b.edge.Horizontal() then size.width as real else size.height as real;
            var along := if b.edge.Horizontal() then e.x as real else e.y as real;
            && e.AbsoluteInput? && e.width == size.width && e.height == size.height
            && length >= 1.0 && along <= OffCorners(Pixels(b.Inner(fraction), length), length) < along + 1.0
            && match b.edge
               case Top => e.y as real <= INSET
               case Left => e.x as real <= INSET
               case Bottom => e.y as real >= size.height as real - INSET - 1.0
               case Right => e.x as real >= size.width as real - INSET - 1.0
  {
    hide Boundary.Inner, Pixels, OffCorners;
    var size, b := outputs[edge.output], edge.boundary;
    var rect := Rect(0.0, 0.0, size.width as real, size.height as real);
    PointIsInside(b, rect, fraction, INSET);
    PointIsAtItsEdge(b, rect, fraction, INSET);
    TangentOfPoint(b, rect, fraction, INSET);
  }

  /** A crossing reported by one side can always be placed by the other, on any enabled output and valid edge. */
  lemma CrossingCanBePlaced(from: Boundary, rect: Rect, x: real, y: real, outputs: map<string, Output>, to: EdgeConfig)
    requires from.FractionAt(rect, x, y).Ok? && from.FractionAt(rect, x, y).value.Some?
    requires ValidEdge(to) && to.output in outputs && outputs[to.output].Enabled?
    requires outputs[to.output].width > 0 && outputs[to.output].height > 0
    ensures Placement(outputs, to, from.FractionAt(rect, x, y).value.value).Ok?
  {
  }
}
