/**
 * The openings drawn on the simulated room: passages on the two faces
 * perpendicular to the z axis, windows on the two faces perpendicular to the
 * x axis. Coordinates are relative to the room's centre, normalised so that
 * every face lies at -0.5 or +0.5 on its axis.
 */
module Geometry {

  datatype Vec3 = Vec3(x: real, y: real, z: real)

  datatype Axis = X | Y | Z

  function Coord(v: Vec3, a: Axis): real
  {
    match a
    case X => v.x
    case Y => v.y
    case Z => v.z
  }

  /** An opening outline: its four corners in drawing order. */
  datatype Opening = Opening(corners: seq<Vec3>)

  /** Relative sizes of the openings, as fractions of the face they sit on. */
  const PASSAGE_RELATIVE_HEIGHT: real := 0.7
  const PASSAGE_RELATIVE_WIDTH: real := 0.25
  const WINDOW_RELATIVE_HEIGHT: real := 0.5
  const WINDOW_RELATIVE_WIDTH: real := 0.4

  /** No more than two openings of each kind are drawn. */
  const MAX_OPENINGS_PER_KIND: nat := 2

  /** Half of a relative size: the distance from an opening's centre to its edge. */
  function Half(size: real): real
  {
    size * 0.5
  }

  /** A passage on the face z = side: PASSAGE_RELATIVE_WIDTH wide along x, PASSAGE_RELATIVE_HEIGHT high along y. */
  function PassageOn(side: real): Opening
  {
    var w := Half(PASSAGE_RELATIVE_WIDTH);
    var h := Half(PASSAGE_RELATIVE_HEIGHT);
    Opening([Vec3(-w, -h, side), Vec3(w, -h, side), Vec3(w, h, side), Vec3(-w, h, side)])
  }

  /** A window on the face x = side: WINDOW_RELATIVE_WIDTH wide along z, WINDOW_RELATIVE_HEIGHT high along y. */
  function WindowOn(side: real): Opening
  {
    var h := Half(WINDOW_RELATIVE_HEIGHT);
    var d := Half(WINDOW_RELATIVE_WIDTH);
    Opening([Vec3(side, -h, -d), Vec3(side, -h, d), Vec3(side, h, d), Vec3(side, h, -d)])
  }

  /** How many openings of a kind are drawn for a stored count: negative counts draw none, more than two draw two. */
  function OpeningCount(n: int): (c: nat)
    ensures c <= MAX_OPENINGS_PER_KIND
    ensures 0 <= n <= MAX_OPENINGS_PER_KIND ==> c == n
    ensures n < 0 ==> c == 0
    ensures n > MAX_OPENINGS_PER_KIND ==> c == MAX_OPENINGS_PER_KIND
  {
    if n <= 0 then 0 else if n >= 2 then 2 else 1
  }

  /** The face an opening of index i sits on: the first on the negative side, the second on the positive one. */
  function FaceSide(i: nat): real
  {
    if i == 0 then -0.5 else 0.5
  }

  /** Every corner lies on the face where the given axis equals side. */
  predicate OnFace(o: Opening, a: Axis, side: real)
  {
    forall i :: 0 <= i < |o.corners| ==> Coord(o.corners[i], a) == side
  }

  /** Every corner's coordinate on the given axis lies strictly inside the room, away from its faces. */
  predicate StrictlyInside(o: Opening, a: Axis)
  {
    forall i :: 0 <= i < |o.corners| ==> -0.5 < Coord(o.corners[i], a) < 0.5
  }

  /** Going from p to q moves along axis a only, keeping the coordinate on axis b. */
  predicate EdgeAlong(p: Vec3, q: Vec3, a: Axis, b: Axis)
  {
    Coord(p, a) != Coord(q, a) && Coord(p, b) == Coord(q, b)
  }

  /**
   * On the two in-face axes u and v, the corners are corners of a rectangle
   * centred on the face, with half extents hu and hv, visited around its
   * outline: the edges alternate between the u and the v direction.
   */
  predicate CentredRectangle(o: Opening, u: Axis, v: Axis, hu: real, hv: real)
  {
    && |o.corners| == 4
    && 0.0 < hu && 0.0 < hv
    && (forall i :: 0 <= i < 4 ==>
          (Coord(o.corners[i], u) == hu || Coord(o.corners[i], u) == -hu)
          && (Coord(o.corners[i], v) == hv || Coord(o.corners[i], v) == -hv))
    && EdgeAlong(o.corners[0], o.corners[1], u, v)
    && EdgeAlong(o.corners[1], o.corners[2], v, u)
    && EdgeAlong(o.corners[2], o.corners[3], u, v)
    && EdgeAlong(o.corners[3], o.corners[0], v, u)
  }

  /** The shape a passage on a z wall has. */
  predicate PassageShaped(o: Opening, side: real)
  {
    && OnFace(o, Z, side)
    && StrictlyInside(o, X) && StrictlyInside(o, Y)
    && CentredRectangle(o, X, Y, Half(PASSAGE_RELATIVE_WIDTH), Half(PASSAGE_RELATIVE_HEIGHT))
  }

  /** The shape a window on an x wall has. */
  predicate WindowShaped(o: Opening, side: real)
  {
    && OnFace(o, X, side)
    && StrictlyInside(o, Y) && StrictlyInside(o, Z)
    && CentredRectangle(o, Z, Y, Half(WINDOW_RELATIVE_WIDTH), Half(WINDOW_RELATIVE_HEIGHT))
  }

  lemma PassageOnShape(side: real)
    ensures PassageShaped(PassageOn(side), side)
  {
    var cs := PassageOn(side).corners;
    assert forall i :: 0 <= i < 4 ==> cs[i].z == side && -0.5 < cs[i].x < 0.5 && -0.5 < cs[i].y < 0.5;
  }

  lemma WindowOnShape(side: real)
    ensures WindowShaped(WindowOn(side), side)
  {
    var cs := WindowOn(side).corners;
    assert forall i :: 0 <= i < 4 ==> cs[i].x == side && -0.5 < cs[i].y < 0.5 && -0.5 < cs[i].z < 0.5;
  }

  /** The passages drawn for a stored passage count, in the order they are pushed: the first on z = -0.5, the second on z = +0.5. */
  function Passages(n: int): (r: seq<Opening>)
    ensures |r| == OpeningCount(n)
    ensures forall i :: 0 <= i < |r| ==> r[i] == PassageOn(FaceSide(i))
  {
    if n >= 2 then [PassageOn(-0.5), PassageOn(0.5)] else if n >= 1 then [PassageOn(-0.5)] else []
  }

  /** The windows drawn for a stored window count, in the order they are pushed: the first on x = -0.5, the second on x = +0.5. */
  function Windows(n: int): (r: seq<Opening>)
    ensures |r| == OpeningCount(n)
    ensures forall i :: 0 <= i < |r| ==> r[i] == WindowOn(FaceSide(i))
  {
    if n >= 2 then [WindowOn(-0.5), WindowOn(0.5)] else if n >= 1 then [WindowOn(-0.5)] else []
  }

  /** Every drawn passage has the passage shape on its z face, every drawn window the window shape on its x face. */
  lemma DrawnOpeningsShaped(p: int, w: int)
    ensures forall i :: 0 <= i < |Passages(p)| ==> PassageShaped(Passages(p)[i], FaceSide(i))
    ensures forall i :: 0 <= i < |Windows(w)| ==> WindowShaped(Windows(w)[i], FaceSide(i))
  {
    PassageOnShape(-0.5);
    PassageOnShape(0.5);
    WindowOnShape(-0.5);
    WindowOnShape(0.5);
  }

  /** A point lies on a wall of the room: one of its coordinates is at -0.5 or +0.5. */
  predicate OnWall(v: Vec3, a: Axis)
  {
    Coord(v, a) == -0.5 || Coord(v, a) == 0.5
  }

  /**
   * Every corner of every drawn opening touches exactly one wall: passages
   * only a z wall and windows only an x wall, so no corner sits on an edge of
   * the room and no passage shares a wall with a window.
   */
  lemma OpeningsTouchOneWall(p: int, w: int)
    ensures var ps := Passages(p);
            forall i, k :: 0 <= i < |ps| && 0 <= k < |ps[i].corners| ==>
              OnWall(ps[i].corners[k], Z) && !OnWall(ps[i].corners[k], X) && !OnWall(ps[i].corners[k], Y)
    ensures var ws := Windows(w);
            forall i, k :: 0 <= i < |ws| && 0 <= k < |ws[i].corners| ==>
              OnWall(ws[i].corners[k], X) && !OnWall(ws[i].corners[k], Y) && !OnWall(ws[i].corners[k], Z)
  {
    var ps, ws := Passages(p), Windows(w);
    DrawnOpeningsShaped(p, w);
    forall i, k | 0 <= i < |ps| && 0 <= k < |ps[i].corners|
      ensures OnWall(ps[i].corners[k], Z) && !OnWall(ps[i].corners[k], X) && !OnWall(ps[i].corners[k], Y)
    {
      var c := ps[i].corners[k];
      assert Coord(c, Z) == FaceSide(i);
      assert -0.5 < Coord(c, X) < 0.5 && -0.5 < Coord(c, Y) < 0.5;
    }
    forall i, k | 0 <= i < |ws| && 0 <= k < |ws[i].corners|
      ensures OnWall(ws[i].corners[k], X) && !OnWall(ws[i].corners[k], Y) && !OnWall(ws[i].corners[k], Z)
    {
      var c := ws[i].corners[k];
      assert Coord(c, X) == FaceSide(i);
      assert -0.5 < Coord(c, Y) < 0.5 && -0.5 < Coord(c, Z) < 0.5;
    }
  }
}
