/**
 * MapSystem: the world is generated by cutting the map rectangle into four
 * quadrants `recursionDepth` times and spawning one random item in every
 * resulting cell. The Gizmo drawing walks the same quadtree.
 */
module Map {
  import opened Wrappers
  import opened Domain

  /** Unity's `Rect`: lower-left corner and size; `xMax` is `x + width`. */
  datatype Rect = Rect(x: real, y: real, width: real, height: real)

  /** The whole map, centred on the origin. */
  function FullMap(mapSize: Vec2): (r: Rect)
    ensures r.width == mapSize.x && r.height == mapSize.y
    ensures BoxOf(r).center == Vec2(0.0, 0.0)
  {
    Rect(-mapSize.x / 2.0, -mapSize.y / 2.0, mapSize.x, mapSize.y)
  }

  /** The four quadrants in the order they are visited: lower-left, lower-right, upper-left, upper-right. */
  function Quadrant(r: Rect, i: nat): Rect
    requires i < 4
  {
    var hw := r.width / 2.0;
    var hh := r.height / 2.0;
    match i
    case 0 => Rect(r.x, r.y, hw, hh)
    case 1 => Rect(r.x + hw, r.y, hw, hh)
    case 2 => Rect(r.x, r.y + hh, hw, hh)
    case _ => Rect(r.x + hw, r.y + hh, hw, hh)
  }

  function Quadrants(r: Rect): seq<Rect> {
    [Quadrant(r, 0), Quadrant(r, 1), Quadrant(r, 2), Quadrant(r, 3)]
  }

  /** The cells DivideAndConquer spawns into, in the order it reaches them. */
  function Leaves(r: Rect, depth: nat): (cells: seq<Rect>)
    ensures |cells| == Pow4(depth)
    decreases depth
  {
    if depth == 0 then [r]
    else
      Leaves(Quadrant(r, 0), depth - 1) + Leaves(Quadrant(r, 1), depth - 1)
      + Leaves(Quadrant(r, 2), depth - 1) + Leaves(Quadrant(r, 3), depth - 1)
  }

  function Pow4(n: nat): nat {
    if n == 0 then 1 else 4 * Pow4(n - 1)
  }

  function Pow2(n: nat): nat {
    if n == 0 then 1 else 2 * Pow2(n - 1)
  }

  /** The default configuration, depth 3, gives 64 cells. */
  lemma DefaultDepthGives64Cells(mapSize: Vec2)
    ensures |Leaves(FullMap(mapSize), 3)| == 64
  {
  }

  /** `w` halved `n` times. */
  function Halved(w: real, n: nat): real
    decreases n
  {
    if n == 0 then w else Halved(w / 2.0, n - 1)
  }

  lemma {:induction false} HalvedIsDivision(w: real, n: nat)
    ensures Halved(w, n) * Pow2(n) as real == w
    decreases n
  {
    if n > 0 {
      HalvedIsDivision(w / 2.0, n - 1);
      var p := Pow2(n - 1) as real;
      assert Halved(w / 2.0, n - 1) * p == w / 2.0;
      assert Halved(w, n) * (2.0 * p) == 2.0 * (Halved(w, n) * p);
    }
  }

  /** The cells of a rectangle are its four quadrants' cells, in quadrant order. */
  lemma LeavesSplit(r: Rect, depth: nat)
    requires depth > 0
    ensures Leaves(r, depth) == Leaves(Quadrant(r, 0), depth - 1) + Leaves(Quadrant(r, 1), depth - 1)
                                + Leaves(Quadrant(r, 2), depth - 1) + Leaves(Quadrant(r, 3), depth - 1)
  {
  }

  /** Each quadrant is half as wide and half as high as its rectangle. */
  lemma QuadrantSize(r: Rect, i: nat)
    requires i < 4
    ensures Quadrant(r, i).width == r.width / 2.0 && Quadrant(r, i).height == r.height / 2.0
  {
  }

  /** Every cell at depth `d` has the starting width and height halved `d` times. */
  lemma {:induction false} LeafSize(r: Rect, depth: nat)
    ensures forall c | c in Leaves(r, depth) ::
      c.width == Halved(r.width, depth) && c.height == Halved(r.height, depth)
    decreases depth, 1
  {
    if depth > 0 {
      LeavesSplit(r, depth);
      QuadrantLeafSize(r, depth, 0);
      QuadrantLeafSize(r, depth, 1);
      QuadrantLeafSize(r, depth, 2);
      QuadrantLeafSize(r, depth, 3);
    }
  }

  lemma {:induction false} QuadrantLeafSize(r: Rect, depth: nat, i: nat)
    requires depth > 0 && i < 4
    ensures forall c | c in Leaves(Quadrant(r, i), depth - 1) ::
      c.width == Halved(r.width, depth) && c.height == Halved(r.height, depth)
    decreases depth, 0
  {
    QuadrantSize(r, i);
    LeafSize(Quadrant(r, i), depth - 1);
  }

  /** Rectangle `inner` lies within rectangle `outer`. */
  predicate Within(inner: Rect, outer: Rect) {
    && outer.x <= inner.x && inner.x + inner.width <= outer.x + outer.width
    && outer.y <= inner.y && inner.y + inner.height <= outer.y + outer.height
  }

  /** Every cell of a rectangle of non-negative size lies inside it. */
  lemma {:induction false} LeavesWithin(r: Rect, depth: nat)
    requires r.width >= 0.0 && r.height >= 0.0
    ensures forall c | c in Leaves(r, depth) :: Within(c, r)
    decreases depth, 1
  {
    if depth > 0 {
      LeavesSplit(r, depth);
      QuadrantLeavesWithin(r, depth, 0);
      QuadrantLeavesWithin(r, depth, 1);
      QuadrantLeavesWithin(r, depth, 2);
      QuadrantLeavesWithin(r, depth, 3);
    }
  }

  lemma {:induction false} QuadrantLeavesWithin(r: Rect, depth: nat, i: nat)
    requires r.width >= 0.0 && r.height >= 0.0
    requires depth > 0 && i < 4
    ensures forall c | c in Leaves(Quadrant(r, i), depth - 1) :: Within(c, r)
    decreases depth, 0
  {
    var q := Quadrant(r, i);
    assert Within(q, r);
    LeavesWithin(q, depth - 1);
  }

  /** Point `p` lies in `r`, counting the lower and left edges in and the upper and right edges out. */
  predicate Covers(r: Rect, p: Vec2) {
    r.x <= p.x < r.x + r.width && r.y <= p.y < r.y + r.height
  }

  /** How many rectangles of a list cover `p`. */
  function CoverCount(rs: seq<Rect>, p: Vec2): nat {
    if |rs| == 0 then 0 else (if Covers(rs[0], p) then 1 else 0) + CoverCount(rs[1..], p)
  }

  lemma {:induction false} CoverCountAppend(a: seq<Rect>, b: seq<Rect>, p: Vec2)
    ensures CoverCount(a + b, p) == CoverCount(a, p) + CoverCount(b, p)
  {
    if |a| == 0 {
      assert a + b == b;
    } else {
      assert (a + b)[0] == a[0];
      assert (a + b)[1..] == a[1..] + b;
      CoverCountAppend(a[1..], b, p);
    }
  }

  /** The four quadrants tile their rectangle: a point of it is in exactly one, a point outside in none. */
  lemma QuadrantsTile(r: Rect, p: Vec2)
    requires r.width >= 0.0 && r.height >= 0.0
    ensures CoverCount(Quadrants(r), p) == if Covers(r, p) then 1 else 0
  {
    var q := Quadrants(r);
    assert CoverCount(q[3..], p) == if Covers(q[3], p) then 1 else 0 by {
      assert q[3..][1..] == [];
    }
    assert CoverCount(q[2..], p) == (if Covers(q[2], p) then 1 else 0) + CoverCount(q[3..], p) by {
      assert q[2..][1..] == q[3..];
    }
    assert CoverCount(q[1..], p) == (if Covers(q[1], p) then 1 else 0) + CoverCount(q[2..], p) by {
      assert q[1..][1..] == q[2..];
    }
  }

  /** The cells at any depth tile the starting rectangle. */
  lemma {:induction false} LeavesTile(r: Rect, depth: nat, p: Vec2)
    requires r.width >= 0.0 && r.height >= 0.0
    ensures CoverCount(Leaves(r, depth), p) == if Covers(r, p) then 1 else 0
    decreases depth
  {
    if depth == 0 {
      assert Leaves(r, 0)[1..] == [];
    } else {
      var q := Quadrants(r);
      var d := depth - 1;
      LeavesTile(q[0], d, p);
      LeavesTile(q[1], d, p);
      LeavesTile(q[2], d, p);
      LeavesTile(q[3], d, p);
      CoverCountAppend(Leaves(q[0], d), Leaves(q[1], d), p);
      CoverCountAppend(Leaves(q[0], d) + Leaves(q[1], d), Leaves(q[2], d), p);
      CoverCountAppend(Leaves(q[0], d) + Leaves(q[1], d) + Leaves(q[2], d), Leaves(q[3], d), p);
      QuadrantsTile(r, p);
      CoverCountAppend([q[0]], [q[1]], p);
      assert q == [q[0]] + [q[1]] + [q[2]] + [q[3]];
      CoverCountAppend([q[0]] + [q[1]], [q[2]], p);
      CoverCountAppend([q[0]] + [q[1]] + [q[2]], [q[3]], p);
      assert CoverCount([q[0]], p) == if Covers(q[0], p) then 1 else 0;
      assert CoverCount([q[1]], p) == if Covers(q[1], p) then 1 else 0;
      assert CoverCount([q[2]], p) == if Covers(q[2], p) then 1 else 0;
      assert CoverCount([q[3]], p) == if Covers(q[3], p) then 1 else 0;
    }
  }

  /** What `Gizmos.DrawWireCube` receives for one cell: its centre and size. */
  datatype WireBox = WireBox(center: Vec2, size: Vec2)

  function BoxOf(r: Rect): (b: WireBox)
    ensures b.size == Vec2(r.width, r.height)
    ensures b.center.x - b.size.x / 2.0 == r.x && b.center.x + b.size.x / 2.0 == r.x + r.width
    ensures b.center.y - b.size.y / 2.0 == r.y && b.center.y + b.size.y / 2.0 == r.y + r.height
  {
    WireBox(Vec2(r.x + r.width / 2.0, r.y + r.height / 2.0), Vec2(r.width, r.height))
  }

  /** DrawGizmoRect: the boxes drawn, in drawing order. */
  function GizmoBoxes(r: Rect, depth: nat): seq<WireBox>
    decreases depth
  {
    if depth == 0 then [BoxOf(r)]
    else
      GizmoBoxes(Quadrant(r, 0), depth - 1) + GizmoBoxes(Quadrant(r, 1), depth - 1)
      + GizmoBoxes(Quadrant(r, 2), depth - 1) + GizmoBoxes(Quadrant(r, 3), depth - 1)
  }

  /** The box of every cell of a list, in list order. */
  function BoxesOf(cells: seq<Rect>): (b: seq<WireBox>)
    ensures |b| == |cells|
  {
    seq(|cells|, i requires 0 <= i < |cells| => BoxOf(cells[i]))
  }

  lemma BoxesOfAppend4(c0: seq<Rect>, c1: seq<Rect>, c2: seq<Rect>, c3: seq<Rect>)
    ensures BoxesOf(c0 + c1 + c2 + c3) == BoxesOf(c0) + BoxesOf(c1) + BoxesOf(c2) + BoxesOf(c3)
  {
  }

  /** Drawing walks the same cells, in the same order, as world generation. */
  lemma {:induction false} GizmoDrawsTheLeaves(r: Rect, depth: nat)
    ensures GizmoBoxes(r, depth) == BoxesOf(Leaves(r, depth))
    decreases depth
  {
    if depth == 0 {
      assert Leaves(r, 0) == [r];
    } else {
      var d := depth - 1;
      var q0, q1, q2, q3 := Quadrant(r, 0), Quadrant(r, 1), Quadrant(r, 2), Quadrant(r, 3);
      GizmoDrawsTheLeaves(q0, d);
      GizmoDrawsTheLeaves(q1, d);
      GizmoDrawsTheLeaves(q2, d);
      GizmoDrawsTheLeaves(q3, d);
      LeavesOfQuadrants(r, depth, q0, q1, q2, q3, d);
      BoxesOfAppend4(Leaves(q0, d), Leaves(q1, d), Leaves(q2, d), Leaves(q3, d));
      assert GizmoBoxes(r, depth) == GizmoBoxes(q0, d) + GizmoBoxes(q1, d) + GizmoBoxes(q2, d) + GizmoBoxes(q3, d);
    }
  }

  /** The inset kept free along every cell edge. */
  const Padding: real := 0.5

  /**
   * The random draws behind one spawn: `u` and `v` place it along the two
   * `Random.Range` intervals (Random.Range on floats may return either end),
   * `pick` selects the life event.
   */
  datatype SpawnRoll = SpawnRoll(u: real, v: real, pick: nat)

  predicate ValidRoll(roll: SpawnRoll) {
    0.0 <= roll.u <= 1.0 && 0.0 <= roll.v <= 1.0
  }

  /** `Random.Range(min, max)` for floats, as the point a fraction `t` of the way from min to max. */
  function Range(min: real, max: real, t: real): (p: real)
    ensures t == 0.0 ==> p == min
    ensures t == 1.0 ==> p == max
  {
    min + t * (max - min)
  }

  /** The item SpawnItemInArea makes for `area` from a roll and a non-empty event list. */
  function SpawnAt(area: Rect, roll: SpawnRoll, events: seq<LifeEvent>, id: nat): (item: Item)
    requires |events| > 0
    ensures item.id == id && item.eventData in events
  {
    Item(id, events[roll.pick % |events|],
         Vec2(Range(area.x + Padding, area.x + area.width - Padding, roll.u),
              Range(area.y + Padding, area.y + area.height - Padding, roll.v)))
  }

  /** `Range` with a fraction in [0, 1] stays between its ends. */
  lemma RangeBetween(min: real, max: real, t: real)
    requires min <= max && 0.0 <= t <= 1.0
    ensures min <= Range(min, max, t) <= max
  {
    var span := max - min;
    assert 0.0 <= t * span by {
      assert 0.0 <= span;
    }
    assert t * span <= 1.0 * span by {
      assert (1.0 - t) * span >= 0.0;
    }
  }

  /** A spawn in a cell at least 1 wide and high lies inside the cell inset by 0.5 on every side. */
  lemma SpawnInsidePaddedCell(area: Rect, roll: SpawnRoll, events: seq<LifeEvent>, id: nat)
    requires |events| > 0 && ValidRoll(roll)
    requires area.width >= 2.0 * Padding && area.height >= 2.0 * Padding
    ensures var p := SpawnAt(area, roll, events, id).position;
      && area.x + Padding <= p.x <= area.x + area.width - Padding
      && area.y + Padding <= p.y <= area.y + area.height - Padding
  {
    RangeBetween(area.x + Padding, area.x + area.width - Padding, roll.u);
    RangeBetween(area.y + Padding, area.y + area.height - Padding, roll.v);
  }

  /** Whether the database can give an event: it exists and its list is non-empty. */
  function HasEvents(db: Option<seq<LifeEvent>>): (has: bool)
    ensures has <==> db.Some? && exists e :: e in db.value
  {
    if db.Some? && |db.value| > 0 then assert db.value[0] in db.value; true else false
  }

  /**
   * The entries spawned into `cells`, one per cell, when the database has events;
   * none otherwise. `rng(n)` is the roll of the n-th spawn, whose entity gets id n.
   */
  function Spawns(cells: seq<Rect>, first: nat, rng: nat -> SpawnRoll, db: Option<seq<LifeEvent>>): (s: seq<Option<Item>>)
    ensures |s| == if HasEvents(db) then |cells| else 0
  {
    if !HasEvents(db) || |cells| == 0 then []
    else [Some(SpawnAt(cells[0], rng(first), db.value, first))] + Spawns(cells[1..], first + 1, rng, db)
  }

  /** The i-th spawned entry is the spawn into the i-th cell, with the roll and id numbered from `first`. */
  lemma {:induction false} SpawnsAt(cells: seq<Rect>, first: nat, rng: nat -> SpawnRoll, db: Option<seq<LifeEvent>>, i: nat)
    requires HasEvents(db) && i < |cells|
    ensures Spawns(cells, first, rng, db)[i] == Some(SpawnAt(cells[i], rng(first + i), db.value, first + i))
  {
    if i > 0 {
      SpawnsAt(cells[1..], first + 1, rng, db, i - 1);
    }
  }

  lemma {:induction false} SpawnsAppend(a: seq<Rect>, b: seq<Rect>, first: nat, next: nat,
                                         rng: nat -> SpawnRoll, db: Option<seq<LifeEvent>>)
    requires next == first + |Spawns(a, first, rng, db)|
    ensures Spawns(a + b, first, rng, db) == Spawns(a, first, rng, db) + Spawns(b, next, rng, db)
  {
    if HasEvents(db) {
      if |a| == 0 {
        assert a + b == b;
      } else {
        assert (a + b)[0] == a[0];
        assert (a + b)[1..] == a[1..] + b;
        SpawnsAppend(a[1..], b, first + 1, next, rng, db);
      }
    }
  }

  /**
   * With a database of events, generation at depth `d` leaves 4^d items, one per
   * cell and in cell order, each inside its cell inset by the padding whenever the
   * cells are at least 1 wide and high, and so inside the map.
   */
  lemma GeneratedWorld(mapSize: Vec2, depth: nat, first: nat, rng: nat -> SpawnRoll, db: Option<seq<LifeEvent>>)
    requires forall n :: ValidRoll(rng(n))
    requires mapSize.x >= 0.0 && mapSize.y >= 0.0
    ensures var s := Spawns(Leaves(FullMap(mapSize), depth), first, rng, db);
      && |s| == (if HasEvents(db) then Pow4(depth) else 0)
      && forall i | 0 <= i < |s| ::
        && s[i].Some?
        && var c := Leaves(FullMap(mapSize), depth)[i];
           Within(c, FullMap(mapSize))
           && (c.width >= 2.0 * Padding && c.height >= 2.0 * Padding ==>
                 && c.x + Padding <= s[i].value.position.x <= c.x + c.width - Padding
                 && c.y + Padding <= s[i].value.position.y <= c.y + c.height - Padding)
  {
    var cells := Leaves(FullMap(mapSize), depth);
    LeavesWithin(FullMap(mapSize), depth);
    var s := Spawns(cells, first, rng, db);
    forall i | 0 <= i < |s| ensures s[i].Some? {
      SpawnsAt(cells, first, rng, db, i);
    }
    forall i | 0 <= i < |s|
      ensures cells[i].width >= 2.0 * Padding && cells[i].height >= 2.0 * Padding ==>
        && cells[i].x + Padding <= s[i].value.position.x <= cells[i].x + cells[i].width - Padding
        && cells[i].y + Padding <= s[i].value.position.y <= cells[i].y + cells[i].height - Padding
    {
      if cells[i].width >= 2.0 * Padding && cells[i].height >= 2.0 * Padding {
        SpawnsAt(cells, first, rng, db, i);
        SpawnInsidePaddedCell(cells[i], rng(first + i), db.value, first + i);
      }
    }
  }

  /** Spawning into four lists of cells one after the other, the numbering continuing across them. */
  lemma SpawnsAppend4(c0: seq<Rect>, c1: seq<Rect>, c2: seq<Rect>, c3: seq<Rect>,
                      n0: nat, n1: nat, n2: nat, n3: nat, rng: nat -> SpawnRoll, db: Option<seq<LifeEvent>>)
    requires n1 == n0 + |Spawns(c0, n0, rng, db)|
    requires n2 == n1 + |Spawns(c1, n1, rng, db)|
    requires n3 == n2 + |Spawns(c2, n2, rng, db)|
    ensures Spawns(c0 + c1 + c2 + c3, n0, rng, db)
      == Spawns(c0, n0, rng, db) + Spawns(c1, n1, rng, db) + Spawns(c2, n2, rng, db) + Spawns(c3, n3, rng, db)
  {
    var s0, s1, s2 := Spawns(c0, n0, rng, db), Spawns(c1, n1, rng, db), Spawns(c2, n2, rng, db);
    SpawnsAppend(c0, c1, n0, n1, rng, db);
    assert |Spawns(c0 + c1, n0, rng, db)| == |s0| + |s1|;
    SpawnsAppend(c0 + c1, c2, n0, n2, rng, db);
    assert |Spawns(c0 + c1 + c2, n0, rng, db)| == |s0| + |s1| + |s2|;
    SpawnsAppend(c0 + c1 + c2, c3, n0, n3, rng, db);
  }

  /** LeavesSplit, for quadrants given by name. */
  lemma LeavesOfQuadrants(r: Rect, depth: nat, q0: Rect, q1: Rect, q2: Rect, q3: Rect, d: nat)
    requires depth == d + 1
    requires q0 == Quadrant(r, 0) && q1 == Quadrant(r, 1) && q2 == Quadrant(r, 2) && q3 == Quadrant(r, 3)
    ensures Leaves(r, depth) == Leaves(q0, d) + Leaves(q1, d) + Leaves(q2, d) + Leaves(q3, d)
  {
    LeavesOfNextDepth(r, d, q0, q1, q2, q3);
  }

  lemma LeavesOfNextDepth(r: Rect, d: nat, q0: Rect, q1: Rect, q2: Rect, q3: Rect)
    requires q0 == Quadrant(r, 0) && q1 == Quadrant(r, 1) && q2 == Quadrant(r, 2) && q3 == Quadrant(r, 3)
    ensures Leaves(r, d + 1) == Leaves(q0, d) + Leaves(q1, d) + Leaves(q2, d) + Leaves(q3, d)
  {
  }

  /** Four appends in a row append the four pieces at once. */
  lemma AppendChain<T>(before: seq<T>, a0: seq<T>, a1: seq<T>, a2: seq<T>, a3: seq<T>,
                       s0: seq<T>, s1: seq<T>, s2: seq<T>, s3: seq<T>)
    requires a0 == before + s0 && a1 == a0 + s1 && a2 == a1 + s2 && a3 == a2 + s3
    ensures a3 == before + (s0 + s1 + s2 + s3)
  {
  }

  class MapSystem {
    var mapSize: Vec2
    var recursionDepth: nat
    /** The item database's event list; None when no database is assigned. */
    var itemDatabase: Option<seq<LifeEvent>>
    var spawnedItems: seq<Option<Item>>
    /** How many entities were instantiated so far: the next entity's identity and random roll. */
    var nextId: nat

    constructor (itemDatabase: Option<seq<LifeEvent>>)
      ensures this.itemDatabase == itemDatabase
      ensures mapSize == Vec2(20.0, 15.0) && recursionDepth == 3
      ensures spawnedItems == [] && nextId == 0
    {
      this.itemDatabase := itemDatabase;
      mapSize := Vec2(20.0, 15.0);
      recursionDepth := 3;
      spawnedItems := [];
      nextId := 0;
    }

    /** Unity's first frame: generate the world once. */
    method Start(rng: nat -> SpawnRoll)
      modifies this
      ensures spawnedItems == Spawns(Leaves(FullMap(mapSize), recursionDepth), old(nextId), rng, itemDatabase)
      ensures nextId == old(nextId) + |spawnedItems|
      ensures mapSize == old(mapSize) && recursionDepth == old(recursionDepth)
      ensures itemDatabase == old(itemDatabase)
    {
      GenerateWorld(rng);
    }

    /** Destroy the old items, empty the list, then fill the whole map by divide and conquer. */
    method GenerateWorld(rng: nat -> SpawnRoll)
      modifies this
      ensures spawnedItems == Spawns(Leaves(FullMap(mapSize), recursionDepth), old(nextId), rng, itemDatabase)
      ensures nextId == old(nextId) + |spawnedItems|
      ensures mapSize == old(mapSize) && recursionDepth == old(recursionDepth)
      ensures itemDatabase == old(itemDatabase)
    {
      spawnedItems := [];
      var fullMap := Rect(-mapSize.x / 2.0, -mapSize.y / 2.0, mapSize.x, mapSize.y);
      DivideAndConquer(fullMap, recursionDepth, rng);
    }

    /** At depth 0 spawn into the area; otherwise recurse into its four quadrants in order. */
    method DivideAndConquer(currentArea: Rect, depth: nat, rng: nat -> SpawnRoll)
      modifies this
      decreases depth
      ensures spawnedItems == old(spawnedItems) + Spawns(Leaves(currentArea, depth), old(nextId), rng, itemDatabase)
      ensures nextId == old(nextId) + |Spawns(Leaves(currentArea, depth), old(nextId), rng, itemDatabase)|
      ensures mapSize == old(mapSize) && recursionDepth == old(recursionDepth)
      ensures itemDatabase == old(itemDatabase)
    {
      if depth == 0 {
        SpawnItemInArea(currentArea, rng);
        assert Leaves(currentArea, 0) == [currentArea];
        return;
      }
      var halfW := currentArea.width / 2.0;
      var halfH := currentArea.height / 2.0;
      var d := depth - 1;
      ghost var db := itemDatabase;
      ghost var before, n0 := spawnedItems, nextId;
      var lowerLeft := Rect(currentArea.x, currentArea.y, halfW, halfH);
      var lowerRight := Rect(currentArea.x + halfW, currentArea.y, halfW, halfH);
      var upperLeft := Rect(currentArea.x, currentArea.y + halfH, halfW, halfH);
      var upperRight := Rect(currentArea.x + halfW, currentArea.y + halfH, halfW, halfH);
      assert lowerLeft == Quadrant(currentArea, 0) && lowerRight == Quadrant(currentArea, 1);
      assert upperLeft == Quadrant(currentArea, 2) && upperRight == Quadrant(currentArea, 3);
      DivideAndConquer(lowerLeft, d, rng);
      ghost var after0, n1 := spawnedItems, nextId;
      DivideAndConquer(lowerRight, d, rng);
      ghost var after1, n2 := spawnedItems, nextId;
      DivideAndConquer(upperLeft, d, rng);
      ghost var after2, n3 := spawnedItems, nextId;
      DivideAndConquer(upperRight, d, rng);
      LeavesOfQuadrants(currentArea, depth, lowerLeft, lowerRight, upperLeft, upperRight, d);
      SpawnsAppend4(Leaves(lowerLeft, d), Leaves(lowerRight, d), Leaves(upperLeft, d), Leaves(upperRight, d),
                    n0, n1, n2, n3, rng, db);
      AppendChain(before, after0, after1, after2, spawnedItems,
                  Spawns(Leaves(lowerLeft, d), n0, rng, db), Spawns(Leaves(lowerRight, d), n1, rng, db),
                  Spawns(Leaves(upperLeft, d), n2, rng, db), Spawns(Leaves(upperRight, d), n3, rng, db));
    }

    /** Without a database or with an empty one do nothing; otherwise append one new random item. */
    method SpawnItemInArea(area: Rect, rng: nat -> SpawnRoll)
      modifies this
      ensures spawnedItems == old(spawnedItems) + Spawns([area], old(nextId), rng, itemDatabase)
      ensures nextId == old(nextId) + |Spawns([area], old(nextId), rng, itemDatabase)|
      ensures mapSize == old(mapSize) && recursionDepth == old(recursionDepth)
      ensures itemDatabase == old(itemDatabase)
    {
      if itemDatabase.None? || |itemDatabase.value| == 0 {
        return;
      }
      var roll := rng(nextId);
      var xMin, xMax := area.x, area.x + area.width;
      var yMin, yMax := area.y, area.y + area.height;
      var randomPos := Vec2(Range(xMin + Padding, xMax - Padding, roll.u), Range(yMin + Padding, yMax - Padding, roll.v));
      var events := itemDatabase.value;
      var randomData := events[roll.pick % |events|];
      var entity := Item(nextId, randomData, randomPos);
      spawnedItems := spawnedItems + [Some(entity)];
      nextId := nextId + 1;
    }
  }
}
