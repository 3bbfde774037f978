/** The application's annotation policy: when the camera's best facing
    direction changes, the three dimension overlays are detached and the ones
    that suit the new view are recreated from the tracked mesh's bounding box
    and attached to the mesh. The facing detector itself is external; only
    its six directions and the events it sends are modelled. */
module App {
  import opened Options
  import opened Vectors
  import opened JsArrays
  import opened Scene
  import opened Dimension

  /** What the facing detector reports: the index of the direction facing
      the camera most, and the indices of all directions facing it. */
  datatype FacingState = FacingState(best: nat, facing: seq<nat>)

  /** Sent whenever `best` changes. */
  datatype FacingChangeEvent = FacingChangeEvent(previous: FacingState, current: FacingState)

  /** The arguments one overlay is created with. */
  datatype Spec = Spec(from: Vec3, to: Vec3, extrude: Vec3)

  /** Which overlays a facing change creates, and from what. */
  datatype Layout = Layout(slot0: Option<Spec>, slot1: Option<Spec>, slot2: Option<Spec>)

  /** The detector's six candidate directions are unit axis vectors. */
  predicate UnitDirs(dirs: seq<Vec3>)
  {
    |dirs| == 6 && forall i :: 0 <= i < |dirs| ==> IsUnitAxis(dirs[i])
  }

  /** A copy of the facing list with `best` spliced out at its indexOf: one
      entry shorter (unless empty), and every entry kept is one of the facing
      directions. */
  function OtherFacing(st: FacingState): (r: seq<nat>)
    ensures |st.facing| > 0 ==> |r| == |st.facing| - 1
    ensures |st.facing| == 0 ==> r == []
    ensures multiset(r) <= multiset(st.facing)
  {
    var k := IndexOf(st.facing, st.best);
    var s := st.facing;
    if 0 <= k then
      assert s == s[..k] + [s[k]] + s[k + 1..];
      SpliceOne(s, k)
    else if |s| > 0 then
      assert s == s[..|s| - 1] + [s[|s| - 1]];
      SpliceOne(s, k)
    else
      SpliceOne(s, k)
  }

  /** The y branch removes the first occurrence of `best` from its copy of
      the list; when `best` is missing, indexOf gives -1 and the splice drops
      the last entry instead. */
  lemma OtherFacingRemovesBest(st: FacingState)
    ensures st.best in st.facing ==>
      && OtherFacing(st) == RemoveFirst(st.facing, st.best)
      && |OtherFacing(st)| == |st.facing| - 1
      && multiset(OtherFacing(st)) == multiset(st.facing) - multiset{st.best}
    ensures st.best !in st.facing && |st.facing| > 0 ==> OtherFacing(st) == st.facing[..|st.facing| - 1]
    ensures st.best !in st.facing && |st.facing| == 0 ==> OtherFacing(st) == []
  {
    SpliceIndexOf(st.facing, st.best);
    if st.best in st.facing {
      var k := IndexOf(st.facing, st.best);
      assert |RemoveFirst(st.facing, st.best)| == |st.facing| - 1 by {
        assert RemoveFirst(st.facing, st.best) == DropAt(st.facing, k);
      }
    }
  }

  /** When `best` occurs once in the facing list, the two entries the y
      branch uses are other facing directions, in their list order. */
  lemma OtherFacingKeepsOrder(st: FacingState, i: nat, j: nat)
    requires NoDup(st.facing) && st.best in st.facing
    requires i < j < |OtherFacing(st)|
    ensures OtherFacing(st)[i] != st.best && OtherFacing(st)[j] != st.best
    ensures OtherFacing(st)[i] in st.facing && OtherFacing(st)[j] in st.facing
    ensures exists a, b :: 0 <= a < b < |st.facing| && st.facing[a] == OtherFacing(st)[i] && st.facing[b] == OtherFacing(st)[j]
  {
    var k := IndexOf(st.facing, st.best);
    var r := OtherFacing(st);
    assert r == DropAt(st.facing, k);
    var a := if i < k then i else i + 1;
    var b := if j < k then j else j + 1;
    assert st.facing[a] == r[i] && st.facing[b] == r[j];
  }

  /** The event lets the callback run to the end: `best` indexes a direction
      and, when that direction is vertical, two more facing directions
      remain once `best` is removed. */
  predicate Usable(dirs: seq<Vec3>, st: FacingState)
  {
    && st.best < |dirs|
    && (Abs(dirs[st.best].y) == 1.0 ==>
          && |OtherFacing(st)| >= 2
          && OtherFacing(st)[0] < |dirs|
          && OtherFacing(st)[1] < |dirs|)
  }

  /** The bottom edge running from the min corner to (max.x, min.y, max.z). */
  function BottomFrom(b: Box3): Vec3 { Vec3(b.min.x, b.min.y, b.min.z) }
  function BottomTo(b: Box3): Vec3 { Vec3(b.max.x, b.min.y, b.max.z) }

  /** The overlays a change to `st` creates over box `b`, in the order of
      the callback's three branches. */
  function LayoutFor(b: Box3, dirs: seq<Vec3>, st: FacingState): Layout
    requires Usable(dirs, st)
  {
    var d := dirs[st.best];
    if Abs(d.x) == 1.0 then
      Layout(Some(Spec(BottomFrom(b), BottomTo(b), d)),
             None,
             Some(Spec(Vec3(b.max.x, b.min.y, b.max.z), Vec3(b.max.x, b.max.y, b.max.z), Vec3(0.0, 0.0, 1.0))))
    else if Abs(d.z) == 1.0 then
      Layout(None,
             Some(Spec(BottomFrom(b), BottomTo(b), d)),
             Some(Spec(Vec3(b.min.x, b.min.y, b.max.z), Vec3(b.min.x, b.max.y, b.max.z), Vec3(-1.0, 0.0, 0.0))))
    else if Abs(d.y) == 1.0 then
      var others := OtherFacing(st);
      Layout(Some(Spec(BottomFrom(b), BottomTo(b), dirs[others[0]])),
             Some(Spec(BottomFrom(b), BottomTo(b), dirs[others[1]])),
             Some(Spec(Vec3(b.max.x, b.min.y, b.min.z), Vec3(b.max.x, b.max.y, b.min.z), Vec3(1.0, 0.0, 0.0))))
    else
      Layout(None, None, None)
  }

  /** What every layout looks like: slots 0 and 1 measure the bottom edge,
      pushed out along the facing direction, or along the first and second
      remaining facing directions when both are created; slot 2 measures a
      vertical edge of the box, pushed out horizontally, and is created
      exactly when one of the others is. */
  lemma LayoutShape(b: Box3, dirs: seq<Vec3>, st: FacingState)
    requires Usable(dirs, st)
    ensures var r := LayoutFor(b, dirs, st);
      && (r.slot0.Some? ==> r.slot0.value.from == BottomFrom(b) && r.slot0.value.to == BottomTo(b))
      && (r.slot1.Some? ==> r.slot1.value.from == BottomFrom(b) && r.slot1.value.to == BottomTo(b))
      && (r.slot0.Some? && r.slot1.None? ==> r.slot0.value.extrude == dirs[st.best])
      && (r.slot1.Some? && r.slot0.None? ==> r.slot1.value.extrude == dirs[st.best])
      && (r.slot2.Some? <==> r.slot0.Some? || r.slot1.Some?)
      && (r.slot2.Some? ==>
            var s := r.slot2.value;
            && s.from.x == s.to.x && s.from.z == s.to.z && s.from.y == b.min.y && s.to.y == b.max.y
            && IsUnitAxis(s.extrude) && s.extrude.y == 0.0)
    ensures var r := LayoutFor(b, dirs, st);
      r.slot0.Some? && r.slot1.Some? ==>
        && Abs(dirs[st.best].y) == 1.0
        && r.slot0.value.extrude == dirs[OtherFacing(st)[0]] && r.slot1.value.extrude == dirs[OtherFacing(st)[1]]
  {
  }

  /** Every endpoint handed to an overlay is a corner of the box, and on a
      well-formed box every `from` is componentwise below its `to`. */
  predicate SpecFits(s: Option<Spec>, b: Box3)
  {
    s.Some? ==>
      && IsCorner(s.value.from, b) && IsCorner(s.value.to, b)
      && (WellFormed(b) ==> LessEq(s.value.from, s.value.to))
  }

  /** An overlay can be created from the spec: its extrude is single-signed. */
  predicate SpecDrawable(s: Option<Spec>)
  {
    s.Some? ==> SingleSigned(s.value.extrude)
  }

  /** x-facing: slots 0 and 2; z-facing: slots 1 and 2; y-facing: all three.
      A facing change never leaves fewer than two overlays. */
  lemma LayoutSlots(b: Box3, dirs: seq<Vec3>, st: FacingState)
    requires UnitDirs(dirs) && Usable(dirs, st)
    ensures var l := LayoutFor(b, dirs, st); var d := dirs[st.best];
      && (Abs(d.x) == 1.0 ==> l.slot0.Some? && l.slot1.None? && l.slot2.Some?)
      && (Abs(d.z) == 1.0 ==> l.slot0.None? && l.slot1.Some? && l.slot2.Some?)
      && (Abs(d.y) == 1.0 ==> l.slot0.Some? && l.slot1.Some? && l.slot2.Some?)
      && l.slot2.Some?
  {
    assert IsUnitAxis(dirs[st.best]);
  }

  /** Every overlay the layout asks for spans two box corners, is ordered on
      a well-formed box, and has an extrude vector the overlay accepts. */
  lemma LayoutFitsBox(b: Box3, dirs: seq<Vec3>, st: FacingState)
    requires UnitDirs(dirs) && Usable(dirs, st)
    ensures var l := LayoutFor(b, dirs, st);
      && SpecFits(l.slot0, b) && SpecFits(l.slot1, b) && SpecFits(l.slot2, b)
      && SpecDrawable(l.slot0) && SpecDrawable(l.slot1) && SpecDrawable(l.slot2)
  {
    var d := dirs[st.best];
    UnitAxisSingleSigned(d);
    if !(Abs(d.x) == 1.0) && !(Abs(d.z) == 1.0) && Abs(d.y) == 1.0 {
      var others := OtherFacing(st);
      UnitAxisSingleSigned(dirs[others[0]]);
      UnitAxisSingleSigned(dirs[others[1]]);
    }
  }

  /** The span pmax - pmin an overlay created from the spec shows. */
  function SpanOf(s: Spec): Vec3
    requires SingleSigned(s.extrude)
  {
    var c := CornersOf(s.from, s.to, s.extrude).value;
    Sub(c.pmax, c.pmin)
  }

  /** Looking along x, overlay 0 shows the box's depth (z extent) pushed out
      towards the viewer and overlay 2 its height. */
  lemma FacingXMeasuresDepthAndHeight(b: Box3, dirs: seq<Vec3>, st: FacingState)
    requires UnitDirs(dirs) && Usable(dirs, st) && WellFormed(b)
    requires Abs(dirs[st.best].x) == 1.0
    ensures var l := LayoutFor(b, dirs, st); var d := dirs[st.best];
      && SpanOf(l.slot0.value) == Vec3(0.0, 0.0, d.x * (b.max.z - b.min.z))
      && SpanOf(l.slot2.value) == Vec3(0.0, b.max.y - b.min.y, 0.0)
  {
    var l := LayoutFor(b, dirs, st);
    LayoutFitsBox(b, dirs, st);
    CornersSpan(l.slot0.value.from, l.slot0.value.to, l.slot0.value.extrude);
    CornersSpan(l.slot2.value.from, l.slot2.value.to, l.slot2.value.extrude);
  }

  /** Looking along z, overlay 1 shows the box's width (x extent) pushed out
      towards the viewer and overlay 2 its height, pushed towards -x. */
  lemma FacingZMeasuresWidthAndHeight(b: Box3, dirs: seq<Vec3>, st: FacingState)
    requires UnitDirs(dirs) && Usable(dirs, st) && WellFormed(b)
    requires Abs(dirs[st.best].z) == 1.0
    ensures var l := LayoutFor(b, dirs, st); var d := dirs[st.best];
      && SpanOf(l.slot1.value) == Vec3(d.z * (b.max.x - b.min.x), 0.0, 0.0)
      && SpanOf(l.slot2.value) == Vec3(0.0, -(b.max.y - b.min.y), 0.0)
  {
    var l := LayoutFor(b, dirs, st);
    assert IsUnitAxis(dirs[st.best]);
    LayoutFitsBox(b, dirs, st);
    CornersSpan(l.slot1.value.from, l.slot1.value.to, l.slot1.value.extrude);
    CornersSpan(l.slot2.value.from, l.slot2.value.to, l.slot2.value.extrude);
  }

  /** The span across a horizontal unit extrude vector `e` over box `b`:
      the box's width (x extent) for a z direction, its depth (z extent) for
      an x direction, signed like `e`. */
  function AcrossSpan(e: Vec3, b: Box3): Vec3
  {
    Vec3(e.z * (b.max.x - b.min.x), 0.0, e.x * (b.max.z - b.min.z))
  }

  /** An overlay along the bottom edge, extruded along a horizontal axis,
      shows the horizontal extent across its extrude vector: the depth for
      an x direction, the width for a z direction. */
  lemma HorizontalSpan(b: Box3, s: Spec)
    requires WellFormed(b) && IsUnitAxis(s.extrude) && s.extrude.y == 0.0
    requires s.from == BottomFrom(b) && s.to == BottomTo(b)
    ensures SingleSigned(s.extrude)
    ensures SpanOf(s) == AcrossSpan(s.extrude, b)
  {
    UnitAxisSingleSigned(s.extrude);
    CornersSpan(s.from, s.to, s.extrude);
  }

  /** Looking along y, overlay 2 shows the height; overlays 0 and 1 each
      show the horizontal extent across their (horizontal) extrude vector. */
  lemma FacingYMeasures(b: Box3, dirs: seq<Vec3>, st: FacingState)
    requires UnitDirs(dirs) && Usable(dirs, st) && WellFormed(b)
    requires Abs(dirs[st.best].y) == 1.0
    requires dirs[OtherFacing(st)[0]].y == 0.0 && dirs[OtherFacing(st)[1]].y == 0.0
    ensures var l := LayoutFor(b, dirs, st);
      && SpanOf(l.slot2.value) == Vec3(0.0, b.max.y - b.min.y, 0.0)
      && SpanOf(l.slot0.value) == AcrossSpan(l.slot0.value.extrude, b)
      && SpanOf(l.slot1.value) == AcrossSpan(l.slot1.value.extrude, b)
  {
    var l := LayoutFor(b, dirs, st);
    assert IsUnitAxis(dirs[st.best]);
    var others := OtherFacing(st);
    assert IsUnitAxis(dirs[others[0]]) && IsUnitAxis(dirs[others[1]]);
    var s0 := Spec(BottomFrom(b), BottomTo(b), dirs[others[0]]);
    var s1 := Spec(BottomFrom(b), BottomTo(b), dirs[others[1]]);
    var s2 := Spec(Vec3(b.max.x, b.min.y, b.min.z), Vec3(b.max.x, b.max.y, b.min.z), Vec3(1.0, 0.0, 0.0));
    assert l == Layout(Some(s0), Some(s1), Some(s2));
    HorizontalSpan(b, s0);
    HorizontalSpan(b, s1);
    CornersSpan(s2.from, s2.to, s2.extrude);
  }

  /** An overlay node is either unparented or a child of the tracked mesh,
      and it is listed among the mesh's children exactly when it is one. */
  ghost predicate Hooked(n: Node?, m: Mesh?)
    reads NodeSet(n)`parent, m
  {
    n != null && m != null ==>
      && (n.parent == null || n.parent == m)
      && (n in m.children <==> n.parent == m)
  }

  /** One overlay slot: it draws into the shared container, keeps its own
      invariants, and its node is hooked to the tracked mesh (no node exists
      before a mesh is tracked). Whether it shows its measured segment is a
      property of the rendered frame, not of the slot. */
  ghost predicate SlotOk(d: LinearDimension, c: DomRoot, m: Mesh?)
    reads d`node, d`domElement, d`extrude, c, m, NodeSet(d.node)`parent
  {
    && d.domRoot == c
    && d.Valid()
    && (m == null ==> d.node == null)
    && Hooked(d.node, m)
  }

  /** A slot keeps its invariant when the container and the mesh lose only
      objects that are not its own: its label stays in the container and its
      node stays hooked. */
  lemma SlotKept(e: LinearDimension, c: DomRoot, m: Mesh, elems: seq<Label>, kids: seq<Node>, gone: set<Label>, unhooked: set<Node>)
    requires e.domRoot == c && c.Valid()
    requires e.node != null ==> SingleSigned(e.extrude)
    requires e.domElement != null ==> e.node != null && e.domElement in elems && e.domElement !in gone
    requires c.elements == Except(elems, gone) && m.children == Except(kids, unhooked)
    requires e.node != null ==>
      && (e.node.parent == null || e.node.parent == m)
      && (e.node in kids <==> e.node.parent == m)
      && e.node !in unhooked
    ensures SlotOk(e, c, m)
  {
    if e.domElement != null {
      ExceptMember<Label>(elems, gone, e.domElement);
    }
    if e.node != null {
      ExceptMember<Node>(kids, unhooked, e.node);
    }
  }

  /** Detaching one overlay that is hooked to mesh `m`: its label leaves the
      container, its node leaves the mesh, and it keeps its invariant with
      neither attached. */
  method DetachOverlay(d: LinearDimension, c: DomRoot, m: Mesh)
    requires SlotOk(d, c, m) && m.Valid()
    modifies d`domElement, c, NodeSet(d.node)`parent, m
    ensures SlotOk(d, c, m) && m.Valid()
    ensures d.domElement == null && (d.node != null ==> d.node.parent == null)
    ensures d.node == old(d.node)
    ensures c.elements == Except(old(c.elements), LabelSet(old(d.domElement)))
    ensures m.children == Except(old(m.children), NodeSet(d.node))
  {
    if d.node == null {
      ExceptNothing<Node>(m.children);
      ExceptNothing<Label>(c.elements);
    } else {
      if d.node.parent == null {
        ExceptMissing<Node>(m.children, d.node);
      }
      ExceptMember<Node>(m.children, NodeSet(d.node), d.node);
      d.Detach();
    }
  }

  /** The render loop's three `update(camera)` calls: three distinct slots
      with distinct nodes and labels are updated in order; afterwards each
      records the camera and shows its measured segment. */
  method UpdateSlots(d0: LinearDimension, d1: LinearDimension, d2: LinearDimension, cam: Camera)
    requires d0.Valid() && d1.Valid() && d2.Valid()
    requires d0 != d1 && d0 != d2 && d1 != d2
    requires Apart(d0.node, d1.node) && Apart(d0.node, d2.node) && Apart(d1.node, d2.node)
    requires Apart(d0.domElement, d1.domElement) && Apart(d0.domElement, d2.domElement)
    requires Apart(d1.domElement, d2.domElement)
    modifies d0`camera, d1`camera, d2`camera
    modifies NodeSet(d0.node)`children, NodeSet(d1.node)`children, NodeSet(d2.node)`children
    modifies LabelSet(d0.domElement)`text, LabelSet(d1.domElement)`text, LabelSet(d2.domElement)`text
    ensures d0.camera == cam && d1.camera == cam && d2.camera == cam
    ensures d0.Drawn() && d1.Drawn() && d2.Drawn()
  {
    UpdateKeeping(d0, d1, d2, cam);
    UpdateKeeping(d1, d0, d2, cam);
    UpdateKeeping(d2, d0, d1, cam);
  }

  /** One `update(camera)`: slot `d` records the camera and shows its
      measured segment, and slots `e` and `f`, whose nodes and labels are
      not d's, stay as drawn as they were. */
  method UpdateKeeping(d: LinearDimension, e: LinearDimension, f: LinearDimension, cam: Camera)
    requires d.Valid() && d != e && d != f
    requires Apart(d.node, e.node) && Apart(d.node, f.node)
    requires Apart(d.domElement, e.domElement) && Apart(d.domElement, f.domElement)
    modifies d`camera, NodeSet(d.node)`children, LabelSet(d.domElement)`text
    ensures d.camera == cam && d.Drawn()
    ensures d.Valid() && (old(e.Valid()) ==> e.Valid()) && (old(f.Valid()) ==> f.Valid())
    ensures old(e.Drawn()) ==> e.Drawn()
    ensures old(f.Drawn()) ==> f.Drawn()
  {
    d.Update(cam);
  }

  /** The null-tolerant "these two are different objects". */
  predicate Apart(a: object?, b: object?)
  {
    a == null || b == null || a != b
  }

  /** The application: three overlay slots sharing one label container, the
      detector's directions, and the mesh the facing callback was registered
      for (null until the model has loaded). */
  class Sketch {
    const container: DomRoot
    const dim0: LinearDimension
    const dim1: LinearDimension
    const dim2: LinearDimension
    const dirs: seq<Vec3>
    const camera: Camera
    var time: real
    var isPlaying: bool
    var tracked: Mesh?

    /** The labels the slots currently hold. */
    ghost function Labels(): set<Label>
      reads dim0`node, dim0`domElement, dim1`node, dim1`domElement, dim2`node, dim2`domElement
    {
      LabelSet(dim0.domElement) + LabelSet(dim1.domElement) + LabelSet(dim2.domElement)
    }

    /** The nodes the slots currently hold. */
    ghost function Nodes(): set<Node>
      reads dim0`node, dim0`domElement, dim1`node, dim1`domElement, dim2`node, dim2`domElement
    {
      NodeSet(dim0.node) + NodeSet(dim1.node) + NodeSet(dim2.node)
    }

    /** Three distinct slots, each valid against the shared container and
        the tracked mesh, holding pairwise distinct nodes and labels. */
    ghost predicate Valid()
      reads this`tracked, container, tracked
      reads dim0`node, dim0`domElement, dim0`extrude, dim1`node, dim1`domElement, dim1`extrude
      reads dim2`node, dim2`domElement, dim2`extrude
      reads NodeSet(dim0.node)`parent, NodeSet(dim1.node)`parent, NodeSet(dim2.node)`parent
    {
      && UnitDirs(dirs)
      && dim0 != dim1 && dim0 != dim2 && dim1 != dim2
      && SlotOk(dim0, container, tracked) && SlotOk(dim1, container, tracked) && SlotOk(dim2, container, tracked)
      && Apart(dim0.node, dim1.node) && Apart(dim0.node, dim2.node) && Apart(dim1.node, dim2.node)
      && Apart(dim0.domElement, dim1.domElement) && Apart(dim0.domElement, dim2.domElement)
      && Apart(dim1.domElement, dim2.domElement)
      && (tracked != null ==> tracked.Valid())
    }

    /** The slot holds a freshly created overlay for spec `s`, attached to
        the tracked mesh; or, when the layout has no spec for it, it keeps
        its old node, unattached, and has no label. */
    ghost predicate SlotIs(d: LinearDimension, s: Option<Spec>, oldNode: Node?)
      reads this`tracked, d`node, d`domElement, d`from, d`to, d`extrude, NodeSet(d.node)`parent
    {
      if s.Some? then
        && d.from == s.value.from && d.to == s.value.to && d.extrude == s.value.extrude
        && d.node != null && d.node.parent == tracked && d.domElement != null
      else
        && d.node == oldNode && d.domElement == null
        && (d.node != null ==> d.node.parent == null)
    }

    /** The constructor builds the three empty overlays and renders a first
        frame, in which no callback can fire yet. */
    constructor (root: DomRoot, cam: Camera, directions: seq<Vec3>)
      requires root.Valid() && UnitDirs(directions)
      modifies root
      ensures Valid()
      ensures container == root && camera == cam && dirs == directions
      ensures tracked == null && isPlaying && time == 0.05
      ensures dim0.node == null && dim1.node == null && dim2.node == null
    {
      container := root;
      camera := cam;
      dirs := directions;
      dim0 := new LinearDimension(root, cam);
      dim1 := new LinearDimension(root, cam);
      dim2 := new LinearDimension(root, cam);
      time := 0.0;
      isPlaying := true;
      tracked := null;
      new;
      Render(None);
    }

    /** `addDimension`: subscribes the facing callback for mesh `m`, whose
        bounding box has been computed. */
    method AddDimension(m: Mesh)
      requires Valid() && tracked == null && m.Valid()
      modifies this`tracked
      ensures Valid() && tracked == m
    {
      tracked := m;
    }

    /** Every slot is without a label and every slot's node is unattached. */
    ghost predicate Cleared()
      reads dim0`node, dim0`domElement, dim1`node, dim1`domElement, dim2`node, dim2`domElement, Nodes()`parent
    {
      && dim0.domElement == null && dim1.domElement == null && dim2.domElement == null
      && (dim0.node != null ==> dim0.node.parent == null)
      && (dim1.node != null ==> dim1.node.parent == null)
      && (dim2.node != null ==> dim2.node.parent == null)
    }

    /** The labels of the slots the layout creates, in slot order. */
    ghost function CreatedLabels(l: Layout): seq<Label>
      reads dim0`domElement, dim1`domElement, dim2`domElement
    {
      (if l.slot0.Some? && dim0.domElement != null then [dim0.domElement] else [])
      + (if l.slot1.Some? && dim1.domElement != null then [dim1.domElement] else [])
      + (if l.slot2.Some? && dim2.domElement != null then [dim2.domElement] else [])
    }

    /** The nodes of the slots the layout creates, in slot order. */
    ghost function CreatedNodes(l: Layout): seq<Node>
      reads dim0`node, dim1`node, dim2`node
    {
      (if l.slot0.Some? && dim0.node != null then [dim0.node] else [])
      + (if l.slot1.Some? && dim1.node != null then [dim1.node] else [])
      + (if l.slot2.Some? && dim2.node != null then [dim2.node] else [])
    }

    /** The callback's opening detaches: every slot that has a node is
        detached, so all labels leave the container and all overlay nodes
        leave the mesh. */
    method DetachAll()
      requires Valid() && tracked != null
      modifies dim0`domElement, dim1`domElement, dim2`domElement, container, Nodes()`parent, tracked
      ensures Valid() && Cleared()
      ensures dim0.node == old(dim0.node) && dim1.node == old(dim1.node) && dim2.node == old(dim2.node)
      ensures container.elements == Except(Except(Except(old(container.elements),
        LabelSet(old(dim0.domElement))), LabelSet(old(dim1.domElement))), LabelSet(old(dim2.domElement)))
      ensures tracked.children == Except(Except(Except(old(tracked.children),
        NodeSet(old(dim0.node))), NodeSet(old(dim1.node))), NodeSet(old(dim2.node)))
    {
      DetachSlot(dim0);
      DetachSlot(dim1);
      DetachSlot(dim2);
    }

    /** One `if (dimK.node !== undefined) dimK.detach()` step: slot `d` is
        detached and the other two slots are left as they were. */
    method DetachSlot(d: LinearDimension)
      requires Valid() && tracked != null
      requires d == dim0 || d == dim1 || d == dim2
      modifies d`domElement, container, NodeSet(d.node)`parent, tracked
      ensures Valid()
      ensures d.domElement == null && (d.node != null ==> d.node.parent == null)
      ensures d.node == old(d.node)
      ensures container.elements == Except(old(container.elements), LabelSet(old(d.domElement)))
      ensures tracked.children == Except(old(tracked.children), NodeSet(d.node))
    {
      ghost var elems, kids := container.elements, tracked.children;
      ghost var gone, unhooked := LabelSet(d.domElement), NodeSet(d.node);
      DetachOverlay(d, container, tracked);
      if d != dim0 { SlotKept(dim0, container, tracked, elems, kids, gone, unhooked); }
      if d != dim1 { SlotKept(dim1, container, tracked, elems, kids, gone, unhooked); }
      if d != dim2 { SlotKept(dim2, container, tracked, elems, kids, gone, unhooked); }
    }

    /** `dimK.create(from, to, extrude)` on slot `d`: the slot gets a fresh,
        unattached node and a fresh label appended to the container; the
        other slots keep theirs. */
    method CreateSlot(d: LinearDimension, p0: Vec3, p1: Vec3, e: Vec3) returns (n: Node)
      requires Valid() && tracked != null
      requires d == dim0 || d == dim1 || d == dim2
      requires SingleSigned(e)
      modifies d, container
      ensures Valid()
      ensures d.from == p0 && d.to == p1 && d.extrude == e
      ensures fresh(n) && d.node == n && n.parent == null
      ensures d.domElement != null && fresh(d.domElement)
      ensures container.elements == old(container.elements) + [d.domElement]
    {
      n := d.Create(p0, p1, e);
    }

    /** `mesh.add(newDimension)` for a slot's unattached node. */
    method Attach(n: Node)
      requires Valid() && tracked != null
      requires n == dim0.node || n == dim1.node || n == dim2.node
      requires n.parent == null
      modifies tracked, n`parent
      ensures Valid()
      ensures n.parent == tracked
      ensures tracked.children == old(tracked.children) + [n]
    {
      tracked.Add(n);
    }

    /** The facing-change callback registered by `addDimension`: detach
        everything, then recreate the overlays the layout calls for. Old
        labels and nodes are gone from the container and the mesh; the new
        ones follow the survivors, in slot order. */
    method FacingDirChange(ev: FacingChangeEvent)
      requires Valid() && tracked != null && Usable(dirs, ev.current)
      modifies dim0, dim1, dim2, container, tracked, Nodes()`parent
      ensures Valid()
      ensures var l := LayoutFor(tracked.boundingBox, dirs, ev.current);
        && Rebuilt(l, old(dim0.node), old(dim1.node), old(dim2.node),
             Except(old(container.elements), old(Labels())), Except(old(tracked.children), old(Nodes())))
        && (l.slot0.Some? ==> fresh(dim0.node) && fresh(dim0.domElement))
        && (l.slot1.Some? ==> fresh(dim1.node) && fresh(dim1.domElement))
        && (l.slot2.Some? ==> fresh(dim2.node) && fresh(dim2.domElement))
      ensures dim0.node == old(dim0.node) || fresh(dim0.node)
      ensures dim1.node == old(dim1.node) || fresh(dim1.node)
      ensures dim2.node == old(dim2.node) || fresh(dim2.node)
      ensures dim0.domElement == null || fresh(dim0.domElement)
      ensures dim1.domElement == null || fresh(dim1.domElement)
      ensures dim2.domElement == null || fresh(dim2.domElement)
    {
      ghost var elems, kids := container.elements, tracked.children;
      ghost var l0, l1, l2 := LabelSet(dim0.domElement), LabelSet(dim1.domElement), LabelSet(dim2.domElement);
      ghost var n0, n1, n2 := NodeSet(dim0.node), NodeSet(dim1.node), NodeSet(dim2.node);
      var facingDir := dirs[ev.current.best];
      DetachAll();
      ExceptThrice<Label>(elems, l0, l1, l2);
      ExceptThrice<Node>(kids, n0, n1, n2);
      Rebuild(ev.current, facingDir);
    }

    /** `dimK.create(...)` immediately followed by `mesh.add(...)` of the
        returned node, as in the x and z branches. */
    method CreateAttached(d: LinearDimension, p0: Vec3, p1: Vec3, e: Vec3) returns (n: Node)
      requires Valid() && tracked != null
      requires d == dim0 || d == dim1 || d == dim2
      requires SingleSigned(e)
      modifies d, container, tracked
      ensures Valid()
      ensures d.from == p0 && d.to == p1 && d.extrude == e
      ensures fresh(n) && d.node == n && n.parent == tracked
      ensures d.domElement != null && fresh(d.domElement)
      ensures container.elements == old(container.elements) + [d.domElement]
      ensures tracked.children == old(tracked.children) + [n]
    {
      n := CreateSlot(d, p0, p1, e);
      Attach(n);
    }

    /** The y branch's closing `mesh.add` calls: the three nodes it created
        are added to the mesh, in slot order. */
    method AttachAll()
      requires Valid() && tracked != null
      requires dim0.node != null && dim1.node != null && dim2.node != null
      requires dim0.node.parent == null && dim1.node.parent == null && dim2.node.parent == null
      modifies tracked, Nodes()`parent
      ensures Valid()
      ensures dim0.node.parent == tracked && dim1.node.parent == tracked && dim2.node.parent == tracked
      ensures tracked.children == old(tracked.children) + [dim0.node, dim1.node, dim2.node]
    {
      Attach(dim0.node);
      Attach(dim1.node);
      Attach(dim2.node);
    }

    /** After the callback's branch for layout `l`: each slot matches its
        spec (or keeps its cleared node `nK` when the layout leaves it out),
        and the new labels and nodes follow the earlier contents `elems` and
        `kids` of the container and the mesh, in slot order. */
    ghost predicate Rebuilt(l: Layout, n0: Node?, n1: Node?, n2: Node?, elems: seq<Label>, kids: seq<Node>)
      reads this`tracked, container, tracked, Nodes()`parent
      reads dim0`node, dim0`domElement, dim0`from, dim0`to, dim0`extrude
      reads dim1`node, dim1`domElement, dim1`from, dim1`to, dim1`extrude
      reads dim2`node, dim2`domElement, dim2`from, dim2`to, dim2`extrude
    {
      && SlotIs(dim0, l.slot0, n0) && SlotIs(dim1, l.slot1, n1) && SlotIs(dim2, l.slot2, n2)
      && container.elements == elems + CreatedLabels(l)
      && tracked != null && tracked.children == kids + CreatedNodes(l)
    }

    /** The callback's three branch tests: once every slot is cleared, the
        branch for the facing direction creates the overlays the layout asks
        for and attaches them to the mesh. */
    method Rebuild(st: FacingState, facingDir: Vec3)
      requires Valid() && tracked != null && Cleared() && Usable(dirs, st)
      requires facingDir == dirs[st.best]
      modifies dim0, dim1, dim2, container, tracked
      ensures Valid()
      ensures var l := LayoutFor(tracked.boundingBox, dirs, st);
        && Rebuilt(l, old(dim0.node), old(dim1.node), old(dim2.node), old(container.elements), old(tracked.children))
        && (l.slot0.Some? ==> fresh(dim0.node) && fresh(dim0.domElement))
        && (l.slot1.Some? ==> fresh(dim1.node) && fresh(dim1.domElement))
        && (l.slot2.Some? ==> fresh(dim2.node) && fresh(dim2.domElement))
    {
      assert IsUnitAxis(facingDir);
      UnitAxisSingleSigned(facingDir);
      if Abs(facingDir.x) == 1.0 {
        FaceX(st, facingDir);
      }
      if Abs(facingDir.z) == 1.0 {
        FaceZ(st, facingDir);
      }
      if Abs(facingDir.y) == 1.0 {
        var newArray := st.facing;
        var bestIdx := IndexOf(newArray, st.best);
        newArray := SpliceOne(newArray, bestIdx);
        var facingDir0 := dirs[newArray[0]];
        var facingDir1 := dirs[newArray[1]];
        assert IsUnitAxis(facingDir0) && IsUnitAxis(facingDir1);
        UnitAxisSingleSigned(facingDir0);
        UnitAxisSingleSigned(facingDir1);
        FaceY(st, facingDir0, facingDir1);
      }
    }

    /** The x branch, looking along x: slot 0 measures the bottom edge
        pushed out along the facing direction, slot 2 the vertical edge at
        (max.x, max.z) pushed out along +z; slot 1 is left cleared. */
    method FaceX(st: FacingState, d: Vec3)
      requires Valid() && tracked != null && Cleared() && Usable(dirs, st)
      requires d == dirs[st.best] && Abs(d.x) == 1.0 && SingleSigned(d)
      modifies dim0, dim2, container, tracked
      ensures Valid()
      ensures var l := LayoutFor(tracked.boundingBox, dirs, st);
        && Rebuilt(l, old(dim0.node), old(dim1.node), old(dim2.node), old(container.elements), old(tracked.children))
        && l.slot0.Some? && l.slot1.None? && l.slot2.Some?
        && fresh(dim0.node) && fresh(dim0.domElement) && fresh(dim2.node) && fresh(dim2.domElement)
    {
      var bbox := tracked.boundingBox;
      var from := Vec3(bbox.min.x, bbox.min.y, bbox.min.z);
      var to := Vec3(bbox.max.x, bbox.min.y, bbox.max.z);
      var newDimension := CreateAttached(dim0, from, to, d);
      var from2 := Vec3(bbox.max.x, bbox.min.y, bbox.max.z);
      var to2 := Vec3(bbox.max.x, bbox.max.y, bbox.max.z);
      var newDimension2 := CreateAttached(dim2, from2, to2, Vec3(0.0, 0.0, 1.0));
    }

    /** The z branch, looking along z: slot 1 measures the bottom edge
        pushed out along the facing direction, slot 2 the vertical edge at
        (min.x, max.z) pushed out along -x; slot 0 is left cleared. */
    method FaceZ(st: FacingState, d: Vec3)
      requires Valid() && tracked != null && Cleared() && Usable(dirs, st)
      requires d == dirs[st.best] && Abs(d.x) != 1.0 && Abs(d.z) == 1.0 && SingleSigned(d)
      modifies dim1, dim2, container, tracked
      ensures Valid()
      ensures var l := LayoutFor(tracked.boundingBox, dirs, st);
        && Rebuilt(l, old(dim0.node), old(dim1.node), old(dim2.node), old(container.elements), old(tracked.children))
        && l.slot0.None? && l.slot1.Some? && l.slot2.Some?
        && fresh(dim1.node) && fresh(dim1.domElement) && fresh(dim2.node) && fresh(dim2.domElement)
    {
      var bbox := tracked.boundingBox;
      var from := Vec3(bbox.min.x, bbox.min.y, bbox.min.z);
      var to := Vec3(bbox.max.x, bbox.min.y, bbox.max.z);
      var newDimension := CreateAttached(dim1, from, to, d);
      var from2 := Vec3(bbox.min.x, bbox.min.y, bbox.max.z);
      var to2 := Vec3(bbox.min.x, bbox.max.y, bbox.max.z);
      var newDimension2 := CreateAttached(dim2, from2, to2, Vec3(-1.0, 0.0, 0.0));
    }

    /** The y branch, looking along y: slots 0 and 1 measure the bottom
        edge pushed out along the first two remaining facing directions, slot
        2 the vertical edge at (max.x, min.z) pushed out along +x; all three
        are created before any is added to the mesh. */
    method FaceY(st: FacingState, d0: Vec3, d1: Vec3)
      requires Valid() && tracked != null && Cleared() && Usable(dirs, st)
      requires Abs(dirs[st.best].x) != 1.0 && Abs(dirs[st.best].z) != 1.0 && Abs(dirs[st.best].y) == 1.0
      requires d0 == dirs[OtherFacing(st)[0]] && d1 == dirs[OtherFacing(st)[1]]
      requires SingleSigned(d0) && SingleSigned(d1)
      modifies dim0, dim1, dim2, container, tracked
      ensures Valid()
      ensures var l := LayoutFor(tracked.boundingBox, dirs, st);
        && Rebuilt(l, old(dim0.node), old(dim1.node), old(dim2.node), old(container.elements), old(tracked.children))
        && fresh(dim0.node) && fresh(dim0.domElement) && fresh(dim1.node) && fresh(dim1.domElement)
        && fresh(dim2.node) && fresh(dim2.domElement)
    {
      CreateY(d0, d1);
      AttachAll();
    }

    /** The y branch's `create` calls: it creates its three overlays, the first
        two on the bottom edge and the third on the vertical edge at
        (max.x, min.z), before adding any of them to the mesh. */
    method CreateY(d0: Vec3, d1: Vec3)
      requires Valid() && tracked != null && SingleSigned(d0) && SingleSigned(d1)
      modifies dim0, dim1, dim2, container
      ensures Valid()
      ensures var b := tracked.boundingBox;
        && dim0.from == BottomFrom(b) && dim0.to == BottomTo(b) && dim0.extrude == d0
        && dim1.from == BottomFrom(b) && dim1.to == BottomTo(b) && dim1.extrude == d1
        && dim2.from == Vec3(b.max.x, b.min.y, b.min.z) && dim2.to == Vec3(b.max.x, b.max.y, b.min.z)
        && dim2.extrude == Vec3(1.0, 0.0, 0.0)
      ensures fresh(dim0.node) && fresh(dim1.node) && fresh(dim2.node)
      ensures dim0.node.parent == null && dim1.node.parent == null && dim2.node.parent == null
      ensures dim0.domElement != null && dim1.domElement != null && dim2.domElement != null
      ensures fresh(dim0.domElement) && fresh(dim1.domElement) && fresh(dim2.domElement)
      ensures container.elements == old(container.elements) + [dim0.domElement, dim1.domElement, dim2.domElement]
    {
      var bbox := tracked.boundingBox;
      var from := Vec3(bbox.min.x, bbox.min.y, bbox.min.z);
      var to := Vec3(bbox.max.x, bbox.min.y, bbox.max.z);
      var newDimension0 := CreateSlot(dim0, from, to, d0);
      var newDimension1 := CreateSlot(dim1, from, to, d1);
      var from2 := Vec3(bbox.max.x, bbox.min.y, bbox.min.z);
      var to2 := Vec3(bbox.max.x, bbox.max.y, bbox.min.z);
      var newDimension2 := CreateSlot(dim2, from2, to2, Vec3(1.0, 0.0, 0.0));
    }

    /** One frame: the detector's check runs first and may fire the
        callback (`fired`, only when a mesh is tracked), then the three slots
        are updated in order, after which every overlay shows its measured
        segment. A stopped sketch does nothing. */
    method Render(fired: Option<FacingChangeEvent>)
      requires Valid()
      requires fired.Some? && tracked != null ==> Usable(dirs, fired.value.current)
      modifies this`time, dim0, dim1, dim2, container, tracked
      modifies Nodes()`parent, Nodes()`children, Labels()`text
      ensures Valid()
      ensures !old(isPlaying) ==> time == old(time)
      ensures old(isPlaying) ==> time == old(time) + 0.05
      ensures old(isPlaying) ==> dim0.camera == camera && dim1.camera == camera && dim2.camera == camera
      ensures old(isPlaying) ==> dim0.Drawn() && dim1.Drawn() && dim2.Drawn()
      ensures old(isPlaying) && fired.Some? && tracked != null ==>
        var l := LayoutFor(tracked.boundingBox, dirs, fired.value.current);
        Rebuilt(l, old(dim0.node), old(dim1.node), old(dim2.node),
          Except(old(container.elements), old(Labels())), Except(old(tracked.children), old(Nodes())))
      ensures !old(isPlaying) ==> unchanged(this, dim0, dim1, dim2, container) && unchanged(Nodes(), Labels())
      ensures !old(isPlaying) && tracked != null ==> unchanged(tracked)
      ensures !old(isPlaying) || fired.None? || tracked == null ==>
        && dim0.node == old(dim0.node) && dim1.node == old(dim1.node) && dim2.node == old(dim2.node)
        && dim0.domElement == old(dim0.domElement) && dim1.domElement == old(dim1.domElement)
        && dim2.domElement == old(dim2.domElement)
        && dim0.from == old(dim0.from) && dim0.to == old(dim0.to) && dim0.extrude == old(dim0.extrude)
        && dim1.from == old(dim1.from) && dim1.to == old(dim1.to) && dim1.extrude == old(dim1.extrude)
        && dim2.from == old(dim2.from) && dim2.to == old(dim2.to) && dim2.extrude == old(dim2.extrude)
        && (dim0.node != null ==> dim0.node.parent == old(dim0.node.parent))
        && (dim1.node != null ==> dim1.node.parent == old(dim1.node.parent))
        && (dim2.node != null ==> dim2.node.parent == old(dim2.node.parent))
        && container.elements == old(container.elements)
        && (tracked != null ==> tracked.children == old(tracked.children))
    {
      if !isPlaying {
        return;
      }
      time := time + 0.05;
      if fired.Some? && tracked != null {
        FireThenUpdate(fired.value, dim0.node, dim1.node, dim2.node,
          Except(container.elements, Labels()), Except(tracked.children, Nodes()));
      } else {
        UpdateAll();
      }
    }

    /** A frame in which the detector fired: the callback rebuilds the
        overlays, then the three slots are updated. `n0`-`n2`, `elems` and
        `kids` are the slots' nodes and the container's and the mesh's
        contents without the slots' labels and nodes, as the frame began. */
    method FireThenUpdate(ev: FacingChangeEvent, ghost n0: Node?, ghost n1: Node?, ghost n2: Node?,
                          ghost elems: seq<Label>, ghost kids: seq<Node>)
      requires Valid() && tracked != null && Usable(dirs, ev.current)
      requires n0 == dim0.node && n1 == dim1.node && n2 == dim2.node
      requires elems == Except(container.elements, Labels()) && kids == Except(tracked.children, Nodes())
      modifies dim0, dim1, dim2, container, tracked
      modifies Nodes()`parent, Nodes()`children, Labels()`text
      ensures Valid()
      ensures dim0.camera == camera && dim1.camera == camera && dim2.camera == camera
      ensures dim0.Drawn() && dim1.Drawn() && dim2.Drawn()
      ensures Rebuilt(LayoutFor(tracked.boundingBox, dirs, ev.current), n0, n1, n2, elems, kids)
    {
      FacingDirChange(ev);
      UpdateRebuilt(LayoutFor(tracked.boundingBox, dirs, ev.current), n0, n1, n2, elems, kids);
    }

    /** The three updates after a rebuild: every slot is drawn and records
        the camera, and what the rebuild left stays as it was. */
    method UpdateRebuilt(ghost l: Layout, ghost n0: Node?, ghost n1: Node?, ghost n2: Node?,
                         ghost elems: seq<Label>, ghost kids: seq<Node>)
      requires Valid() && Rebuilt(l, n0, n1, n2, elems, kids)
      modifies dim0`camera, dim1`camera, dim2`camera
      modifies NodeSet(dim0.node)`children, NodeSet(dim1.node)`children, NodeSet(dim2.node)`children
      modifies LabelSet(dim0.domElement)`text, LabelSet(dim1.domElement)`text, LabelSet(dim2.domElement)`text
      ensures Valid() && Rebuilt(l, n0, n1, n2, elems, kids)
      ensures dim0.camera == camera && dim1.camera == camera && dim2.camera == camera
      ensures dim0.Drawn() && dim1.Drawn() && dim2.Drawn()
    {
      ghost var labels, nodes := CreatedLabels(l), CreatedNodes(l);
      UpdateAll();
      assert CreatedLabels(l) == labels && CreatedNodes(l) == nodes;
    }

    /** The render loop's three `update(camera)` calls: the slots are
        updated in order; afterwards each records the camera and shows its
        measured segment. */
    method UpdateAll()
      requires Valid()
      modifies dim0`camera, dim1`camera, dim2`camera
      modifies NodeSet(dim0.node)`children, NodeSet(dim1.node)`children, NodeSet(dim2.node)`children
      modifies LabelSet(dim0.domElement)`text, LabelSet(dim1.domElement)`text, LabelSet(dim2.domElement)`text
      ensures Valid()
      ensures dim0.camera == camera && dim1.camera == camera && dim2.camera == camera
      ensures dim0.Drawn() && dim1.Drawn() && dim2.Drawn()
      ensures dim0.node == old(dim0.node) && dim1.node == old(dim1.node) && dim2.node == old(dim2.node)
      ensures dim0.domElement == old(dim0.domElement) && dim1.domElement == old(dim1.domElement)
      ensures dim2.domElement == old(dim2.domElement)
      ensures dim0.from == old(dim0.from) && dim0.to == old(dim0.to) && dim0.extrude == old(dim0.extrude)
      ensures dim1.from == old(dim1.from) && dim1.to == old(dim1.to) && dim1.extrude == old(dim1.extrude)
      ensures dim2.from == old(dim2.from) && dim2.to == old(dim2.to) && dim2.extrude == old(dim2.extrude)
      ensures dim0.node != null ==> dim0.node.parent == old(dim0.node.parent)
      ensures dim1.node != null ==> dim1.node.parent == old(dim1.node.parent)
      ensures dim2.node != null ==> dim2.node.parent == old(dim2.node.parent)
      ensures container.elements == old(container.elements)
      ensures tracked == old(tracked) && (tracked != null ==> tracked.children == old(tracked.children))
    {
      UpdateSlots(dim0, dim1, dim2, camera);
    }

  }
}
