/** A linear-dimension overlay: two opposite arrows spanning a measured
    segment pushed out by an extrude vector, plus a text label with the
    measured length. The geometry is a pure function of the segment and the
    extrude vector; the overlay object creates, refreshes and detaches its
    scene node and label in place. */
module Dimension {
  import opened Options
  import opened Vectors
  import opened JsArrays
  import opened Scene

  /** The overlay's configuration. The units converter (identity by default)
      only affects the printed text, which the model does not format. */
  datatype Config = Config(headLength: real, headWidth: real, units: string)

  /** The defaults every overlay is constructed with. */
  const DefaultConfig := Config(0.1, 0.1, "mm")

  /** Extrude components below this magnitude count as "not extruded". */
  const Epsilon: real := 0.0000000000000001

  /** The two corners the arrows run between. */
  datatype Corners = Corners(pmin: Vec3, pmax: Vec3)

  /** The corner computation: a case split on the sign of the extrude
      vector. A vector with both a positive and a negative component falls
      through both cases and leaves the corners undefined. */
  function CornersOf(p0: Vec3, p1: Vec3, e: Vec3): (r: Option<Corners>)
    ensures r.Some? <==> SingleSigned(e)
  {
    if NonNegative(e) then
      var pmax := Add(e, CMax(p0, p1));
      var low := Add(e, CMin(p0, p1));
      Some(Corners(
        Vec3(if e.x < Epsilon then low.x else pmax.x,
             if e.y < Epsilon then low.y else pmax.y,
             if e.z < Epsilon then low.z else pmax.z),
        pmax))
    else if NonPositive(e) then
      var pmax := Add(e, CMin(p0, p1));
      var high := Add(e, CMax(p0, p1));
      Some(Corners(
        Vec3(if e.x > -Epsilon then high.x else pmax.x,
             if e.y > -Epsilon then high.y else pmax.y,
             if e.z > -Epsilon then high.z else pmax.z),
        pmax))
    else
      None
  }

  /** The span pmax - pmin the overlay is meant to show, axis by axis: zero
      on an extruded axis, and on every other axis the extent of the segment,
      counted positive when the extrude vector is non-negative and negative
      when it points the other way. */
  function ExpectedSpan(p0: Vec3, p1: Vec3, e: Vec3): Vec3
  {
    var sign := if NonNegative(e) then 1.0 else -1.0;
    Vec3(if Abs(e.x) >= Epsilon then 0.0 else sign * Abs(p1.x - p0.x),
         if Abs(e.y) >= Epsilon then 0.0 else sign * Abs(p1.y - p0.y),
         if Abs(e.z) >= Epsilon then 0.0 else sign * Abs(p1.z - p0.z))
  }

  /** Non-negative extrude: pmax is the componentwise maximum pushed out by
      the extrude vector, pmin follows the minimum on the axes that are not
      extruded and collapses onto pmax on those that are, so pmin <= pmax. */
  lemma NonNegativeCorners(p0: Vec3, p1: Vec3, e: Vec3)
    requires NonNegative(e)
    ensures CornersOf(p0, p1, e).Some?
    ensures var c := CornersOf(p0, p1, e).value;
      && c.pmax == Add(e, CMax(p0, p1))
      && c.pmin.x == (if e.x < Epsilon then e.x + Min(p0.x, p1.x) else c.pmax.x)
      && c.pmin.y == (if e.y < Epsilon then e.y + Min(p0.y, p1.y) else c.pmax.y)
      && c.pmin.z == (if e.z < Epsilon then e.z + Min(p0.z, p1.z) else c.pmax.z)
      && LessEq(c.pmin, c.pmax)
  {
  }

  /** Non-positive extrude that is not zero (a zero vector takes the first
      case): the mirror image, so pmin >= pmax componentwise. */
  lemma NonPositiveCorners(p0: Vec3, p1: Vec3, e: Vec3)
    requires NonPositive(e) && !NonNegative(e)
    ensures CornersOf(p0, p1, e).Some?
    ensures var c := CornersOf(p0, p1, e).value;
      && c.pmax == Add(e, CMin(p0, p1))
      && c.pmin.x == (if e.x > -Epsilon then e.x + Max(p0.x, p1.x) else c.pmax.x)
      && c.pmin.y == (if e.y > -Epsilon then e.y + Max(p0.y, p1.y) else c.pmax.y)
      && c.pmin.z == (if e.z > -Epsilon then e.z + Max(p0.z, p1.z) else c.pmax.z)
      && LessEq(c.pmax, c.pmin)
  {
  }

  /** Without extrusion the corners are the componentwise min and max of the
      segment's endpoints. */
  lemma ZeroExtrudeCorners(p0: Vec3, p1: Vec3)
    ensures CornersOf(p0, p1, Vec3(0.0, 0.0, 0.0)) == Some(Corners(CMin(p0, p1), CMax(p0, p1)))
  {
  }

  /** The corners realise the intended span: every extruded axis has zero
      span and every other axis spans the segment's extent. */
  lemma CornersSpan(p0: Vec3, p1: Vec3, e: Vec3)
    requires SingleSigned(e)
    ensures var c := CornersOf(p0, p1, e).value;
      Sub(c.pmax, c.pmin) == ExpectedSpan(p0, p1, e)
  {
    var c := CornersOf(p0, p1, e).value;
    if NonNegative(e) {
      NonNegativeCorners(p0, p1, e);
    } else {
      NonPositiveCorners(p0, p1, e);
    }
  }

  /** The two arrows: both start at the midpoint of the corners, one points
      at pmax and the other at pmin, each half as long as the corners are
      apart. */
  function ArrowsFor(c: Corners, cfg: Config): (r: seq<Arrow>)
    ensures |r| == 2
    ensures r[0].origin == r[1].origin
    ensures Sub(c.pmax, r[0].origin) == Sub(r[0].origin, c.pmin)
    ensures Add(r[0].origin, r[0].offset) == c.pmax
    ensures Add(r[1].origin, r[1].offset) == c.pmin
    ensures r[1].offset == Neg(r[0].offset)
  {
    var origin := Scale(Add(c.pmax, c.pmin), 0.5);
    var half := Scale(Sub(c.pmax, c.pmin), 0.5);
    [Arrow(origin, half, cfg.headLength, cfg.headWidth),
     Arrow(origin, Neg(half), cfg.headLength, cfg.headWidth)]
  }

  /** Each arrow is half as long as the corners are apart, and both carry
      the configured head size. */
  lemma ArrowsHalfLength(c: Corners, cfg: Config)
    ensures var r := ArrowsFor(c, cfg);
      && 4.0 * LengthSq(r[0].offset) == DistanceSq(c.pmax, c.pmin)
      && 4.0 * LengthSq(r[1].offset) == DistanceSq(c.pmax, c.pmin)
      && r[0].headLength == r[1].headLength == cfg.headLength
      && r[0].headWidth == r[1].headWidth == cfg.headWidth
  {
  }

  /** What the label shows for the given corners. */
  function ReadingFor(c: Corners, cfg: Config): Reading
  {
    Reading(DistanceSq(c.pmin, c.pmax), cfg.units)
  }

  /** The label reads the full span the arrows cover: the squared distance
      between the corners, four times the squared length of either arrow,
      in the configured units. */
  lemma ReadingMatchesArrows(c: Corners, cfg: Config)
    ensures var r := ReadingFor(c, cfg); var a := ArrowsFor(c, cfg);
      && r.units == cfg.units
      && r.distanceSq == 4.0 * LengthSq(a[0].offset)
      && r.distanceSq == 4.0 * LengthSq(a[1].offset)
  {
    ArrowsHalfLength(c, cfg);
    assert DistanceSq(c.pmin, c.pmax) == DistanceSq(c.pmax, c.pmin);
  }

  /** One dimension overlay. `node` and `domElement` are undefined (null)
      until `Create`; `Detach` drops the label but keeps the node. */
  class LinearDimension {
    const domRoot: DomRoot
    const config: Config
    var camera: Camera
    var from: Vec3
    var to: Vec3
    var extrude: Vec3
    var node: Node?
    var domElement: Label?

    /** A label exists only with a node and is a child of the container;
        a node exists only for a single-signed extrude vector. */
    ghost predicate Valid()
      reads this`node, this`domElement, this`extrude, domRoot
    {
      && domRoot.Valid()
      && (domElement != null ==> node != null && domElement in domRoot.elements)
      && (node != null ==> SingleSigned(extrude))
    }

    /** The node's arrows and the label's reading are those of the stored
        segment and extrude vector. */
    ghost predicate Drawn()
      reads this`node, this`domElement, this`from, this`to, this`extrude
      reads NodeSet(node)`children, LabelSet(domElement)`text
    {
      && (node != null ==> SingleSigned(extrude) && node.children == ArrowsFor(Measured(), config))
      && (domElement != null ==> SingleSigned(extrude) && domElement.text == Shows(ReadingFor(Measured(), config)))
    }

    /** The corners for the stored segment and extrude vector. */
    function Measured(): Corners
      reads this`from, this`to, this`extrude
      requires SingleSigned(extrude)
    {
      CornersOf(from, to, extrude).value
    }

    constructor (root: DomRoot, cam: Camera)
      requires root.Valid()
      ensures node == null && domElement == null
      ensures domRoot == root && camera == cam && config == DefaultConfig
      ensures Valid() && Drawn()
    {
      domRoot := root;
      camera := cam;
      config := DefaultConfig;
      from, to, extrude := Vec3(0.0, 0.0, 0.0), Vec3(0.0, 0.0, 0.0), Vec3(0.0, 0.0, 0.0);
      node := null;
      domElement := null;
    }

    /** Stores the segment, makes a fresh node and a fresh label appended to
        the container, and draws them. A label left by an earlier `Create`
        without `Detach` stays in the container, no longer referenced. */
    method Create(p0: Vec3, p1: Vec3, e: Vec3) returns (n: Node)
      requires Valid()
      requires SingleSigned(e)
      modifies this, domRoot
      ensures Valid() && Drawn()
      ensures from == p0 && to == p1 && extrude == e && camera == old(camera)
      ensures fresh(n) && node == n && n.parent == null
      ensures n.children == ArrowsFor(Measured(), config)
      ensures domElement != null && fresh(domElement)
      ensures domElement.text == Shows(ReadingFor(Measured(), config))
      ensures domRoot.elements == old(domRoot.elements) + [domElement]
    {
      from, to, extrude := p0, p1, e;
      n := new Node();
      node := n;
      var el := new Label();
      domRoot.AppendChild(el);
      domElement := el;
      Update(camera);
    }

    /** Per-frame refresh: with no node nothing but the camera changes;
        otherwise the node's children are replaced by exactly the two arrows
        and a present label shows the measured length. Redrawing an overlay
        that is already drawn leaves its arrows and text as they were. */
    method Update(cam: Camera)
      requires Valid()
      modifies this`camera, NodeSet(node)`children, LabelSet(domElement)`text
      ensures Valid() && Drawn()
      ensures camera == cam
      ensures old(Drawn()) && node != null ==> node.children == old(node.children)
      ensures old(Drawn()) && domElement != null ==> domElement.text == old(domElement.text)
      ensures node != null ==> node.children == ArrowsFor(Measured(), config)
      ensures domElement != null ==> domElement.text == Shows(ReadingFor(Measured(), config))
    {
      camera := cam;
      if node == null {
        return;
      }
      node.children := [];
      var c := CornersOf(from, to, extrude).value;
      var arrows := ArrowsFor(c, config);
      node.children := node.children + [arrows[0]];
      node.children := node.children + [arrows[1]];
      if domElement != null {
        domElement.text := Shows(ReadingFor(c, config));
      }
    }

    /** Unlinks the node from its parent, if it has one, and removes the
        label, if there is one. The node itself stays, so a later `Update`
        still redraws it; a second `Detach` changes nothing. */
    method Detach()
      requires Valid()
      requires node != null && node.parent != null ==> node.parent.Valid()
      modifies this`domElement, domRoot, NodeSet(node)`parent, if node != null then node.parent else null
      ensures Valid()
      ensures old(Drawn()) ==> Drawn()
      ensures domElement == null
      ensures domRoot.elements == Except(old(domRoot.elements), LabelSet(old(domElement)))
      ensures node != null && old(node.parent) == null ==> node.parent == null
      ensures node != null && old(node.parent) != null ==>
        && old(node.parent).Valid()
        && old(node.parent).children == Except(old(node.parent.children), NodeSet(node))
        && node.parent == (if node in old(node.parent.children) then null else old(node.parent))
    {
      Unlink();
      RemoveLabel();
    }

    /** The first half of `Detach`: `node.parent.remove(node)`. */
    method Unlink()
      requires node != null && node.parent != null ==> node.parent.Valid()
      modifies NodeSet(node)`parent, if node != null then node.parent else null
      ensures node != null && old(node.parent) == null ==> node.parent == null
      ensures node != null && old(node.parent) != null ==>
        && old(node.parent).Valid()
        && old(node.parent).children == Except(old(node.parent.children), NodeSet(node))
        && node.parent == (if node in old(node.parent.children) then null else old(node.parent))
    {
      if node != null && node.parent != null {
        RemoveFirstIsExcept<Node>(node.parent.children, node);
        node.parent.Remove(node);
      }
    }

    /** The second half of `Detach`: the label leaves the container. */
    method RemoveLabel()
      requires Valid()
      modifies this`domElement, domRoot
      ensures Valid()
      ensures domElement == null
      ensures domRoot.elements == Except(old(domRoot.elements), LabelSet(old(domElement)))
    {
      if domElement == null {
        ExceptNothing<Label>(domRoot.elements);
      } else {
        RemoveFirstIsExcept<Label>(domRoot.elements, domElement);
        domRoot.RemoveChild(domElement);
        domElement := null;
      }
    }
  }
}
