/** The collaborators the annotation core changes in place, at the level of
    detail the core relies on: the three.js scene graph (the node a dimension
    overlay creates and the tracked mesh it is attached to) and the DOM (the
    label element and the container it is appended to). */
module Scene {
  import opened Vectors
  import opened JsArrays

  /** One ArrowHelper child of an overlay node. `offset` is the arrow's unit
      direction scaled by its length, so the arrow's tip is origin + offset. */
  datatype Arrow = Arrow(origin: Vec3, offset: Vec3, headLength: real, headWidth: real)

  /** The number a label shows: the squared distance it measures (the label
      prints the converted square root of it), and the unit suffix. */
  datatype Reading = Reading(distanceSq: real, units: string)

  /** The camera an overlay renders for. Its pose and projection belong to
      the renderer; the model records only which camera was last supplied. */
  datatype Camera = Camera(id: nat)

  /** A label's innerHTML: empty when created, a reading once updated. */
  datatype Text = Empty | Shows(reading: Reading)

  /** The Object3D a dimension overlay creates: it holds the arrow glyphs
      and knows the mesh it has been added to, if any. */
  class Node {
    var children: seq<Arrow>
    var parent: Mesh?

    constructor ()
      ensures children == [] && parent == null
    {
      children := [];
      parent := null;
    }
  }

  /** The tracked object: its (read-only) geometry bounding box and the
      overlay nodes added to it. */
  class Mesh {
    const boundingBox: Box3
    var children: seq<Node>

    /** A scene-graph node lists each child once. */
    ghost predicate Valid()
      reads this
    {
      NoDup(children)
    }

    constructor (box: Box3)
      ensures Valid()
      ensures boundingBox == box && children == []
    {
      boundingBox := box;
      children := [];
    }

    /** Object3D.add for a node that has no parent yet. */
    method Add(n: Node)
      requires Valid()
      requires n.parent == null && n !in children
      modifies this, n`parent
      ensures Valid()
      ensures n.parent == this
      ensures children == old(children) + [n]
    {
      n.parent := this;
      AppendNoDup(children, n);
      children := children + [n];
    }

    /** Object3D.remove: a node that is a child is unlinked and loses its
        parent; any other node is left alone. */
    method Remove(n: Node)
      requires Valid()
      modifies this, n`parent
      ensures Valid()
      ensures n.parent == if n in old(children) then null else old(n.parent)
      ensures children == RemoveFirst(old(children), n)
      ensures n !in children
    {
      RemoveFirstNoDup(children, n);
      if JsArrays.IndexOf(children, n) != -1 {
        n.parent := null;
        children := DropAt(children, JsArrays.IndexOf(children, n));
      }
    }
  }

  /** The `div.dim` element that shows one overlay's length. */
  class Label {
    var text: Text

    constructor ()
      ensures text == Empty
    {
      text := Empty;
    }
  }

  /** The container element the labels are appended to. */
  class DomRoot {
    var elements: seq<Label>

    /** A DOM element lists each child once. */
    ghost predicate Valid()
      reads this
    {
      NoDup(elements)
    }

    constructor ()
      ensures Valid() && elements == []
    {
      elements := [];
    }

    /** appendChild of an element that is not yet in the container. */
    method AppendChild(el: Label)
      requires Valid() && el !in elements
      modifies this
      ensures Valid()
      ensures elements == old(elements) + [el]
    {
      AppendNoDup(elements, el);
      elements := elements + [el];
    }

    /** removeChild: the DOM throws unless el is a child, so it must be. */
    method RemoveChild(el: Label)
      requires Valid() && el in elements
      modifies this
      ensures Valid()
      ensures elements == RemoveFirst(old(elements), el)
      ensures el !in elements
    {
      RemoveFirstNoDup(elements, el);
      elements := DropAt(elements, JsArrays.IndexOf(elements, el));
    }
  }

  /** The label, if there is one, as a set. */
  function LabelSet(l: Label?): set<Label>
  {
    if l != null then {l} else {}
  }

  /** The node, if there is one, as a set. */
  function NodeSet(n: Node?): set<Node>
  {
    if n != null then {n} else {}
  }
}
