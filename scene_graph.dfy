/** The part of the three.js scene graph the core touches: objects with a parent
    link, a list of children, a name, a `userData` bag, a y rotation and a position.
    Geometry and materials are not modelled. */
module SceneGraph {
  import opened JsMath
  import opened Catalog

  /** What an object is: the scene root, a body mesh, or an orbit line of the
      given scene-space radius. */
  datatype Kind = SceneRoot | Mesh | OrbitLine(radius: real)

  /** `mesh.userData`: empty (`{}`), or a copy of a catalog record together with the
      two fields the factory adds, which are undefined for the star. */
  datatype UserData =
    | Empty
    | Body(def: BodyDef, orbitalRadiusScene: Option<real>, angle: Option<real>)

  class Node {
    const kind: Kind
    var name: string
    var parent: Node?
    var children: seq<Node>
    var userData: UserData
    var rotationY: real
    var x: real
    var y: real
    var z: real

    /** A new object: no parent, no children, zero rotation, at the origin. */
    constructor (kind: Kind, name: string, userData: UserData)
      ensures this.kind == kind && this.name == name && this.userData == userData
      ensures parent == null && children == []
      ensures rotationY == 0.0 && x == 0.0 && y == 0.0 && z == 0.0
    {
      this.kind := kind;
      this.name := name;
      this.userData := userData;
      parent := null;
      children := [];
      rotationY := 0.0;
      x, y, z := 0.0, 0.0, 0.0;
    }

    /** `add(child)` for an object that has no parent yet: appends it to the children
        and makes this object its parent. */
    method Add(child: Node)
      requires child != this && child.parent == null
      modifies this`children, child`parent
      ensures children == old(children) + [child]
      ensures child.parent == this
    {
      children := children + [child];
      child.parent := this;
    }
  }

  /** The body meshes among a list of objects, in order. */
  function Meshes(s: seq<Node>): (r: seq<Node>)
    ensures |r| <= |s|
  {
    if s == [] then [] else (if s[0].kind.Mesh? then [s[0]] else []) + Meshes(s[1..])
  }

  /** The radii of the orbit lines among a list of objects, in order. */
  function LineRadii(s: seq<Node>): (r: seq<real>)
    ensures |r| <= |s|
  {
    if s == [] then [] else (if s[0].kind.OrbitLine? then [s[0].kind.radius] else []) + LineRadii(s[1..])
  }

  /** The kinds of a list of objects, in order. */
  function Kinds(s: seq<Node>): (r: seq<Kind>)
    ensures |r| == |s|
  {
    seq(|s|, i requires 0 <= i < |s| => s[i].kind)
  }

  lemma KindsAppend(s: seq<Node>, t: seq<Node>)
    ensures Kinds(s + t) == Kinds(s) + Kinds(t)
  {
    assert forall i :: 0 <= i < |s + t| ==> Kinds(s + t)[i] == (Kinds(s) + Kinds(t))[i];
  }

  /** Filtering distributes over concatenation. */
  lemma {:induction false} MeshesAppend(s: seq<Node>, t: seq<Node>)
    ensures Meshes(s + t) == Meshes(s) + Meshes(t)
  {
    if s == [] {
      assert s + t == t;
    } else {
      var head := (if s[0].kind.Mesh? then [s[0]] else []);
      assert (s + t)[0] == s[0];
      assert (s + t)[1..] == s[1..] + t;
      MeshesAppend(s[1..], t);
      calc {
        Meshes(s + t);
        head + Meshes(s[1..] + t);
        head + (Meshes(s[1..]) + Meshes(t));
        (head + Meshes(s[1..])) + Meshes(t);
      }
    }
  }

  lemma {:induction false} LineRadiiAppend(s: seq<Node>, t: seq<Node>)
    ensures LineRadii(s + t) == LineRadii(s) + LineRadii(t)
  {
    if s == [] {
      assert s + t == t;
    } else {
      var head := (if s[0].kind.OrbitLine? then [s[0].kind.radius] else []);
      assert (s + t)[0] == s[0];
      assert (s + t)[1..] == s[1..] + t;
      LineRadiiAppend(s[1..], t);
      calc {
        LineRadii(s + t);
        head + LineRadii(s[1..] + t);
        head + (LineRadii(s[1..]) + LineRadii(t));
        (head + LineRadii(s[1..])) + LineRadii(t);
      }
    }
  }
}
