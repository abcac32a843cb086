/** The body factory (src/bodies.js): one mesh per catalog entry, with the derived
    simulation state the update step needs, and one orbit line per planet. */
module Bodies {
  import opened JsMath
  import opened Catalog
  import opened SceneGraph

  /** `orbitalRadiusAU * distanceFactor`: an orbit radius in scene units. */
  function SceneRadius(au: real, scales: Scales): real {
    au * scales.distanceFactor
  }

  /** The `userData` the factory gives the mesh of entry `d`, where `r` is the value
      `Math.random()` returns for it (unused for the star). */
  function InitialUserData(d: BodyDef, scales: Scales, r: real): (u: UserData)
    requires 0.0 <= r < 1.0
    requires !d.isStar ==> d.orbitalRadiusAU.Some?
    ensures u.Body? && u.def == d
    ensures d.isStar ==> u.orbitalRadiusScene.None? && u.angle.None?
    ensures !d.isStar ==> u.orbitalRadiusScene == Some(SceneRadius(d.orbitalRadiusAU.value, scales))
    ensures !d.isStar ==> u.angle.Some? && 0.0 <= u.angle.value < 2.0 * Pi
  {
    if d.isStar then Body(d, None, None)
    else Body(d, Some(SceneRadius(d.orbitalRadiusAU.value, scales)), Some(r * Pi * 2.0))
  }

  /** The scene-space orbit radii of the planets of `c`, in catalog order. */
  function SceneRadii(c: seq<BodyDef>, scales: Scales): (r: seq<real>)
    requires PlanetsHaveRadius(c)
    ensures |r| == |c| - StarCount(c)
  {
    var au := PlanetRadiiAU(c);
    seq(|au|, k requires 0 <= k < |au| => SceneRadius(au[k], scales))
  }

  /** What the factory adds to the scene for the entries `c`, in order: for each
      planet its orbit line, of the planet's scene radius, then for every entry its
      mesh. */
  function Layout(c: seq<BodyDef>, scales: Scales): (r: seq<Kind>)
    requires PlanetsHaveRadius(c)
    ensures |r| == |c| + (|c| - StarCount(c))
  {
    if c == [] then []
    else
      assert PlanetsHaveRadius(c[1..]) by {
        forall i | 0 <= i < |c[1..]| && !c[1..][i].isStar ensures c[1..][i].orbitalRadiusAU.Some? {
          assert c[1..][i] == c[i + 1];
        }
      }
      EntryLayout(c[0], scales) + Layout(c[1..], scales)
  }

  /** What the factory adds for one entry: the planet's orbit line, then the mesh. */
  function EntryLayout(d: BodyDef, scales: Scales): seq<Kind>
    requires !d.isStar ==> d.orbitalRadiusAU.Some?
  {
    (if d.isStar then [] else [OrbitLine(SceneRadius(d.orbitalRadiusAU.value, scales))]) + [Mesh]
  }

  /** Extending the catalog by one entry extends the layout by that entry's layout. */
  lemma {:induction false} LayoutSnoc(c: seq<BodyDef>, d: BodyDef, scales: Scales)
    requires PlanetsHaveRadius(c + [d])
    requires !d.isStar ==> d.orbitalRadiusAU.Some?
    ensures PlanetsHaveRadius(c)
    ensures Layout(c + [d], scales) == Layout(c, scales) + EntryLayout(d, scales)
  {
    PrefixHasRadius(c + [d], |c|);
    assert (c + [d])[..|c|] == c;
    if c == [] {
      assert [d][1..] == [];
    } else {
      assert (c + [d])[1..] == c[1..] + [d];
      LayoutSnoc(c[1..], d, scales);
    }
  }

  lemma PrefixHasRadius(c: seq<BodyDef>, i: nat)
    requires PlanetsHaveRadius(c) && i <= |c|
    ensures PlanetsHaveRadius(c[..i])
  {
    assert forall k :: 0 <= k < i ==> c[..i][k] == c[k];
  }

  /** Extending the catalog by one entry extends the planet radii by that entry's radius,
      if it is a planet. */
  lemma {:induction false} RadiiSnoc(c: seq<BodyDef>, d: BodyDef)
    requires PlanetsHaveRadius(c + [d])
    requires !d.isStar ==> d.orbitalRadiusAU.Some?
    ensures PlanetsHaveRadius(c)
    ensures PlanetRadiiAU(c + [d]) ==
      PlanetRadiiAU(c) + (if d.isStar then [] else [d.orbitalRadiusAU.value])
  {
    PrefixHasRadius(c + [d], |c|);
    assert (c + [d])[..|c|] == c;
    if c == [] {
      assert [d][1..] == [];
    } else {
      assert (c + [d])[1..] == c[1..] + [d];
      RadiiSnoc(c[1..], d);
    }
  }

  /** The state in which the factory leaves the mesh of entry `d` (new meshes have no
      children; that is stated where the mesh is made). */
  ghost predicate Created(n: Node, d: BodyDef, scales: Scales, r: real, scene: Node)
    reads n`name, n`userData, n`parent, n`rotationY, n`x, n`y, n`z
  {
    && 0.0 <= r < 1.0
    && (!d.isStar ==> d.orbitalRadiusAU.Some?)
    && n.kind == Mesh
    && n.name == d.name
    && n.userData == InitialUserData(d, scales, r)
    && n.parent == scene
    && n.rotationY == 0.0
    && n.x == 0.0 && n.y == 0.0 && n.z == 0.0
  }

  /** What `createBodies` has built after the first `i` entries of `data`: the scene
      holds its `start` children followed by `added`, which are one mesh per entry
      (the meshes `made`, distinct and each in its `Created` state) and before each
      planet's mesh that planet's orbit line. */
  ghost predicate Built(scene: Node, start: seq<Node>, data: seq<BodyDef>, scales: Scales, rand: seq<real>,
                        i: nat, added: seq<Node>, made: seq<Node>)
    reads scene, made, added
  {
    && i <= |data| == |rand| && |made| == i
    && PlanetsHaveRadius(data) && PlanetsHaveRadius(data[..i])
    && scene.children == start + added
    && |added| == i + (i - StarCount(data[..i]))
    && Kinds(added) == Layout(data[..i], scales)
    && Meshes(added) == made
    && (forall n :: n in added ==> n.parent == scene)
    && LineRadii(added) == SceneRadii(data[..i], scales)
    && (forall j :: 0 <= j < i ==> Created(made[j], data[j], scales, rand[j], scene))
    && (forall j :: 0 <= j < i ==> made[j] != scene && made[j].children == [])
    && (forall j, k :: 0 <= j < k < i ==> made[j] != made[k])
  }

  /** The body of the `forEach` callback of `createBodies` for entry `d`: a fresh mesh,
      added to the scene after its orbit line when `d` is a planet. `step` is what the
      scene gains. */
  method NewBody(scene: Node, d: BodyDef, scales: Scales, r: real)
    returns (mesh: Node, ghost step: seq<Node>)
    requires 0.0 <= r < 1.0
    requires !d.isStar ==> d.orbitalRadiusAU.Some?
    modifies scene`children
    ensures fresh(mesh) && Created(mesh, d, scales, r, scene) && mesh.children == []
    ensures scene.children == old(scene.children) + step
    ensures |step| == if d.isStar then 1 else 2
    ensures step[|step| - 1] == mesh
    ensures !d.isStar ==> step[0].kind == OrbitLine(SceneRadius(d.orbitalRadiusAU.value, scales))
    ensures Kinds(step) == EntryLayout(d, scales)
    ensures Meshes(step) == [mesh]
    ensures LineRadii(step) == if d.isStar then [] else [SceneRadius(d.orbitalRadiusAU.value, scales)]
    ensures forall n :: n in step ==> n.parent == scene
  {
    mesh := new Node(Mesh, d.name, Body(d, None, None));
    step := [];
    if !d.isStar {
      mesh.userData := mesh.userData.(orbitalRadiusScene := Some(SceneRadius(d.orbitalRadiusAU.value, scales)));
      mesh.userData := mesh.userData.(angle := Some(r * Pi * 2.0));
      var line := new Node(OrbitLine(mesh.userData.orbitalRadiusScene.value), "", Empty);
      scene.Add(line);
      step := [line];
    } else {
      mesh.x, mesh.y, mesh.z := 0.0, 0.0, 0.0;
    }
    scene.Add(mesh);
    step := step + [mesh];
  }

  /** One call of the callback, on entry `i`: the scene and the meshes go from what is
      built after `i` entries to what is built after `i + 1`; the meshes `made` for
      earlier entries stay as they were. */
  method AddBody(scene: Node, data: seq<BodyDef>, scales: Scales, rand: seq<real>, i: nat,
                 ghost start: seq<Node>, ghost added: seq<Node>, ghost made: seq<Node>)
    returns (mesh: Node, ghost step: seq<Node>)
    requires Built(scene, start, data, scales, rand, i, added, made)
    requires i < |data| && 0.0 <= rand[i] < 1.0
    modifies scene`children
    ensures fresh(mesh) && mesh.children == []
    ensures Built(scene, start, data, scales, rand, i + 1, added + step, made + [mesh])
  {
    assert !data[i].isStar ==> data[i].orbitalRadiusAU.Some?;
    mesh, step := NewBody(scene, data[i], scales, rand[i]);
    SceneGains(data, scales, i, added, made, step, mesh);
    AppendAssoc(start, added, step);
    MadeGains(scene, data, scales, rand, i, made, mesh);
  }

  /** The meshes made so far, extended by a new one in its created state. */
  lemma MadeGains(scene: Node, data: seq<BodyDef>, scales: Scales, rand: seq<real>, i: nat,
                  made: seq<Node>, mesh: Node)
    requires i < |data| == |rand| && |made| == i
    requires forall j :: 0 <= j < i ==> Created(made[j], data[j], scales, rand[j], scene)
    requires forall j :: 0 <= j < i ==> made[j] != scene && made[j].children == []
    requires forall j, k :: 0 <= j < k < i ==> made[j] != made[k]
    requires Created(mesh, data[i], scales, rand[i], scene) && mesh != scene && mesh.children == []
    requires mesh !in made
    ensures forall j :: 0 <= j < i + 1 ==> Created((made + [mesh])[j], data[j], scales, rand[j], scene)
    ensures forall j :: 0 <= j < i + 1 ==> (made + [mesh])[j] != scene && (made + [mesh])[j].children == []
    ensures forall j, k :: 0 <= j < k < i + 1 ==> (made + [mesh])[j] != (made + [mesh])[k]
  {
    assert forall j :: 0 <= j < i ==> (made + [mesh])[j] == made[j];
  }

  /** `createBodies`: one fresh mesh per catalog entry, in catalog order, each in the
      state `Created` describes; the scene gains exactly these meshes and one orbit
      line per planet, whose radius is that planet's `orbitalRadiusScene`. */
  method CreateBodies(scene: Node, data: seq<BodyDef>, scales: Scales, rand: seq<real>)
    returns (bodies: seq<Node>)
    requires |rand| == |data|
    requires forall i :: 0 <= i < |rand| ==> 0.0 <= rand[i] < 1.0
    requires PlanetsHaveRadius(data)
    modifies scene`children
    ensures |bodies| == |data|
    ensures forall n :: n in bodies ==> fresh(n)
    ensures forall i :: 0 <= i < |data| ==> Created(bodies[i], data[i], scales, rand[i], scene)
    ensures forall i :: 0 <= i < |data| ==> bodies[i].children == []
    ensures forall i, j :: 0 <= i < j < |bodies| ==> bodies[i] != bodies[j]
    ensures |scene.children| == |old(scene.children)| + |data| + (|data| - StarCount(data))
    ensures scene.children[..|old(scene.children)|] == old(scene.children)
    ensures Kinds(scene.children[|old(scene.children)|..]) == Layout(data, scales)
    ensures Meshes(scene.children[|old(scene.children)|..]) == bodies
    ensures LineRadii(scene.children[|old(scene.children)|..]) == SceneRadii(data, scales)
    ensures forall n :: n in scene.children[|old(scene.children)|..] ==> n.parent == scene
  {
    bodies := [];
    ghost var added: seq<Node> := [];
    ghost var start := scene.children;
    assert data[..0] == [];
    var i := 0;
    while i < |data|
      invariant i <= |data|
      invariant Built(scene, start, data, scales, rand, i, added, bodies)
      invariant forall n :: n in bodies ==> fresh(n)
    {
      var mesh;
      ghost var step;
      mesh, step := AddBody(scene, data, scales, rand, i, start, added, bodies);
      added := added + step;
      bodies := bodies + [mesh];
      i := i + 1;
    }
    assert data[..i] == data;
    assert scene.children[..|start|] == start;
    assert scene.children[|start|..] == added;
  }

  /** What one callback adds to the scene keeps the scene's additions in step with the
      catalog prefix processed so far. */
  lemma SceneGains(data: seq<BodyDef>, scales: Scales, i: nat, added: seq<Node>, bodies: seq<Node>,
                   step: seq<Node>, mesh: Node)
    requires i < |data| && PlanetsHaveRadius(data)
    requires |added| == i + (i - StarCount(data[..i]))
    requires Meshes(added) == bodies
    requires LineRadii(added) == SceneRadii(data[..i], scales)
    requires |step| == if data[i].isStar then 1 else 2
    requires Kinds(added) == Layout(data[..i], scales)
    requires Kinds(step) == EntryLayout(data[i], scales)
    requires Meshes(step) == [mesh]
    requires LineRadii(step) == if data[i].isStar then [] else [SceneRadius(data[i].orbitalRadiusAU.value, scales)]
    ensures PlanetsHaveRadius(data[..i + 1])
    ensures |added + step| == (i + 1) + ((i + 1) - StarCount(data[..i + 1]))
    ensures Kinds(added + step) == Layout(data[..i + 1], scales)
    ensures Meshes(added + step) == bodies + [mesh]
    ensures LineRadii(added + step) == SceneRadii(data[..i + 1], scales)
  {
    KindsAppend(added, step);
    MeshesAppend(added, step);
    LineRadiiAppend(added, step);
    PrefixSnoc(data, i);
    PrefixHasRadius(data, i + 1);
    LayoutSnoc(data[..i], data[i], scales);
    RadiiSnoc(data[..i], data[i]);
    StarCountSnoc(data[..i], data[i]);
  }

  lemma AppendAssoc(a: seq<Node>, b: seq<Node>, c: seq<Node>)
    ensures (a + b) + c == a + (b + c)
  {
  }

  lemma PrefixSnoc(c: seq<BodyDef>, i: nat)
    requires i < |c|
    ensures c[..i + 1] == c[..i] + [c[i]]
  {
  }

  lemma {:induction false} StarCountSnoc(c: seq<BodyDef>, d: BodyDef)
    ensures StarCount(c + [d]) == StarCount(c) + (if d.isStar then 1 else 0)
  {
    if c == [] {
      assert [d][1..] == [];
    } else {
      assert (c + [d])[1..] == c[1..] + [d];
      StarCountSnoc(c[1..], d);
    }
  }
}
