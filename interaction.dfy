/** Click-to-inspect (src/interaction.js): convert the click to normalised device
    coordinates, walk from the first hit object up to the object that owns it, and show
    that object's fields on the info card, or hide the card on a miss or on close. */
module Interaction {
  import opened JsMath
  import opened Catalog
  import opened SceneGraph
  import opened Bodies

  /** The canvas bounding rectangle in client pixels. */
  datatype Rect = Rect(left: real, top: real, width: real, height: real)

  /** `((clientX - left) / width) * 2 - 1`: -1 at the left edge, +1 at the right. */
  function NdcX(clientX: real, r: Rect): (x: real)
    requires r.width > 0.0
    ensures r.left <= clientX <= r.left + r.width <==> -1.0 <= x <= 1.0
  {
    var t := (clientX - r.left) / r.width;
    UnitInterval(clientX - r.left, r.width);
    t * 2.0 - 1.0
  }

  /** `-((clientY - top) / height) * 2 + 1`: +1 at the top edge, -1 at the bottom
      (client y grows downwards, NDC y upwards). */
  function NdcY(clientY: real, r: Rect): (y: real)
    requires r.height > 0.0
    ensures r.top <= clientY <= r.top + r.height <==> -1.0 <= y <= 1.0
  {
    var t := (clientY - r.top) / r.height;
    UnitInterval(clientY - r.top, r.height);
    -t * 2.0 + 1.0
  }

  /** `a / w` lies in [0, 1] exactly when `a` lies in [0, w]. */
  lemma UnitInterval(a: real, w: real)
    requires w > 0.0
    ensures 0.0 <= a <= w <==> 0.0 <= a / w <= 1.0
  {
    var t := a / w;
    assert t * w == a;
    ScaleOrder(t, w);
  }

  /** Multiplying by a positive `w` keeps `t`'s position relative to 0 and 1. */
  lemma ScaleOrder(t: real, w: real)
    requires w > 0.0
    ensures 0.0 <= t <==> 0.0 <= t * w
    ensures t <= 1.0 <==> t * w <= w
  {
  }

  /** The client x of an NDC x, inverting `NdcX`. */
  function PixelX(x: real, r: Rect): real {
    r.left + (x + 1.0) / 2.0 * r.width
  }

  /** The client y of an NDC y, inverting `NdcY`. */
  function PixelY(y: real, r: Rect): real {
    r.top + (1.0 - y) / 2.0 * r.height
  }

  /** The canvas edges map to the edges of the NDC square. */
  lemma NdcEdges(r: Rect)
    requires r.width > 0.0 && r.height > 0.0
    ensures NdcX(r.left, r) == -1.0 && NdcX(r.left + r.width, r) == 1.0
    ensures NdcY(r.top, r) == 1.0 && NdcY(r.top + r.height, r) == -1.0
  {
    assert (r.left + r.width - r.left) / r.width == 1.0;
    assert (r.top + r.height - r.top) / r.height == 1.0;
  }

  /** The NDC map is invertible: pixel to NDC and back is the identity. */
  lemma PixelNdcRoundTrip(cx: real, cy: real, r: Rect)
    requires r.width > 0.0 && r.height > 0.0
    ensures PixelX(NdcX(cx, r), r) == cx
    ensures PixelY(NdcY(cy, r), r) == cy
  {
    var tx := (cx - r.left) / r.width;
    var ty := (cy - r.top) / r.height;
    assert tx * r.width == cx - r.left;
    assert ty * r.height == cy - r.top;
    assert (tx * 2.0 - 1.0 + 1.0) / 2.0 == tx;
    assert (1.0 - (-ty * 2.0 + 1.0)) / 2.0 == ty;
  }

  /** NDC to pixel and back is the identity too. */
  lemma NdcPixelRoundTrip(x: real, y: real, r: Rect)
    requires r.width > 0.0 && r.height > 0.0
    ensures NdcX(PixelX(x, r), r) == x
    ensures NdcY(PixelY(y, r), r) == y
  {
    var tx := (x + 1.0) / 2.0;
    var ty := (1.0 - y) / 2.0;
    assert (PixelX(x, r) - r.left) / r.width == tx * r.width / r.width == tx;
    assert (PixelY(y, r) - r.top) / r.height == ty * r.height / r.height == ty;
  }

  /** `obj.userData.name` is truthy: the object carries a catalog record with a
      non-empty name. */
  predicate Named(u: UserData) {
    u.Body? && u.def.name != ""
  }

  /** Where the parent walk stops: at an object without a parent, whose parent is the
      scene, or that is named. */
  predicate Stops(n: Node, scene: Node)
    reads n
  {
    n.parent == null || n.parent == scene || Named(n.userData)
  }

  /** `chain` is a path up the parent links that ends at an object where the walk
      stops (in an acyclic scene graph the path to the root is one). */
  ghost predicate IsChain(chain: seq<Node>, scene: Node)
    reads chain
  {
    && |chain| > 0
    && (forall i :: 0 <= i < |chain| - 1 ==> chain[i].parent == chain[i + 1])
    && Stops(chain[|chain| - 1], scene)
  }

  /** The position in the chain of the object the walk stops at: the first one along
      the chain where it may stop. */
  ghost function OwnerIndex(chain: seq<Node>, scene: Node): (k: nat)
    requires IsChain(chain, scene)
    reads chain
    ensures k < |chain| && Stops(chain[k], scene)
    ensures forall j :: 0 <= j < k ==> !Stops(chain[j], scene)
    decreases |chain|
  {
    if Stops(chain[0], scene) then 0
    else
      assert IsChain(chain[1..], scene) by {
        forall i | 0 <= i < |chain[1..]| - 1 ensures chain[1..][i].parent == chain[1..][i + 1] {
          assert chain[1..][i] == chain[i + 1];
        }
      }
      1 + OwnerIndex(chain[1..], scene)
  }

  /** The walk `while (obj.parent && obj.parent !== scene && !obj.userData.name)
      obj = obj.parent`, from the first hit, whose path up is `chain`. */
  method OwnerOf(hit: Node, scene: Node, ghost chain: seq<Node>) returns (owner: Node)
    requires IsChain(chain, scene) && chain[0] == hit
    ensures owner == chain[OwnerIndex(chain, scene)]
    ensures Stops(owner, scene)
  {
    owner := hit;
    ghost var i := 0;
    while owner.parent != null && owner.parent != scene && !Named(owner.userData)
      invariant 0 <= i < |chain| && owner == chain[i]
      invariant forall j :: 0 <= j < i ==> !Stops(chain[j], scene)
      decreases |chain| - i
    {
      owner := owner.parent;
      i := i + 1;
    }
    assert i == OwnerIndex(chain, scene);
  }

  /** A hit mesh that sits directly under the scene, or that is named, is its own
      owner. */
  lemma DirectHitOwnsItself(chain: seq<Node>, scene: Node)
    requires IsChain(chain, scene)
    requires chain[0].parent == scene || Named(chain[0].userData)
    ensures OwnerIndex(chain, scene) == 0
  {
  }

  /** A mesh in the state the factory leaves it in is its own owner, so a click on it
      shows its own catalog record. */
  lemma CreatedMeshOwnsItself(chain: seq<Node>, d: BodyDef, scales: Scales, r: real, scene: Node)
    requires IsChain(chain, scene) && Created(chain[0], d, scales, r, scene)
    ensures OwnerIndex(chain, scene) == 0
    ensures chain[0].userData.def == d
  {
    DirectHitOwnsItself(chain, scene);
  }

  /** The walk passes every object it cannot stop at: wrappers without a name under a
      non-scene parent are skipped. */
  lemma {:induction false} OwnerSkipsUnnamed(chain: seq<Node>, scene: Node)
    requires IsChain(chain, scene) && !Stops(chain[0], scene)
    ensures IsChain(chain[1..], scene)
    ensures OwnerIndex(chain, scene) == 1 + OwnerIndex(chain[1..], scene)
  {
    forall i | 0 <= i < |chain[1..]| - 1 ensures chain[1..][i].parent == chain[1..][i + 1] {
      assert chain[1..][i] == chain[i + 1];
    }
  }

  /** What the info card displays: name, diameter in km (before `toLocaleString`),
      distance, orbital period, atmosphere and moons. A name or moons of `None` is
      the `undefined` written to the element, which shows as empty text. */
  datatype Inspection = Inspection(
    name: Option<string>,
    diameterKm: JsNum,
    distance: string,
    orbit: string,
    atmosphere: string,
    moons: Option<string>)

  /** The card's text for the owner's `userData`: the record's name and twice its
      radius, the three descriptive fields with the `"N/A"` fallback, and the moons
      field as it is. An empty `userData` gives `undefined`, NaN and the fallbacks. */
  function Inspect(u: UserData): (r: Inspection)
    ensures r.distance != "" && r.orbit != "" && r.atmosphere != ""
    ensures u.Empty? ==> r == Inspection(None, NaN, "N/A", "N/A", "N/A", None)
    ensures u.Body? ==> r.name == Some(u.def.name) && r.moons == u.def.moonsDisplay
    ensures u.Body? ==> r.diameterKm.Num? && r.diameterKm.v == 2.0 * u.def.radiusKm
  {
    match u
    case Empty => Inspection(None, NaN, OrElse(None, "N/A"), OrElse(None, "N/A"), OrElse(None, "N/A"), None)
    case Body(d, _, _) =>
      Inspection(Some(d.name), Num(d.radiusKm * 2.0),
                 OrElse(d.distanceFromSunDisplay, "N/A"),
                 OrElse(d.orbitalPeriodDisplay, "N/A"),
                 OrElse(d.atmosphericComposition, "N/A"),
                 d.moonsDisplay)
  }

  /** A descriptive field shows `"N/A"` exactly when it is missing or empty, and its own
      text otherwise; the moons field has no fallback. */
  lemma InspectFallbacks(u: UserData)
    requires u.Body?
    ensures var r := Inspect(u);
            && (u.def.distanceFromSunDisplay.None? || u.def.distanceFromSunDisplay.value == "" ==> r.distance == "N/A")
            && (u.def.distanceFromSunDisplay.Some? && u.def.distanceFromSunDisplay.value != "" ==>
                  r.distance == u.def.distanceFromSunDisplay.value)
            && (u.def.orbitalPeriodDisplay.None? || u.def.orbitalPeriodDisplay.value == "" ==> r.orbit == "N/A")
            && (u.def.orbitalPeriodDisplay.Some? && u.def.orbitalPeriodDisplay.value != "" ==>
                  r.orbit == u.def.orbitalPeriodDisplay.value)
            && (u.def.atmosphericComposition.None? || u.def.atmosphericComposition.value == "" ==> r.atmosphere == "N/A")
            && (u.def.atmosphericComposition.Some? && u.def.atmosphericComposition.value != "" ==>
                  r.atmosphere == u.def.atmosphericComposition.value)
            && (u.def.moonsDisplay.None? ==> r.moons.None?)
  {
  }

  /** Every shipped body has all four descriptive fields, so its card shows the
      catalog's own text and never falls back; for a mesh the factory made, the card
      shows the catalog entry's name and diameter. */
  lemma CatalogCardsComplete(i: int, scales: Scales, r: real)
    requires 0 <= i < |SolarSystemData| && 0.0 <= r < 1.0
    ensures !SolarSystemData[i].isStar ==> SolarSystemData[i].orbitalRadiusAU.Some?
    ensures var d := SolarSystemData[i];
            var card := Inspect(InitialUserData(d, scales, r));
            && card.name == Some(d.name)
            && card.diameterKm == Num(2.0 * d.radiusKm)
            && Some(card.distance) == d.distanceFromSunDisplay
            && Some(card.orbit) == d.orbitalPeriodDisplay
            && Some(card.atmosphere) == d.atmosphericComposition
            && card.moons.Some? && card.moons == d.moonsDisplay
  {
    CatalogWellFormed();
    CatalogFieldsPresent(i);
  }

  lemma CatalogFieldsPresent(i: int)
    requires 0 <= i < |SolarSystemData|
    ensures var d := SolarSystemData[i];
            && d.distanceFromSunDisplay.Some? && d.distanceFromSunDisplay.value != ""
            && d.orbitalPeriodDisplay.Some? && d.orbitalPeriodDisplay.value != ""
            && d.atmosphericComposition.Some? && d.atmosphericComposition.value != ""
            && d.moonsDisplay.Some?
  {
  }

  /** The info card: whether it has the `visible` class, and the text last written to
      it (`None` before the first hit). */
  datatype Card = Card(visible: bool, shown: Option<Inspection>)

  /** A hit: the card shows `i` and becomes visible. */
  function Show(c: Card, i: Inspection): Card {
    Card(true, Some(i))
  }

  /** A miss or the close button: the card is hidden and keeps its text. */
  function Hide(c: Card): Card {
    c.(visible := false)
  }

  /** What the user does to the card: a click that hits (showing the owner's fields),
      a click that misses, or the close button. */
  datatype CardEvent = Hit(fields: Inspection) | Miss | CloseButton

  function Apply(c: Card, e: CardEvent): Card {
    match e
    case Hit(i) => Show(c, i)
    case Miss => Hide(c)
    case CloseButton => Hide(c)
  }

  /** The card after the events `es`, oldest first. */
  function Replay(c: Card, es: seq<CardEvent>): Card
    decreases |es|
  {
    if |es| == 0 then c else Apply(Replay(c, es[..|es| - 1]), es[|es| - 1])
  }

  /** After any events the card is visible exactly when the last one was a hit. */
  lemma CardVisibleAfterHitOnly(c: Card, es: seq<CardEvent>)
    requires |es| > 0
    ensures Replay(c, es).visible <==> es[|es| - 1].Hit?
  {
  }

  /** After any events the card shows the fields of the last hit among them, and its
      old text if there was none: misses and the close button never change the text. */
  lemma {:induction false} CardShowsLastHit(c: Card, es: seq<CardEvent>)
    ensures (forall k :: 0 <= k < |es| ==> !es[k].Hit?) ==> Replay(c, es).shown == c.shown
    ensures forall k :: 0 <= k < |es| && es[k].Hit? && (forall j :: k < j < |es| ==> !es[j].Hit?) ==>
              Replay(c, es).shown == Some(es[k].fields)
    decreases |es|
  {
    if |es| > 0 {
      var n := |es| - 1;
      var p := es[..n];
      CardShowsLastHit(c, p);
      assert forall k :: 0 <= k < n ==> p[k] == es[k];
      if !es[n].Hit? {
        assert Replay(c, es).shown == Replay(c, p).shown;
        forall k | 0 <= k < |es| && es[k].Hit? && (forall j :: k < j < |es| ==> !es[j].Hit?)
          ensures Replay(c, es).shown == Some(es[k].fields)
        {
          assert k < n;
          assert forall j :: k < j < |p| ==> !p[j].Hit?;
        }
      }
    }
  }

  /** Hiding twice is hiding once; showing the same body twice is showing it once. */
  lemma CardIdempotent(c: Card, i: Inspection)
    ensures Hide(Hide(c)) == Hide(c)
    ensures Show(Show(c, i), i) == Show(c, i)
  {
  }

  /** What the card shows after a hit depends only on the hit, not on what it showed
      before; a hide after a show keeps the text but not the visibility. */
  lemma CardLastHitWins(c: Card, d: Card, i: Inspection)
    ensures Show(c, i) == Show(d, i)
    ensures Hide(Show(c, i)) == Card(false, Some(i))
  {
  }

  /** The click and close handlers of `setupInteraction`, over the scene, the bodies
      handed to the raycaster, the `mouse` vector and the card. */
  class Picker {
    const scene: Node
    const bodies: seq<Node>
    var mouseX: real
    var mouseY: real
    var card: Card

    /** `new THREE.Vector2()` is (0, 0); the card starts hidden and unwritten. */
    constructor (scene: Node, bodies: seq<Node>)
      ensures this.scene == scene && this.bodies == bodies
      ensures mouseX == 0.0 && mouseY == 0.0 && card == Card(false, None)
    {
      this.scene := scene;
      this.bodies := bodies;
      mouseX, mouseY := 0.0, 0.0;
      card := Card(false, None);
    }

    /** A click at `(clientX, clientY)` over the canvas rectangle `rect`, where `hits`
        is the raycaster's result, nearest first, and `chain` is the path up the
        parent links from `hits[0]`. It stores the NDC position, then shows the
        owner of the first hit or, on a miss, hides the card. No scene object is
        written. */
    method Click(clientX: real, clientY: real, rect: Rect, hits: seq<Node>, ghost chain: seq<Node>)
      requires rect.width > 0.0 && rect.height > 0.0
      requires |hits| > 0 ==> IsChain(chain, scene) && chain[0] == hits[0]
      modifies this`mouseX, this`mouseY, this`card
      ensures mouseX == NdcX(clientX, rect) && mouseY == NdcY(clientY, rect)
      ensures |hits| == 0 ==> card == Hide(old(card))
      ensures |hits| > 0 ==> card == Show(old(card), Inspect(chain[OwnerIndex(chain, scene)].userData))
      ensures unchanged(bodies) && unchanged(hits)
    {
      mouseX := NdcX(clientX, rect);
      mouseY := NdcY(clientY, rect);
      if |hits| > 0 {
        var owner := OwnerOf(hits[0], scene, chain);
        card := Show(card, Inspect(owner.userData));
      } else {
        card := Hide(card);
      }
    }

    /** The close button hides the card. */
    method Close()
      modifies this`card
      ensures card == Hide(old(card))
    {
      card := Hide(card);
    }
  }
}
