/** The client's trees: berries that grow back a while after they were
    picked, the test for standing at a tree, and the debug spheres that show
    which berries can be picked. */
module Trees {
  import opened Wrappers
  import opened Vectors

  /** BERRY_SPAWN_INTERVAL, in milliseconds. */
  const BerrySpawnInterval: int := 30000

  /** The state of one berry mesh that the tree code reads and writes:
      userData.collected and lastCollectedTime, its own visibility, and the
      visibility of its first child (the debug sphere) when it has one. */
  datatype BerryMesh = BerryMesh(
    collected: bool,
    lastCollectedTime: Option<int>,
    visible: bool,
    hasChild: bool,
    childVisible: bool)

  /** `lastCollectedTime || 0`. */
  function CollectedAt(b: BerryMesh): int {
    if b.lastCollectedTime.Some? then b.lastCollectedTime.value else 0
  }

  /** The filter of replenishBerries: collected, and collected at least
      BERRY_SPAWN_INTERVAL ago. */
  predicate Ready(b: BerryMesh, currentTime: int) {
    b.collected && currentTime - CollectedAt(b) >= BerrySpawnInterval
  }

  /** The respawn of one berry: uncollected and shown, and its debug sphere
      shown when it has one. */
  function Respawned(b: BerryMesh): BerryMesh {
    b.(collected := false, visible := true, childVisible := if b.hasChild then true else b.childVisible)
  }

  /** A berry after replenishBerries. */
  function Replenished(b: BerryMesh, currentTime: int): BerryMesh {
    if Ready(b, currentTime) then Respawned(b) else b
  }

  /** A berry comes back if and only if it was collected at least
      BERRY_SPAWN_INTERVAL ago (a berry with no time counts as collected at
      time 0); a berry that was not collected is left exactly as it was;
      the collection time is never changed. */
  lemma ReplenishedOutcome(b: BerryMesh, currentTime: int)
    ensures var r := Replenished(b, currentTime);
      && (b.collected && !r.collected <==> b.collected && currentTime - CollectedAt(b) >= BerrySpawnInterval)
      && (!b.collected ==> r == b)
      && (r.collected ==> r == b)
      && (!r.collected && b.collected ==> r.visible && (b.hasChild ==> r.childVisible))
      && r.lastCollectedTime == b.lastCollectedTime && r.hasChild == b.hasChild
  {
  }

  /** replenishBerries over the tree's berry list: the ready berries are
      filtered out first, then each of them respawns. The list keeps its
      length and order; each entry becomes Replenished of what it was. */
  method ReplenishBerries(berries: array<BerryMesh>, currentTime: int)
    modifies berries
    ensures forall i :: 0 <= i < berries.Length ==> berries[i] == Replenished(old(berries[i]), currentTime)
  {
    var ready := ReadyIndices(berries, currentTime);
    for m := 0 to |ready|
      invariant forall i :: 0 <= i < berries.Length ==>
        berries[i] == if i in ready[..m] then Respawned(old(berries[i])) else old(berries[i])
    {
      berries[ready[m]] := Respawned(berries[ready[m]]);
    }
  }

  /** The filter: the indices of the ready berries, in increasing order. */
  method ReadyIndices(berries: array<BerryMesh>, currentTime: int) returns (ready: seq<nat>)
    ensures forall j :: 0 <= j < |ready| ==> ready[j] < berries.Length
    ensures forall j, k :: 0 <= j < k < |ready| ==> ready[j] < ready[k]
    ensures forall i :: 0 <= i < berries.Length ==> (i in ready <==> Ready(berries[i], currentTime))
  {
    ready := [];
    for i := 0 to berries.Length
      invariant forall j :: 0 <= j < |ready| ==> ready[j] < i
      invariant forall j, k :: 0 <= j < k < |ready| ==> ready[j] < ready[k]
      invariant forall k :: 0 <= k < i ==> (k in ready <==> Ready(berries[k], currentTime))
    {
      if Ready(berries[i], currentTime) {
        ready := ready + [i];
      }
    }
  }

  /** A tree as isNearTree sees it: its world position and its height. */
  datatype TreeSite = TreeSite(pos: Vec3, height: real)

  /** Within horizontal distance 2 of the tree (compared on squares) and not
      above its top. */
  predicate NearTree(t: TreeSite, p: Vec3) {
    HorizontalSquaredDistance(p, t.pos) < 4.0 && p.y <= t.height
  }

  /** isNearTree: true if and only if the position is near some tree. */
  method IsNearTree(trees: seq<TreeSite>, position: Vec3) returns (near: bool)
    ensures near <==> exists i :: 0 <= i < |trees| && NearTree(trees[i], position)
  {
    for i := 0 to |trees|
      invariant forall k :: 0 <= k < i ==> !NearTree(trees[k], position)
    {
      if HorizontalSquaredDistance(position, trees[i].pos) < 4.0 && position.y <= trees[i].height {
        return true;
      }
    }
    return false;
  }

  /** A node of a tree's scene graph, with what updateDebugVisibility reads
      (`collected` is false on nodes that are not berries). */
  datatype SceneNode = SceneNode(isMesh: bool, isDebugSphere: bool, collected: bool, visible: bool)

  predicate IsDebugSphere(n: SceneNode) {
    n.isMesh && n.isDebugSphere
  }

  predicate IsBerry(n: SceneNode) {
    n.isMesh && !n.isDebugSphere
  }

  /** The index of the first child that is a mesh and not a debug sphere:
      the `find` over the parent's children. */
  function FirstBerry(siblings: seq<SceneNode>): (r: Option<nat>)
    ensures r.Some? ==> r.value < |siblings| && IsBerry(siblings[r.value])
    ensures r.Some? ==> forall k :: 0 <= k < r.value ==> !IsBerry(siblings[k])
    ensures r.None? ==> forall k :: 0 <= k < |siblings| ==> !IsBerry(siblings[k])
  {
    if siblings == [] then None
    else if IsBerry(siblings[0]) then Some(0)
    else match FirstBerry(siblings[1..])
      case None => None
      case Some(k) => Some(k + 1)
  }

  /** `isDebugMode && !!berry && !berry.userData.collected`. */
  predicate ShowSphere(siblings: seq<SceneNode>, debug: bool) {
    debug && FirstBerry(siblings).Some? && !siblings[FirstBerry(siblings).value].collected
  }

  /** A group of siblings after updateDebugVisibility: each debug sphere's
      visibility is ShowSphere of its siblings; nothing else changes. */
  function Refreshed(siblings: seq<SceneNode>, debug: bool): (r: seq<SceneNode>)
    ensures |r| == |siblings|
  {
    seq(|siblings|, k requires 0 <= k < |siblings| =>
      if IsDebugSphere(siblings[k]) then siblings[k].(visible := ShowSphere(siblings, debug)) else siblings[k])
  }

  /** Refreshing changes only the visibility of debug spheres, so the berry
      the spheres look up is the same afterwards. */
  lemma FirstBerryUnchanged(siblings: seq<SceneNode>, debug: bool)
    ensures FirstBerry(Refreshed(siblings, debug)) == FirstBerry(siblings)
  {
    FirstBerryAgree(siblings, Refreshed(siblings, debug));
  }

  lemma {:induction false} FirstBerryAgree(s: seq<SceneNode>, t: seq<SceneNode>)
    requires |s| == |t|
    requires forall k :: 0 <= k < |s| ==> IsBerry(s[k]) == IsBerry(t[k])
    ensures FirstBerry(s) == FirstBerry(t)
  {
    if s != [] && !IsBerry(s[0]) {
      FirstBerryAgree(s[1..], t[1..]);
    }
  }

  /** A debug sphere is shown if and only if debug mode is on, one of its
      siblings is a berry mesh and the first such sibling is not collected;
      every node that is not a debug sphere is left as it was; refreshing
      twice is refreshing once. */
  lemma RefreshedOutcome(siblings: seq<SceneNode>, debug: bool, k: nat)
    requires k < |siblings|
    ensures var r := Refreshed(siblings, debug);
      && (IsDebugSphere(siblings[k]) ==>
            (r[k].visible <==> debug && (exists j :: 0 <= j < |siblings| && IsBerry(siblings[j]))
                               && !siblings[FirstBerry(siblings).value].collected))
      && (!IsDebugSphere(siblings[k]) ==> r[k] == siblings[k])
      && Refreshed(r, debug) == r
  {
    var r := Refreshed(siblings, debug);
    FirstBerryUnchanged(siblings, debug);
    if FirstBerry(siblings).Some? {
      assert r[FirstBerry(siblings).value] == siblings[FirstBerry(siblings).value];
    }
    assert ShowSphere(r, debug) == ShowSphere(siblings, debug);
  }

  /** The walk over one parent's children. */
  method RefreshGroup(siblings: seq<SceneNode>, debug: bool) returns (r: seq<SceneNode>)
    ensures r == Refreshed(siblings, debug)
  {
    var show := false;
    var berry := FindBerry(siblings);
    if berry.Some? {
      show := debug && !siblings[berry.value].collected;
    }
    r := [];
    for k := 0 to |siblings|
      invariant r == Refreshed(siblings, debug)[..k]
    {
      var n := siblings[k];
      if n.isMesh && n.isDebugSphere {
        n := n.(visible := show);
      }
      r := r + [n];
    }
  }

  /** `parent.children.find(child => child is a mesh && !isDebugSphere)`. */
  method FindBerry(siblings: seq<SceneNode>) returns (r: Option<nat>)
    ensures r == FirstBerry(siblings)
  {
    for k := 0 to |siblings|
      invariant forall j :: 0 <= j < k ==> !IsBerry(siblings[j])
    {
      if siblings[k].isMesh && !siblings[k].isDebugSphere {
        FirstBerryAt(siblings, k);
        return Some(k);
      }
    }
    FirstBerryNone(siblings);
    return None;
  }

  lemma {:induction false} FirstBerryAt(siblings: seq<SceneNode>, k: nat)
    requires k < |siblings| && IsBerry(siblings[k])
    requires forall j :: 0 <= j < k ==> !IsBerry(siblings[j])
    ensures FirstBerry(siblings) == Some(k)
  {
    if k > 0 {
      FirstBerryAt(siblings[1..], k - 1);
    }
  }

  lemma FirstBerryNone(siblings: seq<SceneNode>)
    requires forall j :: 0 <= j < |siblings| ==> !IsBerry(siblings[j])
    ensures FirstBerry(siblings) == None
  {
  }

  /** updateDebugVisibility over every tree: `groups` holds the children of
      every parent node of every tree, one entry per parent. */
  method UpdateDebugVisibility(groups: array<seq<SceneNode>>, debug: bool)
    modifies groups
    ensures forall g :: 0 <= g < groups.Length ==> groups[g] == Refreshed(old(groups[g]), debug)
  {
    for g := 0 to groups.Length
      invariant forall h :: 0 <= h < g ==> groups[h] == Refreshed(old(groups[h]), debug)
      invariant forall h :: g <= h < groups.Length ==> groups[h] == old(groups[h])
    {
      groups[g] := RefreshGroup(groups[g], debug);
    }
  }
}
