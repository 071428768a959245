/** The client's baby-squirrel bookkeeping: a list of babies per player id,
    moved to the new id when the local player's identity changes, and the
    bounded trail of points the local player left behind for the babies to
    follow. */
module Babies {
  import opened Vectors

  /** PATH_MEMORY: the trail keeps at most this many points. */
  const PathMemory: nat := 100
  /** PATH_SPACING: a point is recorded only this far from the previous one. */
  const PathSpacing: real := 0.5

  /** A trail point: position, rotation and whether the player was grounded. */
  datatype PathPoint = PathPoint(pos: Vec3, rot: real, isGrounded: bool)

  /** A baby mesh, known by its uuid. */
  datatype Baby = Baby(uuid: string)

  /** A call the system makes into the scene, the status bar or the audio. */
  datatype Effect =
    | AddedToScene(baby: Baby)
    | RemovedFromScene(baby: Baby)
    | BabyCountShown(count: nat)
    | BabySoundPlayed

  /** `a.distanceTo(b) > PATH_SPACING`, compared on squares: both sides are
      non-negative, so the square root can be left out. */
  predicate FarApart(a: Vec3, b: Vec3) {
    SquaredDistance(a, b) > PathSpacing * PathSpacing
  }

  // ---- the map of babies per player ----------------------------------

  /** The number of babies listed for `id`; an id with no entry has none. */
  function Count(m: map<string, seq<Baby>>, id: string): nat {
    if id in m then |m[id]| else 0
  }

  /** getBabies: the map after looking `id` up, with an empty list created
      for an id that had no entry. */
  function WithEntry(m: map<string, seq<Baby>>, id: string): (r: map<string, seq<Baby>>)
    ensures id in r && r.Keys == m.Keys + {id}
  {
    if id in m then m else m[id := []]
  }

  /** A lookup only ever adds an empty list: every list already there is
      kept, and the count of every id is unchanged. */
  lemma WithEntryKeeps(m: map<string, seq<Baby>>, id: string)
    ensures forall k :: k in m ==> WithEntry(m, id)[k] == m[k]
    ensures id !in m ==> WithEntry(m, id)[id] == []
    ensures forall k :: Count(WithEntry(m, id), k) == Count(m, k)
  {
  }

  /** createBabySquirrel's bookkeeping: `baby` is pushed on the list of `id`. */
  function Appended(m: map<string, seq<Baby>>, id: string, baby: Baby): map<string, seq<Baby>> {
    var e := WithEntry(m, id);
    e[id := e[id] + [baby]]
  }

  /** Creating a baby appends exactly that baby to that id's list, after the
      babies it had, and leaves every other id as it was. */
  lemma AppendedOutcome(m: map<string, seq<Baby>>, id: string, baby: Baby)
    ensures var r := Appended(m, id, baby);
      && r.Keys == m.Keys + {id}
      && Count(r, id) == Count(m, id) + 1
      && r[id][..Count(m, id)] == (if id in m then m[id] else [])
      && r[id][Count(m, id)] == baby
      && forall k :: k != id && k in m ==> r[k] == m[k]
  {
  }

  /** The player-identity-changed listener as written: when `oldId` has an
      entry, its list is stored under `newId` and then `oldId` is deleted. */
  function RekeyAsWritten(m: map<string, seq<Baby>>, oldId: string, newId: string): map<string, seq<Baby>> {
    if oldId in m then m[newId := m[oldId]] - {oldId} else m
  }

  /** When the identity "changes" to the same id, the delete that follows
      the store removes the list just stored: the player's babies are lost. */
  lemma RekeyAsWrittenLosesSameId(m: map<string, seq<Baby>>, id: string)
    requires id in m && |m[id]| > 0
    ensures id !in RekeyAsWritten(m, id, id)
    ensures Count(RekeyAsWritten(m, id, id), id) == 0 < Count(m, id)
  {
  }

  /** The identity change as intended: the list moves to the new id, which
      is a no-op when the id did not change. */
  function Rekey(m: map<string, seq<Baby>>, oldId: string, newId: string): map<string, seq<Baby>> {
    if oldId in m && oldId != newId then m[newId := m[oldId]] - {oldId} else m
  }

  /** The new id holds exactly the list the old id held, the old id (when
      different) has no entry any more, an absent or unchanged old id
      changes nothing, and every other id is untouched. */
  lemma RekeyOutcome(m: map<string, seq<Baby>>, oldId: string, newId: string)
    ensures var r := Rekey(m, oldId, newId);
      && (oldId !in m ==> r == m)
      && (oldId == newId ==> r == m)
      && (oldId in m ==> newId in r && r[newId] == m[oldId])
      && (oldId in m && oldId != newId ==> oldId !in r && r.Keys == m.Keys - {oldId} + {newId})
      && forall k :: k != oldId && k != newId && k in m ==> k in r && r[k] == m[k]
  {
  }

  /** The two agree on every real change of identity. */
  lemma RekeyAgreesOnChange(m: map<string, seq<Baby>>, oldId: string, newId: string)
    requires oldId != newId
    ensures Rekey(m, oldId, newId) == RekeyAsWritten(m, oldId, newId)
  {
  }

  // ---- the trail -----------------------------------------------------

  /** The last min(n, |s|) elements of `s`, in order. */
  function LastN<T>(s: seq<T>, n: nat): (r: seq<T>)
    ensures |r| == if |s| < n then |s| else n
  {
    if |s| <= n then s else s[|s| - n..]
  }

  /** push, then shift when over PATH_MEMORY. */
  function Pushed(path: seq<PathPoint>, p: PathPoint): seq<PathPoint> {
    var q := path + [p];
    if |q| > PathMemory then q[1..] else q
  }

  /** Pushing onto the last PATH_MEMORY recorded points gives the last
      PATH_MEMORY points of the longer record: the trail is a FIFO window,
      oldest first, that never holds more than PATH_MEMORY points. */
  lemma PushedKeepsWindow(path: seq<PathPoint>, recorded: seq<PathPoint>, p: PathPoint)
    requires path == LastN(recorded, PathMemory)
    ensures Pushed(path, p) == LastN(recorded + [p], PathMemory)
    ensures |Pushed(path, p)| <= PathMemory
    ensures Pushed(path, p)[|Pushed(path, p)| - 1] == p
  {
    var q := recorded + [p];
    if |recorded| >= PathMemory {
      assert path + [p] == q[|q| - PathMemory - 1..];
    }
  }

  /** Math.max(0, len - 1 - (index + 1) * 3): the trail index baby `index`
      heads for. */
  function PathIndex(len: nat, index: nat): (r: nat)
    ensures len > 0 ==> r < len
    ensures r == 0 || r == len - 1 - 3 * (index + 1)
  {
    if len - 1 - 3 * (index + 1) < 0 then 0 else len - 1 - 3 * (index + 1)
  }

  /** Baby i heads three points further back than baby i - 1, until both
      reach the oldest point: later babies never head for a newer point. */
  lemma PathIndexSpacing(len: nat, index: nat)
    requires len > 0
    ensures PathIndex(len, index + 1) <= PathIndex(len, index)
    ensures PathIndex(len, index + 1) > 0 ==> PathIndex(len, index + 1) == PathIndex(len, index) - 3
    ensures PathIndex(len, index) == 0 <==> len <= 3 * index + 4
  {
  }

  /** `mamaPath[pathIndex] || { pos: origin, rot: 0, isGrounded: true }`. */
  function TargetPoint(path: seq<PathPoint>, index: nat): (p: PathPoint)
    ensures path == [] ==> p == PathPoint(Origin, 0.0, true)
    ensures path != [] ==> p in path
  {
    if path == [] then PathPoint(Origin, 0.0, true) else path[PathIndex(|path|, index)]
  }

  /** The points of a record are each farther than PATH_SPACING from the
      one before, the first one from the origin. */
  predicate Spaced(recorded: seq<PathPoint>) {
    && (|recorded| > 0 ==> FarApart(recorded[0].pos, Origin))
    && forall k :: 0 < k < |recorded| ==> FarApart(recorded[k].pos, recorded[k - 1].pos)
  }

  /** The point the next one is measured from. */
  function LastPoint(recorded: seq<PathPoint>): Vec3 {
    if recorded == [] then Origin else recorded[|recorded| - 1].pos
  }

  /** Recording a point far enough from the last one keeps the record spaced. */
  lemma SpacedExtend(recorded: seq<PathPoint>, p: PathPoint)
    requires Spaced(recorded) && FarApart(p.pos, LastPoint(recorded))
    ensures Spaced(recorded + [p]) && LastPoint(recorded + [p]) == p.pos
  {
  }

  class BabySystem {
    var playerBabies: map<string, seq<Baby>>
    var mamaPath: seq<PathPoint>
    var lastPathPoint: Vec3
    /** Every point ever recorded, oldest first. */
    ghost var recorded: seq<PathPoint>

    ghost predicate Valid()
      reads this
    {
      && mamaPath == LastN(recorded, PathMemory)
      && lastPathPoint == LastPoint(recorded)
      && Spaced(recorded)
    }

    /** createBabySystem: no babies, an empty trail, last point at the origin. */
    constructor ()
      ensures Valid() && playerBabies == map[] && mamaPath == [] && recorded == []
    {
      playerBabies := map[];
      mamaPath := [];
      lastPathPoint := Origin;
      recorded := [];
    }

    /** getBabies (and getBabiesForPlayer, which is the same call). */
    method GetBabies(id: string) returns (babies: seq<Baby>)
      modifies this
      ensures playerBabies == WithEntry(old(playerBabies), id)
      ensures babies == playerBabies[id]
      ensures babies == if id in old(playerBabies) then old(playerBabies)[id] else []
      ensures unchanged(this`mamaPath) && unchanged(this`lastPathPoint) && recorded == old(recorded)
    {
      if id !in playerBabies {
        playerBabies := playerBabies[id := []];
      }
      babies := playerBabies[id];
    }

    /** The player-identity-changed listener, as written. */
    method OnIdentityChanged(oldId: string, newId: string)
      modifies this
      ensures playerBabies == RekeyAsWritten(old(playerBabies), oldId, newId)
      ensures unchanged(this`mamaPath) && unchanged(this`lastPathPoint) && recorded == old(recorded)
    {
      if oldId in playerBabies {
        var babies := GetBabies(oldId);
        playerBabies := playerBabies[newId := babies];
        playerBabies := playerBabies - {oldId};
      }
    }

    /** The listener with the same-id case left alone. */
    method OnIdentityChangedFixed(oldId: string, newId: string)
      modifies this
      ensures playerBabies == Rekey(old(playerBabies), oldId, newId)
      ensures unchanged(this`mamaPath) && unchanged(this`lastPathPoint) && recorded == old(recorded)
    {
      if oldId in playerBabies && oldId != newId {
        var babies := GetBabies(oldId);
        playerBabies := playerBabies[newId := babies];
        playerBabies := playerBabies - {oldId};
      }
    }

    /** createBabySquirrel: `baby` is the mesh `createPlayerMesh` made (its
        random placement is left out); it goes into the scene and onto the
        list of `id`, and for the local player the count is shown and the
        baby sound plays. */
    method CreateBabySquirrel(id: string, baby: Baby, localId: string) returns (effects: seq<Effect>)
      modifies this
      ensures playerBabies == Appended(old(playerBabies), id, baby)
      ensures effects == [AddedToScene(baby)] +
        (if id == localId then [BabyCountShown(Count(old(playerBabies), id) + 1), BabySoundPlayed] else [])
      ensures unchanged(this`mamaPath) && unchanged(this`lastPathPoint) && recorded == old(recorded)
    {
      effects := [AddedToScene(baby)];
      var babies := GetBabies(id);
      playerBabies := playerBabies[id := babies + [baby]];
      if id == localId {
        var now := GetBabies(id);
        effects := effects + [BabyCountShown(|now|), BabySoundPlayed];
      }
    }

    /** removeBabiesForPlayer: every baby of `id` leaves the scene, in list
        order, and the entry is deleted. */
    method RemoveBabiesForPlayer(id: string) returns (effects: seq<Effect>)
      modifies this
      ensures playerBabies == old(playerBabies) - {id}
      ensures |effects| == Count(old(playerBabies), id)
      ensures forall k :: 0 <= k < |effects| ==> effects[k] == RemovedFromScene(old(playerBabies)[id][k])
      ensures unchanged(this`mamaPath) && unchanged(this`lastPathPoint) && recorded == old(recorded)
    {
      var babies := GetBabies(id);
      effects := [];
      for k := 0 to |babies|
        invariant |effects| == k
        invariant forall j :: 0 <= j < k ==> effects[j] == RemovedFromScene(babies[j])
      {
        effects := effects + [RemovedFromScene(babies[k])];
      }
      playerBabies := playerBabies - {id};
    }

    /** getLocalBabyCount: the length of the local list (created empty when
        missing). */
    method GetLocalBabyCount(localId: string) returns (n: nat)
      modifies this
      ensures n == Count(old(playerBabies), localId)
      ensures playerBabies == WithEntry(old(playerBabies), localId)
      ensures unchanged(this`mamaPath) && unchanged(this`lastPathPoint) && recorded == old(recorded)
    {
      var babies := GetBabies(localId);
      n := |babies|;
    }

    /** updateMamaPath: a point is recorded only when it is farther than
        PATH_SPACING from the last recorded one; the trail then keeps the
        last PATH_MEMORY recorded points. */
    method UpdateMamaPath(position: Vec3, rotation: real, isGrounded: bool)
      requires Valid()
      modifies this
      ensures Valid() && unchanged(this`playerBabies)
      ensures FarApart(position, old(lastPathPoint)) ==>
        && recorded == old(recorded) + [PathPoint(position, rotation, isGrounded)]
        && mamaPath == Pushed(old(mamaPath), PathPoint(position, rotation, isGrounded))
        && lastPathPoint == position
      ensures !FarApart(position, old(lastPathPoint)) ==>
        recorded == old(recorded) && unchanged(this`mamaPath) && unchanged(this`lastPathPoint)
      ensures |mamaPath| <= PathMemory
    {
      if FarApart(position, lastPathPoint) {
        var p := PathPoint(position, rotation, isGrounded);
        PushedKeepsWindow(mamaPath, recorded, p);
        SpacedExtend(recorded, p);
        mamaPath := mamaPath + [p];
        if |mamaPath| > PathMemory {
          mamaPath := mamaPath[1..];
        }
        lastPathPoint := position;
        recorded := recorded + [p];
      }
    }
  }
}
