/** The rules of the game-state store, stated on values: what each store
    operation does to the players map and the chunk cache. The `Store` class
    in module GameState is proved to follow these functions. */
module StoreSpec {
  import opened Wrappers
  import opened ServerTypes
  import opened ChunkGen

  const SpawnPosition: Vector3 := Vector3(0.0, 10.0, 0.0)
  const MaxVitality: real := 100.0
  const VitalityDecay: real := 0.1
  const BerryVitality: real := 50.0
  const VisibilityRange: real := 60.0
  const HorizontalRange: real := 30.0
  const KissDistance: real := 2.0

  /** Both collections of the store, as values. */
  datatype StoreView = StoreView(players: map<string, PlayerState>, chunks: map<string, Chunk>)

  function Abs(r: real): real {
    if r < 0.0 then -r else r
  }

  function Sq(r: real): real {
    r * r
  }

  function MinReal(a: real, b: real): real {
    if a <= b then a else b
  }

  // ---------------------------------------------------------------- players

  /** The record addPlayer stores: spawn position, at rest, idle, full
      vitality, nothing scored, carried or loaded. */
  function Spawn(id: string): PlayerState {
    PlayerState(id, SpawnPosition, Zero, Idle, MaxVitality, 0, 0, [])
  }

  /** A player is out of the game when vitality is used up and no baby is left. */
  predicate OutOfGame(p: PlayerState) {
    p.vitality <= 0.0 && p.babies == 0
  }

  /** What holds of every stored player between operations. */
  predicate PlayerInvariant(p: PlayerState) {
    VitalityInRange(p) && !OutOfGame(p)
  }

  /** Every player is stored under its own id and keeps the player invariant. */
  predicate PlayersValid(players: map<string, PlayerState>) {
    forall id :: id in players ==> players[id].id == id && PlayerInvariant(players[id])
  }

  predicate StoreValid(v: StoreView) {
    PlayersValid(v.players) && ChunkCacheValid(v.chunks)
  }

  lemma SpawnValid(id: string)
    ensures PlayerInvariant(Spawn(id)) && Spawn(id).id == id
  {}

  /** updatePlayerState on a stored player: take the reported position,
      velocity and state, score a point when gliding, decay vitality, lose a
      baby when on the ground, and respawn when out of the game. */
  function AfterUpdate(p: PlayerState, position: Vector3, velocity: Vector3, state: Movement): (r: PlayerState)
    ensures r.id == p.id && r.state == state && r.loadedChunks == p.loadedChunks
    ensures r.score == p.score + 1 <==> state == Gliding
    ensures r.score == p.score <==> state != Gliding
    ensures r.babies + 1 == p.babies <==> position.y <= 0.0 && p.babies > 0
    ensures r.babies == p.babies <==> !(position.y <= 0.0 && p.babies > 0)
    ensures VitalityInRange(p) ==> PlayerInvariant(r)
    ensures p.vitality - VitalityDecay <= 0.0 && r.babies == 0 ==>
              r.position == SpawnPosition && r.velocity == Zero && r.vitality == MaxVitality
    ensures !(p.vitality - VitalityDecay <= 0.0 && r.babies == 0) ==>
              r.position == position && r.velocity == velocity
              && (r.vitality == p.vitality - VitalityDecay || (r.vitality == 0.0 && p.vitality < VitalityDecay))
  {
    Respawned(Grounded(Decayed(Scored(p.(position := position, velocity := velocity, state := state)))))
  }

  // The steps of updatePlayerState, in the order the source takes them.

  function Scored(p: PlayerState): PlayerState {
    if p.state == Gliding then p.(score := p.score + 1) else p
  }

  /** Math.max(0, vitality - 0.1) */
  function Decayed(p: PlayerState): PlayerState {
    p.(vitality := if p.vitality - VitalityDecay >= 0.0 then p.vitality - VitalityDecay else 0.0)
  }

  function Grounded(p: PlayerState): PlayerState {
    if p.position.y <= 0.0 && p.babies > 0 then p.(babies := p.babies - 1) else p
  }

  function Respawned(p: PlayerState): PlayerState {
    if OutOfGame(p) then p.(position := SpawnPosition, velocity := Zero, vitality := MaxVitality) else p
  }

  /** updatePlayerState on the players map: an unknown id changes nothing. */
  function UpdatePlayer(players: map<string, PlayerState>, id: string,
                        position: Vector3, velocity: Vector3, state: Movement): map<string, PlayerState>
  {
    if id in players then players[id := AfterUpdate(players[id], position, velocity, state)] else players
  }

  /** Updates keep every player valid and touch no other player; the
      score never decreases. */
  lemma UpdatePreservesPlayers(players: map<string, PlayerState>, id: string,
                               position: Vector3, velocity: Vector3, state: Movement)
    requires PlayersValid(players)
    ensures var r := UpdatePlayer(players, id, position, velocity, state);
      && PlayersValid(r) && r.Keys == players.Keys
      && (forall k :: k in players && k != id ==> r[k] == players[k])
      && (forall k :: k in players ==> r[k].score >= players[k].score)
  {
    if id in players {
      var p := players[id];
      assert PlayerInvariant(AfterUpdate(p, position, velocity, state));
    }
  }

  // ------------------------------------------------------------ visibility

  predicate WithinView(a: Vector3, b: Vector3) {
    Abs(a.y - b.y) < VisibilityRange && Sq(a.x - b.x) + Sq(a.z - b.z) < Sq(HorizontalRange)
  }

  /** getNearbyPlayers(id): the ids of the other players within 60 units
      vertically and (by the square of the distance) 30 units horizontally;
      nothing for an unknown id. */
  function NearbyIds(players: map<string, PlayerState>, id: string): set<string> {
    if id !in players then {}
    else set k | k in players && players[k].id != id && WithinView(players[id].position, players[k].position)
  }

  /** One player's membership in another's view. */
  lemma NearbyMember(players: map<string, PlayerState>, id: string, k: string)
    requires id in players && k in players
    ensures k in NearbyIds(players, id) <==>
              players[k].id != id && WithinView(players[id].position, players[k].position)
  {}

  /** The queried player never sees itself, an unknown player sees nobody,
      and visibility is mutual. */
  lemma NearbyProperties(players: map<string, PlayerState>, a: string, b: string)
    requires forall k :: k in players ==> players[k].id == k
    ensures a !in NearbyIds(players, a)
    ensures a !in players ==> NearbyIds(players, a) == {}
    ensures NearbyIds(players, a) <= players.Keys
    ensures b in NearbyIds(players, a) <==>
              a in players && b in players && a != b && WithinView(players[a].position, players[b].position)
    ensures b in NearbyIds(players, a) <==> a in NearbyIds(players, b)
  {
    if a in players && b in players {
      var pa, pb := players[a].position, players[b].position;
      assert Abs(pa.y - pb.y) == Abs(pb.y - pa.y);
      assert Sq(pa.x - pb.x) == Sq(pb.x - pa.x);
      assert Sq(pa.z - pb.z) == Sq(pb.z - pa.z);
    }
  }

  // ---------------------------------------------------------------- chunks

  /** floor(y / CHUNK_HEIGHT) * CHUNK_HEIGHT */
  function CenterBase(y: real): int {
    (y / ChunkHeight as real).Floor * ChunkHeight
  }

  /** The bands below, at and above the player's band, in that order. */
  function NeededBases(y: real): seq<int> {
    var c := CenterBase(y);
    [c - ChunkHeight, c, c + ChunkHeight]
  }

  /** The bases that are not below ground, in their order. */
  function NonNegative(bases: seq<int>): (r: seq<nat>)
    ensures forall b :: b in r <==> b in bases && b >= 0
    ensures |r| <= |bases|
  {
    if bases == [] then []
    else if bases[0] < 0 then NonNegative(bases[1..])
    else [bases[0] as nat] + NonNegative(bases[1..])
  }

  /** The centre band is the multiple of 20 at or below y. */
  lemma CenterBaseBounds(y: real)
    ensures var c := CenterBase(y);
      c % ChunkHeight == 0 && c as real <= y < (c + ChunkHeight) as real
  {
    var f := (y / 20.0).Floor;
    assert f as real <= y / 20.0 < f as real + 1.0;
    assert CenterBase(y) == f * 20;
  }

  /** The bands kept around a centre band c, by the value of c. */
  lemma {:induction false} BandsAround(c: int)
    requires c % ChunkHeight == 0
    ensures var bs := NonNegative([c - ChunkHeight, c, c + ChunkHeight]);
      && (c >= 20 ==> bs == [c - 20, c, c + 20])
      && (c == 0 ==> bs == [0, 20])
      && (c == -20 ==> bs == [0])
      && (c < -20 ==> bs == [])
  {
    var n := [c - ChunkHeight, c, c + ChunkHeight];
    var n1 := n[1..];
    var n2 := n1[1..];
    assert n2[1..] == [];
    assert NonNegative(n2) == if c + 20 >= 0 then [c + 20] else [];
    assert NonNegative(n1) == (if c >= 0 then [c] else []) + NonNegative(n2);
    assert NonNegative(n) == (if c - 20 >= 0 then [c - 20] else []) + NonNegative(n1);
  }

  /** Which bands come back for height y: 3 chunks from y >= 20, 2 for
      0 <= y < 20, 1 for -20 <= y < 0, none below; always consecutive bands
      in increasing order, the last one the band above the player's. */
  lemma BandsOfHeight(y: real)
    ensures var c := CenterBase(y);
      && c % ChunkHeight == 0 && c as real <= y < (c + ChunkHeight) as real
    ensures var bs := NonNegative(NeededBases(y));
      && (|bs| == 3 <==> y >= 20.0)
      && (|bs| == 2 <==> 0.0 <= y < 20.0)
      && (|bs| == 1 <==> -20.0 <= y < 0.0)
      && (|bs| == 0 <==> y < -20.0)
      && (forall i :: 0 <= i < |bs| ==> bs[i] % ChunkHeight == 0)
      && (forall i :: 0 < i < |bs| ==> bs[i] == bs[i - 1] + ChunkHeight)
      && (|bs| > 0 ==> bs[|bs| - 1] == CenterBase(y) + ChunkHeight)
  {
    var c := CenterBase(y);
    CenterBaseBounds(y);
    BandsAround(c);
    if c >= 20 {
    } else if c == 0 {
    } else if c == -20 {
    } else {
      assert c <= -40;
    }
  }

  /** getChunksForPlayer's loop over the needed bases: each base below
      ground is skipped; otherwise the cached chunk `chunk-<base>` is taken,
      or generated from the base's draw and cached. */
  function LoadChunks(cache: map<string, Chunk>, bases: seq<int>, draws: seq<ChunkDraw>): (r: (seq<Chunk>, map<string, Chunk>))
    requires |draws| == |bases| && forall i :: 0 <= i < |draws| ==> ChunkDrawOk(draws[i])
    decreases |bases|
  {
    if bases == [] then ([], cache)
    else if bases[0] < 0 then LoadChunks(cache, bases[1..], draws[1..])
    else
      var c := CachedOrNew(cache, bases[0], draws[0]);
      var rest := LoadChunks(cache[ChunkId(bases[0]) := c], bases[1..], draws[1..]);
      ([c] + rest.0, rest.1)
  }

  /** The chunk cached under `chunk-<base>`, or a chunk generated for the
      base from the draw when none is cached. */
  function CachedOrNew(cache: map<string, Chunk>, base: nat, d: ChunkDraw): (c: Chunk)
    requires ChunkDrawOk(d)
    ensures ChunkId(base) in cache ==> c == cache[ChunkId(base)]
    ensures ChunkId(base) !in cache ==> c.id == ChunkId(base)
  {
    if ChunkId(base) in cache then cache[ChunkId(base)] else GenerateChunk(base, d)
  }

  /** One step of LoadChunks. */
  lemma LoadChunksStep(cache: map<string, Chunk>, bases: seq<int>, draws: seq<ChunkDraw>)
    requires |draws| == |bases| && DrawsOk(draws) && bases != []
    ensures bases[0] < 0 ==> LoadChunks(cache, bases, draws) == LoadChunks(cache, bases[1..], draws[1..])
    ensures bases[0] >= 0 ==>
              var c := CachedOrNew(cache, bases[0], draws[0]);
              var rest := LoadChunks(cache[ChunkId(bases[0]) := c], bases[1..], draws[1..]);
              LoadChunks(cache, bases, draws) == ([c] + rest.0, rest.1)
  {}

  /** LoadChunks on the bases from index `i` on, by position rather than by
      suffix. */
  function LoadChunksFrom(cache: map<string, Chunk>, bases: seq<int>, draws: seq<ChunkDraw>, i: nat): (r: (seq<Chunk>, map<string, Chunk>))
    requires |draws| == |bases| && i <= |bases| && DrawsOk(draws)
    decreases |bases| - i
  {
    if i == |bases| then ([], cache)
    else if bases[i] < 0 then LoadChunksFrom(cache, bases, draws, i + 1)
    else
      var c := CachedOrNew(cache, bases[i], draws[i]);
      var rest := LoadChunksFrom(cache[ChunkId(bases[i]) := c], bases, draws, i + 1);
      ([c] + rest.0, rest.1)
  }

  /** One step of LoadChunksFrom. */
  lemma LoadChunksFromStep(cache: map<string, Chunk>, bases: seq<int>, draws: seq<ChunkDraw>, i: nat)
    requires |draws| == |bases| && i < |bases| && DrawsOk(draws)
    ensures bases[i] < 0 ==> LoadChunksFrom(cache, bases, draws, i) == LoadChunksFrom(cache, bases, draws, i + 1)
    ensures bases[i] >= 0 ==>
              var c := CachedOrNew(cache, bases[i], draws[i]);
              var rest := LoadChunksFrom(cache[ChunkId(bases[i]) := c], bases, draws, i + 1);
              LoadChunksFrom(cache, bases, draws, i) == ([c] + rest.0, rest.1)
  {}

  /** Walking by index from `i` is loading the suffix from `i`. */
  lemma {:induction false} LoadChunksFromSuffix(cache: map<string, Chunk>, bases: seq<int>, draws: seq<ChunkDraw>, i: nat)
    requires |draws| == |bases| && i <= |bases| && DrawsOk(draws)
    ensures LoadChunksFrom(cache, bases, draws, i) == LoadChunks(cache, bases[i..], draws[i..])
    decreases |bases| - i
  {
    if i < |bases| {
      assert bases[i..][1..] == bases[i + 1..] && draws[i..][1..] == draws[i + 1..];
      if bases[i] < 0 {
        LoadChunksFromSuffix(cache, bases, draws, i + 1);
      } else {
        var c := CachedOrNew(cache, bases[i], draws[i]);
        LoadChunksFromSuffix(cache[ChunkId(bases[i]) := c], bases, draws, i + 1);
      }
    }
  }

  predicate DrawsOk(draws: seq<ChunkDraw>) {
    forall i :: 0 <= i < |draws| ==> ChunkDrawOk(draws[i])
  }

  /** The cache only grows: every cached chunk stays, unchanged, and the new
      keys are exactly the ids of the non-negative bases. */
  lemma {:induction false} LoadChunksGrowsCache(cache: map<string, Chunk>, bases: seq<int>, draws: seq<ChunkDraw>)
    requires |draws| == |bases| && DrawsOk(draws)
    ensures var r := LoadChunks(cache, bases, draws);
      && (forall k :: k in cache ==> k in r.1 && r.1[k] == cache[k])
      && r.1.Keys == cache.Keys + set b | b in NonNegative(bases) :: ChunkId(b)
    decreases |bases|
  {
    if bases == [] {
    } else if bases[0] < 0 {
      LoadChunksGrowsCache(cache, bases[1..], draws[1..]);
      assert NonNegative(bases) == NonNegative(bases[1..]);
    } else {
      var id := ChunkId(bases[0]);
      var c := CachedOrNew(cache, bases[0], draws[0]);
      LoadChunksGrowsCache(cache[id := c], bases[1..], draws[1..]);
      assert NonNegative(bases) == [bases[0] as nat] + NonNegative(bases[1..]);
    }
  }

  /** Every cached chunk is stored under its own id. */
  predicate CacheKeyed(cache: map<string, Chunk>) {
    forall k :: k in cache ==> cache[k].id == k
  }

  /** What comes back: one chunk per non-negative base, in order, each with
      id `chunk-<base>` and stored under that id; a chunk already cached is
      returned exactly as stored. */
  lemma LoadChunksReturns(cache: map<string, Chunk>, bases: seq<int>, draws: seq<ChunkDraw>)
    requires |draws| == |bases| && DrawsOk(draws)
    requires CacheKeyed(cache)
    ensures var r := LoadChunks(cache, bases, draws); var nb := NonNegative(bases);
      && |r.0| == |nb|
      && (forall i :: 0 <= i < |nb| ==> r.0[i].id == ChunkId(nb[i]))
      && (forall i :: 0 <= i < |nb| ==> ChunkId(nb[i]) in r.1 && r.1[ChunkId(nb[i])] == r.0[i])
      && (forall i :: 0 <= i < |nb| && ChunkId(nb[i]) in cache ==> r.0[i] == cache[ChunkId(nb[i])])
  {
    LoadChunksIds(cache, bases, draws);
    LoadChunksStored(cache, bases, draws);
    LoadChunksKeepsCached(cache, bases, draws);
  }

  /** One chunk per non-negative base, in order, with the base's id. */
  lemma {:induction false} LoadChunksIds(cache: map<string, Chunk>, bases: seq<int>, draws: seq<ChunkDraw>)
    requires |draws| == |bases| && DrawsOk(draws)
    requires CacheKeyed(cache)
    ensures var r := LoadChunks(cache, bases, draws); var nb := NonNegative(bases);
      && |r.0| == |nb|
      && (forall i :: 0 <= i < |nb| ==> r.0[i].id == ChunkId(nb[i]))
    decreases |bases|
  {
    if bases == [] {
    } else if bases[0] < 0 {
      LoadChunksIds(cache, bases[1..], draws[1..]);
      assert NonNegative(bases) == NonNegative(bases[1..]);
    } else {
      var id := ChunkId(bases[0]);
      var c := CachedOrNew(cache, bases[0], draws[0]);
      assert c.id == id;
      var cache' := cache[id := c];
      LoadChunksIds(cache', bases[1..], draws[1..]);
      var nb := NonNegative(bases);
      var nb' := NonNegative(bases[1..]);
      var rest := LoadChunks(cache', bases[1..], draws[1..]);
      var r := LoadChunks(cache, bases, draws);
      assert nb == [bases[0] as nat] + nb';
      assert r == ([c] + rest.0, rest.1);
      forall i | 0 < i < |nb|
        ensures r.0[i].id == ChunkId(nb[i])
      {
        assert nb[i] == nb'[i - 1] && r.0[i] == rest.0[i - 1];
      }
    }
  }

  /** No cached chunk is replaced or removed. */
  lemma {:induction false} LoadChunksKeepsCached(cache: map<string, Chunk>, bases: seq<int>, draws: seq<ChunkDraw>)
    requires |draws| == |bases| && DrawsOk(draws)
    ensures var r := LoadChunks(cache, bases, draws);
      forall k :: k in cache ==> k in r.1 && r.1[k] == cache[k]
    decreases |bases|
  {
    if bases == [] {
    } else if bases[0] < 0 {
      LoadChunksKeepsCached(cache, bases[1..], draws[1..]);
    } else {
      var id := ChunkId(bases[0]);
      var c := CachedOrNew(cache, bases[0], draws[0]);
      LoadChunksKeepsCached(cache[id := c], bases[1..], draws[1..]);
    }
  }

  /** Each returned chunk is what the cache holds under its id afterwards. */
  lemma {:induction false} LoadChunksStored(cache: map<string, Chunk>, bases: seq<int>, draws: seq<ChunkDraw>)
    requires |draws| == |bases| && DrawsOk(draws)
    requires CacheKeyed(cache)
    ensures var r := LoadChunks(cache, bases, draws); var nb := NonNegative(bases);
      && |r.0| == |nb|
      && (forall i :: 0 <= i < |nb| ==> ChunkId(nb[i]) in r.1 && r.1[ChunkId(nb[i])] == r.0[i])
    decreases |bases|
  {
    LoadChunksIds(cache, bases, draws);
    if bases == [] {
    } else if bases[0] < 0 {
      LoadChunksStored(cache, bases[1..], draws[1..]);
      assert NonNegative(bases) == NonNegative(bases[1..]);
    } else {
      var id := ChunkId(bases[0]);
      var c := CachedOrNew(cache, bases[0], draws[0]);
      assert c.id == id;
      var cache' := cache[id := c];
      LoadChunksStored(cache', bases[1..], draws[1..]);
      LoadChunksKeepsCached(cache', bases[1..], draws[1..]);
      var nb := NonNegative(bases);
      var nb' := NonNegative(bases[1..]);
      var rest := LoadChunks(cache', bases[1..], draws[1..]);
      var r := LoadChunks(cache, bases, draws);
      assert nb == [bases[0] as nat] + nb';
      assert r == ([c] + rest.0, rest.1);
      forall i | 0 < i < |nb|
        ensures ChunkId(nb[i]) in r.1 && r.1[ChunkId(nb[i])] == r.0[i]
      {
        assert nb[i] == nb'[i - 1] && r.0[i] == rest.0[i - 1];
      }
    }
  }

  /** The chunks returned for one height carry distinct ids, as the bands
      they stand for are distinct. */
  lemma LoadedChunkIdsDistinct(cache: map<string, Chunk>, y: real, draws: seq<ChunkDraw>)
    requires |draws| == 3 && DrawsOk(draws) && CacheKeyed(cache)
    ensures var r := LoadChunks(cache, NeededBases(y), draws).0;
      forall i, j :: 0 <= i < j < |r| ==> r[i].id != r[j].id
  {
    var r := LoadChunks(cache, NeededBases(y), draws).0;
    var nb := NonNegative(NeededBases(y));
    BandsOfHeight(y);
    LoadChunksReturns(cache, NeededBases(y), draws);
    forall i, j | 0 <= i < j < |r|
      ensures r[i].id != r[j].id
    {
      assert nb[i] < nb[j] by {
        if j == i + 2 {
          assert nb[i + 1] == nb[i] + ChunkHeight;
        }
      }
      ChunkIdInjective(nb[i], nb[j]);
    }
  }

  /** Generated and cached chunks keep the cache valid: each stored under its
      own id with the generated structure. */
  lemma {:induction false} LoadChunksKeepsCacheValid(cache: map<string, Chunk>, bases: seq<int>, draws: seq<ChunkDraw>)
    requires |draws| == |bases| && DrawsOk(draws)
    requires ChunkCacheValid(cache)
    ensures ChunkCacheValid(LoadChunks(cache, bases, draws).1)
    decreases |bases|
  {
    if bases == [] {
    } else if bases[0] < 0 {
      LoadChunksKeepsCacheValid(cache, bases[1..], draws[1..]);
    } else {
      var id := ChunkId(bases[0]);
      var c := CachedOrNew(cache, bases[0], draws[0]);
      if id !in cache {
        GeneratedChunkShape(bases[0], draws[0]);
      }
      LoadChunksKeepsCacheValid(cache[id := c], bases[1..], draws[1..]);
    }
  }

  /** A chunk id that was not cached is generated: the cached chunk has the
      generated structure and all its berries uncollected. */
  lemma {:induction false} LoadChunksGeneratesMissing(cache: map<string, Chunk>, bases: seq<int>, draws: seq<ChunkDraw>, id: string)
    requires |draws| == |bases| && DrawsOk(draws)
    requires id !in cache && id in LoadChunks(cache, bases, draws).1
    ensures var c := LoadChunks(cache, bases, draws).1[id];
      && ChunkShape(c) && c.id == id
      && forall i :: 0 <= i < |c.berries| ==> !c.berries[i].collected
    decreases |bases|
  {
    if bases == [] {
    } else if bases[0] < 0 {
      LoadChunksGeneratesMissing(cache, bases[1..], draws[1..], id);
    } else {
      var id0 := ChunkId(bases[0]);
      var c := CachedOrNew(cache, bases[0], draws[0]);
      var cache' := cache[id0 := c];
      if id == id0 {
        GeneratedChunkShape(bases[0], draws[0]);
        LoadChunksGrowsCache(cache', bases[1..], draws[1..]);
      } else {
        LoadChunksGeneratesMissing(cache', bases[1..], draws[1..], id);
      }
    }
  }

  // ---------------------------------------------------------------- berries

  /** chunk.berries.find((b) => b.id === berryId): the index of the first berry
      with that id. */
  function FindBerry(berries: seq<Berry>, id: string): (r: Option<nat>)
    ensures r.Some? ==> r.value < |berries| && berries[r.value].id == id
                        && forall j :: 0 <= j < r.value ==> berries[j].id != id
    ensures r.None? ==> forall j :: 0 <= j < |berries| ==> berries[j].id != id
    decreases |berries|
  {
    if berries == [] then None
    else if berries[0].id == id then Some(0)
    else match FindBerry(berries[1..], id)
      case None => None
      case Some(k) => Some(k + 1)
  }

  /** The berry can be collected: its chunk is cached, the berry is found and
      not yet collected. */
  predicate Collectable(chunks: map<string, Chunk>, chunkId: string, berryId: string) {
    && chunkId in chunks
    && var f := FindBerry(chunks[chunkId].berries, berryId);
       f.Some? && !chunks[chunkId].berries[f.value].collected
  }

  /** The chunk with its berry at index k marked collected. */
  function MarkCollected(c: Chunk, k: nat): Chunk
    requires k < |c.berries|
  {
    c.(berries := c.berries[k := c.berries[k].(collected := true)])
  }

  /** collectBerry(playerId, chunkId, berryId): returns whether the collection
      counted for a present player, with the new store. */
  function CollectBerry(v: StoreView, playerId: string, chunkId: string, berryId: string): (bool, StoreView) {
    if !Collectable(v.chunks, chunkId, berryId) then (false, v)
    else
      var c := v.chunks[chunkId];
      var k := FindBerry(c.berries, berryId).value;
      var chunks := v.chunks[chunkId := MarkCollected(c, k)];
      if playerId in v.players then
        var p := v.players[playerId];
        (true, StoreView(v.players[playerId := p.(vitality := MinReal(MaxVitality, p.vitality + BerryVitality))], chunks))
      else
        (false, v.(chunks := chunks))
  }

  /** The outcomes of collectBerry: nothing changes unless the berry is
      collectable; a collectable berry is consumed even for an absent player;
      `true` exactly when a present player collected it, whose vitality rises
      by 50 up to 100; no other player, chunk or berry changes. */
  lemma CollectBerryOutcome(v: StoreView, playerId: string, chunkId: string, berryId: string)
    ensures var (ok, w) := CollectBerry(v, playerId, chunkId, berryId);
      && (ok <==> Collectable(v.chunks, chunkId, berryId) && playerId in v.players)
      && (!Collectable(v.chunks, chunkId, berryId) ==> w == v)
      && (Collectable(v.chunks, chunkId, berryId) ==>
            && w.chunks.Keys == v.chunks.Keys
            && (forall id :: id in v.chunks && id != chunkId ==> w.chunks[id] == v.chunks[id])
            && !Collectable(w.chunks, chunkId, berryId)
            && w.chunks[chunkId].(berries := v.chunks[chunkId].berries) == v.chunks[chunkId]
            && |w.chunks[chunkId].berries| == |v.chunks[chunkId].berries|
            && (forall j :: 0 <= j < |v.chunks[chunkId].berries| ==>
                  w.chunks[chunkId].berries[j]
                    == v.chunks[chunkId].berries[j].(collected := w.chunks[chunkId].berries[j].collected)
                  && (w.chunks[chunkId].berries[j].collected <==>
                        v.chunks[chunkId].berries[j].collected
                        || j == FindBerry(v.chunks[chunkId].berries, berryId).value)))
      && w.players.Keys == v.players.Keys
      && (forall id :: id in v.players && id != playerId ==> w.players[id] == v.players[id])
      && (ok ==> w.players[playerId] ==
                   v.players[playerId].(vitality := MinReal(MaxVitality, v.players[playerId].vitality + BerryVitality)))
      && (!ok ==> w.players == v.players)
  {
    if Collectable(v.chunks, chunkId, berryId) {
      var c := v.chunks[chunkId];
      var k := FindBerry(c.berries, berryId).value;
      var c' := MarkCollected(c, k);
      FindBerryAfterMark(c.berries, berryId, k);
      assert FindBerry(c'.berries, berryId) == Some(k);
    }
  }

  /** Marking the first berry with an id as collected leaves it the first
      berry with that id. */
  lemma {:induction false} FindBerryAfterMark(berries: seq<Berry>, id: string, k: nat)
    requires FindBerry(berries, id) == Some(k)
    ensures FindBerry(berries[k := berries[k].(collected := true)], id) == Some(k)
    decreases |berries|
  {
    if k > 0 {
      FindBerryAfterMark(berries[1..], id, k - 1);
      assert berries[k := berries[k].(collected := true)][1..] == berries[1..][k - 1 := berries[k].(collected := true)];
    }
  }

  /** A berry cannot be collected twice: right after a collection the same
      request fails, whichever player makes it. */
  lemma CollectTwiceFails(v: StoreView, p1: string, p2: string, chunkId: string, berryId: string)
    requires CollectBerry(v, p1, chunkId, berryId).0
    ensures !CollectBerry(CollectBerry(v, p1, chunkId, berryId).1, p2, chunkId, berryId).0
  {
    CollectBerryOutcome(v, p1, chunkId, berryId);
  }

  /** Collecting keeps the store valid: vitality stays within 0-100 and the
      chunk keeps its structure. */
  lemma CollectPreservesValid(v: StoreView, playerId: string, chunkId: string, berryId: string)
    requires StoreValid(v)
    ensures StoreValid(CollectBerry(v, playerId, chunkId, berryId).1)
  {
    if Collectable(v.chunks, chunkId, berryId) {
      var c := v.chunks[chunkId];
      var k := FindBerry(c.berries, berryId).value;
      MarkCollectedKeepsShape(c, k);
      var chunks := v.chunks[chunkId := MarkCollected(c, k)];
      assert ChunkCacheValid(chunks);
      if playerId in v.players {
        var p := v.players[playerId];
        var p' := p.(vitality := MinReal(MaxVitality, p.vitality + BerryVitality));
        assert PlayerInvariant(p');
        assert PlayersValid(v.players[playerId := p']);
      }
    }
  }

  /** Marking a berry collected keeps the chunk's id and structure. */
  lemma MarkCollectedKeepsShape(c: Chunk, k: nat)
    requires k < |c.berries| && ChunkShape(c)
    ensures MarkCollected(c, k).id == c.id && ChunkShape(MarkCollected(c, k))
  {
    var c' := MarkCollected(c, k);
    assert c'.branches == c.branches;
    assert forall j :: 0 <= j < |c'.berries| ==> c'.berries[j].branchId == c.berries[j].branchId;
    assert OnDistinctBranches(c'.berries, c'.branches);
  }

  // ----------------------------------------------------------------- kisses

  function Dist2(a: Vector3, b: Vector3): real {
    Sq(a.x - b.x) + Sq(a.y - b.y) + Sq(a.z - b.z)
  }

  /** processKiss(a, b): both players must exist and be within 2 units
      (compared by squares); then each gains a baby, one after the other, so
      the same id twice gains two. */
  function Kiss(players: map<string, PlayerState>, a: string, b: string): (bool, map<string, PlayerState>) {
    if a !in players || b !in players then (false, players)
    else if Dist2(players[a].position, players[b].position) > Sq(KissDistance) then (false, players)
    else
      var first := players[a := players[a].(babies := players[a].babies + 1)];
      (true, first[b := first[b].(babies := first[b].babies + 1)])
  }

  /** The outcomes of processKiss: success exactly when both are present and
      close enough; on failure nothing changes; on success only the babies
      counts change, by one each for two players or by two for one player
      kissing itself. */
  lemma KissOutcome(players: map<string, PlayerState>, a: string, b: string)
    ensures var (ok, r) := Kiss(players, a, b);
      && (ok <==> a in players && b in players
                  && Dist2(players[a].position, players[b].position) <= Sq(KissDistance))
      && (!ok ==> r == players)
      && r.Keys == players.Keys
      && (forall k :: k in players && k != a && k != b ==> r[k] == players[k])
      && (ok && a != b ==> r[a] == players[a].(babies := players[a].babies + 1)
                           && r[b] == players[b].(babies := players[b].babies + 1))
      && (ok && a == b ==> r[a] == players[a].(babies := players[a].babies + 2))
  {}

  /** Proximity is mutual, so kissing is symmetric. */
  lemma KissSymmetric(players: map<string, PlayerState>, a: string, b: string)
    ensures Kiss(players, a, b) == Kiss(players, b, a)
  {
    if a in players && b in players {
      var pa, pb := players[a].position, players[b].position;
      assert Sq(pa.x - pb.x) == Sq(pb.x - pa.x);
      assert Sq(pa.y - pb.y) == Sq(pb.y - pa.y);
      assert Sq(pa.z - pb.z) == Sq(pb.z - pa.z);
      if a != b && Dist2(pa, pb) <= Sq(KissDistance) {
        assert Kiss(players, a, b).1 == Kiss(players, b, a).1;
      }
    }
  }

  /** A kiss keeps every player valid: babies only grow. */
  lemma KissPreservesPlayers(players: map<string, PlayerState>, a: string, b: string)
    requires PlayersValid(players)
    ensures PlayersValid(Kiss(players, a, b).1)
  {
    KissOutcome(players, a, b);
  }
}
