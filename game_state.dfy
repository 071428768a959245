/** The game-state store of the server: the player records, which the
    handlers update in place and may hold on to, and the chunk cache. */
module GameState {
  import opened Wrappers
  import opened ServerTypes
  import opened ChunkGen
  import opened StoreSpec

  /** A player record; handlers that captured the object see every later
      update made through the store, for as long as the store holds it. */
  class Player {
    const id: string
    var position: Vector3
    var velocity: Vector3
    var state: Movement
    var vitality: real
    var score: nat
    var babies: nat
    var loadedChunks: seq<string>

    function Snapshot(): PlayerState
      reads this
    {
      PlayerState(id, position, velocity, state, vitality, score, babies, loadedChunks)
    }

    /** The body of updatePlayerState once the record is found: the fields
        change step by step, in the order of the source. */
    method ApplyUpdate(newPosition: Vector3, newVelocity: Vector3, newState: Movement)
      modifies this
      ensures Snapshot() == AfterUpdate(old(Snapshot()), newPosition, newVelocity, newState)
    {
      position := newPosition;
      velocity := newVelocity;
      state := newState;
      if newState == Gliding {
        score := score + 1;
      }
      vitality := if vitality - VitalityDecay >= 0.0 then vitality - VitalityDecay else 0.0;
      if newPosition.y <= 0.0 && babies > 0 {
        babies := babies - 1;
      }
      if vitality <= 0.0 && babies == 0 {
        position := SpawnPosition;
        velocity := Zero;
        vitality := MaxVitality;
      }
    }

    /** A collected berry restores vitality, capped at the maximum. */
    method Eat()
      modifies this
      ensures Snapshot() == old(Snapshot()).(vitality := MinReal(MaxVitality, old(vitality) + BerryVitality))
    {
      vitality := MinReal(MaxVitality, vitality + BerryVitality);
    }

    /** A successful kiss adds one baby. */
    method AddBaby()
      modifies this
      ensures Snapshot() == old(Snapshot()).(babies := old(babies) + 1)
    {
      babies := babies + 1;
    }

    /** Chunk ids appended to the loaded list. */
    method AppendLoaded(ids: seq<string>)
      modifies this
      ensures Snapshot() == old(Snapshot()).(loadedChunks := old(loadedChunks) + ids)
    {
      loadedChunks := loadedChunks + ids;
    }

    /** The initial record addPlayer creates. */
    constructor (id: string)
      ensures Snapshot() == Spawn(id)
    {
      this.id := id;
      position := SpawnPosition;
      velocity := Zero;
      state := Idle;
      vitality := MaxVitality;
      score := 0;
      babies := 0;
      loadedChunks := [];
    }
  }

  /** The ids of a list of records. */
  function IdsOf(ps: seq<Player>): set<string> {
    set i | 0 <= i < |ps| :: ps[i].id
  }

  lemma IdsOfAppend(ps: seq<Player>, p: Player)
    ensures IdsOf(ps + [p]) == IdsOf(ps) + {p.id}
  {
    var qs := ps + [p];
    forall x
      ensures x in IdsOf(qs) <==> x in IdsOf(ps) + {p.id}
    {
      if x in IdsOf(ps) {
        var j :| 0 <= j < |ps| && ps[j].id == x;
        assert qs[j] == ps[j];
      }
      if x == p.id {
        assert qs[|ps|].id == x;
      }
      if x in IdsOf(qs) {
        var j :| 0 <= j < |qs| && qs[j].id == x;
        if j < |ps| {
          assert ps[j].id == x;
        }
      }
    }
  }

  /** One step of filtering records by membership of their ids in a set. */
  lemma FilterStep(ps: seq<Player>, p: Player, wanted: set<string>, rest: set<string>, keep: bool)
    requires IdsOf(ps) == wanted - rest && p.id in rest && (keep <==> p.id in wanted)
    ensures IdsOf(if keep then ps + [p] else ps) == wanted - (rest - {p.id})
  {
    if keep {
      IdsOfAppend(ps, p);
    }
  }

  /** The loop of getChunksForPlayer: for each non-negative base, the cached
      chunk or a newly generated one, which is then cached. */
  method LoadInto(chunks: map<string, Chunk>, needed: seq<int>, draws: seq<ChunkDraw>)
    returns (cs: seq<Chunk>, cache: map<string, Chunk>)
    requires |draws| == |needed| && DrawsOk(draws)
    ensures (cs, cache) == LoadChunks(chunks, needed, draws)
  {
    cs := [];
    cache := chunks;
    var i := 0;
    LoadChunksFromSuffix(cache, needed, draws, 0);
    assert needed[0..] == needed && draws[0..] == draws;
    while i < |needed|
      invariant 0 <= i <= |needed|
      invariant LoadChunks(chunks, needed, draws).0 == cs + LoadChunksFrom(cache, needed, draws, i).0
      invariant LoadChunks(chunks, needed, draws).1 == LoadChunksFrom(cache, needed, draws, i).1
    {
      var baseHeight := needed[i];
      if baseHeight >= 0 {
        var id := ChunkId(baseHeight);
        var chunk;
        if id in cache {
          chunk := cache[id];
          assert cache[id := chunk] == cache;
        } else {
          chunk := GenerateChunk(baseHeight, draws[i]);
          cache := cache[id := chunk];
        }
        cs := cs + [chunk];
      }
      i := i + 1;
    }
    assert cs + [] == cs;
  }

  class Store {
    var players: map<string, Player>
    var chunks: map<string, Chunk>
    /** The stored player records as values. */
    ghost var records: map<string, PlayerState>

    ghost function View(): StoreView
      reads this
    {
      StoreView(records, chunks)
    }

    /** Players are stored under their own ids (so two keys never share a
        record object) and `records` holds their current values. What the
        store keeps true of those values (StoreSpec.StoreValid) is proved of
        the functions each method follows. */
    ghost predicate Valid()
      reads this, players.Values
    {
      && players.Keys == records.Keys
      && (forall k :: k in players ==> players[k].id == k && players[k].Snapshot() == records[k])
    }

    constructor ()
      ensures Valid() && View() == StoreView(map[], map[])
    {
      players := map[];
      chunks := map[];
      records := map[];
    }

    /** addPlayer: a new spawn record replaces whatever was stored under the
        id; records already handed out are left as they are. */
    method AddPlayer(id: string) returns (p: Player)
      requires Valid()
      modifies this
      ensures Valid() && fresh(p)
      ensures players == old(players)[id := p]
      ensures View() == StoreView(old(records)[id := Spawn(id)], old(chunks))
    {
      p := new Player(id);
      players := players[id := p];
      records := records[id := p.Snapshot()];
    }

    /** removePlayer: forget the record stored under the id, if any. */
    method RemovePlayer(id: string)
      requires Valid()
      modifies this
      ensures Valid()
      ensures players == old(players) - {id}
      ensures View() == StoreView(old(records) - {id}, old(chunks))
    {
      players := players - {id};
      records := records - {id};
    }

    /** After a record object has changed in place outside the store, the
        stored values follow it when it is the record stored under its id. */
    ghost method Resync(p: Player)
      requires players.Keys == records.Keys
      requires forall k :: k in players ==> players[k].id == k
      requires forall k :: k in players && players[k] != p ==> players[k].Snapshot() == records[k]
      modifies this
      ensures Valid() && players == old(players) && chunks == old(chunks)
      ensures records == if p.id in players && players[p.id] == p then old(records)[p.id := p.Snapshot()] else old(records)
    {
      if p.id in players && players[p.id] == p {
        records := records[p.id := p.Snapshot()];
      }
    }

    /** The record stored under an id, without changing anything. */
    method Lookup(id: string) returns (r: Option<Player>)
      ensures r.Some? <==> id in players
      ensures r.Some? ==> r.value == players[id]
    {
      if id in players {
        r := Some(players[id]);
      } else {
        r := None;
      }
    }

    /** updatePlayerState: the stored record is changed in place as
        AfterUpdate says; an unknown id changes nothing. */
    method UpdatePlayerState(id: string, position: Vector3, velocity: Vector3, state: Movement)
      requires Valid()
      modifies this, players.Values
      ensures Valid() && players == old(players)
      ensures View() == StoreView(UpdatePlayer(old(records), id, position, velocity, state), old(chunks))
    {
      if id !in players {
        return;
      }
      players[id].ApplyUpdate(position, velocity, state);
      records := UpdatePlayer(records, id, position, velocity, state);
    }

    /** getChunksForPlayer: the chunks of the band around the height of the
        position and the bands above and below it, generating (from the
        supplied draws, one per band) and caching the missing ones. */
    method GetChunksForPlayer(position: Vector3, draws: seq<ChunkDraw>) returns (cs: seq<Chunk>)
      requires Valid() && |draws| == 3 && DrawsOk(draws)
      modifies this
      ensures Valid() && players == old(players) && records == old(records)
      ensures (cs, chunks) == LoadChunks(old(chunks), NeededBases(position.y), draws)
    {
      var center := (position.y / ChunkHeight as real).Floor * ChunkHeight;
      var needed := [center - ChunkHeight, center, center + ChunkHeight];
      assert needed == NeededBases(position.y);
      cs, chunks := LoadInto(chunks, needed, draws);
    }

    /** getNearbyPlayers: the other records within view of the player, each
        once; none for an unknown id. */
    method GetNearbyPlayers(id: string) returns (ps: seq<Player>)
      requires Valid()
      ensures IdsOf(ps) == NearbyIds(records, id)
      ensures forall i :: 0 <= i < |ps| ==> ps[i].id in players && players[ps[i].id] == ps[i]
      ensures forall i, j :: 0 <= i < j < |ps| ==> ps[i] != ps[j]
    {
      ps := [];
      if id !in players {
        return;
      }
      var me := players[id];
      var rest := players.Keys;
      ghost var nearby := NearbyIds(records, id);
      while rest != {}
        invariant rest <= players.Keys
        invariant IdsOf(ps) == nearby - rest
        invariant forall i :: 0 <= i < |ps| ==> ps[i].id in players && ps[i].id !in rest && players[ps[i].id] == ps[i]
        invariant forall i, j :: 0 <= i < j < |ps| ==> ps[i] != ps[j]
        decreases |rest|
      {
        var k :| k in rest;
        var other := players[k];
        NearbyMember(records, id, k);
        var keep := other.id != id && WithinView(me.position, other.position);
        FilterStep(ps, other, nearby, rest, keep);
        if keep {
          ps := ps + [other];
        }
        rest := rest - {k};
      }
      assert nearby - rest == nearby;
    }

    /** collectBerry: the store changes as StoreSpec.CollectBerry says; the
        player's record is updated in place. */
    method CollectBerry(playerId: string, chunkId: string, berryId: string) returns (ok: bool)
      requires Valid()
      modifies this, players.Values
      ensures Valid() && players == old(players)
      ensures (ok, View()) == StoreSpec.CollectBerry(old(View()), playerId, chunkId, berryId)
    {
      if chunkId !in chunks {
        return false;
      }
      var chunk := chunks[chunkId];
      var found := FindBerry(chunk.berries, berryId);
      if found.None? || chunk.berries[found.value].collected {
        return false;
      }
      chunks := chunks[chunkId := MarkCollected(chunk, found.value)];
      if playerId in players {
        var p := players[playerId];
        p.Eat();
        records := records[playerId := p.Snapshot()];
        return true;
      }
      return false;
    }

    /** processKiss: the players change as StoreSpec.Kiss says, in place. */
    method ProcessKiss(a: string, b: string) returns (ok: bool)
      requires Valid()
      modifies this, players.Values
      ensures Valid() && players == old(players)
      ensures (ok, View()) == (Kiss(old(records), a, b).0, StoreView(Kiss(old(records), a, b).1, old(chunks)))
    {
      if a !in players || b !in players {
        return false;
      }
      var p1 := players[a];
      var p2 := players[b];
      var dx := p1.position.x - p2.position.x;
      var dy := p1.position.y - p2.position.y;
      var dz := p1.position.z - p2.position.z;
      assert Dist2(records[a].position, records[b].position) == dx * dx + dy * dy + dz * dz;
      if dx * dx + dy * dy + dz * dz > KissDistance * KissDistance {
        return false;
      }
      p1.AddBaby();
      records := records[a := p1.Snapshot()];
      assert Valid();
      p2.AddBaby();
      records := records[b := p2.Snapshot()];
      return true;
    }
  }
}
