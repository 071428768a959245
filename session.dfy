/** The state logic of the game server's socket handlers: one `Session` per
    connected socket, sharing one store. Each handler returns the events it
    emits, in order, instead of sending them. */
module Session {
  import opened Wrappers
  import opened ServerTypes
  import opened ChunkGen
  import opened StoreSpec
  import opened GameState
  import opened SessionSpec

  /** The updatePosition payload; any field may be missing. */
  datatype PositionPayload = PositionPayload(position: Option<Vector3>, velocity: Option<Vector3>, state: Option<Movement>)

  /** The connection handler: addPlayer for the socket, the welcome, the new
      record, the chunks around the spawn point, and the join message to
      everybody else. The record created here is the one the session keeps;
      the chunks sent here are not recorded in its loadedChunks. */
  method Connect(store: Store, socketId: string, draws: seq<ChunkDraw>) returns (s: Session, out: seq<Emit>)
    requires store.Valid() && |draws| == 3 && DrawsOk(draws)
    modifies store
    ensures s.Valid() && s.store == store && s.socketId == socketId && s.Current()
    ensures var (cs, cache) := LoadChunks(old(store.chunks), NeededBases(SpawnPosition.y), draws);
      && store.View() == StoreView(old(store.records)[socketId := Spawn(socketId)], cache)
      && out == [Emit(ToSelf, Message(WelcomeText)),
                 Emit(ToSelf, PlayerJoined(socketId, SpawnPosition, MaxVitality, 0, 0)),
                 Emit(ToSelf, ChunkData(cs)),
                 Emit(Others, Message(JoinedText))]
  {
    var player := store.AddPlayer(socketId);
    assert store.players[socketId].id == socketId;
    s := new Session(store, socketId, player);
    out := [Emit(ToSelf, Message(WelcomeText)),
            Emit(ToSelf, PlayerJoined(player.id, player.position, player.vitality, player.score, player.babies))];
    var initial := store.GetChunksForPlayer(player.position, draws);
    out := out + [Emit(ToSelf, ChunkData(initial)), Emit(Others, Message(JoinedText))];
  }

  class Session {
    const socketId: string
    const store: Store
    /** The record addPlayer returned at connection time; the handlers keep
        reading and writing it even after the store has replaced it. */
    const player: Player

    ghost predicate Valid()
      reads this, store, store.players.Values, player
    {
      store.Valid() && player.id == socketId
    }

    /** Whether the captured record is still the one the store holds. */
    predicate Current()
      reads this, store
    {
      socketId in store.players && store.players[socketId] == player
    }

    constructor (store: Store, socketId: string, player: Player)
      requires store.Valid() && player.id == socketId
      requires socketId in store.players && store.players[socketId] == player
      ensures Valid() && Current()
      ensures this.store == store && this.socketId == socketId && this.player == player
    {
      this.store := store;
      this.socketId := socketId;
      this.player := player;
    }

    /** The chunk streaming of updatePosition: the returned chunks the
        captured record has not loaded yet are sent in one `chunkData` event,
        if there are any, and their ids appended to its loadedChunks. */
    method SendNewChunks(cs: seq<Chunk>) returns (out: seq<Emit>)
      requires Valid()
      modifies store, player
      ensures Valid() && store.players == old(store.players) && store.chunks == old(store.chunks)
      ensures var unsent := Unsent(cs, old(player.loadedChunks));
        && out == (if unsent == [] then [] else [Emit(ToSelf, ChunkData(unsent))])
        && player.Snapshot() == old(player.Snapshot()).(loadedChunks := old(player.loadedChunks) + ChunkIdsOf(unsent))
        && store.records == if Current() then old(store.records)[socketId := player.Snapshot()] else old(store.records)
      ensures NoDup(old(player.loadedChunks)) && NoDup(ChunkIdsOf(cs)) ==> NoDup(player.loadedChunks)
    {
      var unsent := Unsent(cs, player.loadedChunks);
      if NoDup(player.loadedChunks) && NoDup(ChunkIdsOf(cs)) {
        RecordingSentKeepsNoDup(cs, player.loadedChunks);
      }
      out := [];
      if |unsent| > 0 {
        out := [Emit(ToSelf, ChunkData(unsent))];
        player.AppendLoaded(ChunkIdsOf(unsent));
        store.Resync(player);
      }
    }

    /** The position exchange of updatePosition: the records within view go
        to this socket in one `playerPositions` event, and this player's
        position goes to each of them that is connected; nothing when no one
        is within view. */
    method ExchangePositions(info: PlayerInfo, connected: set<string>) returns (out: seq<Emit>)
      requires Valid()
      ensures PositionsExchanged(out, store.records, socketId, connected, info)
    {
      var ps := store.GetNearbyPlayers(socketId);
      if |ps| == 0 {
        out := [];
        return;
      }
      var infos := [];
      var echoes := [];
      var i := 0;
      while i < |ps|
        invariant 0 <= i <= |ps| && |infos| == i
        invariant forall j :: 0 <= j < i ==> infos[j] == InfoOf(store.records[ps[j].id]) && infos[j].id == ps[j].id
        invariant echoes == Echoes(InfoIds(infos), connected, info)
      {
        var p := ps[i];
        var next := PlayerInfo(p.id, p.position, p.velocity, p.state, p.babies);
        assert InfoIds(infos + [next])[..i] == InfoIds(infos);
        infos := infos + [next];
        if p.id in connected {
          echoes := echoes + [Emit(ToSocket(p.id), PlayerPositions([info]))];
        }
        i := i + 1;
      }
      assert (set j | 0 <= j < |infos| :: infos[j].id) == IdsOf(ps);
      forall j, k | 0 <= j < k < |infos|
        ensures InfoIds(infos)[j] != InfoIds(infos)[k]
      {
        assert ps[j] != ps[k];
      }
      assert ps[0].id in IdsOf(ps);
      out := [Emit(ToSelf, PlayerPositions(infos))] + echoes;
    }

    /** The state changes of updatePosition: the store update, then the
        chunks around the new position, of which the ones the captured record
        has not loaded are sent and recorded. */
    method Advance(pos: Vector3, vel: Vector3, st: Movement, draws: seq<ChunkDraw>) returns (sent: seq<Emit>)
      requires Valid() && |draws| == 3 && DrawsOk(draws)
      modifies store, store.players.Values, player
      ensures Valid() && store.players == old(store.players)
      ensures (player.Snapshot(), store.View())
              == PositionUpdate(old(store.View()), socketId, old(player.Snapshot()), old(Current()), pos, vel, st, draws)
      ensures var unsent := ChunksToSend(old(store.chunks), pos, draws, old(player.loadedChunks));
        sent == if unsent == [] then [] else [Emit(ToSelf, ChunkData(unsent))]
    {
      assert Current() || player !in store.players.Values;
      store.UpdatePlayerState(socketId, pos, vel, st);
      var cs := store.GetChunksForPlayer(pos, draws);
      sent := SendNewChunks(cs);
    }

    /** updatePosition: a payload missing a field is dropped; otherwise the
        store update, the chunk streaming, the position exchange, and the
        vitality and score of the captured record, which are the stored ones
        only while that record is current. */
    method OnUpdatePosition(data: PositionPayload, draws: seq<ChunkDraw>, connected: set<string>)
      returns (out: seq<Emit>, ghost positions: seq<Emit>)
      requires Valid() && |draws| == 3 && DrawsOk(draws)
      modifies store, store.players.Values, player
      ensures Valid() && store.players == old(store.players)
      ensures data.position.None? || data.velocity.None? || data.state.None? ==>
        out == [] && store.View() == old(store.View()) && player.Snapshot() == old(player.Snapshot())
      ensures data.position.Some? && data.velocity.Some? && data.state.Some? ==>
        var pos, vel, st := data.position.value, data.velocity.value, data.state.value;
        var unsent := ChunksToSend(old(store.chunks), pos, draws, old(player.loadedChunks));
        && (player.Snapshot(), store.View())
           == PositionUpdate(old(store.View()), socketId, old(player.Snapshot()), old(Current()), pos, vel, st, draws)
        && out == (if unsent == [] then [] else [Emit(ToSelf, ChunkData(unsent))]) + positions
                  + [Emit(ToSelf, UpdateVitality(socketId, player.vitality)), Emit(ToSelf, UpdateScore(socketId, player.score))]
        && PositionsExchanged(positions, store.records, socketId, connected, PlayerInfo(socketId, pos, vel, st, player.babies))
    {
      if data.position.None? || data.velocity.None? || data.state.None? {
        out, positions := [], [];
        return;
      }
      var pos, vel, st := data.position.value, data.velocity.value, data.state.value;
      var sent := Advance(pos, vel, st, draws);
      var exchanged := ExchangePositions(PlayerInfo(socketId, pos, vel, st, player.babies), connected);
      positions := exchanged;
      out := sent + exchanged
             + [Emit(ToSelf, UpdateVitality(socketId, player.vitality)), Emit(ToSelf, UpdateScore(socketId, player.score))];
    }

    /** collectBerry: a payload without both ids is dropped; otherwise the
        store's collectBerry, and the collection is announced, to this
        socket with the captured record's vitality and to everybody else
        without it, only when the store reported success. */
    method OnCollectBerry(berryId: Option<string>, chunkId: Option<string>) returns (out: seq<Emit>)
      requires Valid()
      modifies store, store.players.Values
      ensures Valid() && store.players == old(store.players)
      ensures !(Present(berryId) && Present(chunkId)) ==> out == [] && store.View() == old(store.View())
      ensures Present(berryId) && Present(chunkId) ==>
        var (ok, v) := StoreSpec.CollectBerry(old(store.View()), socketId, chunkId.value, berryId.value);
        && store.View() == v
        && out == if ok then [Emit(ToSelf, BerryCollected(berryId.value, chunkId.value, socketId, Some(player.vitality))),
                              Emit(Others, BerryCollected(berryId.value, chunkId.value, socketId, None))]
                  else []
      ensures Current() ==> player.Snapshot() == store.records[socketId]
      ensures !Current() ==> player.Snapshot() == old(player.Snapshot())
    {
      if !Present(berryId) || !Present(chunkId) {
        return [];
      }
      assert Current() || player !in store.players.Values;
      var ok := store.CollectBerry(socketId, chunkId.value, berryId.value);
      out := [];
      if ok {
        out := [Emit(ToSelf, BerryCollected(berryId.value, chunkId.value, socketId, Some(player.vitality))),
                Emit(Others, BerryCollected(berryId.value, chunkId.value, socketId, None))];
      }
    }

    /** initiateKiss: a payload without a target is dropped; otherwise the
        request goes to the target's socket when it is connected. */
    method OnInitiateKiss(target: Option<string>, connected: set<string>) returns (out: seq<Emit>)
      ensures |out| <= 1
      ensures out != [] <==> Present(target) && target.value in connected
      ensures out != [] ==> out[0] == Emit(ToSocket(target.value), KissRequest(socketId))
    {
      out := [];
      if !Present(target) {
        return;
      }
      if target.value in connected {
        out := [Emit(ToSocket(target.value), KissRequest(socketId))];
      }
    }

    /** acceptKiss as written: after a successful kiss, addPlayer on this id
        and on the partner's (when its socket is connected) replaces both
        records by spawn records, so the totals reported are always 0 and
        the captured record is no longer the stored one. */
    method OnAcceptKiss(from: Option<string>, connected: set<string>) returns (out: seq<Emit>)
      requires Valid()
      modifies store, store.players.Values
      ensures Valid()
      ensures !Present(from) ==> out == [] && store.View() == old(store.View()) && store.players == old(store.players)
      ensures Present(from) ==>
        var ok := Kiss(old(store.records), socketId, from.value).0;
        && store.View() == StoreView(KissThenRefresh(old(store.records), socketId, from.value, from.value in connected), old(store.chunks))
        && out == KissEvents(socketId, from.value, from.value in connected, ok, 0, 0)
        && (ok ==> !Current())
        && (!ok ==> store.players == old(store.players))
    {
      if !Present(from) {
        return [];
      }
      var f := from.value;
      var ok := store.ProcessKiss(socketId, f);
      out := [];
      if ok {
        out := [Emit(ToSelf, KissCompleted(socketId, f))];
        if f in connected {
          out := out + [Emit(ToSocket(f), KissCompleted(f, socketId))];
        }
        var updatedPlayer := store.AddPlayer(socketId);
        assert updatedPlayer.Snapshot() == store.records[socketId] == Spawn(socketId);
        out := out + [Emit(ToSelf, BabyAdded(socketId, updatedPlayer.babies))];
        if f in connected {
          var fromPlayer := store.AddPlayer(f);
          assert fromPlayer.Snapshot() == store.records[f] == Spawn(f);
          out := out + [Emit(ToSocket(f), BabyAdded(f, fromPlayer.babies))];
        }
        assert store.players[socketId] != player;
        out := out + [Emit(Others, KissCompleted(socketId, f))];
      }
    }

    /** acceptKiss reading the records back instead of refreshing them: the
        kiss stays, the totals reported are the counts after the kiss, and
        the captured record stays the stored one. */
    method OnAcceptKissFixed(from: Option<string>, connected: set<string>) returns (out: seq<Emit>)
      requires Valid()
      modifies store, store.players.Values
      ensures Valid() && store.players == old(store.players)
      ensures !Present(from) ==> out == [] && store.View() == old(store.View())
      ensures Present(from) ==>
        var (ok, kissed) := Kiss(old(store.records), socketId, from.value);
        && store.View() == StoreView(kissed, old(store.chunks))
        && (!ok ==> out == [])
        && (ok ==> out == KissEvents(socketId, from.value, from.value in connected, true,
                                     kissed[socketId].babies, kissed[from.value].babies))
    {
      if !Present(from) {
        return [];
      }
      var f := from.value;
      var ok := store.ProcessKiss(socketId, f);
      out := [];
      if ok {
        var me := store.Lookup(socketId);
        var partner := store.Lookup(f);
        out := [Emit(ToSelf, KissCompleted(socketId, f))];
        if f in connected {
          out := out + [Emit(ToSocket(f), KissCompleted(f, socketId))];
        }
        out := out + [Emit(ToSelf, BabyAdded(socketId, me.value.babies))];
        if f in connected {
          out := out + [Emit(ToSocket(f), BabyAdded(f, partner.value.babies))];
        }
        out := out + [Emit(Others, KissCompleted(socketId, f))];
      }
    }

    /** playerGrounded as written: addPlayer first replaces the record by a
        spawn record, so the remaining babies reported are 0 and the game
        over branch is never taken. */
    method OnPlayerGrounded() returns (out: seq<Emit>)
      requires Valid()
      modifies store
      ensures Valid() && !Current()
      ensures store.View() == StoreView(old(store.records)[socketId := Spawn(socketId)], old(store.chunks))
      ensures out == GroundedEvents(socketId, Spawn(socketId))
    {
      var updatedPlayer := store.AddPlayer(socketId);
      var vitality, babies, position := updatedPlayer.vitality, updatedPlayer.babies, updatedPlayer.position;
      out := [Emit(ToSelf, LoseBaby(socketId, babies))];
      if vitality <= 0.0 && babies <= 0 {
        out := out + [Emit(ToSelf, GameOver(socketId)), Emit(ToSelf, Respawn(socketId, position, vitality))];
      }
    }

    /** playerGrounded reading the stored record instead: nothing changes and
        the stored count of babies is reported; nothing for an id the store
        does not hold. */
    method OnPlayerGroundedFixed() returns (out: seq<Emit>)
      requires Valid()
      ensures socketId !in store.records ==> out == []
      ensures socketId in store.records ==> out == GroundedEvents(socketId, store.records[socketId])
    {
      var r := store.Lookup(socketId);
      if r.None? {
        return [];
      }
      var p := r.value;
      out := [Emit(ToSelf, LoseBaby(socketId, p.babies))];
      if p.vitality <= 0.0 && p.babies <= 0 {
        out := out + [Emit(ToSelf, GameOver(socketId)), Emit(ToSelf, Respawn(socketId, p.position, p.vitality))];
      }
    }

    /** disconnect: removePlayer, then the departure to everybody else. */
    method OnDisconnect() returns (out: seq<Emit>)
      requires Valid()
      modifies store
      ensures Valid() && !Current()
      ensures store.View() == StoreView(old(store.records) - {socketId}, old(store.chunks))
      ensures out == [Emit(Others, PlayerLeft(socketId)), Emit(Others, Message(LeftText))]
    {
      store.RemovePlayer(socketId);
      out := [Emit(Others, PlayerLeft(socketId)), Emit(Others, Message(LeftText))];
    }
  }
}
