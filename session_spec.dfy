/** What the socket handlers of the game server emit and which state they
    change, stated on values. The `Session` class in module Session is proved
    to follow these functions. */
module SessionSpec {
  import opened Wrappers
  import opened Seqs
  import opened ServerTypes
  import opened ChunkGen
  import opened StoreSpec

  /** Who an event goes to: the connected socket itself, every other socket
      (a broadcast), or the socket of one given player id. */
  datatype Target = ToSelf | Others | ToSocket(id: string)

  /** The per-player entry of a `playerPositions` event. */
  datatype PlayerInfo = PlayerInfo(id: string, position: Vector3, velocity: Vector3, state: Movement, babies: nat)

  /** The events the server emits; `BerryCollected.newVitality` is present only
      in the copy sent to the collecting socket. */
  datatype Event =
    | Message(text: string)
    | PlayerJoined(id: string, position: Vector3, vitality: real, score: nat, babies: nat)
    | ChunkData(chunks: seq<Chunk>)
    | PlayerPositions(players: seq<PlayerInfo>)
    | UpdateVitality(playerId: string, vitality: real)
    | UpdateScore(playerId: string, score: nat)
    | BerryCollected(berryId: string, chunkId: string, playerId: string, newVitality: Option<real>)
    | KissRequest(fromPlayerId: string)
    | KissCompleted(player1Id: string, player2Id: string)
    | BabyAdded(playerId: string, totalBabies: nat)
    | LoseBaby(playerId: string, remainingBabies: nat)
    | GameOver(playerId: string)
    | Respawn(playerId: string, position: Vector3, vitality: real)
    | PlayerLeft(playerId: string)

  datatype Emit = Emit(to: Target, event: Event)

  /** The greeting ends in a space and the chipmunk emoji with its
      presentation selector (U+1F43F U+FE0F). */
  const WelcomeText: string := "Welcome to Sugar Glide! \U{1F43F}\U{FE0F}"
  const JoinedText: string := "A new player has joined the forest!"
  const LeftText: string := "A player has left the forest."

  /** A string payload field passes the handlers' `!field` guard: it is
      present and not empty. */
  predicate Present(s: Option<string>) {
    s.Some? && s.value != ""
  }

  predicate NoDup(s: seq<string>) {
    forall i, j :: 0 <= i < j < |s| ==> s[i] != s[j]
  }

  /** chunks.map((chunk) => chunk.id) */
  function ChunkIdsOf(cs: seq<Chunk>): seq<string> {
    MapSeq(cs, (c: Chunk) => c.id)
  }

  /** The returned chunks whose id the player has not loaded yet, in order. */
  function Unsent(cs: seq<Chunk>, loaded: seq<string>): seq<Chunk>
  {
    if cs == [] then []
    else if cs[0].id in loaded then Unsent(cs[1..], loaded)
    else [cs[0]] + Unsent(cs[1..], loaded)
  }

  /** Exactly the chunks not loaded yet are sent, in their order, each once
      when the returned chunks have distinct ids. */
  lemma {:induction false} UnsentMembers(cs: seq<Chunk>, loaded: seq<string>)
    ensures var r := Unsent(cs, loaded);
      && (forall c :: c in r <==> c in cs && c.id !in loaded)
      && |r| <= |cs|
      && (NoDup(ChunkIdsOf(cs)) ==> NoDup(ChunkIdsOf(r)))
  {
    if cs != [] {
      UnsentMembers(cs[1..], loaded);
      var r := Unsent(cs, loaded);
      var t := Unsent(cs[1..], loaded);
      forall c
        ensures c in cs <==> c == cs[0] || c in cs[1..]
      {
        if c in cs {
          var k :| 0 <= k < |cs| && cs[k] == c;
          if k > 0 {
            assert cs[1..][k - 1] == c;
          }
        }
      }
      if NoDup(ChunkIdsOf(cs)) {
        assert NoDup(ChunkIdsOf(cs[1..])) by {
          forall i, j | 0 <= i < j < |cs| - 1
            ensures cs[1..][i].id != cs[1..][j].id
          {
            assert ChunkIdsOf(cs)[i + 1] != ChunkIdsOf(cs)[j + 1];
          }
        }
        if cs[0].id !in loaded {
          assert r == [cs[0]] + t;
          forall i | 0 <= i < |t|
            ensures t[i].id != cs[0].id
          {
            assert t[i] in cs[1..];
            var k :| 0 <= k < |cs[1..]| && cs[1..][k] == t[i];
            assert ChunkIdsOf(cs)[0] != ChunkIdsOf(cs)[k + 1];
          }
          forall i, j | 0 <= i < j < |r|
            ensures ChunkIdsOf(r)[i] != ChunkIdsOf(r)[j]
          {
            if i > 0 {
              assert ChunkIdsOf(t)[i - 1] != ChunkIdsOf(t)[j - 1];
            }
          }
        }
      }
    }
  }

  /** Recording the ids of the chunks sent never records an id twice. */
  lemma RecordingSentKeepsNoDup(cs: seq<Chunk>, loaded: seq<string>)
    requires NoDup(loaded) && NoDup(ChunkIdsOf(cs))
    ensures NoDup(loaded + ChunkIdsOf(Unsent(cs, loaded)))
  {
    UnsentMembers(cs, loaded);
    var r := Unsent(cs, loaded);
    var s := loaded + ChunkIdsOf(r);
    forall i, j | 0 <= i < j < |s|
      ensures s[i] != s[j]
    {
      if i < |loaded| <= j {
        assert r[j - |loaded|] in r;
      }
    }
  }

  /** The position echo of one player: one `playerPositions` event for each
      of the given players whose socket is connected, in their order. */
  function Echoes(ids: seq<string>, connected: set<string>, info: PlayerInfo): (r: seq<Emit>)
    ensures |r| <= |ids|
    ensures forall e :: e in r ==> e.event == PlayerPositions([info]) && e.to.ToSocket?
                                   && e.to.id in ids && e.to.id in connected
  {
    if ids == [] then []
    else Echoes(ids[..|ids| - 1], connected, info)
         + (if ids[|ids| - 1] in connected then [Emit(ToSocket(ids[|ids| - 1]), PlayerPositions([info]))] else [])
  }

  function InfoOf(p: PlayerState): PlayerInfo {
    PlayerInfo(p.id, p.position, p.velocity, p.state, p.babies)
  }

  /** players.map((p) => p.id) */
  function InfoIds(infos: seq<PlayerInfo>): seq<string> {
    MapSeq(infos, (p: PlayerInfo) => p.id)
  }

  /** `infos` lists the records within view of `me`, each once, with the
      values stored for them. */
  predicate ListsNearby(infos: seq<PlayerInfo>, players: map<string, PlayerState>, me: string) {
    && (forall i :: 0 <= i < |infos| ==> infos[i].id in players && infos[i] == InfoOf(players[infos[i].id]))
    && (set i | 0 <= i < |infos| :: infos[i].id) == NearbyIds(players, me)
    && NoDup(InfoIds(infos))
  }

  /** The chunks around `pos` that a player who has loaded `loaded` is
      sent. */
  function ChunksToSend(chunks: map<string, Chunk>, pos: Vector3, draws: seq<ChunkDraw>, loaded: seq<string>): seq<Chunk>
    requires |draws| == 3 && DrawsOk(draws)
  {
    Unsent(LoadChunks(chunks, NeededBases(pos.y), draws).0, loaded)
  }

  /** The state updatePosition leaves behind, for a session whose captured
      record holds `p`, `current` telling whether that record is the stored
      one: the captured record, then the store. The store update goes to
      the stored record; the sent chunk ids go to the captured one. */
  function PositionUpdate(v: StoreView, me: string, p: PlayerState, current: bool,
                          pos: Vector3, vel: Vector3, st: Movement, draws: seq<ChunkDraw>): (PlayerState, StoreView)
    requires |draws| == 3 && DrawsOk(draws)
  {
    var updated := UpdatePlayer(v.players, me, pos, vel, st);
    var sent := ChunksToSend(v.chunks, pos, draws, p.loadedChunks);
    var q := (if current then AfterUpdate(p, pos, vel, st) else p).(loadedChunks := p.loadedChunks + ChunkIdsOf(sent));
    (q, StoreView(if current then updated[me := q] else updated, LoadChunks(v.chunks, NeededBases(pos.y), draws).1))
  }

  /** The position exchange of updatePosition, for the records `players`
      after the update: nothing when no one is within view of `me`;
      otherwise first the records within view, to `me`, then `info` to each
      of them that is connected, in the same order. */
  predicate PositionsExchanged(e: seq<Emit>, players: map<string, PlayerState>, me: string,
                               connected: set<string>, info: PlayerInfo) {
    if NearbyIds(players, me) == {} then e == []
    else
      && |e| >= 1 && e[0].to == ToSelf && e[0].event.PlayerPositions?
      && ListsNearby(e[0].event.players, players, me)
      && e[1..] == Echoes(InfoIds(e[0].event.players), connected, info)
  }

  /** What acceptKiss emits after processKiss returned `ok`: the completed
      kiss to both partners (to the other only when its socket is
      connected), the baby totals it reports, and the kiss to everybody
      else; nothing after a failed kiss. */
  function KissEvents(me: string, from: string, fromConnected: bool, ok: bool, myTotal: nat, fromTotal: nat): (r: seq<Emit>)
    ensures !ok <==> r == []
    ensures ok ==> Emit(ToSelf, BabyAdded(me, myTotal)) in r
    ensures ok && fromConnected ==> Emit(ToSocket(from), BabyAdded(from, fromTotal)) in r
  {
    if !ok then []
    else
      [Emit(ToSelf, KissCompleted(me, from))]
      + (if fromConnected then [Emit(ToSocket(from), KissCompleted(from, me))] else [])
      + [Emit(ToSelf, BabyAdded(me, myTotal))]
      + (if fromConnected then [Emit(ToSocket(from), BabyAdded(from, fromTotal))] else [])
      + [Emit(Others, KissCompleted(me, from))]
  }

  /** What the playerGrounded handler emits for the record `p` it has in hand:
      the remaining babies, then game over and a respawn when `p` is out of
      the game. */
  function GroundedEvents(me: string, p: PlayerState): (r: seq<Emit>)
    ensures |r| >= 1 && r[0] == Emit(ToSelf, LoseBaby(me, p.babies))
    ensures |r| > 1 <==> p.vitality <= 0.0 && p.babies == 0
  {
    [Emit(ToSelf, LoseBaby(me, p.babies))]
    + if p.vitality <= 0.0 && p.babies <= 0 then
        [Emit(ToSelf, GameOver(me)), Emit(ToSelf, Respawn(me, p.position, p.vitality))]
      else []
  }

  /** playerGrounded as written refreshes the player with addPlayer first,
      so it always reports no babies left and never reaches game over. */
  lemma GroundedAsWrittenNeverEnds(me: string)
    ensures GroundedEvents(me, Spawn(me)) == [Emit(ToSelf, LoseBaby(me, 0))]
  {}

  /** With the record looked up instead, the reported count is the stored
      one; game over is still never emitted for a store whose players keep
      their invariant, as updatePlayerState already respawns such players. */
  lemma GroundedLookupReports(players: map<string, PlayerState>, me: string)
    requires PlayersValid(players) && me in players
    ensures GroundedEvents(me, players[me]) == [Emit(ToSelf, LoseBaby(me, players[me].babies))]
  {
    assert PlayerInvariant(players[me]);
  }

  /** acceptKiss as written: after a successful kiss it calls addPlayer on
      its own id and, when the partner's socket is connected, on the
      partner's id, which resets those records to spawn. */
  function KissThenRefresh(players: map<string, PlayerState>, me: string, from: string, fromConnected: bool)
    : map<string, PlayerState>
  {
    var (ok, kissed) := Kiss(players, me, from);
    if !ok then players
    else
      var r := kissed[me := Spawn(me)];
      if fromConnected then r[from := Spawn(from)] else r
  }

  /** The refresh wipes out the kiss: whenever the kiss succeeds the
      accepting player ends with no babies, no score and nothing loaded,
      though the kiss gave it at least one baby. */
  lemma KissThenRefreshLosesBabies(players: map<string, PlayerState>, me: string, from: string, fromConnected: bool)
    requires Kiss(players, me, from).0
    ensures var r := KissThenRefresh(players, me, from, fromConnected);
      && me in r && r[me] == Spawn(me) && r[me].babies == 0
      && Kiss(players, me, from).1[me].babies >= 1
  {
    KissOutcome(players, me, from);
  }
}
