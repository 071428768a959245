/** The in-game shop of the client: wing upgrades, baby squirrels and music
    tracks paid for with berries, and the shop panel's visibility. */
module Shop {
  import opened Wrappers
  import opened Seqs
  import BerryCounter

  datatype WingUpgrade = WingUpgrade(level: int, cost: int)

  /** WING_UPGRADES, in order (glide strength and icon are presentation). */
  const WingUpgrades: seq<WingUpgrade> :=
    [WingUpgrade(1, 0), WingUpgrade(2, 5), WingUpgrade(3, 15)]

  const BabySquirrelCost: int := 20

  datatype TrackEntry = TrackEntry(name: string, cost: int)

  /** MUSIC_TRACKS, in the order its keys were written. */
  const MusicTrackList: seq<TrackEntry> := [
    TrackEntry("Flying High - Glider Squirrel Anthem.mp3", 10),
    TrackEntry("Glider Squirrels in the Sky.mp3", 15),
    TrackEntry("Gliding Hearts.mp3", 20),
    TrackEntry("Gliding High.mp3", 25)
  ]

  datatype MusicTrack = MusicTrack(cost: int, owned: bool)

  /** The table as the program starts: every track unowned. */
  function InitialTracks(): (t: map<string, MusicTrack>)
    ensures forall name :: name in t ==> !t[name].owned && t[name].cost >= 0
  {
    map[
      "Flying High - Glider Squirrel Anthem.mp3" := MusicTrack(10, false),
      "Glider Squirrels in the Sky.mp3" := MusicTrack(15, false),
      "Gliding Hearts.mp3" := MusicTrack(20, false),
      "Gliding High.mp3" := MusicTrack(25, false)]
  }

  /** The listed tracks are exactly the table's, at the table's costs. */
  lemma TrackListMatchesTable()
    ensures forall i :: 0 <= i < |MusicTrackList| ==>
      MusicTrackList[i].name in InitialTracks() &&
      InitialTracks()[MusicTrackList[i].name].cost == MusicTrackList[i].cost
    ensures forall name :: name in InitialTracks() ==> exists i :: 0 <= i < |MusicTrackList| && MusicTrackList[i].name == name
  {
    forall name | name in InitialTracks()
      ensures exists i :: 0 <= i < |MusicTrackList| && MusicTrackList[i].name == name
    {
      if name == "Flying High - Glider Squirrel Anthem.mp3" {
        assert MusicTrackList[0].name == name;
      } else if name == "Glider Squirrels in the Sky.mp3" {
        assert MusicTrackList[1].name == name;
      } else if name == "Gliding Hearts.mp3" {
        assert MusicTrackList[2].name == name;
      } else {
        assert MusicTrackList[3].name == name;
      }
    }
  }

  /** WING_UPGRADES.find(u => u.level === level). */
  function FindUpgrade(upgrades: seq<WingUpgrade>, level: int): (r: Option<WingUpgrade>)
    ensures r.Some? ==> r.value in upgrades && r.value.level == level
    ensures r.None? ==> forall u :: u in upgrades ==> u.level != level
  {
    if upgrades == [] then None
    else if upgrades[0].level == level then Some(upgrades[0])
    else FindUpgrade(upgrades[1..], level)
  }

  /** A shop item: what clicking it buys and the cost shown on it. */
  datatype Item =
    | WingItem(level: int, cost: int)
    | BabyItem(cost: int)
    | MusicItem(track: string, cost: int)

  /** STORE_SECTIONS flattened: the wing upgrades after the first, the baby
      squirrel, then the music tracks. */
  function Items(): seq<Item> {
    WingItems(WingUpgrades[1..]) + [BabyItem(BabySquirrelCost)] + MusicItems(MusicTrackList)
  }

  function WingItems(us: seq<WingUpgrade>): (r: seq<Item>)
    ensures |r| == |us| && forall i :: 0 <= i < |us| ==> r[i] == WingItem(us[i].level, us[i].cost)
  {
    if us == [] then [] else [WingItem(us[0].level, us[0].cost)] + WingItems(us[1..])
  }

  function MusicItems(ts: seq<TrackEntry>): (r: seq<Item>)
    ensures |r| == |ts| && forall i :: 0 <= i < |ts| ==> r[i] == MusicItem(ts[i].name, ts[i].cost)
  {
    if ts == [] then [] else [MusicItem(ts[0].name, ts[0].cost)] + MusicItems(ts[1..])
  }

  /** The shop lists only wing levels above 1, and level 1 is free. */
  lemma ListedWingLevels()
    ensures forall it :: it in Items() && it.WingItem? ==> it.level > 1
    ensures FindUpgrade(WingUpgrades, 1) == Some(WingUpgrade(1, 0))
  {
    var ws := WingItems(WingUpgrades[1..]);
    var ms := MusicItems(MusicTrackList);
    forall it | it in Items() && it.WingItem?
      ensures it.level > 1
    {
      assert Items() == ws + [BabyItem(BabySquirrelCost)] + ms;
      assert it !in ms by {
        forall i | 0 <= i < |ms|
          ensures ms[i] != it
        {
        }
      }
      var i :| 0 <= i < |ws| && ws[i] == it;
    }
  }

  /** A call the shop makes into its dependencies. */
  datatype Effect =
    | BerryEvent(e: BerryCounter.Effect)
    | WingUpgraded(level: int)
    | BabySquirrelBought
    | CursorUnlocked
    | TrackPlayed(name: string)

  /** The berry counter's calls, as calls of this module. */
  function BerryEvents(es: seq<BerryCounter.Effect>): seq<Effect> {
    MapSeq(es, (e: BerryCounter.Effect) => BerryEvent(e))
  }

  /** buyMusicTrack over values: whether it reports success, the new track
      table and the new berry count. */
  function BuyTrack(tracks: map<string, MusicTrack>, count: int, name: string): (bool, map<string, MusicTrack>, int) {
    if name !in tracks then (false, tracks, count)
    else if tracks[name].owned then (true, tracks, count)
    else if count >= tracks[name].cost then
      (true, tracks[name := tracks[name].(owned := true)], BerryCounter.Clamp(count, -tracks[name].cost))
    else (false, tracks, count)
  }

  predicate CostsNonNegative(tracks: map<string, MusicTrack>) {
    forall name :: name in tracks ==> tracks[name].cost >= 0
  }

  /** Success means the track is owned afterwards at its old cost; berries are spent exactly
      when an unowned track is bought, by exactly its cost; the table keeps
      its keys and no other track changes. */
  lemma BuyTrackOutcome(tracks: map<string, MusicTrack>, count: int, name: string)
    requires count >= 0 && CostsNonNegative(tracks)
    ensures var (ok, t, c) := BuyTrack(tracks, count, name);
      && (ok <==> name in tracks && (tracks[name].owned || count >= tracks[name].cost))
      && (ok ==> t[name] == tracks[name].(owned := true))
      && t.Keys == tracks.Keys
      && (forall other :: other in tracks && other != name ==> t[other] == tracks[other])
      && c >= 0
      && (c != count <==> ok && !tracks[name].owned && tracks[name].cost > 0)
      && (ok && !tracks[name].owned ==> c == count - tracks[name].cost)
      && (!ok ==> t == tracks && c == count)
  {
  }

  /** Buying a track twice spends for it once. */
  lemma BuyTrackIdempotent(tracks: map<string, MusicTrack>, count: int, name: string)
    requires count >= 0 && CostsNonNegative(tracks)
    ensures var (ok, t, c) := BuyTrack(tracks, count, name);
      ok ==> BuyTrack(t, c, name) == (true, t, c)
  {
  }

  /** buyWingUpgrade over values: the new count, and the level upgraded to
      if the purchase went through. */
  function BuyWing(count: int, level: int): (int, Option<int>) {
    var u := FindUpgrade(WingUpgrades, level);
    if u.Some? && count >= u.value.cost then (BerryCounter.Clamp(count, -u.value.cost), Some(level))
    else (count, None)
  }

  /** The upgrade goes through exactly for a listed, affordable level, and
      then costs exactly that level's price. */
  lemma BuyWingOutcome(count: int, level: int)
    requires count >= 0
    ensures var (c, up) := BuyWing(count, level);
      && (up.Some? <==> (level == 1 || (level == 2 && count >= 5) || (level == 3 && count >= 15)))
      && (up.Some? ==> up.value == level && c == count - FindUpgrade(WingUpgrades, level).value.cost)
      && (up.None? ==> c == count)
      && c >= 0
  {
  }

  /** buyBabySquirrel over values: the new count and whether a baby was bought. */
  function BuyBaby(count: int): (int, bool) {
    if count >= BabySquirrelCost then (BerryCounter.Clamp(count, -BabySquirrelCost), true) else (count, false)
  }

  lemma BuyBabyOutcome(count: int)
    ensures var (c, bought) := BuyBaby(count);
      (bought <==> count >= 20) && (bought ==> c == count - 20) && (!bought ==> c == count)
  {
  }

  /** The calls buyMusicTrack makes: the counter's, only for a new purchase. */
  function TrackEffects(tracks: map<string, MusicTrack>, count: int, name: string): seq<Effect> {
    var (ok, _, c) := BuyTrack(tracks, count, name);
    if ok && !tracks[name].owned then BerryEvents(BerryCounter.AddEffects(-tracks[name].cost, c)) else []
  }

  /** The calls buyWingUpgrade makes: the spend, then `onWingUpgrade(level)`,
      only when the upgrade goes through. */
  function WingEffects(count: int, level: int): seq<Effect> {
    var (c, up) := BuyWing(count, level);
    if up.Some? then BerryEvents(BerryCounter.AddEffects(-FindUpgrade(WingUpgrades, level).value.cost, c)) + [WingUpgraded(level)]
    else []
  }

  /** The calls buyBabySquirrel makes: the spend, then `onBabySquirrel`, only
      when a baby is bought. */
  function BabyEffects(count: int): seq<Effect> {
    var (c, bought) := BuyBaby(count);
    if bought then BerryEvents(BerryCounter.AddEffects(-BabySquirrelCost, c)) + [BabySquirrelBought] else []
  }

  /** The game's callbacks run exactly when their purchase goes through, once
      and last; a track purchase makes no callback, and the counter is called
      only when berries are spent. */
  lemma CallbacksIffPurchase(tracks: map<string, MusicTrack>, count: int, name: string, level: int)
    ensures WingUpgraded(level) in WingEffects(count, level) <==> BuyWing(count, level).1.Some?
    ensures BuyWing(count, level).1.Some? ==> WingEffects(count, level)[|WingEffects(count, level)| - 1] == WingUpgraded(level)
    ensures forall l :: l != level ==> WingUpgraded(l) !in WingEffects(count, level)
    ensures BabySquirrelBought !in WingEffects(count, level)
    ensures BabySquirrelBought in BabyEffects(count) <==> BuyBaby(count).1
    ensures BuyBaby(count).1 ==> BabyEffects(count)[|BabyEffects(count)| - 1] == BabySquirrelBought
    ensures forall l :: WingUpgraded(l) !in BabyEffects(count)
    ensures forall e :: e in TrackEffects(tracks, count, name) ==> e.BerryEvent?
    ensures TrackEffects(tracks, count, name) != [] ==> BuyTrack(tracks, count, name).0 && !tracks[name].owned
  {
  }


  /** The click guard (count >= shown cost) lets through exactly the clicks
      whose purchase then goes through: every listed item's shown cost is
      what the purchase charges. */
  lemma ShownCostIsCharged(it: Item, count: int, tracks: map<string, MusicTrack>)
    requires it in Items() && count >= it.cost && count >= 0
    requires tracks.Keys == InitialTracks().Keys
    requires forall name :: name in tracks ==> tracks[name].cost == InitialTracks()[name].cost
    ensures it.WingItem? ==> BuyWing(count, it.level).1 == Some(it.level)
    ensures it.BabyItem? ==> BuyBaby(count).1
    ensures it.MusicItem? ==> BuyTrack(tracks, count, it.track).0
  {
    var ws := WingItems(WingUpgrades[1..]);
    var ms := MusicItems(MusicTrackList);
    assert Items() == ws + [BabyItem(BabySquirrelCost)] + ms;
    if it in ws {
      var i :| 0 <= i < |ws| && ws[i] == it;
    } else if it in ms {
      var i :| 0 <= i < |ms| && ms[i] == it;
      TrackListMatchesTable();
    }
  }

  /** The module-level MUSIC_TRACKS table, whose `owned` flags purchases set. */
  class TrackTable {
    var tracks: map<string, MusicTrack>

    constructor ()
      ensures tracks == InitialTracks()
    {
      tracks := InitialTracks();
    }
  }

  class Store {
    const berry: BerryCounter.Berry
    const table: TrackTable
    var isVisible: bool
    /** Whether the shop panel has been built (storeElement is set). */
    var hasElement: bool

    /** createStore: hidden, with no panel built yet. */
    constructor (berry: BerryCounter.Berry, table: TrackTable)
      ensures this.berry == berry && this.table == table && !isVisible && !hasElement
    {
      this.berry := berry;
      this.table := table;
      isVisible := false;
      hasElement := false;
    }

    method BuyMusicTrack(name: string) returns (ok: bool, effects: seq<Effect>)
      requires berry.Valid()
      modifies berry, table
      ensures berry.Valid()
      ensures (ok, table.tracks, berry.count) == BuyTrack(old(table.tracks), old(berry.count), name)
      ensures effects == TrackEffects(old(table.tracks), old(berry.count), name)
    {
      if name !in table.tracks {
        return false, [];
      }
      var track := table.tracks[name];
      if track.owned {
        return true, [];
      }
      var count := berry.GetCount();
      if count >= track.cost {
        var es := berry.Add(-track.cost);
        table.tracks := table.tracks[name := track.(owned := true)];
        return true, BerryEvents(es);
      }
      return false, [];
    }

    method BuyWingUpgrade(level: int) returns (effects: seq<Effect>)
      requires berry.Valid()
      modifies berry
      ensures berry.Valid()
      ensures berry.count == BuyWing(old(berry.count), level).0
      ensures effects == WingEffects(old(berry.count), level)
    {
      var upgrade := FindUpgrade(WingUpgrades, level);
      var count := berry.GetCount();
      effects := [];
      if upgrade.Some? && count >= upgrade.value.cost {
        var es := berry.Add(-upgrade.value.cost);
        effects := BerryEvents(es) + [WingUpgraded(level)];
      }
    }

    method BuyBabySquirrel() returns (effects: seq<Effect>)
      requires berry.Valid()
      modifies berry
      ensures berry.Valid()
      ensures berry.count == BuyBaby(old(berry.count)).0
      ensures effects == BabyEffects(old(berry.count))
    {
      var count := berry.GetCount();
      effects := [];
      if count >= BabySquirrelCost {
        var es := berry.Add(-BabySquirrelCost);
        effects := BerryEvents(es) + [BabySquirrelBought];
      }
    }

    /** Builds the panel on first use, flips visibility, and releases the
        cursor only when the panel is being shown. */
    method ToggleVisibility() returns (effects: seq<Effect>)
      modifies this
      ensures hasElement && isVisible == !old(isVisible)
      ensures effects == if old(isVisible) then [] else [CursorUnlocked]
    {
      if !hasElement {
        hasElement := true;
      }
      effects := [];
      if !isVisible {
        effects := [CursorUnlocked];
      }
      isVisible := !isVisible;
    }

    /** A click on a listed item: nothing unless the berries cover the shown
        cost; otherwise the item's purchase, and a bought track is played. */
    method ClickItem(it: Item) returns (effects: seq<Effect>)
      requires berry.Valid()
      modifies berry, table
      ensures berry.Valid()
      ensures old(berry.count) < it.cost ==> effects == [] && berry.count == old(berry.count) && table.tracks == old(table.tracks)
      ensures old(berry.count) >= it.cost && it.WingItem? ==>
        && berry.count == BuyWing(old(berry.count), it.level).0 && table.tracks == old(table.tracks)
        && effects == WingEffects(old(berry.count), it.level)
      ensures old(berry.count) >= it.cost && it.BabyItem? ==>
        && berry.count == BuyBaby(old(berry.count)).0 && table.tracks == old(table.tracks)
        && effects == BabyEffects(old(berry.count))
      ensures old(berry.count) >= it.cost && it.MusicItem? ==>
        var (ok, t, c) := BuyTrack(old(table.tracks), old(berry.count), it.track);
        && table.tracks == t && berry.count == c
        && effects == TrackEffects(old(table.tracks), old(berry.count), it.track) + (if ok then [TrackPlayed(it.track)] else [])
    {
      var count := berry.GetCount();
      effects := [];
      if count >= it.cost {
        match it {
          case WingItem(level, _) =>
            effects := BuyWingUpgrade(level);
          case BabyItem(_) =>
            effects := BuyBabySquirrel();
          case MusicItem(track, _) =>
            var ok, es := BuyMusicTrack(track);
            effects := es;
            if ok {
              effects := effects + [TrackPlayed(track)];
            }
        }
      }
    }
  }
}
