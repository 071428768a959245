# Sugar Glide game logic in Dafny

Sugar Glide is a multiplayer game. Flying squirrels glide between the trees
of an endless vertical forest. They eat berries to keep their vitality up and
raise babies by kissing.

This project models two parts of that game and proves their contracts.

**The game server's state.**
- The store of players and chunks (`src/server/game-state.ts`) is class
  `GameState.Store`.
- A player record is class `GameState.Player`.
- The store operations are proved against pure functions over a value view of
  the store, in module `StoreSpec`.
- The chunk generator is module `ChunkGen`. It is fed the random samples and
  uuids it would draw.
- The data shapes of `server/types.ts` are module `ServerTypes`.
- The state logic of the socket handlers in `server/index.ts` is class
  `Session.Session`, one instance per connected socket. Each handler returns
  the list of events it emits, with their addressees. It also keeps a
  reference to the player record captured at connection time, as the source
  does. What the handlers emit and store is stated on values in module
  `SessionSpec`.

**Client modules.** Each one keeps the source's own state as a class:
- the seeded mulberry32 generator and its shuffle (`SeededRandom.Rng`);
- the berry counter (`BerryCounter.Berry`);
- the shop (`Shop.Store`);
- the `vibe…` command parser and console (`Commands.CommandSystem`);
- the bookkeeping of baby squirrels and the mother's trail
  (`Babies.BabySystem`);
- the berry respawn, near-tree test and debug-sphere visibility of the trees
  (module `Trees`);
- the movement controller and its keyboard and touch inputs
  (`Movement.MovementController`, `Keyboard.KeyboardController`,
  `Touch.TouchController`).

Calls into the DOM, audio, the status bar and the scene are returned as lists
of effect records instead of being performed. Randomness (`Math.random`,
`uuid`) and the clock (`Date.now`) are parameters. Positions, velocities and
vitality are `real`. Square roots are avoided by comparing squared distances.

The supporting modules are:
- `Wrappers` (Option);
- `Seqs` (the element-wise map of a sequence);
- `Decimal` (decimal rendering and `parseInt` of digit strings);
- `Arith` (facts about products of reals);
- `Vectors` (the client's three-component vectors).

## Model

| member | source | states |
|---|---|---|
| ServerTypes.ChunkIdInjective | src/server/game-state.ts:219 | `chunk-<base>` names one base: two bases share an id exactly when they are equal |
| ChunkGen.RandomRange | src/server/game-state.ts:14-16 | randomRange(min, max) for a sample in [0, 1) lies in [min, max], and below max when the range is not empty |
| ChunkGen.NumSplits | src/server/game-state.ts:42 | a split makes 1 to 3 sub-branches |
| ChunkGen.Thickness | src/server/game-state.ts:31 | a branch is never thinner than 0.3 |
| ChunkGen.ThicknessDecreasesWithHeight | src/server/game-state.ts:31 | a higher branch is never thicker than a lower one |
| ChunkGen.Shrunk | src/server/game-state.ts:47-50 | a sub-branch's length and thickness are positive and strictly below its parent's |
| ChunkGen.GenerateSubBranch | src/server/game-state.ts:45-53 | relative position in [0.4, 0.8), leaf density in [0.5, 1), length and thickness positive and below the parent's, so the documented 0–1 ranges hold |
| ChunkGen.GenerateBranch | src/server/game-state.ts:21-62 | the branch keeps its uuid and height; x and z lie in [-15, 15), length in [5, 10), orientation in [0, 2π), elevation in [-0.1, 0.2); its thickness is Thickness(y); it and its sub-branches stay in their 0–1 ranges, on the split, terminal and plain paths |
| ChunkGen.NumBerries | src/server/game-state.ts:69 | a chunk asks for 1 or 2 berries |
| ChunkGen.PlaceBerry | src/server/game-state.ts:92-97 | a placed berry names the branch it sits on and starts uncollected |
| ChunkGen.BerriesOnDistinctBranches | src/server/game-state.ts:67-101 | generateBerries yields one berry per picked index, each uncollected, naming one of the chunk's branches, no two on the same branch |
| ChunkGen.GeneratedChunkShape | src/server/game-state.ts:106-124 | a generated chunk has id `chunk-<base>`, four branches with distinct ids at base+5/+10/+15/+20, one or two uncollected berries on distinct branches of its own, and every branch in its documented ranges |
| StoreSpec.SpawnValid | src/server/game-state.ts:139-154 | the record addPlayer stores keeps the player invariant (vitality in 0–100, not out of the game) and carries its own id |
| StoreSpec.AfterUpdate | src/server/game-state.ts:172-199 | updatePlayerState: state taken over; score +1 if and only if gliding; one baby lost if and only if y ≤ 0 with babies left; a player left with no vitality and no babies is put back at spawn with full vitality and the score kept, otherwise position and velocity are the reported ones; vitality stays in 0–100 |
| StoreSpec.UpdatePreservesPlayers | src/server/game-state.ts:166-200 | an update keeps every player valid, keeps the keys, changes no other player and never lowers a score; an unknown id changes nothing |
| StoreSpec.NearbyMember | src/server/game-state.ts:242-256 | a stored player is in another's view if and only if it is someone else within 60 vertically and 30 horizontally |
| StoreSpec.NearbyProperties | src/server/game-state.ts:237-257 | the queried player never sees itself; an unknown id sees nobody; only stored players are seen; membership is exactly the window test; visibility is mutual |
| StoreSpec.NonNegative | src/server/game-state.ts:215-217 | the bases kept are exactly the non-negative ones, in order |
| StoreSpec.CenterBaseBounds | src/server/game-state.ts:206 | the centre band is the multiple of 20 at or below y |
| StoreSpec.BandsAround | src/server/game-state.ts:207-217 | the bands kept around centre c: three from c ≥ 20, two at c = 0, one at c = −20, none below |
| StoreSpec.BandsOfHeight | src/server/game-state.ts:205-217 | 3 bands for y ≥ 20, 2 for 0 ≤ y < 20, 1 for −20 ≤ y < 0, none below; consecutive multiples of 20 in increasing order, the last the band above the player's |
| StoreSpec.CachedOrNew | src/server/game-state.ts:219-226 | a cached chunk is taken as stored; a missing one is generated with the band's id |
| StoreSpec.LoadChunksStep | src/server/game-state.ts:215-229 | one step of the loop: a negative base is skipped; otherwise the cached or new chunk is returned first and cached for the rest |
| StoreSpec.LoadChunksFromStep | src/server/game-state.ts:215-229 | the same step for the loop walked by index |
| StoreSpec.LoadChunksFromSuffix | src/server/game-state.ts:215-229 | walking the bases by index from i is loading the suffix from i |
| StoreSpec.LoadChunksGrowsCache | src/server/game-state.ts:219-226 | the chunk cache only grows: every cached chunk stays unchanged, and the new keys are exactly the ids of the non-negative bases |
| StoreSpec.LoadChunksReturns | src/server/game-state.ts:205-232 | one chunk per non-negative base, in order, each with id `chunk-<base>`, stored under that id afterwards; a chunk already cached is returned exactly as stored |
| StoreSpec.LoadChunksIds | src/server/game-state.ts:215-228 | one chunk per non-negative base, in order, with the base's id |
| StoreSpec.LoadChunksKeepsCached | src/server/game-state.ts:220-226 | no cached chunk is replaced or removed |
| StoreSpec.LoadChunksStored | src/server/game-state.ts:222-228 | each returned chunk is the one cached under its id afterwards |
| StoreSpec.LoadedChunkIdsDistinct | src/server/game-state.ts:205-232 | the chunks returned for one position carry distinct ids |
| StoreSpec.LoadChunksKeepsCacheValid | src/server/game-state.ts:219-226 | the cache stays valid: every entry is stored under its own id and has the generated chunk structure |
| StoreSpec.LoadChunksGeneratesMissing | src/server/game-state.ts:222-225 | an id that was not cached is filled with a generated chunk: the chunk structure and all berries uncollected |
| StoreSpec.FindBerry | src/server/game-state.ts:266 | `find` returns the first berry with the id, or none when no berry has it |
| StoreSpec.CollectBerryOutcome | src/server/game-state.ts:262-280 | nothing changes unless the chunk is cached and the berry is found and uncollected; such a berry is marked collected even for an absent player; the result is true exactly for a present player, whose vitality becomes min(100, v + 50); no other player, chunk or berry changes |
| StoreSpec.FindBerryAfterMark | src/server/game-state.ts:266-270 | marking the found berry keeps it the first berry with that id |
| StoreSpec.CollectTwiceFails | src/server/game-state.ts:267 | right after a collection the same request fails, whoever makes it |
| StoreSpec.CollectPreservesValid | src/server/game-state.ts:262-280 | collecting keeps the store valid: vitality in 0–100, chunks keep their structure |
| StoreSpec.MarkCollectedKeepsShape | src/server/game-state.ts:270 | marking a berry collected keeps the chunk's id and structure |
| StoreSpec.KissOutcome | src/server/game-state.ts:285-304 | the kiss succeeds exactly when both players exist within distance 2; a failure changes nothing; a success adds one baby to each player, or two to a player kissing itself; nothing else changes |
| StoreSpec.KissSymmetric | src/server/game-state.ts:292-297 | processKiss(a, b) and processKiss(b, a) have the same outcome |
| StoreSpec.KissPreservesPlayers | src/server/game-state.ts:299-303 | a kiss keeps every player valid |
| GameState.Player.constructor | src/server/game-state.ts:141-150 | a new record is the spawn record: (0, 10, 0), at rest, idle, vitality 100, nothing scored, carried or loaded |
| GameState.Player.ApplyUpdate | src/server/game-state.ts:176-199 | the record's fields change in place to AfterUpdate of their old values |
| GameState.Player.Eat | src/server/game-state.ts:275 | vitality becomes min(100, v + 50); nothing else changes |
| GameState.Player.AddBaby | src/server/game-state.ts:300-301 | one more baby; nothing else changes |
| GameState.Player.AppendLoaded | server/index.ts:84 | the chunk ids are appended to loadedChunks; nothing else changes |
| GameState.IdsOfAppend | src/server/game-state.ts:242 | the ids of a list with one more record are the old ids plus its id |
| GameState.FilterStep | src/server/game-state.ts:242-256 | one filter step keeps the ids of the records kept equal to the wanted ids seen so far |
| GameState.LoadInto | src/server/game-state.ts:215-229 | the band loop returns the chunks and the cache LoadChunks describes |
| GameState.Store.constructor | src/server/game-state.ts:131-134 | the store starts with no players and no chunks |
| GameState.Store.AddPlayer | src/server/game-state.ts:139-154 | a fresh spawn record is stored under the id, replacing any earlier one; nothing else changes |
| GameState.Store.RemovePlayer | src/server/game-state.ts:159-161 | only that id is deleted; an absent id changes nothing |
| GameState.Store.Resync | server/index.ts:84 | a record changed outside the store is reflected in the store's values exactly when it is the stored one |
| GameState.Store.Lookup | src/server/game-state.ts:172-173 | the stored record when the id is present, none otherwise |
| GameState.Store.UpdatePlayerState | src/server/game-state.ts:166-200 | the stored players change as UpdatePlayer says, the record updated in place; chunks are untouched |
| GameState.Store.GetChunksForPlayer | src/server/game-state.ts:205-232 | the chunks and the new cache are those of LoadChunks over the three bands around the position's height; players are untouched |
| GameState.Store.GetNearbyPlayers | src/server/game-state.ts:237-257 | the stored records whose ids are exactly NearbyIds, each listed once |
| GameState.Store.CollectBerry | src/server/game-state.ts:262-280 | the result and the new store are those of StoreSpec.CollectBerry |
| GameState.Store.ProcessKiss | src/server/game-state.ts:285-304 | the result and the new players are those of StoreSpec.Kiss |
| SessionSpec.UnsentMembers | server/index.ts:77 | the chunks sent are exactly the returned ones whose id is not loaded yet, never more of them; distinct ids stay distinct |
| SessionSpec.RecordingSentKeepsNoDup | server/index.ts:77-85 | appending the sent ids to loadedChunks never records an id twice |
| SessionSpec.Echoes | server/index.ts:103-118 | the echo to nearby players goes only to connected sockets of listed players, one `playerPositions` each at most |
| SessionSpec.KissEvents | server/index.ts:175-210 | a failed kiss emits nothing; a successful one always tells the accepting player its total and tells the partner its total when connected |
| SessionSpec.GroundedEvents | server/index.ts:218-234 | `loseBaby` always comes first; `gameOver` and `respawn` follow exactly when the record in hand has no vitality and no babies |
| SessionSpec.GroundedAsWrittenNeverEnds | server/index.ts:215-234 | with a fresh spawn record in hand, the handler reports 0 babies and never reaches game over |
| SessionSpec.GroundedLookupReports | server/index.ts:218-225 | with the stored record in hand, the stored count is reported, and a valid store never reaches game over here |
| SessionSpec.KissThenRefreshLosesBabies | server/index.ts:173-202 | after a successful kiss the refresh leaves the accepting player at spawn with no babies, although the kiss gave it at least one |
| Session.Connect | server/index.ts:41-58 | a spawn record is stored for the socket and becomes the session's record; the greeting "Welcome to Sugar Glide! 🐿️", the record, the chunks around the spawn point and the join broadcast are emitted, in that order |
| Session.Session.constructor | server/index.ts:41 | the session holds the record stored for its socket |
| Session.Session.SendNewChunks | server/index.ts:76-85 | only the chunks not yet loaded are sent, in one event and only if there are any; their ids are appended to the captured record's loadedChunks (stored values follow while it is current) and no id is recorded twice |
| Session.Session.ExchangePositions | server/index.ts:87-119 | nothing when no one is within view; otherwise the records within view, each once, with their stored values, to this socket, then this player's info to each of them that is connected |
| Session.Session.Advance | server/index.ts:71-85 | the store update, then the chunks around the new position, of which the unsent ones are sent and recorded on the captured record |
| Session.Session.OnUpdatePosition | server/index.ts:61-131 | a payload missing a field changes nothing and emits nothing; otherwise the chunk streaming, the position exchange, then vitality and score read from the captured record |
| Session.Session.OnCollectBerry | server/index.ts:135-156 | a payload without both ids is dropped; otherwise the store's collectBerry, and `berryCollected` to self (with the captured record's vitality) and to the others only on success |
| Session.Session.OnInitiateKiss | server/index.ts:159-167 | a request goes out exactly when the target id is present and its socket is connected, to that socket |
| Session.Session.OnAcceptKiss | server/index.ts:170-211 | as written: the kiss, then addPlayer on both ids, so the stored players are KissThenRefresh of the old ones, both totals reported are 0 and the captured record is stale afterwards |
| Session.Session.OnAcceptKissFixed | server/index.ts:170-211 | with the records read back instead: the kiss stays and the totals reported are the counts after the kiss |
| Session.Session.OnPlayerGrounded | server/index.ts:214-235 | as written: the record is reset to spawn, the events are those for a spawn record, and the captured record is stale |
| Session.Session.OnPlayerGroundedFixed | server/index.ts:214-235 | reading the stored record instead: nothing changes and its true baby count is reported |
| Session.Session.OnDisconnect | server/index.ts:238-247 | the player is removed and `playerLeft` and the farewell go to everybody else |
| SeededRandom.Unsigned | src/frontend/util/random.ts:8 | `>>> 0` reads a 32-bit pattern as a value below 2³² |
| SeededRandom.ToUnit | src/frontend/util/random.ts:8 | every output divided by 2³² lies in [0, 1) |
| SeededRandom.Stream | src/frontend/util/random.ts:2-10 | n draws give n values |
| SeededRandom.StreamPrefix | src/frontend/util/random.ts:2-12 | two generators with the same seed agree: the shorter stream is a prefix of the longer |
| SeededRandom.StreamDraws | src/frontend/util/random.ts:3-9 | value k of the stream is draw k, and lies in [0, 1) |
| SeededRandom.ScaleBounds | src/frontend/util/random.ts:15 | min + u·(max − min) lies in [min, max) for min < max |
| SeededRandom.Pick | src/frontend/util/random.ts:21 | the swap partner j lies in [0, i] |
| SeededRandom.Passes | src/frontend/util/random.ts:18-25 | the shuffle passes keep the length |
| SeededRandom.PassesPermute | src/frontend/util/random.ts:18-25 | the shuffled result is a permutation of the input |
| SeededRandom.SwapPermutes | src/frontend/util/random.ts:22 | a swap is a permutation |
| SeededRandom.Rng.DrawnIsStream | src/frontend/util/random.ts:2-12 | the values returned so far are the first values of the seed's stream |
| SeededRandom.Rng.constructor | src/frontend/util/random.ts:11-12 | a new generator has drawn nothing from its seed |
| SeededRandom.Rng.Float | src/frontend/util/random.ts:4-14 | each draw advances the state by 0x6d2b79f5 modulo 2³² and returns the next stream value, in [0, 1) |
| SeededRandom.Rng.Range | src/frontend/util/random.ts:15 | one draw, scaled into [min, max) when min < max |
| SeededRandom.Rng.Int | src/frontend/util/random.ts:16-17 | one draw; the result lies in [min, max] for integers min ≤ max |
| SeededRandom.Rng.SwapStep | src/frontend/util/random.ts:20-22 | one loop pass: one draw, then index i swapped with the picked index |
| SeededRandom.Rng.Shuffle | src/frontend/util/random.ts:18-25 | a fresh copy of the same length, a permutation of the input, which is untouched; exactly length − 1 draws (none for an empty array) |
| BerryCounter.Clamp | src/frontend/berry.ts:19 | the count is never negative, and it is count + amount unless that is negative |
| BerryCounter.AddEffectsShape | src/frontend/berry.ts:20-23 | the sound plays if and only if the amount is positive, and the new count is reported exactly once, last |
| BerryCounter.ClampExact | src/frontend/berry.ts:19 | a gain adds exactly the amount; a covered spend removes exactly the amount; a larger spend leaves 0 |
| BerryCounter.Berry.constructor | src/frontend/berry.ts:12 | the count starts at 0 |
| BerryCounter.Berry.GetCount | src/frontend/berry.ts:14-16 | returns the count and changes nothing |
| BerryCounter.Berry.Add | src/frontend/berry.ts:18-24 | the count becomes max(0, count + amount) and stays non-negative; the calls made are those AddEffects describes |
| Shop.InitialTracks | src/frontend/store.ts:11-16 | every track starts unowned, at a non-negative cost |
| Shop.TrackListMatchesTable | src/frontend/store.ts:64-74 | the shop lists exactly the tracks of the table, at the table's costs |
| Shop.FindUpgrade | src/frontend/store.ts:146 | `find` returns a listed upgrade of that level, or none when no upgrade has it |
| Shop.WingItems | src/frontend/store.ts:42-48 | one wing item per upgrade, with its level and cost |
| Shop.MusicItems | src/frontend/store.ts:64-74 | one music item per track, with its name and cost |
| Shop.ListedWingLevels | src/frontend/store.ts:5-9 | the shop lists only wing levels above 1, and level 1 costs 0 |
| Shop.BuyTrackOutcome | src/frontend/store.ts:82-94 | an unknown name fails with no change; an owned track succeeds at no cost; an unowned affordable track is paid for by exactly its cost and becomes owned, keeping its cost; otherwise failure with no change; no other track changes |
| Shop.BuyTrackIdempotent | src/frontend/store.ts:86-91 | buying a track twice spends for it once |
| Shop.BuyWingOutcome | src/frontend/store.ts:145-151 | an upgrade goes through exactly for a listed, affordable level (level 1 always, 2 from 5 berries, 3 from 15), and costs exactly that level's price |
| Shop.BuyBabyOutcome | src/frontend/store.ts:153-159 | a baby is bought exactly from 20 berries, for 20 |
| Shop.ShownCostIsCharged | src/frontend/store.ts:115-119 | every click the shown-cost guard lets through is a purchase that goes through |
| Shop.CallbacksIffPurchase | src/frontend/store.ts:145-159 | `onWingUpgrade(level)` is called exactly when the upgrade goes through, as the last call, and never with another level; `onBabySquirrel` exactly when a baby is bought, as the last call; neither purchase triggers the other's callback; a track purchase calls only the berry counter, and only for a new purchase |
| Shop.TrackTable.constructor | src/frontend/store.ts:11-16 | the track table starts as the initial table |
| Shop.Store.constructor | src/frontend/store.ts:78-80 | the shop starts hidden, with no panel built |
| Shop.Store.BuyMusicTrack | src/frontend/store.ts:82-94 | the result, table and count are those of BuyTrack; the counter is called only for a new purchase |
| Shop.Store.BuyWingUpgrade | src/frontend/store.ts:145-151 | the count is that of BuyWing; the spend and then `onWingUpgrade(level)` happen only when the upgrade goes through |
| Shop.Store.BuyBabySquirrel | src/frontend/store.ts:153-159 | the count is that of BuyBaby; the spend and then `onBabySquirrel` happen only when a baby is bought |
| Shop.Store.ToggleVisibility | src/frontend/store.ts:130-143 | visibility flips on every call, the panel exists afterwards, and the cursor is released only on the hidden-to-shown transition |
| Shop.Store.ClickItem | src/frontend/store.ts:115-119 | a click below the shown cost does nothing; otherwise the item's purchase with the count, table and calls of that purchase, and a track is played after its purchase exactly when the purchase succeeds |
| Decimal.DigitChar | src/frontend/command.ts:93 | a digit below 10 renders as a digit character of that value |
| Decimal.NatToString | src/frontend/command.ts:93 | a rendered number is a non-empty run of digits, a single digit exactly below 10 |
| Decimal.ParseRendered | src/frontend/command.ts:90 | parsing a rendered number gives the number back |
| Decimal.RenderingInjective | src/server/game-state.ts:219 | two numbers render alike exactly when they are equal |
| Commands.DefaultQty | src/frontend/command.ts:42-73 | every command's default quantity is positive |
| Commands.MatchType | src/frontend/command.ts:77-79 | a match names one of the commands and splits the text into its name and a run of digits |
| Commands.FirstLettersDiffer | src/frontend/command.ts:41-74 | the command names start with different letters, so at most one alternative can match |
| Commands.MatchTypeFinds | src/frontend/command.ts:77-79 | a text spelling a command name and digits is matched to that command and those digits |
| Commands.ParseCommandExact | src/frontend/command.ts:76-88 | the parser accepts exactly `vibe` + a command name + optional digits, and reads that name and those digits back |
| Commands.ParseCommandSound | src/frontend/command.ts:78-79 | whatever is accepted spells `vibe`, a name and digits |
| Commands.ParseCommandComplete | src/frontend/command.ts:78-79 | whatever spells `vibe`, a name and digits is accepted |
| Commands.Amount | src/frontend/command.ts:90 | the amount is positive: the written digits when present and not zero, the default otherwise |
| Commands.AmountOfRendered | src/frontend/command.ts:90 | a positive written quantity comes back as the amount; no digits gives the default |
| Commands.HandleOutcome | src/frontend/command.ts:76-94 | a rejected command replies with the usage text and changes nothing; an accepted one replies `Added <amount> <description>!` and runs its handler once with the amount |
| Commands.RunHandlerOutcome | src/frontend/command.ts:42-73 | `nom` adds exactly the amount in berries and reports the new count last; `bb` creates exactly amount babies for the local id; `stronk` adds the amount to vitality and reports it; `dbg` flips the debug flag whatever the amount |
| Commands.ReplyTellsRejection | src/frontend/command.ts:81-93 | the reply is the usage text exactly when the command is rejected |
| Commands.TrimStart | src/frontend/command.ts:132 | a suffix of the text: every character removed is whitespace, and the rest does not start with whitespace |
| Commands.TrimEnd | src/frontend/command.ts:132 | a prefix of the text: every character removed is whitespace, and the rest does not end with whitespace |
| Commands.Trim | src/frontend/command.ts:132 | a slice of the text: everything removed before and after it is whitespace, and it neither starts nor ends with whitespace |
| Commands.StripTrailingDigits | src/frontend/command.ts:135 | a prefix of the text followed only by digits, not itself ending in a digit |
| Commands.ConsoleDispatchAccepted | src/frontend/command.ts:125-139 | whatever the console's table lets through, the parser accepts with the same command and the stripped digits |
| Commands.DebugFlag.constructor | src/frontend/command.ts:17 | debug mode starts off |
| Commands.CommandSystem.constructor | src/frontend/command.ts:96-97 | the console starts closed and not set up |
| Commands.CommandSystem.CreateBabies | src/frontend/command.ts:52-56 | exactly qty babies, all for the local id |
| Commands.CommandSystem.HandleCommand | src/frontend/command.ts:76-94 | the reply, the new berry count, vitality and debug flag, and the calls made are those of Handle |
| Commands.CommandSystem.OpenConsole | src/frontend/command.ts:99-105 | before setup nothing happens; afterwards the console is open and the cursor released |
| Commands.CommandSystem.CloseConsole | src/frontend/command.ts:107-112 | before setup nothing happens; afterwards the console is closed and cursor lock requested |
| Commands.CommandSystem.ToggleConsole | src/frontend/command.ts:114-121 | before setup nothing happens; afterwards open and closed alternate |
| Commands.CommandSystem.SetupConsole | src/frontend/command.ts:123-124 | the console is set up and its open state is kept |
| Commands.CommandSystem.OnConsoleKey | src/frontend/command.ts:130-150 | Enter clears the input, runs the trimmed command only when its stripped name is in the table, and closes the console either way; Escape closes it; other keys change nothing |
| Commands.CommandSystem.HandleKeyDown | src/frontend/command.ts:153-163 | m or M toggles mute before anything else; `/` opens a closed console and cancels the key's default; otherwise the B key toggles the shop |
| Vectors.SquaredDistance | src/frontend/babies.ts:264 | a squared distance is never negative |
| Vectors.HorizontalSquaredDistance | src/frontend/tree.ts:169-172 | a squared horizontal distance is never negative |
| Babies.WithEntry | src/frontend/babies.ts:45-50 | after a lookup the id has an entry, and no other key was added |
| Babies.WithEntryKeeps | src/frontend/babies.ts:45-50 | a lookup only adds an empty list for a missing id; every list and every count is unchanged |
| Babies.AppendedOutcome | src/frontend/babies.ts:61-76 | creating a baby appends exactly that baby to that id's list, after the ones it had, and leaves every other id as it was |
| Babies.RekeyAsWrittenLosesSameId | src/frontend/babies.ts:53-59 | as written, an identity change to the same id deletes the list just stored: the player's babies are lost |
| Babies.RekeyOutcome | src/frontend/babies.ts:53-59 | the intended re-keying: the new id holds exactly the old id's list, a different old id loses its entry, an absent or unchanged old id leaves the map as it was, other ids are untouched |
| Babies.RekeyAgreesOnChange | src/frontend/babies.ts:53-59 | the corrected and the written re-keying agree on every real change of id |
| Babies.LastN | src/frontend/babies.ts:270-272 | the window holds min(n, length) elements |
| Babies.PushedKeepsWindow | src/frontend/babies.ts:265-272 | push-then-shift keeps the trail equal to the last 100 recorded points, oldest first, the newest last, never more than 100 |
| Babies.PathIndex | src/frontend/babies.ts:203 | baby i's target index lies inside a non-empty trail, and is len − 1 − 3(i + 1) or 0 |
| Babies.PathIndexSpacing | src/frontend/babies.ts:203 | each later baby targets a point 3 further back, or the oldest one, never a newer one; the index is 0 exactly when len ≤ 3i + 4 |
| Babies.TargetPoint | src/frontend/babies.ts:204-208 | the target is a point of the trail, or the origin, unrotated and grounded, when the trail is empty |
| Babies.SpacedExtend | src/frontend/babies.ts:264-273 | recording a point farther than PATH_SPACING from the last keeps the record spaced and makes it the new last point |
| Babies.BabySystem.constructor | src/frontend/babies.ts:41-43 | no babies, an empty trail, the last point at the origin |
| Babies.BabySystem.GetBabies | src/frontend/babies.ts:45-50 | the list stored for the id, created empty when missing; the trail is untouched |
| Babies.BabySystem.OnIdentityChanged | src/frontend/babies.ts:53-59 | the map becomes RekeyAsWritten of the old one |
| Babies.BabySystem.OnIdentityChangedFixed | src/frontend/babies.ts:53-59 | the map becomes Rekey of the old one |
| Babies.BabySystem.CreateBabySquirrel | src/frontend/babies.ts:61-85 | the baby joins the scene and is appended to the id's list; for the local player the new count is shown and the sound plays |
| Babies.BabySystem.RemoveBabiesForPlayer | src/frontend/babies.ts:281-285 | every baby of the id leaves the scene, in list order, and only that entry is deleted |
| Babies.BabySystem.GetLocalBabyCount | src/frontend/babies.ts:287-289 | the length of the local id's list, whose entry is created empty when missing |
| Babies.BabySystem.UpdateMamaPath | src/frontend/babies.ts:259-275 | a point is recorded only when farther than PATH_SPACING from the last one; the trail is then push-then-shift of the old one and the last point moves; the trail never holds more than 100 points |
| Trees.ReplenishedOutcome | src/frontend/tree.ts:226-242 | a berry comes back if and only if it was collected at least 30000 ms ago (no time counts as time 0); an uncollected berry is left exactly as it was; a returning berry is shown, with its debug sphere |
| Trees.ReplenishBerries | src/frontend/tree.ts:226-243 | every entry of the berry list becomes Replenished of what it was; the list keeps its length and order |
| Trees.ReadyIndices | src/frontend/tree.ts:228-233 | the filter keeps exactly the ready berries, in list order |
| Trees.IsNearTree | src/frontend/tree.ts:165-180 | true if and only if some tree is within horizontal distance 2 and not below the position |
| Trees.FirstBerry | src/frontend/tree.ts:251-254 | `find` returns the first sibling that is a mesh and not a debug sphere, or none when there is no such sibling |
| Trees.Refreshed | src/frontend/tree.ts:245-258 | the siblings keep their number |
| Trees.FirstBerryUnchanged | src/frontend/tree.ts:251-255 | the refresh leaves the berry the spheres look up where it was |
| Trees.FirstBerryAgree | src/frontend/tree.ts:251-254 | siblings of the same kinds have the same first berry |
| Trees.RefreshedOutcome | src/frontend/tree.ts:245-258 | a debug sphere is visible if and only if debug is on, a sibling berry mesh exists and the first one is uncollected; other nodes are untouched; a second refresh changes nothing |
| Trees.RefreshGroup | src/frontend/tree.ts:247-256 | the walk over one parent's children gives Refreshed of them |
| Trees.FindBerry | src/frontend/tree.ts:251-254 | the search loop finds FirstBerry |
| Trees.FirstBerryAt | src/frontend/tree.ts:251-254 | a berry with no berry before it is the first |
| Trees.FirstBerryNone | src/frontend/tree.ts:251-254 | with no berry among the siblings there is none to find |
| Trees.UpdateDebugVisibility | src/frontend/tree.ts:245-258 | every sibling group of every tree becomes Refreshed of what it was |
| Movement.Removed | src/game/input/MovementController.ts:29 | a delete never lengthens the handler list |
| Movement.RemovedMembers | src/game/input/MovementController.ts:29 | after a delete exactly the other handlers remain, still distinct; one fewer when it was present, no change when it was not |
| Movement.AddedOutcome | src/game/input/MovementController.ts:17-27 | subscribing keeps the handlers distinct and adds exactly that handler; subscribing it twice leaves one entry |
| Movement.UnsubscribeUndoes | src/game/input/MovementController.ts:26-30 | the function subscribe returns removes exactly that handler: a new handler subscribed then unsubscribed leaves the handlers as they were |
| Movement.RemovedAppend | src/game/input/MovementController.ts:27-29 | deleting a handler just added at the end is deleting it from what was there |
| Movement.NotifyCalls | src/game/input/MovementController.ts:31-33 | one call per handler |
| Movement.NotifyCallsOnce | src/game/input/MovementController.ts:31-33 | a handler is called if and only if it is subscribed, with the state given, and no handler twice |
| Movement.MovementController.constructor | src/game/input/MovementController.ts:17 | no handlers |
| Movement.MovementController.Subscribe | src/game/input/MovementController.ts:26-28 | the handlers become Added of the old ones |
| Movement.MovementController.Unsubscribe | src/game/input/MovementController.ts:29 | the handlers become Removed of the old ones; the answer says whether the handler was there |
| Movement.MovementController.Notify | src/game/input/MovementController.ts:31-33 | every subscribed handler is called once, in order, with the state |
| Movement.MovementController.Cleanup | src/game/input/MovementController.ts:34-36 | the handlers are cleared |
| Keyboard.WithFlag | src/game/input/KeyboardController.ts:21-49 | exactly the named flag takes the value |
| Keyboard.KeyEventOutcome | src/game/input/KeyboardController.ts:18-94 | keydown sets and keyup clears exactly the flag of the key's direction, reporting a change if and only if the flag was otherwise before; an unmapped key changes nothing |
| Keyboard.RepeatIsSilent | src/game/input/KeyboardController.ts:24-54 | a repeated keydown, or a second keyup, is silent |
| Keyboard.PressReleaseRestores | src/game/input/KeyboardController.ts:18-94 | pressing and releasing a key not held leaves the flags as they were |
| Keyboard.KeyPairs | src/game/input/KeyboardController.ts:22-44 | W/ArrowUp, S/ArrowDown, A/ArrowLeft and D/ArrowRight map to up, down, left and right |
| Keyboard.KeyboardController.constructor | src/game/input/KeyboardController.ts:3-10 | all flags clear, no handlers, listening |
| Keyboard.KeyboardController.OnKeyDown | src/game/input/KeyboardController.ts:18-55 | the flags follow KeyEvent; the handlers get a copy of the new flags only when a flag changed |
| Keyboard.KeyboardController.OnKeyUp | src/game/input/KeyboardController.ts:57-94 | the flags follow KeyEvent; the handlers get a copy of the new flags only when a flag changed |
| Keyboard.KeyboardController.Cleanup | src/game/input/KeyboardController.ts:99-104 | both listeners are detached, then the handlers cleared |
| Touch.Abs | src/game/input/TouchController.ts:38 | the magnitude of the drag |
| Touch.Steered | src/game/input/TouchController.ts:33-44 | right if and only if Δx > 30, left if and only if Δx < −30, never both, neither within the threshold; up and down untouched |
| Touch.Started | src/game/input/TouchController.ts:23 | touchstart sets up and nothing else |
| Touch.DownNeverSet | src/game/input/TouchController.ts:17-57 | no touch handler ever sets down |
| Touch.Flags.constructor | src/game/input/TouchController.ts:5-10 | the flags start clear |
| Touch.TouchController.constructor | src/game/input/TouchController.ts:3-15 | clear flags, no handlers, start point at 0, listening |
| Touch.TouchController.OnTouchStart | src/game/input/TouchController.ts:17-26 | with exactly one touch the start is recorded, up is set and the handlers get the shared flags; any other count changes nothing |
| Touch.TouchController.OnTouchMove | src/game/input/TouchController.ts:28-48 | with exactly one touch the flags are Steered by the drag since the start and the handlers notified; otherwise nothing |
| Touch.TouchController.OnTouchEnd | src/game/input/TouchController.ts:50-62 | touchend and touchcancel clear all four flags and notify |
| Touch.TouchController.Cleanup | src/game/input/TouchController.ts:64-71 | the four listeners are detached, then the handlers cleared |
| Arith.RangeBounds | src/server/game-state.ts:15 | lo + u·(hi − lo) stays in [lo, hi], below hi when the range is not empty |
| Arith.ShrinkPositive | src/server/game-state.ts:47-50 | a positive measure scaled by a factor in (0, 1) shrinks and stays positive |
| Seqs.MapSeq | server/index.ts:84 | `.map` applies the function to every element, in order, keeping the length (used for the chunk and player id lists and for the berry counter's calls) |

## Left out

- Socket.IO transport: emits, broadcasts and `io.sockets.sockets` lookups. Handlers return lists of addressed events instead, and the set of connected socket ids is a parameter.
- Console logging, the DOM halves of the shop (`createStoreElement`) and of the console (focus, classList), the status bar and audio. These become effect records or are dropped.
- THREE geometry. Berry positions use supplied direction components in place of `cos`/`sin` of the orientation. Flocking (`updateBabyWithFlocking`) and the per-frame movement of `updateBabySquirrels` are out: only the target index and the target point it reads are modelled.
- Floating point. Vitality, positions and samples are `real`, so the repeated `− 0.1` of vitality decay is exact here and not a JavaScript double.
- `Math.random` and `uuid`. They are supplied as draw records with samples in [0, 1) and as strings; uuids are taken to be distinct. No distributions are modelled.
- The berry-index `while` loop of generateBerries, which terminates only with probability 1. It is modelled by its result: min(numBerries, branches) distinct indices in the order first picked.
- The mulberry32 seed is taken as a 32-bit pattern. The conversion of an arbitrary JavaScript number to that pattern by `| 0` is not modelled.
- `parseInt` on long digit strings loses precision as a double. The model reads digits exactly.
- `commandMap` is a plain object, so the console also finds keys inherited from `Object.prototype`. The model's table holds only the four `vibe` commands. What such a key does in the source:
  - `constructor` and `toString` run without effect.
  - `__proto__` is not a function, so calling it throws at src/frontend/command.ts:139.
  - `valueOf` and `hasOwnProperty` are called with `this` undefined, so they throw at the same line.
  - A throw comes before `closeConsole` (line 145): the console stays open, its input already cleared.
- The module-level `isDebugMode` flag and the shared music-track table are modelled as objects passed to their users (`Commands.DebugFlag`, `Shop.TrackTable`).
- A second `setupConsole` call would attach a second Enter listener. The model records only that the console is set up.
- Session.Connect: the chunks sent at connection time are not recorded in `loadedChunks`. The source does not record them either, so they can be sent again.
- Tree scene graphs. Berries are datatype values in an array, and updateDebugVisibility works on the sibling groups of each parent node. The traversal order and the aliasing between a berry mesh and its debug sphere are not modelled.
- `Date.now()` for replenishBerries is the `currentTime` parameter.
- createBabySquirrel's random placement of the new baby and its scale.
- Trees.Refreshed: the function's own ensures states only the length; what it means is stated by Trees.RefreshedOutcome.
- `touchStartY` is recorded as the source does, but nothing reads it.
- The updatePosition payload (`Session.PositionPayload`): its `state` is one of the three movement states or missing. The source's guard (server/index.ts:68) checks only that `state` is truthy, so any non-empty string reaches `updatePlayerState` and the echoes unchecked; the model does not represent such a string.
- GameState.Store.GetNearbyPlayers: returns the players in an unspecified order. The source filters the player Map in insertion order. The set of players returned, each once, is exact.
- Session.Session.ExchangePositions: the order of the `playerPositions` payload and of the echoes follows that unspecified order, not the Map's insertion order.
- The relay server in src/server/index.ts, the static file server, forest generation, rendering, physics, camera and debug panels.

## Findings

| source | as written | input that shows it | evidently intended | confidence | as-written member | corrected member |
|---|---|---|---|---|---|---|
| server/index.ts:191-202 | after a successful kiss, `addPlayer` is called on both ids to read the totals back, which replaces both records by spawn records | any accepted kiss between two players within distance 2: both `babyAdded` events report 0 and the kiss's babies, score and vitality are wiped | read the stored records back and report the counts after the kiss | high (not executed) | Session.Session.OnAcceptKiss, SessionSpec.KissThenRefreshLosesBabies | Session.Session.OnAcceptKissFixed, StoreSpec.KissOutcome |
| server/index.ts:215-225 | `playerGrounded` calls `addPlayer` first, resetting the player, then reports its babies and tests for game over | any `playerGrounded` event: `remainingBabies` is 0 and the gameOver/respawn branch never runs | look the stored record up and report its state without resetting it | high (not executed) | Session.Session.OnPlayerGrounded, SessionSpec.GroundedAsWrittenNeverEnds | Session.Session.OnPlayerGroundedFixed, SessionSpec.GroundedLookupReports |
| src/frontend/babies.ts:55-58 | the identity listener stores the list under newId and then deletes oldId | oldId == newId with babies listed (an identity event repeating the current id): the list is deleted | leave the map alone when the id does not change | low (not executed) | Babies.BabySystem.OnIdentityChanged, Babies.RekeyAsWrittenLosesSameId | Babies.BabySystem.OnIdentityChangedFixed, Babies.RekeyOutcome |
