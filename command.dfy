/** The client's `vibe…` cheat commands: the command parser and its
    handlers, the console that takes them, and the global key routing. */
module Commands {
  import opened Wrappers
  import opened Seqs
  import opened Decimal
  import BerryCounter

  datatype CommandType = Nom | Bb | Stronk | Dbg

  /** The command table's keys, in the order they are declared. */
  const CommandOrder: seq<CommandType> := [Nom, Bb, Stronk, Dbg]

  function Name(t: CommandType): string {
    match t
    case Nom => "nom"
    case Bb => "bb"
    case Stronk => "stronk"
    case Dbg => "dbg"
  }

  function DefaultQty(t: CommandType): (n: nat)
    ensures n > 0
  {
    match t
    case Nom => 10
    case Bb => 3
    case Stronk => 100
    case Dbg => 1
  }

  function Description(t: CommandType): string {
    match t
    case Nom => "berries"
    case Bb => "baby squirrels"
    case Stronk => "vitality"
    case Dbg => "debug mode"
  }

  /** `/vibe<name>[N]` for each command, joined with " or ". */
  function UsageExamples(ts: seq<CommandType>): string {
    if ts == [] then ""
    else if |ts| == 1 then "/vibe" + Name(ts[0]) + "[N]"
    else "/vibe" + Name(ts[0]) + "[N]" + " or " + UsageExamples(ts[1..])
  }

  /** The reply to anything the pattern rejects; its examples list every
      command in table order. */
  const InvalidText: string :=
    "Invalid command format. Use " + UsageExamples(CommandOrder) + " where N is optional quantity"

  /** A full match of `^vibe(nom|bb|stronk|dbg)([0-9]+)?$`: the command type
      and the digits after it (empty when the group did not take part). */
  datatype Match = Match(t: CommandType, digits: string)

  /** The command text as the pattern describes it. */
  predicate Spells(s: string, t: CommandType, digits: string) {
    s == "vibe" + Name(t) + digits && AllDigits(digits)
  }

  /** Tries the alternatives in order, each followed by optional digits up
      to the end of the text. */
  function MatchType(rest: string, ts: seq<CommandType>): (r: Option<Match>)
    ensures r.Some? ==> r.value.t in ts && rest == Name(r.value.t) + r.value.digits && AllDigits(r.value.digits)
  {
    if ts == [] then None
    else
      var n := Name(ts[0]);
      if |n| <= |rest| && rest[..|n|] == n && AllDigits(rest[|n|..]) then
        assert rest == n + rest[|n|..];
        Some(Match(ts[0], rest[|n|..]))
      else MatchType(rest, ts[1..])
  }

  function ParseCommand(s: string): Option<Match> {
    if |s| < 4 || s[..4] != "vibe" then None else MatchType(s[4..], CommandOrder)
  }

  /** The command names start with four different letters. */
  lemma FirstLettersDiffer(t: CommandType, u: CommandType)
    requires t != u
    ensures |Name(t)| > 0 && |Name(u)| > 0 && Name(t)[0] != Name(u)[0]
  {
  }

  lemma {:induction false} MatchTypeFinds(rest: string, ts: seq<CommandType>, t: CommandType, d: string)
    requires t in ts && rest == Name(t) + d && AllDigits(d)
    ensures MatchType(rest, ts) == Some(Match(t, d))
  {
    var n := Name(ts[0]);
    if ts[0] == t {
      assert rest[..|n|] == n && rest[|n|..] == d;
    } else {
      FirstLettersDiffer(t, ts[0]);
      assert rest[0] == Name(t)[0];
      assert |n| > |rest| || rest[..|n|] != n by {
        if |n| <= |rest| {
          assert rest[..|n|][0] == rest[0];
        }
      }
      MatchTypeFinds(rest, ts[1..], t, d);
    }
  }

  /** The parser accepts exactly the texts the pattern describes, and reads
      the type and digits back out of them. */
  lemma ParseCommandExact(s: string, t: CommandType, d: string)
    ensures ParseCommand(s) == Some(Match(t, d)) <==> Spells(s, t, d)
  {
    if ParseCommand(s) == Some(Match(t, d)) {
      ParseCommandSound(s);
    }
    if Spells(s, t, d) {
      ParseCommandComplete(s, t, d);
    }
  }

  lemma ParseCommandSound(s: string)
    requires ParseCommand(s).Some?
    ensures Spells(s, ParseCommand(s).value.t, ParseCommand(s).value.digits)
  {
    assert s == s[..4] + s[4..];
  }

  lemma ParseCommandComplete(s: string, t: CommandType, d: string)
    requires Spells(s, t, d)
    ensures ParseCommand(s) == Some(Match(t, d))
  {
    var rest := Name(t) + d;
    assert s == "vibe" + rest;
    assert s[..4] == "vibe" && s[4..] == rest;
    MatchTypeFinds(rest, CommandOrder, t, d);
  }

  /** parseInt(qty) || defaultQty: the digits when they are present and not
      zero, the default otherwise. */
  function Amount(m: Match): (n: nat)
    requires AllDigits(m.digits)
    ensures n > 0
    ensures m.digits != [] && ParseDigits(m.digits) > 0 ==> n == ParseDigits(m.digits)
  {
    var parsed := if m.digits == [] then 0 else ParseDigits(m.digits);
    if parsed == 0 then DefaultQty(m.t) else parsed
  }

  /** A quantity written out in digits comes back as the amount. */
  lemma AmountOfRendered(t: CommandType, n: nat)
    requires n > 0
    ensures Amount(Match(t, NatToString(n))) == n
    ensures Amount(Match(t, [])) == DefaultQty(t)
  {
    ParseRendered(n);
  }

  function ResultText(t: CommandType, amount: nat): string {
    "Added " + NatToString(amount) + " " + Description(t) + "!"
  }

  /** A call the command system makes into its dependencies. */
  datatype Effect =
    | BerryEvent(e: BerryCounter.Effect)
    | BabyCreated(playerId: string)
    | VitalityUpdated(vitality: real)
    | DebugVisibility(on: bool)
    | CursorUnlocked
    | CursorLockRequested
    | MuteToggled
    | StoreToggled

  /** The berry counter's calls, as calls of this module. */
  function BerryEvents(es: seq<BerryCounter.Effect>): seq<Effect> {
    MapSeq(es, (e: BerryCounter.Effect) => BerryEvent(e))
  }

  /** The state the handlers change: the berry count, `deps.vitality` and
      the global debug flag. */
  datatype CommandState = CommandState(berries: int, vitality: real, debug: bool)

  /** What one handler run does to the state, and the calls it makes. */
  function RunHandler(t: CommandType, amount: nat, st: CommandState, localId: string): (CommandState, seq<Effect>) {
    match t
    case Nom =>
      var c := BerryCounter.Clamp(st.berries, amount);
      (st.(berries := c), BerryEvents(BerryCounter.AddEffects(amount, c)))
    case Bb => (st, seq(amount, _ => BabyCreated(localId)))
    case Stronk =>
      var v := st.vitality + amount as real;
      (st.(vitality := v), [VitalityUpdated(v)])
    case Dbg => (st.(debug := !st.debug), [DebugVisibility(!st.debug)])
  }

  /** handleCommand over values: the reply, the new state and the calls. */
  function Handle(st: CommandState, command: string, localId: string): (string, CommandState, seq<Effect>) {
    match ParseCommand(command)
    case None => (InvalidText, st, [])
    case Some(m) =>
      ParseCommandExact(command, m.t, m.digits);
      var a := Amount(m);
      var (st', es) := RunHandler(m.t, a, st, localId);
      (ResultText(m.t, a), st', es)
  }

  /** A rejected command replies with the usage text and changes nothing;
      an accepted one replies `Added <amount> <description>!` and runs the
      handler of its type once, with the amount. */
  lemma HandleOutcome(st: CommandState, command: string, localId: string)
    ensures var (reply, st', es) := Handle(st, command, localId);
      && (ParseCommand(command).None? ==> reply == InvalidText && st' == st && es == [])
      && (ParseCommand(command).Some? ==>
            var m := ParseCommand(command).value;
            && AllDigits(m.digits)
            && reply == ResultText(m.t, Amount(m))
            && (st', es) == RunHandler(m.t, Amount(m), st, localId))
  {
    if ParseCommand(command).Some? {
      ParseCommandSound(command);
    }
  }

  /** Each handler does one thing: `nom` gains exactly the amount in berries
      and reports the new count last, `bb` creates exactly the amount of
      babies for the local player, `stronk` adds the amount to vitality and
      reports it, `dbg` flips the debug flag whatever the amount. */
  lemma RunHandlerOutcome(t: CommandType, a: nat, st: CommandState, localId: string)
    requires st.berries >= 0
    ensures var (st', es) := RunHandler(t, a, st, localId);
      && (t == Nom ==> st' == st.(berries := st.berries + a) && es[|es| - 1] == BerryEvent(BerryCounter.CountChanged(st.berries + a)))
      && (t == Bb ==> st' == st && |es| == a && forall i :: 0 <= i < |es| ==> es[i] == BabyCreated(localId))
      && (t == Stronk ==> st' == st.(vitality := st.vitality + a as real) && es == [VitalityUpdated(st.vitality + a as real)])
      && (t == Dbg ==> st' == st.(debug := !st.debug) && es == [DebugVisibility(!st.debug)])
  {
    if t == Nom {
      BerryCounter.ClampExact(st.berries, a);
      BerryCounter.AddEffectsShape(a, st.berries + a);
    }
  }

  /** The reply is the usage text exactly when the command is rejected. */
  lemma ReplyTellsRejection(st: CommandState, command: string, localId: string)
    ensures Handle(st, command, localId).0 == InvalidText <==> ParseCommand(command).None?
  {
    if ParseCommand(command).Some? {
      var m := ParseCommand(command).value;
      ParseCommandExact(command, m.t, m.digits);
      var r := ResultText(m.t, Amount(m));
      assert r[0] == 'A' && InvalidText[0] == 'I';
    }
  }

  /** The characters String.prototype.trim removes. */
  predicate IsJsSpace(c: char) {
    c == ' ' || c == '\t' || c == '\n' || c == '\r' || c == '\U{000B}' || c == '\U{000C}'
    || c == '\U{00A0}' || c == '\U{1680}' || ('\U{2000}' <= c <= '\U{200A}')
    || c == '\U{2028}' || c == '\U{2029}' || c == '\U{202F}' || c == '\U{205F}'
    || c == '\U{3000}' || c == '\U{FEFF}'
  }

  /** The text without its leading whitespace: only whitespace is removed,
      and the rest does not start with whitespace. */
  function TrimStart(s: string): (r: string)
    ensures |r| <= |s| && r == s[|s| - |r|..]
    ensures forall k :: 0 <= k < |s| - |r| ==> IsJsSpace(s[k])
    ensures r == [] || !IsJsSpace(r[0])
  {
    if s != [] && IsJsSpace(s[0]) then TrimStart(s[1..]) else s
  }

  /** The text without its trailing whitespace: only whitespace is removed,
      and the rest does not end with whitespace. */
  function TrimEnd(s: string): (r: string)
    ensures |r| <= |s| && r == s[..|r|]
    ensures forall k :: |r| <= k < |s| ==> IsJsSpace(s[k])
    ensures r == [] || !IsJsSpace(r[|r| - 1])
  {
    if s != [] && IsJsSpace(s[|s| - 1]) then TrimEnd(s[..|s| - 1]) else s
  }

  /** String.prototype.trim: the text with the whitespace at both ends
      removed, and no other character. */
  function Trim(s: string): (r: string)
    ensures exists i, j ::
              && 0 <= i <= j <= |s| && r == s[i..j]
              && (forall k :: 0 <= k < i ==> IsJsSpace(s[k]))
              && (forall k :: j <= k < |s| ==> IsJsSpace(s[k]))
    ensures r == [] || (!IsJsSpace(r[0]) && !IsJsSpace(r[|r| - 1]))
  {
    var l := TrimStart(s);
    var r := TrimEnd(l);
    var i, j := |s| - |l|, |s| - |l| + |r|;
    assert r == s[i..j];
    assert forall k :: j <= k < |s| ==> IsJsSpace(s[k]) by {
      forall k | j <= k < |s|
        ensures IsJsSpace(s[k])
      {
        assert s[k] == l[k - i];
      }
    }
    r
  }

  /** command.replace(/[0-9]+$/, ''): the text without its trailing digits. */
  function StripTrailingDigits(s: string): (r: string)
    ensures |r| <= |s| && r == s[..|r|] && AllDigits(s[|r|..])
    ensures r == [] || !IsDigit(r[|r| - 1])
  {
    if s != [] && IsDigit(s[|s| - 1]) then
      var r := StripTrailingDigits(s[..|s| - 1]);
      assert s[|r|..] == s[..|s| - 1][|r|..] + [s[|s| - 1]];
      r
    else s
  }

  /** The console's lookup table: `vibe` followed by each command name. */
  function ConsoleCommandType(base: string): Option<CommandType> {
    if base == "vibe" + Name(Nom) then Some(Nom)
    else if base == "vibe" + Name(Bb) then Some(Bb)
    else if base == "vibe" + Name(Stronk) then Some(Stronk)
    else if base == "vibe" + Name(Dbg) then Some(Dbg)
    else None
  }

  /** Whatever the console's table lets through, the parser accepts: Enter
      never produces the usage text. */
  lemma ConsoleDispatchAccepted(command: string)
    requires ConsoleCommandType(StripTrailingDigits(command)).Some?
    ensures ParseCommand(command) == Some(Match(ConsoleCommandType(StripTrailingDigits(command)).value, command[|StripTrailingDigits(command)|..]))
  {
    var base := StripTrailingDigits(command);
    var t := ConsoleCommandType(base).value;
    var d := command[|base|..];
    assert base == "vibe" + Name(t);
    assert command == base + d;
    ParseCommandExact(command, t, d);
  }

  /** The module-level debug flag the `dbg` command flips. */
  class DebugFlag {
    var on: bool

    constructor ()
      ensures !on
    {
      on := false;
    }
  }

  class CommandSystem {
    const berry: BerryCounter.Berry
    const debug: DebugFlag
    /** deps.vitality */
    var vitality: real
    var isConsoleOpen: bool
    /** Whether setupConsole has been given the console's elements. */
    var hasConsole: bool

    ghost function State(): CommandState
      reads this, berry, debug
    {
      CommandState(berry.count, vitality, debug.on)
    }

    /** createVibeCommands: the console is closed and not yet set up. */
    constructor (berry: BerryCounter.Berry, debug: DebugFlag, vitality: real)
      ensures this.berry == berry && this.debug == debug && this.vitality == vitality
      ensures !isConsoleOpen && !hasConsole
    {
      this.berry := berry;
      this.debug := debug;
      this.vitality := vitality;
      isConsoleOpen := false;
      hasConsole := false;
    }

    /** The `bb` handler: one baby for the local player per unit of quantity. */
    static method CreateBabies(qty: nat, localId: string) returns (effects: seq<Effect>)
      ensures |effects| == qty && forall i :: 0 <= i < qty ==> effects[i] == BabyCreated(localId)
    {
      effects := [];
      var i := 0;
      while i < qty
        invariant 0 <= i <= qty
        invariant |effects| == i && forall k :: 0 <= k < i ==> effects[k] == BabyCreated(localId)
      {
        effects := effects + [BabyCreated(localId)];
        i := i + 1;
      }
    }

    method HandleCommand(command: string, localId: string) returns (reply: string, effects: seq<Effect>)
      requires berry.Valid()
      modifies this, berry, debug
      ensures berry.Valid() && isConsoleOpen == old(isConsoleOpen) && hasConsole == old(hasConsole)
      ensures (reply, State(), effects) == Handle(old(State()), command, localId)
    {
      var parsed := ParseCommand(command);
      if parsed.None? {
        assert Handle(State(), command, localId) == (InvalidText, State(), []);
        return InvalidText, [];
      }
      var m := parsed.value;
      ParseCommandExact(command, m.t, m.digits);
      var amount := Amount(m);
      match m.t {
        case Nom =>
          var es := berry.Add(amount);
          effects := BerryEvents(es);
        case Bb =>
          effects := CreateBabies(amount, localId);
          assert effects == seq(amount, _ => BabyCreated(localId));
        case Stronk =>
          vitality := vitality + amount as real;
          effects := [VitalityUpdated(vitality)];
        case Dbg =>
          debug.on := !debug.on;
          effects := [DebugVisibility(debug.on)];
      }
      reply := ResultText(m.t, amount);
    }

    method OpenConsole() returns (effects: seq<Effect>)
      modifies this
      ensures hasConsole == old(hasConsole) && vitality == old(vitality)
      ensures isConsoleOpen == (old(isConsoleOpen) || hasConsole)
      ensures effects == if hasConsole then [CursorUnlocked] else []
    {
      if !hasConsole {
        return [];
      }
      isConsoleOpen := true;
      effects := [CursorUnlocked];
    }

    method CloseConsole() returns (effects: seq<Effect>)
      modifies this
      ensures hasConsole == old(hasConsole) && vitality == old(vitality)
      ensures isConsoleOpen == (old(isConsoleOpen) && !hasConsole)
      ensures effects == if hasConsole then [CursorLockRequested] else []
    {
      if !hasConsole {
        return [];
      }
      isConsoleOpen := false;
      effects := [CursorLockRequested];
    }

    /** Before setup nothing happens; afterwards open and closed alternate. */
    method ToggleConsole() returns (effects: seq<Effect>)
      modifies this
      ensures hasConsole == old(hasConsole) && vitality == old(vitality)
      ensures isConsoleOpen == (if hasConsole then !old(isConsoleOpen) else old(isConsoleOpen))
      ensures effects == if !hasConsole then [] else if old(isConsoleOpen) then [CursorLockRequested] else [CursorUnlocked]
    {
      if !hasConsole {
        return [];
      }
      if isConsoleOpen {
        effects := CloseConsole();
      } else {
        effects := OpenConsole();
      }
    }

    method SetupConsole()
      modifies this
      ensures hasConsole && isConsoleOpen == old(isConsoleOpen) && vitality == old(vitality)
    {
      hasConsole := true;
    }

    /** The console input's keydown listener, present once the console is set
        up. Enter takes the trimmed text, clears the input, runs the command
        when its name (trailing digits stripped) is in the table, and closes
        the console either way; Escape closes it. */
    method OnConsoleKey(key: string, value: string, localId: string) returns (newValue: string, effects: seq<Effect>)
      requires hasConsole && berry.Valid()
      modifies this, berry, debug
      ensures hasConsole && berry.Valid()
      ensures key == "Enter" ==>
        var command := Trim(value);
        && newValue == []
        && !isConsoleOpen
        && (ConsoleCommandType(StripTrailingDigits(command)).Some? ==>
              (State(), effects) == (Handle(old(State()), command, localId).1, Handle(old(State()), command, localId).2 + [CursorLockRequested]))
        && (ConsoleCommandType(StripTrailingDigits(command)).None? ==>
              State() == old(State()) && effects == [CursorLockRequested])
      ensures key == "Escape" ==> newValue == value && !isConsoleOpen && State() == old(State()) && effects == [CursorLockRequested]
      ensures key != "Enter" && key != "Escape" ==>
        newValue == value && isConsoleOpen == old(isConsoleOpen) && State() == old(State()) && effects == []
    {
      newValue := value;
      effects := [];
      if key == "Enter" {
        var command := Trim(value);
        newValue := [];
        var base := StripTrailingDigits(command);
        if ConsoleCommandType(base).Some? {
          var _, es := HandleCommand(command, localId);
          effects := es;
        }
        var closing := CloseConsole();
        effects := effects + closing;
      } else if key == "Escape" {
        effects := CloseConsole();
      }
    }

    /** The page's keydown routing: m or M toggles mute; `/` opens a closed
        console (and the key's default action is cancelled); the B key
        toggles the shop. */
    method HandleKeyDown(key: string, code: string) returns (effects: seq<Effect>, preventDefault: bool)
      modifies this
      ensures hasConsole == old(hasConsole) && vitality == old(vitality)
      ensures key == "m" || key == "M" ==> effects == [MuteToggled] && !preventDefault && isConsoleOpen == old(isConsoleOpen)
      ensures key != "m" && key != "M" && key == "/" && !old(isConsoleOpen) ==>
        preventDefault && effects == (if hasConsole then [CursorUnlocked] else []) && isConsoleOpen == hasConsole
      ensures key != "m" && key != "M" && !(key == "/" && !old(isConsoleOpen)) ==>
        !preventDefault && isConsoleOpen == old(isConsoleOpen) && effects == (if code == "KeyB" then [StoreToggled] else [])
    {
      preventDefault := false;
      effects := [];
      if key == "m" || key == "M" {
        effects := [MuteToggled];
      } else if key == "/" && !isConsoleOpen {
        preventDefault := true;
        effects := OpenConsole();
        return;
      } else if code == "KeyB" {
        effects := [StoreToggled];
      }
    }
  }
}
