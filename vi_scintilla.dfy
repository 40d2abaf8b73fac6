/**
 * The vi-compatible editor widget (trunk/editor/viscintilla.cpp): a modal
 * key-command machine. In normal and visual mode key presses are handed to
 * command objects (move, yank, cut, paste, insert, undo/redo) that consume
 * them one at a time, building up a command sequence such as "3l" or "y2y".
 *
 * The widget's text is outside the model: each key press is given the cursor
 * position and the length of the cursor's line, and what the commands do to
 * the widget (moving the cursor, selecting, copying, messages, ...) is
 * recorded as effects.
 */
module ViEditor {
  import opened Common

  /** Qt key codes of the keys the command table names. */
  const KeyEscape: int := 0x01000000
  const KeyLeft: int := 0x01000012
  const KeyUp: int := 0x01000013
  const KeyRight: int := 0x01000014
  const KeyDown: int := 0x01000015
  const KeyDollar: int := 0x24
  const Key0: int := 0x30
  const Key9: int := 0x39
  const KeyA: int := 0x41
  const KeyD: int := 0x44
  const KeyH: int := 0x48
  const KeyI: int := 0x49
  const KeyJ: int := 0x4a
  const KeyK: int := 0x4b
  const KeyL: int := 0x4c
  const KeyP: int := 0x50
  const KeyR: int := 0x52
  const KeyU: int := 0x55
  const KeyW: int := 0x57
  const KeyY: int := 0x59

  /** The largest value QString::toInt can return. */
  const IntMax: int := 0x7fff_ffff

  datatype Modifier = ShiftModifier | ControlModifier | AltModifier | MetaModifier | KeypadModifier

  /** A key press: its key code, the text it produces, and the modifiers held. */
  datatype KeyEvent = KeyEvent(key: int, text: string, modifiers: set<Modifier>)

  datatype EditMode = Disabled | InsertMode | NormalMode | VisualMode

  datatype ProcessResult = Continue | Done | Exit | NotHandled

  datatype CommandKind = MoveCmd | YankCmd | CutCmd | PasteCmd | InsertCmd | UndoRedoCmd

  /** A cursor position: line and column, both 0-based. */
  datatype Pos = Pos(line: int, column: int)

  /** Where a motion goes; the 'w' motion leaves its target unspecified. */
  datatype Target = At(line: int, column: int) | Unspecified

  datatype Caret = LineCaret | BlockCaret

  /** What the widget is asked to do, in order. */
  datatype Effect =
    | SetCursor(to: Target)
    | SetSelection(from: Pos, to: Target)
    | CopySelection
    | CutSelection
    | PasteClipboard
    | UndoEdit
    | RedoEdit
    | ScintillaKey(event: KeyEvent)
    | CaretStyle(caret: Caret)
    | EditModeChanged(mode: EditMode)
    | Message(text: string, ms: int)
    | Accept(accepted: bool)

  /** What a command's processKey returns: the result, the new sequence, and its effects. */
  datatype Processed = Processed(result: ProcessResult, sequence: string, effects: seq<Effect>)

  predicate IsDigit(c: char)
  {
    '0' <= c <= '9'
  }

  predicate AllDigits(s: string)
  {
    forall i :: 0 <= i < |s| ==> IsDigit(s[i])
  }

  /** The number a string of decimal digits denotes. */
  function DigitsValue(s: string): nat
    requires AllDigits(s)
    decreases |s|
  {
    if s == [] then 0 else DigitsValue(s[..|s| - 1]) * 10 + (s[|s| - 1] as int - '0' as int)
  }

  /**
   * QString::toInt on the strings a command sequence can hold (digits,
   * command letters): the value of a digit string that fits in an int, and 0
   * for anything else.
   */
  function ToInt(s: string): (n: int)
    ensures 0 <= n <= IntMax
    ensures n != 0 ==> s != [] && AllDigits(s) && DigitsValue(s) == n
    ensures s != [] && AllDigits(s) && DigitsValue(s) <= IntMax ==> n == DigitsValue(s)
  {
    if s != [] && AllDigits(s) && DigitsValue(s) <= IntMax then DigitsValue(s) else 0
  }

  /** The count a sequence stands for: 1 when empty, otherwise its integer value. */
  function StringToMultiplier(s: string): (n: int)
    ensures 0 <= n <= IntMax
    ensures s == [] ==> n == 1
    ensures s != [] && !AllDigits(s) ==> n == 0
  {
    if s == [] then 1 else ToInt(s)
  }

  /** The decimal digits of a number, without leading zeros. */
  function Decimal(n: nat): (s: string)
    ensures s != [] && AllDigits(s)
    ensures n > 0 ==> s[0] != '0'
    decreases n
  {
    if n < 10 then [('0' as int + n) as char]
    else Decimal(n / 10) + [('0' as int + n % 10) as char]
  }

  /** Typing a count in decimal gives back the count. */
  lemma {:induction false} DecimalValue(n: nat)
    ensures DigitsValue(Decimal(n)) == n
    decreases n
  {
    if n >= 10 {
      DecimalValue(n / 10);
      var s := Decimal(n);
      assert s[..|s| - 1] == Decimal(n / 10);
    }
  }

  /**
   * Counts round-trip through the sequence: the multiplier of the decimal
   * digits of a count between 1 and the largest int is that count, and the
   * empty sequence means 1.
   */
  lemma MultiplierOfDecimal(n: nat)
    requires 1 <= n <= IntMax
    ensures StringToMultiplier(Decimal(n)) == n
    ensures StringToMultiplier("") == 1
  {
    DecimalValue(n);
  }

  /** A sequence that still holds its command letter has multiplier 0. */
  lemma MultiplierOfCommandSequence(letter: char, digits: string)
    requires !IsDigit(letter)
    ensures StringToMultiplier([letter] + digits) == 0
  {
    assert ([letter] + digits)[0] == letter;
  }

  /** QChar::toLatin1: characters outside Latin-1 become NUL. */
  function Latin1(c: char): char
  {
    if c as int < 256 then c else 0 as char
  }

  /** Only Shift (or nothing) is held. */
  predicate AtMostShift(mods: set<Modifier>)
  {
    mods - {ShiftModifier} == {}
  }

  /** A key the move and insert commands consider: at most Shift held, at most one character of text. */
  predicate Plain(ev: KeyEvent)
  {
    AtMostShift(ev.modifiers) && |ev.text| <= 1
  }

  /** The keys a move command acts on: digits, h/j/k/l, w and $. */
  predicate IsMotionChar(c: char)
  {
    IsDigit(c) || c == 'l' || c == 'h' || c == 'k' || c == 'j' || c == 'w' || c == '$'
  }

  /** The keys that leave for insert mode. */
  predicate IsInsertChar(c: char)
  {
    c == 'i' || c == 'I' || c == 'a' || c == 'A'
  }

  /** The character a plain key types, read as Latin-1; none for other keys. */
  function TypedChar(ev: KeyEvent): Option<char>
  {
    if Plain(ev) && |ev.text| == 1 then Some(Latin1(ev.text[0])) else None
  }

  /** The motion key a move command interprets: arrows become h/j/k/l. */
  function MotionKey(ev: KeyEvent): Option<char>
  {
    if ev.key == KeyLeft then Some('h')
    else if ev.key == KeyRight then Some('l')
    else if ev.key == KeyUp then Some('k')
    else if ev.key == KeyDown then Some('j')
    else if |ev.text| == 1 then Some(Latin1(ev.text[0]))
    else None
  }

  /** The move-like commands, which differ only in their action. */
  datatype MoveAction = MoveTo | YankTo | CutTo

  /** The action of a move-like command from the cursor to a target. */
  function Action(kind: MoveAction, cur: Pos, target: Target): seq<Effect>
  {
    match kind
    case MoveTo => [SetCursor(target)]
    case YankTo => [SetSelection(cur, target), CopySelection]
    case CutTo => [SetSelection(cur, target), CutSelection]
  }

  /**
   * MoveCommand::processKey with the multiplier given. Digits extend the
   * sequence; '0' on an empty sequence goes to column 0; h/l/k/j move by the
   * multiplier; '$' goes to the last column of the line; 'w' goes to an
   * unspecified place. After acting, a non-empty sequence gets the key.
   */
  function MoveProcessWith(kind: MoveAction, multiplier: int, ev: KeyEvent, cur: Pos, lineLength: int, sequence: string): (r: Processed)
    ensures !Plain(ev) ==> r == Processed(NotHandled, sequence, [])
    ensures r.result != NotHandled ==> r.result == Continue || r.result == Done
    ensures r.result == NotHandled ==> r == Processed(NotHandled, sequence, [])
    ensures r.result == Continue ==> r.sequence == sequence + ev.text && r.effects == []
    ensures r.result == Done ==> MotionKey(ev).Some? && r.sequence == if sequence == [] then [] else sequence + [MotionKey(ev).value]
    ensures Plain(ev) && MotionKey(ev) == Some('0') && sequence == [] ==>
      r == Processed(Done, [], Action(kind, cur, At(cur.line, 0)))
    ensures Plain(ev) && MotionKey(ev).Some? && IsDigit(MotionKey(ev).value) && !(MotionKey(ev).value == '0' && sequence == []) ==>
      r == Processed(Continue, sequence + ev.text, [])
    ensures Plain(ev) && MotionKey(ev) == Some('l') ==> r.result == Done && r.effects == Action(kind, cur, At(cur.line, cur.column + multiplier))
    ensures Plain(ev) && MotionKey(ev) == Some('h') ==> r.result == Done && r.effects == Action(kind, cur, At(cur.line, cur.column - multiplier))
    ensures Plain(ev) && MotionKey(ev) == Some('k') ==> r.result == Done && r.effects == Action(kind, cur, At(cur.line - multiplier, cur.column))
    ensures Plain(ev) && MotionKey(ev) == Some('j') ==> r.result == Done && r.effects == Action(kind, cur, At(cur.line + multiplier, cur.column))
    ensures Plain(ev) && MotionKey(ev) == Some('$') ==> r.result == Done && r.effects == Action(kind, cur, At(cur.line, lineLength - 1))
    ensures Plain(ev) && MotionKey(ev) == Some('w') ==> r.result == Done && r.effects == Action(kind, cur, Unspecified)
    ensures r.result != NotHandled <==> Plain(ev) && MotionKey(ev).Some? && IsMotionChar(MotionKey(ev).value)
  {
    if !Plain(ev) then Processed(NotHandled, sequence, [])
    else match MotionKey(ev)
      case None => Processed(NotHandled, sequence, [])
      case Some(key) =>
        var target :=
          if key == '0' && sequence == [] then Some(At(cur.line, 0))
          else if IsDigit(key) then None
          else if key == 'l' then Some(At(cur.line, cur.column + multiplier))
          else if key == 'h' then Some(At(cur.line, cur.column - multiplier))
          else if key == 'k' then Some(At(cur.line - multiplier, cur.column))
          else if key == 'j' then Some(At(cur.line + multiplier, cur.column))
          else if key == 'w' then Some(Unspecified)
          else if key == '$' then Some(At(cur.line, lineLength - 1))
          else None;
        if target.Some? then
          Processed(Done, if sequence != [] then sequence + [key] else sequence, Action(kind, cur, target.value))
        else if IsDigit(key) then Processed(Continue, sequence + ev.text, [])
        else Processed(NotHandled, sequence, [])
  }

  /** The count typed so far: the sequence without a leading y or d. */
  function CountDigits(kind: MoveAction, sequence: string): string
  {
    if kind != MoveTo && sequence != [] then sequence[1..] else sequence
  }

  /** MoveCommand::processKey as the yank and cut commands should use it: the count excludes the command letter. */
  function MoveProcess(kind: MoveAction, ev: KeyEvent, cur: Pos, lineLength: int, sequence: string): Processed
  {
    MoveProcessWith(kind, StringToMultiplier(CountDigits(kind, sequence)), ev, cur, lineLength, sequence)
  }

  /** MoveCommand::processKey as written: the multiplier is read from the whole sequence. */
  function MoveProcessAsWritten(kind: MoveAction, ev: KeyEvent, cur: Pos, lineLength: int, sequence: string): Processed
  {
    MoveProcessWith(kind, StringToMultiplier(sequence), ev, cur, lineLength, sequence)
  }

  /** Moving alone never has a command letter, so both readings agree on it. */
  lemma MoveUnaffected(ev: KeyEvent, cur: Pos, lineLength: int, sequence: string)
    ensures MoveProcess(MoveTo, ev, cur, lineLength, sequence) == MoveProcessAsWritten(MoveTo, ev, cur, lineLength, sequence)
  {
  }

  /** The letter that starts and repeats a line command. */
  function Letter(kind: MoveAction): string
  {
    if kind == YankTo then "y" else "d"
  }

  /**
   * YankCommand/CutCommand::processKey around the result `motion` of reading
   * the key as a motion: the first key must be the command letter; the
   * letter again acts on whole lines, from column 0 of the cursor's line to
   * column 0 of the line the count below it; any other key is the motion.
   */
  function LineCommandWith(kind: MoveAction, ev: KeyEvent, cur: Pos, sequence: string, motion: Processed): Processed
  {
    if sequence == [] then
      if ev.text == Letter(kind) then Processed(Continue, Letter(kind), []) else Processed(NotHandled, sequence, [])
    else if ev.text == Letter(kind) then
      var lines := StringToMultiplier(sequence[1..]);
      Processed(Done, sequence + Letter(kind), Action(kind, Pos(cur.line, 0), At(cur.line + lines, 0)))
    else motion
  }

  /** The yank and cut commands, with motions counted without the command letter. */
  function LineCommandProcess(kind: MoveAction, ev: KeyEvent, cur: Pos, lineLength: int, sequence: string): (r: Processed)
    ensures sequence == [] ==> r.result != Done && (r.result == Continue <==> ev.text == Letter(kind))
    ensures sequence == [] && ev.text == Letter(kind) ==> r == Processed(Continue, Letter(kind), [])
    ensures sequence != [] && ev.text == Letter(kind) ==>
      r == Processed(Done, sequence + Letter(kind), Action(kind, Pos(cur.line, 0), At(cur.line + StringToMultiplier(sequence[1..]), 0)))
    ensures kind != MoveTo && sequence != [] && ev.text != Letter(kind) ==>
      r == MoveProcessWith(kind, StringToMultiplier(sequence[1..]), ev, cur, lineLength, sequence)
  {
    LineCommandWith(kind, ev, cur, sequence, MoveProcess(kind, ev, cur, lineLength, sequence))
  }

  /** The yank and cut commands as written, with motions counted from the whole sequence. */
  function LineCommandProcessAsWritten(kind: MoveAction, ev: KeyEvent, cur: Pos, lineLength: int, sequence: string): (r: Processed)
    ensures sequence == [] || ev.text == Letter(kind) ==> r == LineCommandProcess(kind, ev, cur, lineLength, sequence)
    ensures sequence != [] && ev.text != Letter(kind) ==>
      r == MoveProcessWith(kind, StringToMultiplier(sequence), ev, cur, lineLength, sequence)
  {
    LineCommandWith(kind, ev, cur, sequence, MoveProcessAsWritten(kind, ev, cur, lineLength, sequence))
  }

  /** PasteCommand::processKey. */
  function PasteProcess(ev: KeyEvent, sequence: string): (r: Processed)
    ensures r.sequence == sequence
    ensures r.result == Done || r.result == NotHandled
    ensures r.result == Done <==> ev.text == "p"
    ensures r.effects == if r.result == Done then [PasteClipboard] else []
  {
    if ev.text == "p" then Processed(Done, sequence, [PasteClipboard]) else Processed(NotHandled, sequence, [])
  }

  /**
   * InsertCommand::processKey: i leaves the cursor, I goes to column 0, a one
   * column right, A to the last column of the line; each then exits to
   * insert mode. A key without text reads as NUL and is not handled.
   */
  function InsertProcess(ev: KeyEvent, cur: Pos, lineLength: int, sequence: string): (r: Processed)
    ensures r.result == Exit || r.result == NotHandled
    ensures r.sequence == sequence
    ensures r.result == Exit <==> TypedChar(ev).Some? && IsInsertChar(TypedChar(ev).value)
    ensures TypedChar(ev) == Some('i') ==> r.effects == []
    ensures TypedChar(ev) == Some('I') ==> r.effects == [SetCursor(At(cur.line, 0))]
    ensures TypedChar(ev) == Some('a') ==> r.effects == [SetCursor(At(cur.line, cur.column + 1))]
    ensures TypedChar(ev) == Some('A') ==> r.effects == [SetCursor(At(cur.line, lineLength - 1))]
    ensures r.result == NotHandled ==> r.effects == []
  {
    if !Plain(ev) then Processed(NotHandled, sequence, [])
    else
      var key := if |ev.text| == 1 then Latin1(ev.text[0]) else 0 as char;
      if key == 'i' then Processed(Exit, sequence, [])
      else if key == 'I' then Processed(Exit, sequence, [SetCursor(At(cur.line, 0))])
      else if key == 'a' then Processed(Exit, sequence, [SetCursor(At(cur.line, cur.column + 1))])
      else if key == 'A' then Processed(Exit, sequence, [SetCursor(At(cur.line, lineLength - 1))])
      else Processed(NotHandled, sequence, [])
  }

  /** UndoRedoCommand::processKey: u undoes, Ctrl+R (and nothing else held) redoes. */
  function UndoRedoProcess(ev: KeyEvent, sequence: string): (r: Processed)
    ensures r.sequence == sequence
    ensures r.result == Done || r.result == NotHandled
    ensures ev.text == "u" ==> r.result == Done && r.effects == [UndoEdit]
    ensures ev.text != "u" ==> (r.result == Done <==> ev.key == KeyR && ev.modifiers == {ControlModifier})
    ensures ev.text != "u" && r.result == Done ==> r.effects == [RedoEdit]
    ensures r.result == NotHandled ==> r.effects == []
  {
    if ev.text == "u" then Processed(Done, sequence, [UndoEdit])
    else if ev.key == KeyR && ev.modifiers == {ControlModifier} then Processed(Done, sequence, [RedoEdit])
    else Processed(NotHandled, sequence, [])
  }

  /** The processKey of each command. */
  function Process(cmd: CommandKind, ev: KeyEvent, cur: Pos, lineLength: int, sequence: string): (r: Processed)
    ensures r.result == NotHandled ==> r.effects == []
    ensures r.result == Continue ==> cmd == MoveCmd || cmd == YankCmd || cmd == CutCmd
    ensures r.result == Exit <==> cmd == InsertCmd && r.result != NotHandled
    ensures cmd != MoveCmd && cmd != YankCmd && cmd != CutCmd ==> r.sequence == sequence
  {
    match cmd
    case MoveCmd => MoveProcess(MoveTo, ev, cur, lineLength, sequence)
    case YankCmd =>
      LineCommandProcess(YankTo, ev, cur, lineLength, sequence)
    case CutCmd =>
      LineCommandProcess(CutTo, ev, cur, lineLength, sequence)
    case PasteCmd => PasteProcess(ev, sequence)
    case InsertCmd => InsertProcess(ev, cur, lineLength, sequence)
    case UndoRedoCmd => UndoRedoProcess(ev, sequence)
  }

  /** The key-to-command table (CommandHash): the commands registered for a key. */
  function CommandsFor(key: int): (cmds: seq<CommandKind>)
    ensures |cmds| <= 1
  {
    if Key0 <= key <= Key9 || key in {KeyL, KeyH, KeyK, KeyJ, KeyW, KeyLeft, KeyRight, KeyUp, KeyDown, KeyDollar} then [MoveCmd]
    else if key == KeyY then [YankCmd]
    else if key == KeyD then [CutCmd]
    else if key == KeyP then [PasteCmd]
    else if key == KeyI || key == KeyA then [InsertCmd]
    else if key == KeyU || key == KeyR then [UndoRedoCmd]
    else []
  }

  /** The state of the machine: the mode, the command in progress, and the sequence so far. */
  datatype ViState = ViState(mode: EditMode, command: Option<CommandKind>, sequence: string)

  /** A state and the effects that led to it. */
  datatype Reaction = Reaction(state: ViState, effects: seq<Effect>)

  /** The caret each mode shows. */
  function CaretFor(mode: EditMode): Caret
  {
    if mode == Disabled || mode == InsertMode then LineCaret else BlockCaret
  }

  /** setEditMode's effects: a caret change and a notification, only when the mode changes. */
  function ModeChangeEffects(current: EditMode, mode: EditMode): (e: seq<Effect>)
    ensures e == [] <==> mode == current
  {
    if mode != current then [CaretStyle(CaretFor(mode)), EditModeChanged(mode)] else []
  }

  /**
   * Trying the commands registered for a key, in order, on an empty
   * sequence: the first one that handles the key becomes the current command.
   */
  function FirstHandler(cmds: seq<CommandKind>, ev: KeyEvent, cur: Pos, lineLength: int): (r: (Processed, Option<CommandKind>))
    ensures r.1.Some? <==> r.0.result != NotHandled
    decreases |cmds|
  {
    if cmds == [] then (Processed(NotHandled, "", []), None)
    else
      var p := Process(cmds[0], ev, cur, lineLength, "");
      if p.result != NotHandled then (p, Some(cmds[0])) else FirstHandler(cmds[1..], ev, cur, lineLength)
  }

  /**
   * The search of keyPressEvent for a command: tries the commands registered
   * for the key in order until one handles it.
   */
  method FindHandler(ev: KeyEvent, cur: Pos, lineLength: int) returns (p: Processed, cmd: Option<CommandKind>)
    ensures (p, cmd) == FirstHandler(CommandsFor(ev.key), ev, cur, lineLength)
    ensures cmd.Some? <==> p.result != NotHandled
  {
    var cmdList := CommandsFor(ev.key);
    p := Processed(NotHandled, "", []);
    cmd := None;
    var i := 0;
    while i < |cmdList|
      invariant 0 <= i <= |cmdList|
      invariant p == Processed(NotHandled, "", []) && cmd.None?
      invariant FirstHandler(cmdList, ev, cur, lineLength) == FirstHandler(cmdList[i..], ev, cur, lineLength)
    {
      assert cmdList[i..][1..] == cmdList[i + 1..];
      var q := Process(cmdList[i], ev, cur, lineLength, "");
      if q.result != NotHandled {
        return q, Some(cmdList[i]);
      }
      i := i + 1;
    }
  }

  /** The report of a non-empty sequence and the acceptance of the key. */
  function Report(sequence: string): seq<Effect>
  {
    (if sequence != [] then [Message(sequence, 1000)] else []) + [Accept(true)]
  }

  /**
   * Handling a command's result: Continue keeps the command; Exit switches
   * to insert mode; Exit and Done drop the command but keep the sequence for
   * display; NotHandled drops both, reports a bad sequence and rejects the key.
   */
  function Conclude(s: ViState, p: Processed, cmd: Option<CommandKind>): (r: Reaction)
    ensures p.result == Continue ==> r.state == s.(command := cmd, sequence := p.sequence)
    ensures p.result == Exit ==> r.state == s.(mode := InsertMode, command := None, sequence := p.sequence)
    ensures p.result == Done ==> r.state == s.(command := None, sequence := p.sequence)
    ensures p.result == NotHandled ==> r.state == s.(command := None, sequence := "")
    ensures r.effects != [] && (p.result == NotHandled <==> r.effects[|r.effects| - 1] == Accept(false))
  {
    match p.result
    case Continue => Reaction(s.(command := cmd, sequence := p.sequence), p.effects + Report(p.sequence))
    case Exit =>
      Reaction(s.(mode := InsertMode, command := None, sequence := p.sequence),
        p.effects + ModeChangeEffects(s.mode, InsertMode) + Report(p.sequence))
    case Done => Reaction(s.(command := None, sequence := p.sequence), p.effects + Report(p.sequence))
    case NotHandled =>
      Reaction(s.(command := None, sequence := ""),
        p.effects + [Message("Bad sequence: " + p.sequence, 2000), Accept(false)])
  }

  /** Effect logs grow by appending; how the appends are grouped does not matter. */
  lemma AppendAssoc(log: seq<Effect>, a: seq<Effect>, b: seq<Effect>, c: seq<Effect>)
    ensures log + a + b + c == log + (a + b + c)
    ensures log + a + c == log + (a + c)
    ensures a + [] + c == a + c
  {
  }

  /** Whether the effects of a key hand it to the underlying editor. */
  predicate PassedOn(effects: seq<Effect>, ev: KeyEvent)
  {
    effects == [ScintillaKey(ev)]
  }

  /**
   * keyPressEvent. Disabled hands every key to the editor. Insert mode hands
   * on everything except an unmodified ESC, which switches to normal mode.
   * Normal and visual mode feed the key to the current command or, if there
   * is none, to the command registered for the key.
   */
  function KeyPress(s: ViState, ev: KeyEvent, cur: Pos, lineLength: int): (r: Reaction)
    ensures s.mode == Disabled ==> r.state == s && PassedOn(r.effects, ev)
    ensures s.mode == InsertMode ==>
      if ev.key == KeyEscape && ev.modifiers == {} then
        r.state == s.(mode := NormalMode) && r.effects == [CaretStyle(BlockCaret), EditModeChanged(NormalMode), Accept(true)]
      else r.state == s && PassedOn(r.effects, ev)
  {
    match s.mode
    case Disabled => Reaction(s, [ScintillaKey(ev)])
    case InsertMode =>
      if ev.key == KeyEscape && ev.modifiers == {} then
        Reaction(s.(mode := NormalMode), ModeChangeEffects(InsertMode, NormalMode) + [Accept(true)])
      else Reaction(s, [ScintillaKey(ev)])
    case _ =>
      if s.command.Some? then
        Conclude(s, Process(s.command.value, ev, cur, lineLength, s.sequence), s.command)
      else
        var (p, cmd) := FirstHandler(CommandsFor(ev.key), ev, cur, lineLength);
        Conclude(s, p, cmd)
  }

  /** A run of key presses with the cursor and line length fixed; effects accumulate. */
  function Presses(s: ViState, evs: seq<KeyEvent>, cur: Pos, lineLength: int): Reaction
    decreases |evs|
  {
    if evs == [] then Reaction(s, [])
    else
      var r := KeyPress(s, evs[0], cur, lineLength);
      var rest := Presses(r.state, evs[1..], cur, lineLength);
      Reaction(rest.state, r.effects + rest.effects)
  }

  /** The key press of an unmodified character key with code `key`. */
  function CharEvent(key: int, c: char): KeyEvent
  {
    KeyEvent(key, [c], {})
  }

  /** The key press that types one digit. */
  function DigitEvent(c: char): KeyEvent
  {
    CharEvent(Key0 + (c as int - '0' as int), c)
  }

  /** The key presses that type a string of digits. */
  function DigitEvents(ds: string): (evs: seq<KeyEvent>)
    ensures |evs| == |ds|
    decreases |ds|
  {
    if ds == [] then [] else [DigitEvent(ds[0])] + DigitEvents(ds[1..])
  }

  /** Normal or visual mode with no command in progress. */
  predicate Idle(s: ViState)
  {
    (s.mode == NormalMode || s.mode == VisualMode) && s.command.None?
  }

  /** The command each move-like action belongs to. */
  function CommandOf(kind: MoveAction): CommandKind
  {
    match kind
    case MoveTo => MoveCmd
    case YankTo => YankCmd
    case CutTo => CutCmd
  }

  /** A digit typed into a move-like command with a sequence under way extends the sequence. */
  lemma DigitPressExtends(s: ViState, kind: MoveAction, c: char, cur: Pos, lineLength: int)
    requires (s.mode == NormalMode || s.mode == VisualMode) && s.command == Some(CommandOf(kind))
    requires s.sequence != [] && IsDigit(c)
    ensures KeyPress(s, DigitEvent(c), cur, lineLength)
         == Reaction(s.(sequence := s.sequence + [c]), [Message(s.sequence + [c], 1000), Accept(true)])
  {
    var ev := DigitEvent(c);
    assert MotionKey(ev) == Some(c);
    assert MoveProcess(kind, ev, cur, lineLength, s.sequence) == Processed(Continue, s.sequence + [c], []);
    if kind != MoveTo {
      assert ev.text != Letter(kind);
    }
  }

  /** A non-zero digit with no command in progress starts a move command. */
  lemma FirstDigitStarts(s: ViState, c: char, cur: Pos, lineLength: int)
    requires Idle(s) && '1' <= c <= '9'
    ensures KeyPress(s, DigitEvent(c), cur, lineLength)
         == Reaction(s.(command := Some(MoveCmd), sequence := [c]), [Message([c], 1000), Accept(true)])
  {
    var ev := DigitEvent(c);
    assert CommandsFor(ev.key) == [MoveCmd];
    assert MotionKey(ev) == Some(c);
    assert MoveProcess(MoveTo, ev, cur, lineLength, "") == Processed(Continue, [c], []);
  }

  /**
   * Digits typed into a move-like command with a sequence under way are
   * appended to the sequence, one by one.
   */
  lemma {:induction false} DigitsExtend(t: ViState, kind: MoveAction, ds: string, cur: Pos, lineLength: int)
    requires (t.mode == NormalMode || t.mode == VisualMode) && t.command == Some(CommandOf(kind))
    requires t.sequence != [] && AllDigits(ds)
    ensures Presses(t, DigitEvents(ds), cur, lineLength).state == t.(sequence := t.sequence + ds)
    decreases |ds|
  {
    if ds == [] {
      assert t.sequence + ds == t.sequence;
    } else {
      var next := t.(sequence := t.sequence + [ds[0]]);
      DigitsSplit(t.sequence, ds);
      FirstDigitOfMany(t, kind, ds, cur, lineLength);
      DigitsExtend(next, kind, ds[1..], cur, lineLength);
    }
  }

  /** Appending digits one at a time appends them all. */
  lemma DigitsSplit(prefix: string, ds: string)
    requires ds != [] && AllDigits(ds)
    ensures IsDigit(ds[0]) && AllDigits(ds[1..])
    ensures (prefix + [ds[0]]) + ds[1..] == prefix + ds
  {
    assert forall i :: 0 <= i < |ds[1..]| ==> ds[1..][i] == ds[i + 1];
  }

  /** The first of several digits typed into a move-like command. */
  lemma FirstDigitOfMany(t: ViState, kind: MoveAction, ds: string, cur: Pos, lineLength: int)
    requires (t.mode == NormalMode || t.mode == VisualMode) && t.command == Some(CommandOf(kind))
    requires t.sequence != [] && ds != [] && IsDigit(ds[0])
    ensures Presses(t, DigitEvents(ds), cur, lineLength).state
         == Presses(t.(sequence := t.sequence + [ds[0]]), DigitEvents(ds[1..]), cur, lineLength).state
  {
    var evs := DigitEvents(ds);
    assert evs[0] == DigitEvent(ds[0]) && evs[1..] == DigitEvents(ds[1..]);
    DigitPressExtends(t, kind, ds[0], cur, lineLength);
  }

  /**
   * Typing a count (digits not starting with 0) with no command in progress
   * starts a move command whose sequence is the count.
   */
  lemma CountAccumulates(s: ViState, ds: string, cur: Pos, lineLength: int)
    requires Idle(s) && ds != [] && AllDigits(ds) && ds[0] != '0'
    ensures Presses(s, DigitEvents(ds), cur, lineLength).state == s.(command := Some(MoveCmd), sequence := ds)
  {
    var first := s.(command := Some(MoveCmd), sequence := [ds[0]]);
    DigitsSplit([], ds);
    FirstCountDigit(s, ds, cur, lineLength);
    DigitsExtend(first, MoveTo, ds[1..], cur, lineLength);
  }

  /** The first digit of a count typed with no command in progress. */
  lemma FirstCountDigit(s: ViState, ds: string, cur: Pos, lineLength: int)
    requires Idle(s) && ds != [] && '1' <= ds[0] <= '9'
    ensures Presses(s, DigitEvents(ds), cur, lineLength).state
         == Presses(s.(command := Some(MoveCmd), sequence := [ds[0]]), DigitEvents(ds[1..]), cur, lineLength).state
  {
    var evs := DigitEvents(ds);
    assert evs[0] == DigitEvent(ds[0]) && evs[1..] == DigitEvents(ds[1..]);
    FirstDigitStarts(s, ds[0], cur, lineLength);
  }

  /**
   * A counted motion: after a count N, typed without a leading zero and
   * fitting in an int, 'l' asks for the cursor N columns to the right, ends
   * the command and displays the whole sequence.
   */
  lemma CountedMotion(s: ViState, ds: string, cur: Pos, lineLength: int)
    requires Idle(s) && ds != [] && AllDigits(ds) && ds[0] != '0' && DigitsValue(ds) <= IntMax
    ensures KeyPress(Presses(s, DigitEvents(ds), cur, lineLength).state, CharEvent(KeyL, 'l'), cur, lineLength)
         == Reaction(s.(command := None, sequence := ds + "l"),
                     [SetCursor(At(cur.line, cur.column + DigitsValue(ds))), Message(ds + "l", 1000), Accept(true)])
  {
    CountAccumulates(s, ds, cur, lineLength);
    CountedMotionAfter(s, ds, Presses(s, DigitEvents(ds), cur, lineLength).state, cur, lineLength);
  }

  /** 'l' once the count is typed; the count fits in an int, so it is the multiplier. */
  lemma CountedMotionAfter(s: ViState, ds: string, typed: ViState, cur: Pos, lineLength: int)
    requires (s.mode == NormalMode || s.mode == VisualMode) && ds != [] && AllDigits(ds) && DigitsValue(ds) <= IntMax
    requires typed == s.(command := Some(MoveCmd), sequence := ds)
    ensures KeyPress(typed, CharEvent(KeyL, 'l'), cur, lineLength)
         == Reaction(s.(command := None, sequence := ds + "l"),
                     [SetCursor(At(cur.line, cur.column + DigitsValue(ds))), Message(ds + "l", 1000), Accept(true)])
  {
    assert StringToMultiplier(ds) == DigitsValue(ds);
    CountedMotionPress(typed, cur, lineLength);
  }

  /** 'l' in a move command whose sequence is a count moves right by the count. */
  lemma CountedMotionPress(t: ViState, cur: Pos, lineLength: int)
    requires (t.mode == NormalMode || t.mode == VisualMode) && t.command == Some(MoveCmd)
    requires t.sequence != [] && AllDigits(t.sequence)
    ensures KeyPress(t, CharEvent(KeyL, 'l'), cur, lineLength)
         == Reaction(t.(command := None, sequence := t.sequence + "l"),
                     [SetCursor(At(cur.line, cur.column + StringToMultiplier(t.sequence))),
                      Message(t.sequence + "l", 1000), Accept(true)])
  {
    var ev := CharEvent(KeyL, 'l');
    assert MotionKey(ev) == Some('l');
    assert MoveProcess(MoveTo, ev, cur, lineLength, t.sequence)
        == Processed(Done, t.sequence + "l", [SetCursor(At(cur.line, cur.column + StringToMultiplier(t.sequence)))]);
  }

  /** After the first 'y' or 'd', further digits extend the count of the line command. */
  lemma LineCountAccumulates(s: ViState, kind: MoveAction, ds: string, cur: Pos, lineLength: int)
    requires kind != MoveTo
    requires (s.mode == NormalMode || s.mode == VisualMode) && s.command == Some(CommandOf(kind)) && s.sequence == Letter(kind)
    requires AllDigits(ds)
    ensures Presses(s, DigitEvents(ds), cur, lineLength).state == s.(sequence := Letter(kind) + ds)
  {
    DigitsExtend(s, kind, ds, cur, lineLength);
  }

  /** The key that types a line command's letter. */
  function LetterEvent(kind: MoveAction): KeyEvent
  {
    KeyEvent(if kind == YankTo then KeyY else KeyD, Letter(kind), {})
  }

  /** The first 'y' or 'd' only starts its command. */
  lemma LetterStarts(s: ViState, kind: MoveAction, cur: Pos, lineLength: int)
    requires kind != MoveTo && Idle(s)
    ensures KeyPress(s, LetterEvent(kind), cur, lineLength)
         == Reaction(s.(command := Some(CommandOf(kind)), sequence := Letter(kind)), [Message(Letter(kind), 1000), Accept(true)])
  {
    assert CommandsFor(LetterEvent(kind).key) == [CommandOf(kind)];
  }

  /** The letter again, after the letter and a count, acts on whole lines and ends the command. */
  lemma LetterCompletes(s: ViState, kind: MoveAction, ds: string, cur: Pos, lineLength: int)
    requires kind != MoveTo
    requires (s.mode == NormalMode || s.mode == VisualMode) && s.command == Some(CommandOf(kind))
    requires s.sequence == Letter(kind) + ds
    ensures KeyPress(s, LetterEvent(kind), cur, lineLength)
         == Reaction(s.(command := None, sequence := Letter(kind) + ds + Letter(kind)),
                     Action(kind, Pos(cur.line, 0), At(cur.line + StringToMultiplier(ds), 0))
                     + [Message(Letter(kind) + ds + Letter(kind), 1000), Accept(true)])
  {
    assert s.sequence[1..] == ds;
    var p := Process(CommandOf(kind), LetterEvent(kind), cur, lineLength, s.sequence);
    assert p == Processed(Done, Letter(kind) + ds + Letter(kind), Action(kind, Pos(cur.line, 0), At(cur.line + StringToMultiplier(ds), 0)));
  }

  /**
   * yy and y<N>y: the first 'y' only starts the command; after an optional
   * count, a second 'y' selects from column 0 of the cursor's line to column
   * 0 of the line N below (N = 1 without a count) and copies. dd and d<N>d do
   * the same and cut.
   */
  lemma LinesCommand(s: ViState, kind: MoveAction, ds: string, cur: Pos, lineLength: int)
    requires kind != MoveTo && Idle(s) && AllDigits(ds)
    ensures var started := KeyPress(s, LetterEvent(kind), cur, lineLength);
      var counted := Presses(started.state, DigitEvents(ds), cur, lineLength);
      var r := KeyPress(counted.state, LetterEvent(kind), cur, lineLength);
      && r.effects == Action(kind, Pos(cur.line, 0), At(cur.line + StringToMultiplier(ds), 0))
                      + [Message(Letter(kind) + ds + Letter(kind), 1000), Accept(true)]
      && r.state == s.(command := None, sequence := Letter(kind) + ds + Letter(kind))
  {
    LetterStarts(s, kind, cur, lineLength);
    var started := s.(command := Some(CommandOf(kind)), sequence := Letter(kind));
    LineCountAccumulates(started, kind, ds, cur, lineLength);
    LetterCompletes(started.(sequence := Letter(kind) + ds), kind, ds, cur, lineLength);
  }

  /**
   * y<count><motion> as written: the motion reads its count from the whole
   * sequence, which still starts with the command letter, so the count is 0
   * and "yl" or "y3l" selects nothing.
   */
  lemma LineMotionAsWrittenSelectsNothing(kind: MoveAction, ds: string, cur: Pos, lineLength: int)
    requires kind != MoveTo && AllDigits(ds)
    ensures LineCommandProcessAsWritten(kind, CharEvent(KeyL, 'l'), cur, lineLength, Letter(kind) + ds).effects
         == Action(kind, cur, At(cur.line, cur.column))
  {
    var ev := CharEvent(KeyL, 'l');
    assert MotionKey(ev) == Some('l');
    MultiplierOfCommandSequence(Letter(kind)[0], ds);
    assert Letter(kind) == [Letter(kind)[0]];
  }

  /**
   * y<count><motion> with the count read without the command letter: the
   * selection runs from the cursor to where the counted motion goes.
   */
  lemma LineMotionSelectsCountedRange(kind: MoveAction, ds: string, cur: Pos, lineLength: int)
    requires kind != MoveTo && AllDigits(ds)
    ensures LineCommandProcess(kind, CharEvent(KeyL, 'l'), cur, lineLength, Letter(kind) + ds).effects
         == Action(kind, cur, At(cur.line, cur.column + StringToMultiplier(ds)))
  {
    var ev := CharEvent(KeyL, 'l');
    var sequence := Letter(kind) + ds;
    assert Plain(ev) && MotionKey(ev) == Some('l') && ev.text != Letter(kind);
    assert sequence != [] && sequence[1..] == ds;
    var m := StringToMultiplier(ds);
    assert LineCommandProcess(kind, ev, cur, lineLength, sequence) == MoveProcessWith(kind, m, ev, cur, lineLength, sequence);
  }

  /** A motion key after the letter and a count acts on the counted range and ends the command. */
  lemma LineMotionPress(s: ViState, kind: MoveAction, ds: string, cur: Pos, lineLength: int)
    requires kind != MoveTo && AllDigits(ds)
    requires (s.mode == NormalMode || s.mode == VisualMode) && s.command == Some(CommandOf(kind))
    requires s.sequence == Letter(kind) + ds
    ensures KeyPress(s, CharEvent(KeyL, 'l'), cur, lineLength)
         == Reaction(s.(command := None, sequence := s.sequence + "l"),
                     Action(kind, cur, At(cur.line, cur.column + StringToMultiplier(ds)))
                     + [Message(s.sequence + "l", 1000), Accept(true)])
  {
    var ev := CharEvent(KeyL, 'l');
    LineMotionSelectsCountedRange(kind, ds, cur, lineLength);
    var p := LineCommandProcess(kind, ev, cur, lineLength, s.sequence);
    assert Process(CommandOf(kind), ev, cur, lineLength, s.sequence) == p;
    assert MotionKey(ev) == Some('l') && s.sequence != [];
    assert p == Processed(Done, s.sequence + "l", Action(kind, cur, At(cur.line, cur.column + StringToMultiplier(ds))));
  }

  /**
   * Pressing 'y' or 'd', a count and 'l' copies or cuts from the cursor to
   * as many characters right of it, and ends the command.
   */
  lemma LineCountedMotion(s: ViState, kind: MoveAction, ds: string, cur: Pos, lineLength: int)
    requires kind != MoveTo && Idle(s) && AllDigits(ds)
    ensures var started := KeyPress(s, LetterEvent(kind), cur, lineLength);
      var counted := Presses(started.state, DigitEvents(ds), cur, lineLength);
      var r := KeyPress(counted.state, CharEvent(KeyL, 'l'), cur, lineLength);
      && r.effects == Action(kind, cur, At(cur.line, cur.column + StringToMultiplier(ds)))
                      + [Message(Letter(kind) + ds + "l", 1000), Accept(true)]
      && r.state == s.(command := None, sequence := Letter(kind) + ds + "l")
  {
    LetterStarts(s, kind, cur, lineLength);
    var started := s.(command := Some(CommandOf(kind)), sequence := Letter(kind));
    LineCountAccumulates(started, kind, ds, cur, lineLength);
    LineMotionPress(started.(sequence := Letter(kind) + ds), kind, ds, cur, lineLength);
  }

  /**
   * 'i' in normal mode enters insert mode without moving, and ESC there
   * returns to normal mode: the round trip leaves the state as it was,
   * apart from the cleared sequence.
   */
  lemma InsertThenEscape(s: ViState, cur: Pos, lineLength: int)
    requires s.mode == NormalMode && s.command.None?
    ensures var inserting := KeyPress(s, CharEvent(KeyI, 'i'), cur, lineLength);
      var back := KeyPress(inserting.state, KeyEvent(KeyEscape, "", {}), cur, lineLength);
      && inserting.state == s.(mode := InsertMode, sequence := "")
      && inserting.effects == [CaretStyle(LineCaret), EditModeChanged(InsertMode), Accept(true)]
      && back.state == s.(sequence := "")
      && back.effects == [CaretStyle(BlockCaret), EditModeChanged(NormalMode), Accept(true)]
  {
    assert CommandsFor(KeyI) == [InsertCmd];
  }

  /** An arrow key and the letter key it stands for, as pressed with nothing held. */
  predicate ArrowFor(arrow: int, key: int, c: char)
  {
    || (arrow == KeyLeft && key == KeyH && c == 'h')
    || (arrow == KeyRight && key == KeyL && c == 'l')
    || (arrow == KeyUp && key == KeyK && c == 'k')
    || (arrow == KeyDown && key == KeyJ && c == 'j')
  }

  /**
   * In normal and visual mode the arrow keys act exactly as h, l, k and j,
   * whatever command is in progress.
   */
  lemma ArrowsActAsLetters(s: ViState, arrow: int, key: int, c: char, cur: Pos, lineLength: int)
    requires s.mode == NormalMode || s.mode == VisualMode
    requires ArrowFor(arrow, key, c)
    ensures KeyPress(s, KeyEvent(arrow, "", {}), cur, lineLength) == KeyPress(s, CharEvent(key, c), cur, lineLength)
  {
    var a := KeyEvent(arrow, "", {});
    var l := CharEvent(key, c);
    assert CommandsFor(arrow) == CommandsFor(key) == [MoveCmd];
    if s.command.Some? {
      ArrowProcess(s.command.value, arrow, key, c, cur, lineLength, s.sequence);
    } else {
      ArrowProcess(MoveCmd, arrow, key, c, cur, lineLength, "");
    }
  }

  /** Each command reacts to an arrow as to the letter it stands for. */
  lemma ArrowProcess(cmd: CommandKind, arrow: int, key: int, c: char, cur: Pos, lineLength: int, sequence: string)
    requires ArrowFor(arrow, key, c)
    ensures Process(cmd, KeyEvent(arrow, "", {}), cur, lineLength, sequence) == Process(cmd, CharEvent(key, c), cur, lineLength, sequence)
  {
    var a := KeyEvent(arrow, "", {});
    var l := CharEvent(key, c);
    assert MotionKey(a) == MotionKey(l) == Some(c);
    assert TypedChar(a).None? && TypedChar(l) == Some(c);
  }

  /** With no command in progress, 'p' pastes, 'u' undoes and Ctrl+R redoes, each ending at once. */
  lemma PasteUndoRedoKeys(s: ViState, cur: Pos, lineLength: int, rText: string)
    requires Idle(s) && rText != "u"
    ensures KeyPress(s, CharEvent(KeyP, 'p'), cur, lineLength) == Reaction(s.(sequence := ""), [PasteClipboard, Accept(true)])
    ensures KeyPress(s, CharEvent(KeyU, 'u'), cur, lineLength) == Reaction(s.(sequence := ""), [UndoEdit, Accept(true)])
    ensures KeyPress(s, KeyEvent(KeyR, rText, {ControlModifier}), cur, lineLength) == Reaction(s.(sequence := ""), [RedoEdit, Accept(true)])
  {
    assert CommandsFor(KeyP) == [PasteCmd];
    assert CommandsFor(KeyU) == [UndoRedoCmd];
    assert CommandsFor(KeyR) == [UndoRedoCmd];
  }

  /** R redoes only with Control alone held: with any other modifiers it is a bad sequence. */
  lemma RedoNeedsControlOnly(s: ViState, cur: Pos, lineLength: int, rText: string, mods: set<Modifier>)
    requires Idle(s) && rText != "u" && mods != {ControlModifier}
    ensures KeyPress(s, KeyEvent(KeyR, rText, mods), cur, lineLength) == Reaction(s.(sequence := ""), [Message("Bad sequence: ", 2000), Accept(false)])
  {
    var ev := KeyEvent(KeyR, rText, mods);
    assert CommandsFor(KeyR) == [UndoRedoCmd];
    assert UndoRedoProcess(ev, "") == Processed(NotHandled, "", []);
    assert FirstHandler(CommandsFor(KeyR), ev, cur, lineLength) == (Processed(NotHandled, "", []), None);
    assert "Bad sequence: " + "" == "Bad sequence: ";
  }

  /** A first key no command is registered for is reported as a bad sequence and rejected. */
  lemma UnboundKeyRejected(s: ViState, ev: KeyEvent, cur: Pos, lineLength: int)
    requires Idle(s) && CommandsFor(ev.key) == []
    ensures KeyPress(s, ev, cur, lineLength)
         == Reaction(s.(sequence := ""), [Message("Bad sequence: ", 2000), Accept(false)])
  {
    assert "Bad sequence: " + "" == "Bad sequence: ";
  }

  /** The widget: its mode, the command in progress, the sequence so far, and the effects so far. */
  class ViScintilla {
    var mode: EditMode
    var curCommand: Option<CommandKind>
    var cmdSequence: string
    var effects: seq<Effect>

    function State(): ViState
      reads this
    {
      ViState(mode, curCommand, cmdSequence)
    }

    constructor ()
      ensures State() == ViState(Disabled, None, "") && effects == []
    {
      mode := Disabled;
      curCommand := None;
      cmdSequence := "";
      effects := [];
    }

    /** Changes the mode; acts and notifies only when the mode differs. */
    method SetEditMode(m: EditMode)
      modifies this
      ensures State() == old(State()).(mode := m)
      ensures effects == old(effects) + ModeChangeEffects(old(mode), m)
    {
      if m != mode {
        mode := m;
        effects := effects + [CaretStyle(CaretFor(mode)), EditModeChanged(mode)];
      }
    }

    /** Applies a command's result to the state and reports the sequence. */
    method ApplyResult(p: Processed, cmd: Option<CommandKind>)
      modifies this
      ensures State() == Conclude(old(State()), p, cmd).state
      ensures effects == old(effects) + Conclude(old(State()), p, cmd).effects
    {
      var mode0 := mode;
      cmdSequence := p.sequence;
      effects := effects + p.effects;
      curCommand := cmd;
      match p.result {
        case Continue =>
          ReportSequence();
          AppendAssoc(old(effects), p.effects, [], Report(p.sequence));
        case Exit =>
          SetEditMode(InsertMode);
          curCommand := None;
          ReportSequence();
          AppendAssoc(old(effects), p.effects, ModeChangeEffects(mode0, InsertMode), Report(p.sequence));
        case Done =>
          curCommand := None;
          ReportSequence();
          AppendAssoc(old(effects), p.effects, [], Report(p.sequence));
        case NotHandled =>
          curCommand := None;
          effects := effects + [Message("Bad sequence: " + cmdSequence, 2000), Accept(false)];
          cmdSequence := "";
          AppendAssoc(old(effects), p.effects, [], [Message("Bad sequence: " + p.sequence, 2000), Accept(false)]);
      }
    }

    /** Displays the sequence typed so far, if any, and accepts the key. */
    method ReportSequence()
      modifies this
      ensures State() == old(State())
      ensures effects == old(effects) + Report(cmdSequence)
    {
      if cmdSequence != [] {
        effects := effects + [Message(cmdSequence, 1000)];
      }
      effects := effects + [Accept(true)];
    }

    /** Handles one key press. */
    method KeyPressEvent(ev: KeyEvent, cur: Pos, lineLength: int)
      modifies this
      ensures State() == KeyPress(old(State()), ev, cur, lineLength).state
      ensures effects == old(effects) + KeyPress(old(State()), ev, cur, lineLength).effects
    {
      if mode == Disabled {
        effects := effects + [ScintillaKey(ev)];
      } else if mode == InsertMode {
        if ev.key == KeyEscape && ev.modifiers == {} {
          SetEditMode(NormalMode);
          effects := effects + [Accept(true)];
        } else {
          effects := effects + [ScintillaKey(ev)];
        }
      } else if curCommand.Some? {
        var p := Process(curCommand.value, ev, cur, lineLength, cmdSequence);
        ApplyResult(p, curCommand);
      } else {
        cmdSequence := "";
        var p, cmd := FindHandler(ev, cur, lineLength);
        ApplyResult(p, cmd);
      }
    }
  }
}
