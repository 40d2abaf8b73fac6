/**
 * The application's editor widget (kscope/app/editor.cpp): loading a file
 * in the background with cursor and focus requests deferred until the
 * loading finishes, 1-based cursor positioning, the text for automatic
 * selection, and the editor configuration stored in the settings.
 *
 * The widget itself is outside the model: its text, enabled flag, cursor
 * and the number of times it was given the focus are state fields; what
 * the underlying editor reports (selection, word bounds) is passed in.
 * Replacing the widget's text puts its cursor at the start of the
 * document, as the underlying editor does when its text is set.
 */
module Editors {
  import ViEditor

  /** A 0-based cursor position. */
  datatype Pos = Pos(line: nat, column: nat)

  /** The text the widget shows while a file is being read. */
  const LoadingText: string := "Loading..."

  /**
   * The editor's state: whether a load is in progress, the position and
   * focus requested during it, and the widget's enabled flag, text, cursor
   * and focus count.
   */
  datatype EditorState = EditorState(
    loading: bool, onLoadLine: nat, onLoadColumn: nat, onLoadFocus: bool,
    enabled: bool, text: string, cursor: Pos, focusGiven: nat)

  /** A new editor: not loading, nothing requested. */
  function Initial(): (s: EditorState)
    ensures !s.loading && !s.onLoadFocus && s.onLoadLine == 0 && s.onLoadColumn == 0
  {
    EditorState(false, 0, 0, false, true, "", Pos(0, 0), 0)
  }

  /**
   * The position a 1-based request goes to: 0 keeps the current line or
   * column, any other n is the 0-based n - 1.
   */
  function CursorTarget(cur: Pos, line: nat, column: nat): (p: Pos)
    ensures p.line == if line == 0 then cur.line else line - 1
    ensures p.column == if column == 0 then cur.column else column - 1
  {
    Pos(if line == 0 then cur.line else line - 1, if column == 0 then cur.column else column - 1)
  }

  /** Requesting a 0-based position in 1-based terms reaches it; "don't care" in both keeps the cursor. */
  lemma CursorTargetOneBased(cur: Pos, p: Pos)
    ensures CursorTarget(cur, p.line + 1, p.column + 1) == p
    ensures CursorTarget(cur, 0, 0) == cur
  {
  }

  /** The start of a document, where setting the text leaves the cursor. */
  const Start: Pos := Pos(0, 0)

  /** setText: the widget shows `text` with the cursor at the start. */
  function WithText(s: EditorState, text: string): (r: EditorState)
    ensures r.text == text && r.cursor == Start
    ensures r.(text := s.text, cursor := s.cursor) == s
  {
    s.(text := text, cursor := Start)
  }

  /**
   * load: marks the load in progress, disables the widget and shows the
   * loading text, which puts the cursor at the start.
   */
  function Loading(s: EditorState): (r: EditorState)
    ensures r.loading && !r.enabled && r.text == LoadingText
    ensures r.cursor == Start && r.focusGiven == s.focusGiven
    ensures r.onLoadLine == s.onLoadLine && r.onLoadColumn == s.onLoadColumn && r.onLoadFocus == s.onLoadFocus
  {
    WithText(s.(loading := true), LoadingText).(enabled := false)
  }

  /** setCursorPosition: recorded while loading, applied otherwise. */
  function Positioned(s: EditorState, line: nat, column: nat): (r: EditorState)
    ensures s.loading ==> r == s.(onLoadLine := line, onLoadColumn := column)
    ensures !s.loading ==> r == s.(cursor := CursorTarget(s.cursor, line, column))
  {
    if s.loading then s.(onLoadLine := line, onLoadColumn := column)
    else s.(cursor := CursorTarget(s.cursor, line, column))
  }

  /** setFocus: recorded while loading, given to the widget otherwise. */
  function Focused(s: EditorState): (r: EditorState)
    ensures s.loading ==> r == s.(onLoadFocus := true)
    ensures !s.loading ==> r == s.(focusGiven := s.focusGiven + 1)
  {
    if s.loading then s.(onLoadFocus := true) else s.(focusGiven := s.focusGiven + 1)
  }

  /**
   * loadDone: shows the text (the cursor goes to the start), ends the load,
   * replays the recorded position against the start, re-enables the widget
   * and gives it the focus once if it was requested. The recorded position
   * itself is kept.
   */
  function LoadFinished(s: EditorState, text: string): (r: EditorState)
    ensures !r.loading && r.enabled && r.text == text && !r.onLoadFocus
    ensures r.cursor == CursorTarget(Start, s.onLoadLine, s.onLoadColumn)
    ensures r.onLoadLine == s.onLoadLine && r.onLoadColumn == s.onLoadColumn
    ensures r.focusGiven == s.focusGiven + (if s.onLoadFocus then 1 else 0)
  {
    var shown := Positioned(WithText(s, text).(loading := false), s.onLoadLine, s.onLoadColumn).(enabled := true);
    if s.onLoadFocus then Focused(shown).(onLoadFocus := false) else shown
  }

  datatype EditorOp = LoadOp | SetCursorOp(line: nat, column: nat) | SetFocusOp | LoadDoneOp(text: string)

  function Apply(s: EditorState, op: EditorOp): EditorState
  {
    match op
    case LoadOp => Loading(s)
    case SetCursorOp(line, column) => Positioned(s, line, column)
    case SetFocusOp => Focused(s)
    case LoadDoneOp(text) => LoadFinished(s, text)
  }

  /** A sequence of operations, applied in order. */
  function Run(s: EditorState, ops: seq<EditorOp>): EditorState
    decreases |ops|
  {
    if ops == [] then s else Run(Apply(s, ops[0]), ops[1..])
  }

  /** The requests a caller can make while a load is in progress. */
  predicate IsRequest(op: EditorOp)
  {
    op.SetCursorOp? || op.SetFocusOp?
  }

  /** The position last requested among `ops`, or (line, column) if none was. */
  function LastRequested(ops: seq<EditorOp>, line: nat, column: nat): (nat, nat)
    decreases |ops|
  {
    if ops == [] then (line, column)
    else if ops[|ops| - 1].SetCursorOp? then (ops[|ops| - 1].line, ops[|ops| - 1].column)
    else LastRequested(ops[..|ops| - 1], line, column)
  }

  /** Whether `ops` request the focus. */
  predicate FocusRequested(ops: seq<EditorOp>)
  {
    exists i :: 0 <= i < |ops| && ops[i].SetFocusOp?
  }

  /**
   * While loading, requests change nothing the user sees: the widget stays
   * disabled with the loading text, the cursor and focus are untouched, and
   * only the last requested position and whether focus was asked for are
   * remembered.
   */
  lemma {:induction false} RequestsDeferred(s: EditorState, ops: seq<EditorOp>)
    requires s.loading && !s.enabled
    requires forall i :: 0 <= i < |ops| ==> IsRequest(ops[i])
    ensures var r := Run(s, ops);
      && r.loading && !r.enabled && r.text == s.text
      && r.cursor == s.cursor && r.focusGiven == s.focusGiven
      && (r.onLoadLine, r.onLoadColumn) == LastRequested(ops, s.onLoadLine, s.onLoadColumn)
      && r.onLoadFocus == (s.onLoadFocus || FocusRequested(ops))
    decreases |ops|
  {
    if ops != [] {
      var s' := Apply(s, ops[0]);
      RequestsDeferred(s', ops[1..]);
      LastRequestedFirst(ops, s.onLoadLine, s.onLoadColumn);
      if ops[0].SetFocusOp? {
        assert FocusRequested(ops);
      } else {
        if FocusRequested(ops) {
          var i :| 0 <= i < |ops| && ops[i].SetFocusOp?;
          assert ops[1..][i - 1].SetFocusOp?;
        }
        if FocusRequested(ops[1..]) {
          var i :| 0 <= i < |ops[1..]| && ops[1..][i].SetFocusOp?;
          assert ops[i + 1].SetFocusOp?;
        }
      }
    }
  }

  /** The last request among `ops` is found by looking past the first one. */
  lemma {:induction false} LastRequestedFirst(ops: seq<EditorOp>, line: nat, column: nat)
    requires ops != []
    ensures LastRequested(ops, line, column) ==
      if ops[0].SetCursorOp? then LastRequested(ops[1..], ops[0].line, ops[0].column)
      else LastRequested(ops[1..], line, column)
    decreases |ops|
  {
    if |ops| > 1 {
      var init := ops[..|ops| - 1];
      assert init[0] == ops[0];
      assert init[1..] == ops[1..][..|ops[1..]| - 1];
      if !ops[|ops| - 1].SetCursorOp? {
        LastRequestedFirst(init, line, column);
      }
    } else {
      assert ops[1..] == [];
    }
  }

  /**
   * Deferred positioning: a load, any cursor and focus requests made while
   * it runs, then the end of the load leave the widget enabled, showing the
   * file, with the cursor where the last request (or, with none, the
   * position recorded before) puts it counting from the start of the file,
   * focused once if focus was asked for, and that position still recorded
   * for the next load.
   */
  lemma LoadWithRequests(s: EditorState, ops: seq<EditorOp>, text: string)
    requires forall i :: 0 <= i < |ops| ==> IsRequest(ops[i])
    ensures var r := Run(s, [LoadOp] + ops + [LoadDoneOp(text)]);
      var (line, column) := LastRequested(ops, s.onLoadLine, s.onLoadColumn);
      && !r.loading && r.enabled && r.text == text && !r.onLoadFocus
      && r.cursor == CursorTarget(Start, line, column)
      && r.onLoadLine == line && r.onLoadColumn == column
      && r.focusGiven == s.focusGiven + (if s.onLoadFocus || FocusRequested(ops) then 1 else 0)
  {
    var loading := Loading(s);
    RequestsDeferred(loading, ops);
    RunAppend(loading, ops, [LoadDoneOp(text)]);
    assert ([LoadOp] + ops + [LoadDoneOp(text)])[1..] == ops + [LoadDoneOp(text)];
  }

  lemma {:induction false} RunAppend(s: EditorState, ops: seq<EditorOp>, more: seq<EditorOp>)
    ensures Run(s, ops + more) == Run(Run(s, ops), more)
    decreases |ops|
  {
    if ops == [] {
      assert ops + more == more;
    } else {
      assert (ops + more)[1..] == ops[1..] + more;
      RunAppend(Apply(s, ops[0]), ops[1..], more);
    }
  }

  /**
   * currentText: the selected text if there is a selection; otherwise the
   * text between the word bounds the editor reports around the cursor, or
   * nothing when they enclose no text.
   */
  function CurrentText(selected: string, hasSelection: bool, doc: string, start: int, end: int): (r: string)
    requires 0 <= start && end <= |doc|
    ensures hasSelection ==> r == selected
    ensures !hasSelection ==> (r == [] <==> start >= end)
    ensures !hasSelection && start < end ==> |r| == end - start && forall i :: 0 <= i < |r| ==> r[i] == doc[start + i]
  {
    if hasSelection then selected
    else if start >= end then []
    else doc[start..end]
  }

  /** A value in the settings. */
  datatype Setting = FontSetting(font: nat) | BoolSetting(b: bool) | IntSetting(i: int) | StringSetting(s: string)

  /** The default-constructed font. */
  const PlainFont: nat := 0

  /** Conversions of a setting to the type read back. */
  function AsFont(v: Setting): nat
  {
    if v.FontSetting? then v.font else PlainFont
  }

  function AsBool(v: Setting): bool
  {
    match v
    case BoolSetting(b) => b
    case IntSetting(i) => i != 0
    case StringSetting(s) => s != "" && s != "0" && s != "false"
    case FontSetting(_) => false
  }

  function AsInt(v: Setting): int
  {
    match v
    case IntSetting(i) => i
    case BoolSetting(b) => if b then 1 else 0
    case StringSetting(s) => ViEditor.ToInt(s)
    case FontSetting(_) => 0
  }

  /** The editor configuration: font, current-line highlighting, tab indentation and tab width. */
  datatype Config = Config(font: nat, hlCurLine: bool, indentTabs: bool, tabWidth: int)

  const FontKey: string := "Font"
  const HighlightKey: string := "HighlightCurrentLine"
  const TabsKey: string := "IndentWithTabs"
  const TabWidthKey: string := "TabWidth"

  /** The stored value of a key, or the default. */
  function SettingOr(settings: map<string, Setting>, key: string, default: Setting): Setting
  {
    if key in settings then settings[key] else default
  }

  /** Config::store: writes the four keys and leaves every other key alone. */
  function StoreConfig(c: Config, settings: map<string, Setting>): (r: map<string, Setting>)
    ensures r.Keys == settings.Keys + {FontKey, HighlightKey, TabsKey, TabWidthKey}
    ensures forall k :: k in settings && k !in {FontKey, HighlightKey, TabsKey, TabWidthKey} ==> r[k] == settings[k]
  {
    settings[FontKey := FontSetting(c.font)][HighlightKey := BoolSetting(c.hlCurLine)]
      [TabsKey := BoolSetting(c.indentTabs)][TabWidthKey := IntSetting(c.tabWidth)]
  }

  /**
   * Config::load: each field from its key, converted, or from the editor's
   * defaults when the key is absent.
   */
  function LoadConfig(settings: map<string, Setting>, defaults: Config): (c: Config)
    ensures FontKey !in settings ==> c.font == defaults.font
    ensures HighlightKey !in settings ==> c.hlCurLine == defaults.hlCurLine
    ensures TabsKey !in settings ==> c.indentTabs == defaults.indentTabs
    ensures TabWidthKey !in settings ==> c.tabWidth == defaults.tabWidth
  {
    Config(
      AsFont(SettingOr(settings, FontKey, FontSetting(defaults.font))),
      AsBool(SettingOr(settings, HighlightKey, BoolSetting(defaults.hlCurLine))),
      AsBool(SettingOr(settings, TabsKey, BoolSetting(defaults.indentTabs))),
      AsInt(SettingOr(settings, TabWidthKey, IntSetting(defaults.tabWidth))))
  }

  /** Storing a configuration and loading it back gives the same configuration, whatever else is stored. */
  lemma StoreThenLoad(c: Config, settings: map<string, Setting>, defaults: Config)
    ensures LoadConfig(StoreConfig(c, settings), defaults) == c
  {
  }

  /** Editor::Config: the configuration record that load() fills field by field. */
  class EditorConfig {
    var font: nat
    var hlCurLine: bool
    var indentTabs: bool
    var tabWidth: int

    function Value(): Config
      reads this
    {
      Config(font, hlCurLine, indentTabs, tabWidth)
    }

    constructor (c: Config)
      ensures Value() == c
    {
      font := c.font;
      hlCurLine := c.hlCurLine;
      indentTabs := c.indentTabs;
      tabWidth := c.tabWidth;
    }

    /** Reads each field from the settings, falling back to the editor's defaults. */
    method Load(settings: map<string, Setting>, defaults: Config)
      modifies this
      ensures Value() == LoadConfig(settings, defaults)
    {
      font := AsFont(SettingOr(settings, FontKey, FontSetting(defaults.font)));
      hlCurLine := AsBool(SettingOr(settings, HighlightKey, BoolSetting(defaults.hlCurLine)));
      indentTabs := AsBool(SettingOr(settings, TabsKey, BoolSetting(defaults.indentTabs)));
      tabWidth := AsInt(SettingOr(settings, TabWidthKey, IntSetting(defaults.tabWidth)));
    }

    /** Writes the four fields into the settings. */
    method Store(settings: map<string, Setting>) returns (r: map<string, Setting>)
      ensures r == StoreConfig(Value(), settings)
    {
      r := settings;
      r := r[FontKey := FontSetting(font)];
      r := r[HighlightKey := BoolSetting(hlCurLine)];
      r := r[TabsKey := BoolSetting(indentTabs)];
      r := r[TabWidthKey := IntSetting(tabWidth)];
    }
  }

  /** The editor widget. */
  class Editor {
    var isLoading: bool
    var onLoadLine: nat
    var onLoadColumn: nat
    var onLoadFocus: bool
    var enabled: bool
    var text: string
    var cursor: Pos
    var focusGiven: nat

    function State(): EditorState
      reads this
    {
      EditorState(isLoading, onLoadLine, onLoadColumn, onLoadFocus, enabled, text, cursor, focusGiven)
    }

    constructor ()
      ensures State() == Initial()
    {
      isLoading := false;
      onLoadLine := 0;
      onLoadColumn := 0;
      onLoadFocus := false;
      enabled := true;
      text := "";
      cursor := Pos(0, 0);
      focusGiven := 0;
    }

    /** Starts loading; whether the reader started is `started`. */
    method Load(started: bool) returns (ok: bool)
      modifies this
      ensures State() == Loading(old(State()))
      ensures ok == started
    {
      isLoading := true;
      enabled := false;
      SetText(LoadingText);
      ok := started;
    }

    /** QsciScintilla::setText: replaces the text and puts the cursor at the start. */
    method SetText(newText: string)
      modifies this
      ensures State() == WithText(old(State()), newText)
    {
      text := newText;
      cursor := Start;
    }

    method SetCursorPosition(line: nat, column: nat)
      modifies this
      ensures State() == Positioned(old(State()), line, column)
    {
      if isLoading {
        onLoadLine := line;
        onLoadColumn := column;
        return;
      }
      var newLine := if line == 0 then cursor.line else line - 1;
      var newColumn := if column == 0 then cursor.column else column - 1;
      cursor := Pos(newLine, newColumn);
    }

    method SetFocus()
      modifies this
      ensures State() == Focused(old(State()))
    {
      if isLoading {
        onLoadFocus := true;
      } else {
        focusGiven := focusGiven + 1;
      }
    }

    method LoadDone(newText: string)
      modifies this
      ensures State() == LoadFinished(old(State()), newText)
    {
      SetText(newText);
      isLoading := false;
      SetCursorPosition(onLoadLine, onLoadColumn);
      enabled := true;
      if onLoadFocus {
        SetFocus();
        onLoadFocus := false;
      }
    }
  }
}
