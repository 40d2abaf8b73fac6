# KScope core, modelled in Dafny

This project models the logic at the core of KScope, a Qt front end for
source-code cross-reference engines such as Cscope. It covers six parts.

- **Project lifecycle** (`Projects`). A project loads its parameters from a
  configuration file, opens its engine and code base, can be created on disk,
  and can be closed.
- **Engine results** (`Engine`, `Locations`, `QueryViews`):
  - the connection through which a running engine operation is stopped;
  - the callbacks it delivers;
  - the flat location list model;
  - the query view that consumes them, with its progress bar and the
    auto-selection of a single result.
- **Style inheritance tree** (`LexerStyles`). This is the lexer style model of
  the editor configuration. Every style holds a font, a text colour and a
  background colour. Each property is either the style's own or inherited
  from its parent style. Edits are pushed down to every inheriting
  descendant.
- **Vi key-command machine** (`ViEditor`). The editor widget has disabled,
  insert, normal and visual modes. Commands consume keys one at a time:
  counts, h/j/k/l/$ motions, yy/dd, y and d with a motion, p, i/I/a/A, u and
  Ctrl+R.
- **Deferred editor positioning** (`Editors`). While a file is loading, cursor
  and focus requests are recorded, then replayed when the load finishes.
  This part also covers the 1-based cursor requests, the text used for
  automatic selection, and the editor configuration in the settings.
- **Lexer configuration** (`LexerConfig`). This covers the ordered map from
  file-name patterns to lexers, and the common-defaults lexer.

## How the system is represented

- **Stateful objects become classes.** Each C++ object that changes its own
  fields becomes a Dafny class with the same fields. Each method is proved
  to leave exactly the state given by a pure step function of the old state
  (`Loaded`, `Initialized`, `KeyPress`, `Positioned`, ...).
- **Properties and traces.** The properties are proved about those step
  functions and about traces of them (`Run`, `Replay`, `Presses`).
- **The environment is abstract.**
  - The file system is a `Disk` value: the directories and the configuration
    files.
  - Settings stores are maps from keys to values.
  - Engine and code-base calls are outcome parameters (returned or threw).
  - Wildcard matching is a predicate parameter.
  - Widget and Scintilla calls (cursor moves, selections, clipboard,
    messages, caret style, key hand-off) are recorded in effect logs.
- **The style tree is an arena.** Nodes are held in a sequence. Every node
  has a lower index than its children, and parent and child links agree.
- **Missing sources.**
  - kscope/core/locationlistmodel.cpp is not part of this model. The list
    model follows the contracts documented in its header: success exactly
    when the list is non-empty, or when the row is in range.
  - trunk/editor/lexerstylemodel.h and kscope/app/editor.h are not part of
    this model.
  - Two details of the style model are therefore assumptions:
    - the node-type enumeration is taken as style node = 0, property
      node = 1;
    - a lexer's own node is taken to carry the lexer's default style.
- **Stopping needs a controller.** `stop()` calls the stored controller
  with no null check (kscope/core/engine.h:69-70), and the constructor does
  not initialise that pointer (kscope/core/engine.h:62). So
  `Engine.Connection.Stop` requires a controller to have been set.

## Model

| member | source | states |
|---|---|---|
| Projects.WithTrailingSlash | kscope/core/project.h:300-302 | the stored project path always ends in '/', and is unchanged if it already did |
| Projects.Loaded | kscope/core/project.h:290-315 | a missing or unreadable configuration file changes nothing; otherwise the path is stored with a trailing '/', Name defaults to "", RootPath to "/", and the project is loaded while its open flag is kept; for the empty path the file checked is "./" + the file name, the stored path is "/", and the values are read from "/" + the file name (all defaults when that file is absent) |
| Projects.Opened | kscope/core/project.h:155-178 | open on an open project changes nothing; on an unloaded one it fails and stays closed; otherwise the engine and code base are called with their strings, and the project is open exactly when neither threw, whatever they returned |
| Projects.Closed | kscope/core/project.h:222-224 | close clears only the open flag; parameters, loaded flag, engine and code base are untouched |
| Projects.Created | kscope/core/project.h:186-216 | create on an open or loaded project fails with no change; it fails if the directory is absent and cannot be made, or if the configuration file exists, leaving that file unchanged; when neither flag is set, the directory exists or can be made and the file is absent, it succeeds and the directory exists afterwards; on success it copies the parameters and writes the four "Project" entries into the file it checked, keeps both flags, and changes no existing file |
| Projects.CreatedAsWritten | kscope/core/project.h:186-216 | as written, create passes or fails exactly as `Created` does and with the same state; on failure the disk is the same; on success the four "Project" entries are in the file named by the project path and file name concatenated; with a path ending in '/' it is `Created` |
| Projects.CreateAsWrittenMissesSeparator | kscope/core/project.h:199-209 | as written, with path "/p" the guard checks "/p/kscope.conf", but the settings are written to "/pkscope.conf", overwriting an unrelated file, and the project cannot be loaded back from "/p" |
| Projects.CreateThenLoad | kscope/core/project.h:186-216 | a project created at a non-empty path loads back from that path with the same parameters; the path gains a trailing '/' |
| Projects.RunKeepsOpenImpliesLoaded | kscope/core/project.h:139-224 | no sequence of load, open, create and close calls opens a project that is not loaded |
| Projects.Project.constructor | kscope/core/project.h:138-141 | a new project starts closed and unloaded, then runs load on the given path |
| Projects.Project.Load | kscope/core/project.h:290-315 | the project's state becomes `Loaded` of the old state |
| Projects.Project.Open | kscope/core/project.h:155-178 | the project's state and status are those of `Opened` |
| Projects.Project.Create | kscope/core/project.h:186-216 | the project's state, the disk and the status are those of `Created`, the corrected create of Findings row 1, which writes to the file its guard checked |
| Projects.Project.Close | kscope/core/project.h:222-224 | the project's state becomes `Closed` of the old state |
| Projects.Project.GetCurrentParams | kscope/core/project.h:250-252 | returns the current parameters |
| Engine.Controlled.Stop | kscope/core/engine.h:45-47 | a controller counts the stop requests it receives |
| Engine.Connection.SetCtrlObject | kscope/core/engine.h:61 | the controller is stored, replacing any earlier one |
| Engine.Connection.Stop | kscope/core/engine.h:62-70 | exactly one stop request reaches the stored controller, which must have been set |
| Engine.Delivered | kscope/core/engine.h:64-67 | the locations delivered by a callback trace, in order; none for the empty trace |
| Engine.DeliveredAppend | kscope/core/engine.h:64-67 | the locations of a split trace are the concatenation of its parts' locations |
| Locations.ColumnNamesOneField | kscope/core/locationlistmodel.h:47-66 | each column kind names exactly one Location field: writing through a column changes what that column reads and no other |
| Locations.LocationListModel.constructor | kscope/core/locationlistmodel.h:68-92 | the column list is copied and the result list starts empty |
| Locations.LocationListModel.Add | kscope/core/locationlistmodel.h:85-97 | a whole batch is appended to the flat list in order |
| Locations.LocationListModel.Clear | kscope/core/locationlistmodel.h:86 | the list becomes empty |
| Locations.LocationListModel.RowCount | kscope/core/locationlistmodel.h:77 | the number of rows is the number of locations |
| Locations.LocationListModel.ColumnCount | kscope/core/locationlistmodel.h:78 | the number of columns is the length of the column list |
| Locations.LocationListModel.FirstLocation | kscope/core/locationlistmodel.h:72 | succeeds exactly when the list is non-empty, and then yields the first location |
| Locations.LocationListModel.LocationFromIndex | kscope/core/locationlistmodel.h:71 | succeeds exactly when the index is valid and its row is in range, and then yields that row's location |
| Locations.LocationListModel.Data | kscope/core/locationlistmodel.h:79-80 | a cell exists exactly for valid, in-range indexes, and shows the field its column names of the location in its row |
| QueryViews.ReplayAppend | kscope/core/queryview.cpp:80-134 | replaying a split callback trace is replaying its parts in turn |
| QueryViews.Initialized | kscope/core/queryview.cpp:69-73 | initQuery stores the query and empties the model; the bar, the auto-select flag and the requested navigations are kept |
| QueryViews.WithBatch | kscope/core/queryview.cpp:80-83 | onDataReady keeps the existing rows and appends the batch after them; nothing else changes |
| QueryViews.WithProgress | kscope/core/queryview.cpp:91-103 | onProgress leaves a bar showing the text and the counts; nothing else changes |
| QueryViews.Finish | kscope/core/queryview.cpp:108-122 | onFinished leaves no bar and keeps the model; it adds at most one navigation request, exactly when auto-select is on and the model has one row, and that request is for the model's only location |
| QueryViews.Abort | kscope/core/queryview.cpp:127-134 | onAborted leaves no bar and keeps the model, the query and the requested navigations |
| QueryViews.DoubleClicked | kscope/core/queryview.cpp:141-146 | a double click adds at most one navigation request, exactly when the index names a row of the model, and that request is for the row's location; nothing else changes |
| QueryViews.ReplayLocs | kscope/core/queryview.cpp:80-134 | for any callback trace, terminal ones included, the model ends with its earlier rows followed by every delivered batch in order |
| QueryViews.QueryStartResult | kscope/core/queryview.cpp:69-134 | after initQuery the model holds exactly what the operation delivered; an operation that was not started and honours its start result (kscope/core/engine.h:81-94) leaves the view as initQuery left it: empty model, bar as before, no navigation requested |
| QueryViews.RunningQueryAccumulates | kscope/core/queryview.cpp:80-103 | during a running query the model holds the earlier results followed by every delivered batch in order; no navigation is requested and the query is kept; the bar shows the last progress report |
| QueryViews.LastBarExists | kscope/core/queryview.cpp:91-103 | a progress bar exists after a trace exactly when one existed before or some progress was reported, so at most one bar ever exists |
| QueryViews.AutoSelectSingleResult | kscope/core/queryview.cpp:69-122 | after a new query, a running trace and onFinished, exactly one navigation to the single result is requested iff auto-select is on and exactly one location arrived, and none otherwise; no bar remains |
| QueryViews.AbortKeepsPartialResults | kscope/core/queryview.cpp:127-134 | after onAborted the partial results stay in the model, no navigation is requested and no bar remains |
| QueryViews.TerminalDropsBar | kscope/core/queryview.cpp:108-134 | whatever came before, a finish or abort leaves no progress bar |
| QueryViews.ProgressBar.SetLabel | kscope/core/queryview.cpp:101 | the bar's caption becomes the text and its values are kept |
| QueryViews.ProgressBar.SetProgress | kscope/core/queryview.cpp:102 | the bar's values become the current and total counts and its caption is kept |
| QueryViews.QueryView.constructor | kscope/core/queryview.cpp:34-55 | a new view has no bar, auto-select off, and a list model over the columns Scope, File, Line, Text |
| QueryViews.QueryView.SetAutoSelectSingleResult | kscope/core/queryview.cpp:116-121 | only the auto-select flag changes |
| QueryViews.QueryView.InitQuery | kscope/core/queryview.cpp:69-73 | the query is stored and the model emptied |
| QueryViews.QueryView.OnDataReady | kscope/core/queryview.cpp:80-83 | the batch is appended to the model |
| QueryViews.QueryView.OnProgress | kscope/core/queryview.cpp:91-103 | a bar is created only when none exists, then shows the text and the counts |
| QueryViews.QueryView.OnFinished | kscope/core/queryview.cpp:108-122 | the bar is gone, and the single location is requested when auto-select is on and the model has exactly one row |
| QueryViews.QueryView.OnAborted | kscope/core/queryview.cpp:127-134 | the bar is gone; nothing else changes |
| QueryViews.QueryView.HandleDoubleClick | kscope/core/queryview.cpp:141-146 | the clicked location is requested only when the index names a row of the model |
| QueryViews.QueryView.StopQuery | kscope/core/queryview.cpp:152-155 | exactly one stop request reaches the connection's controller |
| LexerConfig.CommonLexer | trunk/editor/config.h:65-88 | language and lexer name are "Common", the default style is 0, and only style 0 has a description ("Default") |
| LexerConfig.FirstMatchIndex | trunk/editor/config.h:185-191 | none exactly when no pattern matches; otherwise the index of a matching pair with no match before it |
| LexerConfig.Lookup | trunk/editor/config.h:185-192 | find gives no lexer when no pattern matches the text, and otherwise the lexer assigned to the first pair whose pattern matches |
| LexerConfig.EarlierRegistrationWins | trunk/editor/config.h:180-190 | once a pattern matches a text, registering more patterns does not change the lexer found for it |
| LexerConfig.LexerMap.constructor | trunk/editor/config.h:178 | the map starts empty |
| LexerConfig.LexerMap.Append | trunk/editor/config.h:171-183 | a pair with the pattern and no lexer is appended, and its position is returned |
| LexerConfig.LexerMap.Assign | trunk/editor/config.h:175 | assigning a lexer sets that pair's lexer and changes no other pair |
| LexerConfig.LexerMap.Find | trunk/editor/config.h:185-192 | the scan returns the lexer of the first matching pair, or null when none matches |
| LexerConfig.LexerMap.Clear | trunk/editor/config.h:194 | the map becomes empty |
| LexerStyles.PropertyType | trunk/editor/lexerstylemodel.cpp:501-519 | Font holds a font; text and background colour hold colours |
| LexerStyles.PropertyName | trunk/editor/lexerstylemodel.cpp:477-495 | the display names are "Font", "Text Colour" and "Background Colour", one for each property |
| LexerStyles.InitialProps | trunk/editor/lexerstylemodel.cpp:313-317 | a new style gets one unset, non-inherited property per property kind, in order |
| LexerStyles.InheritsBelow | trunk/editor/lexerstylemodel.cpp:421-442 | a style that inherits a property from a node lies after that node in the tree, so propagation moves only downwards |
| LexerStyles.InheritsThrough | trunk/editor/lexerstylemodel.cpp:421-442 | inheritance chains compose |
| LexerStyles.InheritsViaChild | trunk/editor/lexerstylemodel.cpp:424-441 | a style inherits from a node exactly when it is an inheriting child of the node, or inherits through one |
| LexerStyles.PropagateValuesOnly | trunk/editor/lexerstylemodel.cpp:421-442 | pushing a value down changes only values: the tree's shape and inherited flags stay |
| LexerStyles.PropagateSpec | trunk/editor/lexerstylemodel.cpp:421-442 | `Propagate`, the tree inheritProperty leaves, gives the value to every style that inherits the property from the node and keeps it inherited; every other style is unchanged, and no other property of any style changes |
| LexerStyles.Assigned | trunk/editor/lexerstylemodel.cpp:371-413 | a value of the property's type is stored as the style's own; a top-level style never inherits and takes a typed default or keeps its value; elsewhere, without the "<Inherit>" marker, an own value must be the default; an inherited property always holds the parent's value |
| LexerStyles.SetPropertySpec | trunk/editor/lexerstylemodel.cpp:371-413 | `SetPropertyResult`, the tree setProperty leaves, gives the property of the style its `Assigned` data and changes no other property and no other style |
| LexerStyles.SetPropertyStructure | trunk/editor/lexerstylemodel.cpp:371-413 | setting a property changes one property of one style and keeps the tree valid |
| LexerStyles.SetPropertyOnLeafKeepsConsistent | trunk/editor/lexerstylemodel.cpp:371-413 | setting a property of a style with no child styles keeps every inherited property equal to its parent's value |
| LexerStyles.SetDataSpec | trunk/editor/lexerstylemodel.cpp:253-279 | `SetDataResult`, the tree an edit leaves (the corrected setData of Findings row 2), assigns the edited property as setProperty does with no default, gives every style that inherited it from the edited style the value that style ends with, keeps the other properties, and leaves all other styles unchanged |
| LexerStyles.SetDataAsWrittenSpec | trunk/editor/lexerstylemodel.cpp:253-279 | `SetDataAsWritten`, setData as written, assigns the edited property the same way, but pushes the requested value itself, of the property's type or not, to every inheriting style unless it is "&lt;Inherit&gt;", in which case no inheriting style changes |
| LexerStyles.SetDataKeepsConsistent | trunk/editor/lexerstylemodel.cpp:253-279 | an edit, with the resulting value pushed down, keeps the tree valid and every inherited property equal to its parent's |
| LexerStyles.SetDataTypedValue | trunk/editor/lexerstylemodel.cpp:253-279 | an edit with a value of the property's type stores it as the style's own, gives it to every inheriting descendant, and changes nothing else |
| LexerStyles.SetDataAsWrittenLosesInheritance | trunk/editor/lexerstylemodel.cpp:270-276 | as written, setting a style's font to "<Inherit>" leaves its inheriting child, still marked inherited, with the old font; with the resulting value pushed down the tree stays consistent |
| LexerStyles.SetDataAsWrittenPushesUntypedValue | trunk/editor/lexerstylemodel.cpp:253-279 | as written, giving the middle style of the chain a colour as its font makes it inherit the top's font while the inheriting grandchild receives the colour, so the tree is no longer consistent; the corrected edit leaves the grandchild with the middle's new font and the tree consistent |
| LexerStyles.StyleRoleData | trunk/editor/lexerstylemodel.cpp:451-471 | a style's sample column shows "Sample Text", and its font, colour and background under the matching roles |
| LexerStyles.PropertyRoleData | trunk/editor/lexerstylemodel.cpp:526-548 | an inherited property displays "Inherit" and is never decorated; an own font is displayed, an own colour is decorated; editing sees the stored value |
| LexerStyles.Data | trunk/editor/lexerstylemodel.cpp:199-244 | data of a missing or data-less node is 0; a style shows its language name or description and its sample; a property shows its name and its value |
| LexerStyles.EditShowsInInheritors | trunk/editor/lexerstylemodel.cpp:199-279 | after a typed edit, the property's editor and the samples of the style and of all its inheritors show the new value, and the inheritors still read "Inherit" |
| LexerStyles.FirstUndescribed | trunk/editor/lexerstylemodel.cpp:53-63 | the lowest style id from a point on that has no description |
| LexerStyles.StyleIdsAreDescribedStyles | trunk/editor/lexerstylemodel.cpp:53-63 | a lexer's style nodes are for exactly the ids described before the first undescribed one, except the default style, in increasing order |
| LexerStyles.LayoutSingleTop | trunk/editor/lexerstylemodel.cpp:42-66 | the first node is the top-level node of the first (common) lexer's default style, and every later node has a parent that comes before it |
| LexerStyles.LexerStyleModel.constructor | trunk/editor/lexerstylemodel.cpp:37-67 | the tree built from the lexers is valid, laid out as `Layout` says, with every inherited property equal to its parent's |
| LexerStyles.LexerStyleModel.CreateStyleNodes | trunk/editor/lexerstylemodel.cpp:53-64 | one loaded node per described style other than the default is appended under the lexer's node |
| LexerStyles.LexerStyleModel.CreateStyleNode | trunk/editor/lexerstylemodel.cpp:304-320 | a new style node with unset properties becomes the last child of its parent, and the tree stays valid and consistent |
| LexerStyles.LexerStyleModel.LoadStyle | trunk/editor/lexerstylemodel.cpp:329-348 | font, colour and background are set in turn from the keys LEXER\STYLE\PROPERTY, with the lexer's own font, colour or paper as the default; the tree stays valid with the same shape, and a leaf stays consistent |
| LexerStyles.LexerStyleModel.SetProperty | trunk/editor/lexerstylemodel.cpp:371-413 | the tree becomes `SetPropertyResult` of the old tree |
| LexerStyles.LexerStyleModel.InheritProperty | trunk/editor/lexerstylemodel.cpp:421-442 | the recursion over the children leaves the tree as `Propagate` of the old tree; `PropagateValuesOnly` and `SetDataTypedValue` state what that tree is |
| LexerStyles.LexerStyleModel.SetData | trunk/editor/lexerstylemodel.cpp:253-279 | an edit is accepted exactly for an existing property under the edit role; the tree then becomes `SetDataResult`, the corrected setData of Findings row 2, and otherwise it is unchanged |
| ViEditor.MultiplierOfDecimal | trunk/editor/viscintilla.cpp:149-154 | a typed count between 1 and the largest int is read back as itself; an empty sequence counts 1 |
| ViEditor.MultiplierOfCommandSequence | trunk/editor/viscintilla.cpp:149-154 | a sequence that starts with a command letter counts 0 |
| ViEditor.ToInt | trunk/editor/viscintilla.cpp:149-154 | QString::toInt on a command sequence: a value between 0 and the largest int, the decimal value of the digits when they form one that fits, and 0 for anything that is not all digits |
| ViEditor.StringToMultiplier | trunk/editor/viscintilla.cpp:149-154 | an empty sequence counts 1, one that is not all digits counts 0, and every count lies between 0 and the largest int |
| ViEditor.MoveProcessWith | trunk/editor/viscintilla.cpp:38-138 | a key with modifiers other than Shift, or with more than one character, is not handled and changes nothing; arrows act as h, l, k and j; '0' on an empty sequence goes to column 0; other digits continue the sequence with no effect; l, h, k and j move right, left, up and down by the count; '$' goes to column lineLength - 1; 'w' has no defined target; a key is handled exactly when it is one of these; a handled key ends the command and, on a multi-key sequence, is appended to it |
| ViEditor.MoveUnaffected | trunk/editor/viscintilla.cpp:98-154 | for a plain move command, whose sequence holds only the count, the as-written and the corrected counting agree |
| ViEditor.InsertProcess | trunk/editor/viscintilla.cpp:297-336 | exactly i, I, a and A typed with no modifier but Shift exit to insert mode; i keeps the cursor, I goes to column 0, a to the next column, A to column lineLength - 1; every other key is not handled and has no effect; the sequence is kept |
| ViEditor.LineCommandProcess | trunk/editor/viscintilla.cpp:168-263 | the corrected y and d of Findings row 3: the first key starts the command exactly when it is the letter; the letter again copies or cuts from column 0 of the cursor's line to column 0 of the line the count (the digits after the letter) below; any other key is a motion counted by those digits |
| ViEditor.LineCommandProcessAsWritten | trunk/editor/viscintilla.cpp:168-263 | as written, y and d agree with the corrected command on the first key and on the letter again, but a motion is counted by the whole sequence, letter included |
| ViEditor.PasteProcess | trunk/editor/viscintilla.cpp:272-285 | exactly the key typing "p" pastes the clipboard and ends the command; every other key is not handled and has no effect; the sequence is kept |
| ViEditor.UndoRedoProcess | trunk/editor/viscintilla.cpp:346-362 | "u" undoes; otherwise R with Control alone redoes; both end the command; every other key is not handled and has no effect; the sequence is kept |
| ViEditor.Process | trunk/editor/viscintilla.cpp:36-366 | each command reacts to a key through its own processKey (y and d through the corrected `LineCommandProcess` of Findings row 3): an unhandled key has no effect, only move, y and d continue, exactly insert exits, and paste, insert and undo/redo keep the sequence |
| ViEditor.CommandsFor | trunk/editor/viscintilla.cpp:506-544 | each key is bound to at most one command |
| ViEditor.ModeChangeEffects | trunk/editor/viscintilla.cpp:390-414 | setting the mode acts and notifies exactly when the mode changes |
| ViEditor.FirstHandler | trunk/editor/viscintilla.cpp:456-468 | a command becomes current exactly when it handled the first key |
| ViEditor.FindHandler | trunk/editor/viscintilla.cpp:456-468 | the loop over the key's commands stops at the first that handles the key |
| ViEditor.Conclude | trunk/editor/viscintilla.cpp:472-499 | Continue makes the handling command current; Exit enters insert mode; Exit and Done drop the command but keep the sequence; NotHandled drops both, and exactly then the key is rejected |
| ViEditor.KeyPress | trunk/editor/viscintilla.cpp:423-444 | disabled mode hands every key to the editor unchanged; insert mode does the same for every key except an unmodified ESC, which switches to normal mode with a block caret; normal and visual mode go through `Process`, so y and d follow the corrected command of Findings row 3 |
| ViEditor.DigitPressExtends | trunk/editor/viscintilla.cpp:86-96 | a digit typed into a motion or line command under way extends the sequence and displays it |
| ViEditor.FirstDigitStarts | trunk/editor/viscintilla.cpp:78-96 | a non-zero digit with no command in progress starts a move command |
| ViEditor.CountAccumulates | trunk/editor/viscintilla.cpp:78-96 | typing a count with no command in progress starts a move command whose sequence is the count |
| ViEditor.CountedMotion | trunk/editor/viscintilla.cpp:98-154 | typing a count with no leading zero that fits in an int, then 'l', moves the cursor right by the count's decimal value, ends the command and displays the whole sequence |
| ViEditor.LineCountAccumulates | trunk/editor/viscintilla.cpp:86-253 | after the first y or d, digits extend the count |
| ViEditor.LetterStarts | trunk/editor/viscintilla.cpp:171-232 | the first y or d only starts its command |
| ViEditor.LetterCompletes | trunk/editor/viscintilla.cpp:183-250 | the letter again selects whole lines from the cursor's line, as many as the count, then copies or cuts |
| ViEditor.LinesCommand | trunk/editor/viscintilla.cpp:157-263 | yy and y&lt;N&gt;y select from column 0 of the cursor's line to column 0 of the line N below (N = 1 without a count) and copy; dd and d&lt;N&gt;d cut |
| ViEditor.LineMotionAsWrittenSelectsNothing | trunk/editor/viscintilla.cpp:98-253 | as written, y or d followed by a count and 'l' selects from the cursor to the cursor: the count reads as 0 |
| ViEditor.LineMotionSelectsCountedRange | trunk/editor/viscintilla.cpp:157-263 | y or d followed by a count N and 'l' selects from the cursor N columns right (1 without a count), as the corrected command of Findings row 3 does |
| ViEditor.LineMotionPress | trunk/editor/viscintilla.cpp:98-253 | a motion key after the letter and a count acts on the counted range, ends the command and displays the sequence, as the corrected command of Findings row 3 does |
| ViEditor.LineCountedMotion | trunk/editor/viscintilla.cpp:157-263 | pressing y or d, a count and 'l' copies or cuts from the cursor to the counted column, and ends the command, as the corrected command of Findings row 3 does |
| ViEditor.InsertThenEscape | trunk/editor/viscintilla.cpp:297-336 | 'i' in normal mode enters insert mode with a line caret, ESC there returns to normal mode with a block caret, and the round trip restores the state apart from clearing the sequence |
| ViEditor.UnboundKeyRejected | trunk/editor/viscintilla.cpp:456-495 | a first key that no command is bound to is reported as a bad sequence and rejected |
| ViEditor.ArrowsActAsLetters | trunk/editor/viscintilla.cpp:47-71 | in normal and visual mode, whatever command is under way, an unmodified arrow key has exactly the effect of h, l, k or j |
| ViEditor.PasteUndoRedoKeys | trunk/editor/viscintilla.cpp:269-362 | with no command under way, 'p' pastes, 'u' undoes and Ctrl+R redoes, each accepted and ending at once with the sequence cleared |
| ViEditor.RedoNeedsControlOnly | trunk/editor/viscintilla.cpp:346-362 | with no command under way, R with any modifiers other than Control alone is reported as a bad sequence and rejected |
| ViEditor.ViScintilla.constructor | trunk/editor/viscintilla.cpp:374-377 | the widget starts disabled, with no command and an empty sequence |
| ViEditor.ViScintilla.SetEditMode | trunk/editor/viscintilla.cpp:390-414 | only the mode changes, and the caret and notification effects appear only on a change |
| ViEditor.ViScintilla.ApplyResult | trunk/editor/viscintilla.cpp:472-499 | the state and effects become those of `Conclude` |
| ViEditor.ViScintilla.KeyPressEvent | trunk/editor/viscintilla.cpp:423-500 | the state and effects become those of `KeyPress`, whose y and d are the corrected command of Findings row 3 |
| Editors.Initial | kscope/app/editor.cpp:36-42 | a new editor is not loading and has nothing recorded |
| Editors.WithText | kscope/app/editor.cpp:204-206 | setText shows the new text and puts the cursor at the start of the document; nothing else changes |
| Editors.CursorTarget | kscope/app/editor.cpp:89-117 | a line or column of 0 keeps the current one; any other n goes to n - 1 |
| Editors.CursorTargetOneBased | kscope/app/editor.cpp:104-116 | a 1-based request for a position lands exactly on it, and a request of 0, 0 leaves the cursor where it is |
| Editors.Loading | kscope/app/editor.cpp:60-67 | load marks the load in progress, disables the widget and shows the loading text, which puts the cursor at the start of the document; focus and the recorded requests stay |
| Editors.Positioned | kscope/app/editor.cpp:89-117 | while loading, only the request is recorded; otherwise the cursor moves to the converted position |
| Editors.Focused | kscope/app/editor.cpp:156-162 | while loading, only the focus request is recorded; otherwise the widget gets the focus |
| Editors.LoadFinished | kscope/app/editor.cpp:204-215 | loadDone shows the text, ends the load, moves from the start of the document to the recorded position, re-enables the widget, gives the focus once if requested, and keeps the recorded position |
| Editors.RequestsDeferred | kscope/app/editor.cpp:89-162 | while loading, requests leave the widget disabled and the cursor and focus untouched, and remember only the last position and whether focus was asked for |
| Editors.LoadWithRequests | kscope/app/editor.cpp:60-215 | a load, requests during it and its end leave the widget enabled, showing the file, with the cursor where the last request (or the previous recorded one) puts it counted from the start of the document, and focused once if asked |
| Editors.CurrentText | kscope/app/editor.cpp:125-149 | the selection if there is one; otherwise the text between the word bounds, which is empty exactly when they enclose nothing |
| Editors.StoreConfig | kscope/app/editor.cpp:237-243 | the four keys are written, and every other key is left as it was |
| Editors.LoadConfig | kscope/app/editor.cpp:221-231 | an absent key gives the editor's default for that field |
| Editors.StoreThenLoad | kscope/app/editor.cpp:221-243 | storing a configuration and loading it back gives the same configuration |
| Editors.EditorConfig.Load | kscope/app/editor.cpp:221-231 | the fields become `LoadConfig` of the settings |
| Editors.EditorConfig.Store | kscope/app/editor.cpp:237-243 | the settings become `StoreConfig` of the fields |
| Editors.Editor.constructor | kscope/app/editor.cpp:36-42 | the editor starts in the `Initial` state |
| Editors.Editor.Load | kscope/app/editor.cpp:60-83 | the state becomes `Loading`: in progress, disabled, showing the loading text with the cursor at the start; the result is whether the reader started |
| Editors.Editor.SetText | kscope/app/editor.cpp:60-67 | the state becomes `WithText`: the new text with the cursor at the start |
| Editors.Editor.SetCursorPosition | kscope/app/editor.cpp:89-117 | the state becomes `Positioned` |
| Editors.Editor.SetFocus | kscope/app/editor.cpp:156-162 | the state becomes `Focused` |
| Editors.Editor.LoadDone | kscope/app/editor.cpp:204-215 | the state becomes `LoadFinished`: the text shown through setText, the load ended, the recorded position applied from the start of the document, the widget enabled and any deferred focus given once |

## Left out

- File reading, the reader thread and the engine's asynchronous execution are concurrency and I/O. `Editor.Load` takes whether the reader started as a parameter, and `LoadDone` is called with the text read.
- The ordering of engine callbacks: nothing in the code enforces it, so no order is assumed.
- QSettings, QDir and QFileInfo are abstracted:
  - the settings are key/value maps;
  - the disk is a set of directories plus a map of configuration files;
  - path normalisation by QDir is reduced to adding a trailing '/', with "." for the empty path.
- Widget and Scintilla calls are effect-log entries only:
  - enabling the widget, setting its text, the caret style, selection, copy, cut, paste, undo and redo, emitted messages and signals;
  - the cursor a request produces is recorded as requested, without Scintilla's clamping to the document.
- Fonts and colours are opaque numbers compared by equality. QRegExp wildcard matching is a predicate parameter.
- The QModelIndex plumbing of the style model (`index`, `parent`, `rowCount`, `flags`) is view glue. `resetStyles` is not used by any visible caller. `dataChanged` notifications are not modelled.
- ViEditor.MoveProcessWith: the 'w' motion leaves its target unspecified (`Unspecified`), because the source passes uninitialised values.
- ViEditor.ToInt: QString::toInt's handling of signs and surrounding whitespace is not modelled. Command sequences hold only digits and command letters.
- ViEditor.InsertProcess: a key with no text reads as NUL. The source reads past the end of the empty text.
- Projects.Project.Create: follows the corrected create (`Created`, Findings row 1), not the as-written `CreatedAsWritten`.
- LexerStyles.LexerStyleModel.SetData: follows the corrected setData (`SetDataResult`, Findings row 2), not the as-written `SetDataAsWritten`.
- ViEditor.KeyPress: y and d follow the corrected `LineCommandProcess` (Findings row 3), not `LineCommandProcessAsWritten`.
- ViEditor.ViScintilla.KeyPressEvent: follows `KeyPress`, and so the corrected y and d of Findings row 3.
- ViEditor.LineMotionSelectsCountedRange: states the corrected counting of Findings row 3; `LineMotionAsWrittenSelectsNothing` states the as-written one.
- ViEditor.LineMotionPress: states the corrected counting of Findings row 3.
- ViEditor.LineCountedMotion: states the corrected counting of Findings row 3.
- ViEditor.Process: y and d follow the corrected `LineCommandProcess` of Findings row 3. processKey's in-place update of the sequence is modelled as a returned sequence, which `KeyPressEvent` stores.
- LexerConfig.CommonLexer: `language()` and `lexer()` return a pointer into a temporary Latin-1 buffer. The model gives the string it was made from.
- Editors.AsBool: QVariant's conversion of the string "false" ignores case. The model compares exactly. The settings this model writes hold typed values, so the round trip does not depend on it.
- kscope/core/locationtreemodel.h, the application, main window and dialog files are UI plumbing with no logic to check.

## Findings

| source | as written | input that shows it | evidently intended | confidence | as-written member | corrected member |
|---|---|---|---|---|---|---|
| kscope/core/project.h:199-209 | create checks for the configuration file inside the project directory, but writes it to the project path and file name concatenated with no separator | project path "/p", file name "kscope.conf": the guard checks "/p/kscope.conf", while "/pkscope.conf" is written and an existing file there is overwritten | write to the file the guard checked, so the project loads back from its path | high, not executed | Projects.CreatedAsWritten | Projects.Created |
| trunk/editor/lexerstylemodel.cpp:270-276 | after setting a property, the requested value is pushed to the inheriting styles whatever it is, even a value not of the property's type, which the style itself does not take; nothing is pushed when that value is "&lt;Inherit&gt;" | a chain top → middle (own font) → child (inherits): setting the middle's font to "&lt;Inherit&gt;" gives the middle the top's font, while the child keeps the middle's old font, still marked inherited; a value of the wrong type likewise reaches the child while the middle takes its parent's font | push the property's resulting value, so every inherited property equals its parent's | high, not executed | LexerStyles.SetDataAsWritten | LexerStyles.SetDataResult |
| trunk/editor/viscintilla.cpp:98-253 | a motion inside y or d reads its count from the whole sequence, which still starts with the command letter, so the count is 0 | normal mode, keys "y", "l": selects from the cursor to the cursor and copies nothing; "y3l" likewise | count the motion as for yy: the digits after the letter, 1 when there are none | high, not executed | ViEditor.LineCommandProcessAsWritten | ViEditor.LineCommandProcess |
