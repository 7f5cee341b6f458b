/** The values the SchemaTree editor works with: the project document, its
    comments, the displayed section titles, the stored form of a document,
    and the mode-dependent button table. */
module SchemaData {
  import opened Text

  /** One discussion comment: its text and the ISO-8601 time it was added. */
  datatype Comment = Comment(text: string, timestamp: string)

  /** The project document (`projectData`): three section titles and the comments in display order. */
  datatype ProjectData = ProjectData(
    treeTitle: string,
    notesTitle: string,
    discussionTitle: string,
    comments: seq<Comment>)

  /** The document the editor starts with. */
  function InitialProject(): (d: ProjectData)
    ensures d.comments == [] && !Blank(d.treeTitle) && !Blank(d.notesTitle) && !Blank(d.discussionTitle)
  {
    var d := ProjectData("Tree", "Notes", "Discussion", []);
    assert !IsWhitespace(d.treeTitle[0]) && !IsWhitespace(d.notesTitle[0]) && !IsWhitespace(d.discussionTitle[0]);
    d
  }

  /** The storage key the document is saved under. */
  const ProjectKey: string := "schemaTreeProject"

  /** What the key-value store holds under a key: either an empty (falsy)
      value, or a serialised project document, which parsing gives back whole. */
  datatype Stored = EmptyValue | Document(data: ProjectData)

  /** The two sections whose titles the user may edit. */
  datatype Section = TreeSection | NotesSection

  /** A displayed, editable section title: its text, whether it is
      content-editable, and the default label recorded when the page started. */
  datatype TitleView = TitleView(text: string, editable: bool, defaultTitle: string)

  /** The label a title falls back to when its text is blank: the recorded
      default, or "Untitled" when there is none. */
  function FallbackTitle(defaultTitle: string): (r: string)
    ensures r != []
    ensures defaultTitle != [] ==> r == defaultTitle
    ensures defaultTitle == [] ==> !Blank(r)
  {
    if defaultTitle == [] then
      var u := "Untitled";
      assert !IsWhitespace(u[0]);
      u
    else defaultTitle
  }

  /** The text a title holds once an edit is committed: kept as typed (not
      trimmed) unless it is blank, in which case the fallback label. */
  function CommittedTitle(text: string, defaultTitle: string): (r: string)
    ensures r != []
    ensures !Blank(text) ==> r == text
    ensures Blank(text) ==> r == FallbackTitle(defaultTitle)
  {
    if Blank(text) then FallbackTitle(defaultTitle) else text
  }

  /** The editor's own computation (trim, and when nothing is left take the
      default or "Untitled") gives exactly the committed title. */
  lemma {:induction false} CommittedTitleByTrim(text: string, defaultTitle: string)
    ensures CommittedTitle(text, defaultTitle) ==
            if Trim(text) == [] then (if defaultTitle != [] then defaultTitle else "Untitled") else text
  {
    TrimEmptyIffBlank(text);
  }

  /** Committing an already committed title changes nothing. */
  lemma {:induction false} CommittedTitleIdempotent(text: string, defaultTitle: string)
    ensures CommittedTitle(CommittedTitle(text, defaultTitle), defaultTitle) == CommittedTitle(text, defaultTitle)
  {
  }

  /** A committed title is never visually blank unless the recorded default itself is. */
  lemma {:induction false} CommittedTitleVisible(text: string, defaultTitle: string)
    requires defaultTitle == [] || !Blank(defaultTitle)
    ensures !Blank(CommittedTitle(text, defaultTitle))
  {
  }

  /** The line a comment is rendered as: its text and its localised time in parentheses. */
  function RenderLine(c: Comment, localize: string -> string): (line: string)
    ensures |line| == |c.text| + |localize(c.timestamp)| + 3
    ensures line[..|c.text|] == c.text && line[|line| - 1] == ')'
  {
    c.text + " (" + localize(c.timestamp) + ")"
  }

  /** A rendered line starts with the comment's text, unchanged, and ends
      with its localised time in parentheses. */
  lemma {:induction false} RenderLineParts(c: Comment, localize: string -> string)
    ensures var line := RenderLine(c, localize);
            var n := |c.text|;
            |line| == n + |localize(c.timestamp)| + 3 &&
            line[..n] == c.text && line[n..n + 2] == " (" &&
            line[n + 2..|line| - 1] == localize(c.timestamp) && line[|line| - 1] == ')'
  {
  }

  /** The rendered comment list: one line per comment, in list order. */
  function RenderLines(cs: seq<Comment>, localize: string -> string): (lines: seq<string>)
    ensures |lines| == |cs|
    ensures forall i :: 0 <= i < |cs| ==> lines[i] == RenderLine(cs[i], localize)
  {
    if cs == [] then [] else RenderLines(cs[..|cs| - 1], localize) + [RenderLine(cs[|cs| - 1], localize)]
  }

  /** Rendering is compositional over appending: one more comment, one more line at the end. */
  lemma {:induction false} RenderLinesAppend(cs: seq<Comment>, c: Comment, localize: string -> string)
    ensures RenderLines(cs + [c], localize) == RenderLines(cs, localize) + [RenderLine(c, localize)]
  {
    assert (cs + [c])[..|cs|] == cs;
  }

  // The button table (`buttonStates`).

  /** The two modes of the editor. */
  datatype Mode = Initial | Creation

  /** The handlers the buttons can be bound to. */
  datatype Command = EnterCreation | LoadProject | SaveProject | ExitCreation

  /** One button: its text, its CSS class and the handler a click runs. */
  datatype ButtonSpec = ButtonSpec(text: string, cssClass: string, action: Command)

  /** The two buttons of the header: the create/save slot and the open/exit slot. */
  datatype ButtonPair = ButtonPair(first: ButtonSpec, second: ButtonSpec)

  /** The mode in which a command is offered. */
  function OfferedIn(c: Command): Mode
  {
    match c
    case EnterCreation => Initial
    case LoadProject => Initial
    case SaveProject => Creation
    case ExitCreation => Creation
  }

  /** The buttons shown in a mode. */
  function ButtonsFor(m: Mode): (r: ButtonPair)
    ensures OfferedIn(r.first.action) == m && OfferedIn(r.second.action) == m
    ensures r.first.action != r.second.action
    ensures r.first.text != r.second.text && r.first.cssClass != r.second.cssClass
  {
    match m
    case Initial =>
      ButtonPair(ButtonSpec("Create", "create-btn", EnterCreation), ButtonSpec("Open", "open-btn", LoadProject))
    case Creation =>
      ButtonPair(ButtonSpec("Save", "save-btn", SaveProject), ButtonSpec("Exit", "exit-btn", ExitCreation))
  }

  /** Every command is offered by exactly one button, in exactly one mode:
      the table covers all handlers and shows each in the mode it belongs to. */
  lemma {:induction false} ButtonsCoverCommands(c: Command)
    ensures var b := ButtonsFor(OfferedIn(c)); b.first.action == c || b.second.action == c
    ensures forall m: Mode :: (ButtonsFor(m).first.action == c || ButtonsFor(m).second.action == c) ==> m == OfferedIn(c)
  {
  }

  /** Different modes show different buttons. */
  lemma {:induction false} ButtonsDistinguishModes(m1: Mode, m2: Mode)
    ensures ButtonsFor(m1) == ButtonsFor(m2) ==> m1 == m2
  {
  }
}
