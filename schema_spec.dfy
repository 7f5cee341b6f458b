/** The editor's whole state as one value, and what each operation of the
    SchemaTree object does to it. The methods of class SchemaTree are proved
    to change their object's state exactly as these functions say; the lemmas
    below state what the operations promise. */
module SchemaSpec {
  import opened Text
  import opened SchemaData

  /** Everything the editor's operations read or write: the mode flag, the
      project document, the header buttons, the three displayed titles, the
      comment input field, the rendered comment list and the key-value store. */
  datatype AppState = AppState(
    creationMode: bool,
    projectData: ProjectData,
    buttons: ButtonPair,
    treeTitle: TitleView,
    notesTitle: TitleView,
    discussionTitle: string,
    commentField: string,
    commentsList: seq<string>,
    storage: map<string, Stored>)

  function ModeOf(s: AppState): Mode
  {
    if s.creationMode then Creation else Initial
  }

  function Title(s: AppState, sec: Section): TitleView
  {
    match sec
    case TreeSection => s.treeTitle
    case NotesSection => s.notesTitle
  }

  function WithTitle(s: AppState, sec: Section, v: TitleView): AppState
  {
    match sec
    case TreeSection => s.(treeTitle := v)
    case NotesSection => s.(notesTitle := v)
  }

  /** The document field that holds a section's title. */
  function DocTitle(d: ProjectData, sec: Section): string
  {
    match sec
    case TreeSection => d.treeTitle
    case NotesSection => d.notesTitle
  }

  function WithDocTitle(d: ProjectData, sec: Section, t: string): ProjectData
  {
    match sec
    case TreeSection => d.(treeTitle := t)
    case NotesSection => d.(notesTitle := t)
  }

  /** What holds in every state the editor can reach: the header shows the
      buttons of the current mode, and a title is editable only in creation mode. */
  ghost predicate Inv(s: AppState)
  {
    s.buttons == ButtonsFor(ModeOf(s)) &&
    (s.treeTitle.editable ==> s.creationMode) &&
    (s.notesTitle.editable ==> s.creationMode)
  }

  /** The rendered comment list shows the document's comments. */
  predicate Shown(s: AppState, localize: string -> string)
  {
    s.commentsList == RenderLines(s.projectData.comments, localize)
  }

  /** The two states agree on everything but the mode, the buttons and the editable flags. */
  ghost predicate SameContent(a: AppState, b: AppState)
  {
    a.projectData == b.projectData &&
    a.treeTitle.text == b.treeTitle.text && a.treeTitle.defaultTitle == b.treeTitle.defaultTitle &&
    a.notesTitle.text == b.notesTitle.text && a.notesTitle.defaultTitle == b.notesTitle.defaultTitle &&
    a.discussionTitle == b.discussionTitle &&
    a.commentField == b.commentField &&
    a.commentsList == b.commentsList &&
    a.storage == b.storage
  }

  /** The state after the object is created and `init` has run on a page whose
      titles read `treeText`, `notesText` and `discussionText`: initial mode,
      the default document, each editable title's default recorded from the
      page and editing off. */
  function Start(treeText: string, notesText: string, discussionText: string, storage: map<string, Stored>): (r: AppState)
    ensures Inv(r) && !r.creationMode && !r.treeTitle.editable && !r.notesTitle.editable
    ensures r.treeTitle.defaultTitle == r.treeTitle.text == treeText
    ensures r.notesTitle.defaultTitle == r.notesTitle.text == notesText
    ensures r.projectData.comments == [] && r.commentsList == [] && r.storage == storage
  {
    AppState(
      false, InitialProject(), ButtonsFor(Initial),
      TitleView(treeText, false, treeText), TitleView(notesText, false, notesText), discussionText,
      "", [], storage)
  }

  /** `enterCreationMode`. */
  function Enter(s: AppState): AppState
  {
    if s.creationMode then s
    else s.(creationMode := true, buttons := ButtonsFor(Creation),
            treeTitle := s.treeTitle.(editable := true),
            notesTitle := s.notesTitle.(editable := true))
  }

  /** `saveTitleEdit` on the title of `sec`. */
  function SaveTitleEdit(s: AppState, sec: Section): AppState
  {
    var v := Title(s, sec);
    var t := CommittedTitle(v.text, v.defaultTitle);
    WithTitle(s, sec, v.(text := t, editable := false)).(projectData := WithDocTitle(s.projectData, sec, t))
  }

  /** `exitCreationMode`: leave the mode, switch editing off and commit the tree then the notes title. */
  function Exit(s: AppState): AppState
  {
    if !s.creationMode then s
    else
      var s1 := s.(creationMode := false, buttons := ButtonsFor(Initial));
      var s2 := s1.(treeTitle := s1.treeTitle.(editable := false));
      var s3 := SaveTitleEdit(s2, TreeSection);
      var s4 := s3.(notesTitle := s3.notesTitle.(editable := false));
      SaveTitleEdit(s4, NotesSection)
  }

  /** `enableTitleEdit` on the title of `sec`. */
  function EnableTitleEdit(s: AppState, sec: Section): AppState
  {
    if !s.creationMode then s
    else WithTitle(s, sec, Title(s, sec).(editable := true))
  }

  /** The document `saveProject` writes: the displayed titles and the current comments. */
  function SavedDocument(s: AppState): ProjectData
  {
    s.projectData.(treeTitle := s.treeTitle.text, notesTitle := s.notesTitle.text,
                   discussionTitle := s.discussionTitle)
  }

  /** `saveProject`: capture the displayed titles, store the document, then leave creation mode. */
  function Save(s: AppState): AppState
  {
    var d := SavedDocument(s);
    Exit(s.(projectData := d, storage := s.storage[ProjectKey := Document(d)]))
  }

  /** The store holds a document to load (a missing key and an empty value both mean none). */
  predicate HasSaved(storage: map<string, Stored>)
  {
    ProjectKey in storage && storage[ProjectKey].Document?
  }

  /** `renderComments`: the comment list shows the document's comments. */
  function Render(s: AppState, localize: string -> string): AppState
  {
    s.(commentsList := RenderLines(s.projectData.comments, localize))
  }

  /** `loadProject`. */
  function Load(s: AppState, localize: string -> string): AppState
  {
    if !HasSaved(s.storage) then s
    else
      var d := s.storage[ProjectKey].data;
      Render(s.(projectData := d,
                treeTitle := s.treeTitle.(text := d.treeTitle),
                notesTitle := s.notesTitle.(text := d.notesTitle),
                discussionTitle := d.discussionTitle), localize)
  }

  /** `addComment`, at time `now`. */
  function AddComment(s: AppState, now: string, localize: string -> string): AppState
  {
    var text := Trim(s.commentField);
    if text == [] then s
    else
      var d := s.projectData.(comments := s.projectData.comments + [Comment(text, now)]);
      Render(s.(projectData := d, commentField := ""), localize)
  }

  /** Running the handler a button is bound to. */
  function Perform(s: AppState, c: Command, localize: string -> string): AppState
  {
    match c
    case EnterCreation => Enter(s)
    case LoadProject => Load(s, localize)
    case SaveProject => Save(s)
    case ExitCreation => Exit(s)
  }

  /** The two header buttons. */
  datatype Slot = FirstButton | SecondButton

  /** A click on a header button runs the handler the current mode binds to it. */
  function Click(s: AppState, slot: Slot, localize: string -> string): AppState
  {
    var b := match slot case FirstButton => s.buttons.first case SecondButton => s.buttons.second;
    Perform(s, b.action, localize)
  }

  // Mode state machine.

  /** Entering creation mode when already in it changes nothing. */
  lemma {:induction false} EnterWhenCreating(s: AppState)
    requires s.creationMode
    ensures Enter(s) == s
  {
  }

  /** From initial mode, entering creation mode switches the mode and the
      buttons, makes both editable titles editable, and changes nothing else. */
  lemma {:induction false} EnterFromInitial(s: AppState)
    requires !s.creationMode
    ensures var r := Enter(s);
            r.creationMode && r.buttons == ButtonsFor(Creation) &&
            r.treeTitle.editable && r.notesTitle.editable && SameContent(r, s)
  {
  }

  lemma {:induction false} EnterIdempotent(s: AppState)
    ensures Enter(Enter(s)) == Enter(s)
  {
  }

  /** Leaving creation mode from initial mode changes nothing. */
  lemma {:induction false} ExitWhenInitial(s: AppState)
    requires !s.creationMode
    ensures Exit(s) == s
  {
  }

  /** From creation mode, leaving it switches the mode and the buttons, leaves
      both titles non-editable, commits each title into its document field,
      and keeps the discussion title, the comments, the input field, the
      rendered list, the store and the default labels. */
  lemma {:induction false} ExitFromCreation(s: AppState)
    requires s.creationMode
    ensures var r := Exit(s);
            var tree := CommittedTitle(s.treeTitle.text, s.treeTitle.defaultTitle);
            var notes := CommittedTitle(s.notesTitle.text, s.notesTitle.defaultTitle);
            !r.creationMode && r.buttons == ButtonsFor(Initial) &&
            !r.treeTitle.editable && !r.notesTitle.editable &&
            r.treeTitle.text == tree && r.projectData.treeTitle == tree &&
            r.notesTitle.text == notes && r.projectData.notesTitle == notes &&
            r.projectData.discussionTitle == s.projectData.discussionTitle &&
            r.projectData.comments == s.projectData.comments &&
            r.treeTitle.defaultTitle == s.treeTitle.defaultTitle &&
            r.notesTitle.defaultTitle == s.notesTitle.defaultTitle &&
            r.discussionTitle == s.discussionTitle && r.commentField == s.commentField &&
            r.commentsList == s.commentsList && r.storage == s.storage
  {
  }

  lemma {:induction false} ExitIdempotent(s: AppState)
    ensures Exit(Exit(s)) == Exit(s)
  {
  }

  /** Entering and then leaving creation mode always ends in initial mode with nothing editable. */
  lemma {:induction false} EnterThenExit(s: AppState)
    ensures var r := Exit(Enter(s));
            !r.creationMode && !r.treeTitle.editable && !r.notesTitle.editable
  {
  }

  // Title edit lifecycle.

  /** Editing can start only in creation mode; there it marks the one title editable. */
  lemma {:induction false} EnableTitleEditGuard(s: AppState, sec: Section)
    ensures !s.creationMode ==> EnableTitleEdit(s, sec) == s
    ensures s.creationMode ==>
              EnableTitleEdit(s, sec) == WithTitle(s, sec, Title(s, sec).(editable := true))
  {
  }

  /** Committing a title: editing stops, a blank title becomes its fallback
      label and any other text is kept exactly as typed, the result goes to
      the section's own document field, and no other document field changes. */
  lemma {:induction false} SaveTitleEditEffect(s: AppState, sec: Section)
    ensures var r := SaveTitleEdit(s, sec);
            var v := Title(s, sec);
            var other := if sec == TreeSection then NotesSection else TreeSection;
            !Title(r, sec).editable &&
            (Blank(v.text) ==> Title(r, sec).text == FallbackTitle(v.defaultTitle)) &&
            (!Blank(v.text) ==> Title(r, sec).text == v.text) &&
            Title(r, sec).text != [] &&
            DocTitle(r.projectData, sec) == Title(r, sec).text &&
            DocTitle(r.projectData, other) == DocTitle(s.projectData, other) &&
            r.projectData.discussionTitle == s.projectData.discussionTitle &&
            r.projectData.comments == s.projectData.comments &&
            Title(r, other) == Title(s, other) &&
            Title(r, sec).defaultTitle == v.defaultTitle &&
            r.creationMode == s.creationMode && r.buttons == s.buttons &&
            r.discussionTitle == s.discussionTitle && r.commentField == s.commentField &&
            r.commentsList == s.commentsList && r.storage == s.storage
  {
  }

  /** Committing the same title twice is committing it once. */
  lemma {:induction false} SaveTitleEditIdempotent(s: AppState, sec: Section)
    ensures SaveTitleEdit(SaveTitleEdit(s, sec), sec) == SaveTitleEdit(s, sec)
  {
    var v := Title(s, sec);
    CommittedTitleIdempotent(v.text, v.defaultTitle);
  }

  // Persistence.

  /** Saving writes the displayed titles and the current comments under the
      project key, leaves every other key alone, and ends in initial mode
      with nothing editable; from creation mode each editable title is
      committed into the display and the document, and nothing else changes. */
  lemma {:induction false} SaveEffect(s: AppState)
    ensures var r := Save(s);
            r.storage == s.storage[ProjectKey := Document(ProjectData(
              s.treeTitle.text, s.notesTitle.text, s.discussionTitle, s.projectData.comments))] &&
            HasSaved(r.storage) &&
            !r.creationMode &&
            (Inv(s) ==> !r.treeTitle.editable && !r.notesTitle.editable) &&
            r.projectData.comments == s.projectData.comments &&
            r.projectData.discussionTitle == s.discussionTitle &&
            r.commentField == s.commentField && r.commentsList == s.commentsList &&
            r.buttons == (if s.creationMode then ButtonsFor(Initial) else s.buttons) &&
            r.treeTitle.editable == (s.treeTitle.editable && !s.creationMode) &&
            r.notesTitle.editable == (s.notesTitle.editable && !s.creationMode) &&
            r.treeTitle.text ==
              (if s.creationMode then CommittedTitle(s.treeTitle.text, s.treeTitle.defaultTitle) else s.treeTitle.text) &&
            r.notesTitle.text ==
              (if s.creationMode then CommittedTitle(s.notesTitle.text, s.notesTitle.defaultTitle) else s.notesTitle.text) &&
            r.projectData.treeTitle == r.treeTitle.text && r.projectData.notesTitle == r.notesTitle.text &&
            r.treeTitle.defaultTitle == s.treeTitle.defaultTitle &&
            r.notesTitle.defaultTitle == s.notesTitle.defaultTitle &&
            r.discussionTitle == s.discussionTitle
  {
  }

  /** With nothing stored, loading changes nothing at all. */
  lemma {:induction false} LoadNothing(s: AppState, localize: string -> string)
    requires !HasSaved(s.storage)
    ensures Load(s, localize) == s
  {
  }

  /** With a document stored, loading replaces the whole document, shows its
      three titles and its comments, and keeps the mode, the editable flags,
      the default labels, the input field and the store. */
  lemma {:induction false} LoadReplaces(s: AppState, localize: string -> string)
    requires HasSaved(s.storage)
    ensures var r := Load(s, localize);
            var d := s.storage[ProjectKey].data;
            r.projectData == d &&
            r.treeTitle.text == d.treeTitle && r.notesTitle.text == d.notesTitle &&
            r.discussionTitle == d.discussionTitle &&
            r.commentsList == RenderLines(d.comments, localize) &&
            r.creationMode == s.creationMode && r.buttons == s.buttons &&
            r.treeTitle.editable == s.treeTitle.editable && r.notesTitle.editable == s.notesTitle.editable &&
            r.treeTitle.defaultTitle == s.treeTitle.defaultTitle &&
            r.notesTitle.defaultTitle == s.notesTitle.defaultTitle &&
            r.commentField == s.commentField && r.storage == s.storage
  {
  }

  /** Loading right after saving brings back exactly the titles that were
      displayed when saving and the comments in their order, in the document
      and on the screen. */
  lemma {:induction false} SaveLoadRoundTrip(s: AppState, localize: string -> string)
    ensures var r := Load(Save(s), localize);
            r.projectData == ProjectData(s.treeTitle.text, s.notesTitle.text, s.discussionTitle, s.projectData.comments) &&
            r.treeTitle.text == s.treeTitle.text && r.notesTitle.text == s.notesTitle.text &&
            r.discussionTitle == s.discussionTitle &&
            r.commentsList == RenderLines(s.projectData.comments, localize) &&
            !r.creationMode
  {
  }

  /** When neither editable title is blank, the document kept in memory after
      saving is the one that was stored; reopening it then leaves the
      document as it is and, when the list on screen showed the comments,
      changes nothing at all. */
  lemma {:induction false} SaveKeepsStoredDocument(s: AppState, localize: string -> string)
    requires !Blank(s.treeTitle.text) && !Blank(s.notesTitle.text)
    ensures Save(s).projectData == Save(s).storage[ProjectKey].data
    ensures Load(Save(s), localize).projectData == Save(s).projectData
    ensures Shown(s, localize) ==> Load(Save(s), localize) == Save(s)
  {
  }

  /** Saving stores the displayed titles before leaving creation mode commits
      them: a blank title of either section is stored blank, while the
      document kept in memory and the display get the fallback label, and the
      two differ whenever the recorded default is empty or non-blank. */
  lemma {:induction false} SaveStoresUncommittedTitle(s: AppState, sec: Section)
    requires s.creationMode && Blank(Title(s, sec).text)
    ensures var v := Title(s, sec);
            var stored := DocTitle(Save(s).storage[ProjectKey].data, sec);
            stored == v.text &&
            DocTitle(Save(s).projectData, sec) == FallbackTitle(v.defaultTitle) &&
            Title(Save(s), sec).text == FallbackTitle(v.defaultTitle) &&
            ((v.defaultTitle == [] || !Blank(v.defaultTitle)) ==> stored != DocTitle(Save(s).projectData, sec))
  {
  }

  // Comments.

  /** A comment input that trims to nothing is ignored: nothing changes. */
  lemma {:induction false} AddCommentBlank(s: AppState, now: string, localize: string -> string)
    requires Blank(s.commentField)
    ensures AddComment(s, now, localize) == s
  {
    TrimEmptyIffBlank(s.commentField);
  }

  /** Any other input appends exactly one comment, the trimmed input stamped
      with `now`, after the existing ones, which keep their order. */
  lemma {:induction false} AddCommentAppends(s: AppState, now: string, localize: string -> string)
    requires !Blank(s.commentField)
    ensures var cs := AddComment(s, now, localize).projectData.comments;
            var n := |s.projectData.comments|;
            |cs| == n + 1 && cs[..n] == s.projectData.comments &&
            cs[n].timestamp == now && cs[n].text == Trim(s.commentField) &&
            cs[n].text != [] && Trim(cs[n].text) == cs[n].text
  {
    TrimEmptyIffBlank(s.commentField);
    TrimIdempotent(s.commentField);
    var text := Trim(s.commentField);
    var cs := AddComment(s, now, localize).projectData.comments;
    assert cs == s.projectData.comments + [Comment(text, now)];
    assert cs[..|s.projectData.comments|] == s.projectData.comments;
  }

  /** Adding a comment clears the input, renders the list again and changes
      nothing but the comments, the input and the rendered list. */
  lemma {:induction false} AddCommentFrame(s: AppState, now: string, localize: string -> string)
    requires !Blank(s.commentField)
    ensures var r := AddComment(s, now, localize);
            r.commentField == "" &&
            r.commentsList == RenderLines(r.projectData.comments, localize) &&
            r.projectData.(comments := s.projectData.comments) == s.projectData &&
            r.(projectData := s.projectData, commentField := s.commentField, commentsList := s.commentsList) == s
  {
    TrimEmptyIffBlank(s.commentField);
  }

  /** When the list on screen shows the comments, adding one renders exactly
      one more line, at the end, and leaves the earlier lines as they were. */
  lemma {:induction false} AddCommentRendersOneMore(s: AppState, now: string, localize: string -> string)
    requires !Blank(s.commentField)
    requires s.commentsList == RenderLines(s.projectData.comments, localize)
    ensures var r := AddComment(s, now, localize);
            r.commentsList == s.commentsList + [RenderLine(Comment(Trim(s.commentField), now), localize)]
  {
    TrimEmptyIffBlank(s.commentField);
    RenderLinesAppend(s.projectData.comments, Comment(Trim(s.commentField), now), localize);
  }

  // Reachable states and the buttons.

  /** Every operation keeps the invariant. */
  lemma {:induction false} ModeOperationsKeepInv(s: AppState, sec: Section)
    requires Inv(s)
    ensures Inv(Enter(s)) && Inv(Exit(s)) && Inv(EnableTitleEdit(s, sec)) && Inv(SaveTitleEdit(s, sec))
  {
  }

  lemma {:induction false} StoreOperationsKeepInv(s: AppState, now: string, localize: string -> string)
    requires Inv(s)
    ensures Inv(Save(s)) && Inv(Load(s, localize)) && Inv(AddComment(s, now, localize)) && Inv(Render(s, localize))
  {
  }

  lemma {:induction false} PerformKeepsInv(s: AppState, c: Command, localize: string -> string)
    requires Inv(s)
    ensures Inv(Perform(s, c, localize))
  {
    match c
    case EnterCreation =>
    case LoadProject => StoreOperationsKeepInv(s, "", localize);
    case SaveProject => StoreOperationsKeepInv(s, "", localize);
    case ExitCreation =>
  }

  /** The create/save button always switches the mode; the open/exit button
      always ends in initial mode. */
  lemma {:induction false} ClickEffect(s: AppState, localize: string -> string)
    requires Inv(s)
    ensures Click(s, FirstButton, localize).creationMode == !s.creationMode
    ensures !Click(s, SecondButton, localize).creationMode
    ensures Inv(Click(s, FirstButton, localize)) && Inv(Click(s, SecondButton, localize))
  {
  }
}
