/** A session: the user events `init` wires to the editor's operations, and
    what holds over every sequence of them. */
module SchemaSession {
  import opened Text
  import opened SchemaData
  import opened SchemaSpec

  /** The events the page reacts to. Typing into a title or into the comment
      field is the browser's own editing, shown here so that sessions can
      reach every state. */
  datatype Event =
    | Press(slot: Slot)                    // a header button
    | EditButton(sec: Section)             // a section's edit-title button
    | CommitTitle(sec: Section)            // blur of a title, or Enter in it
    | SubmitComment(now: string)           // the comment button, or Enter in the field
    | TypeTitle(sec: Section, text: string)
    | TypeComment(text: string)

  /** The state after one event. */
  function Step(s: AppState, e: Event, localize: string -> string): AppState
  {
    match e
    case Press(slot) => Click(s, slot, localize)
    case EditButton(sec) => EnableTitleEdit(s, sec)
    case CommitTitle(sec) => SaveTitleEdit(s, sec)
    case SubmitComment(now) => AddComment(s, now, localize)
    case TypeTitle(sec, text) =>
      if Title(s, sec).editable then WithTitle(s, sec, Title(s, sec).(text := text)) else s
    case TypeComment(text) => s.(commentField := text)
  }

  /** The state after a sequence of events, first to last. */
  function Run(s: AppState, es: seq<Event>, localize: string -> string): AppState
    decreases |es|
  {
    if es == [] then s else Run(Step(s, es[0], localize), es[1..], localize)
  }

  /** The event is a click that loads a stored document. */
  predicate LoadsDocument(s: AppState, e: Event)
  {
    e.Press? &&
    (match e.slot case FirstButton => s.buttons.first case SecondButton => s.buttons.second).action == LoadProject &&
    HasSaved(s.storage)
  }

  /** Some event of the run loads a stored document. */
  predicate RunLoads(s: AppState, es: seq<Event>, localize: string -> string)
    decreases |es|
  {
    es != [] && (LoadsDocument(s, es[0]) || RunLoads(Step(s, es[0], localize), es[1..], localize))
  }

  lemma {:induction false} StepKeepsInv(s: AppState, e: Event, localize: string -> string)
    requires Inv(s)
    ensures Inv(Step(s, e, localize))
  {
    match e
    case Press(slot) => ClickEffect(s, localize);
    case EditButton(sec) => ModeOperationsKeepInv(s, sec);
    case CommitTitle(sec) => ModeOperationsKeepInv(s, sec);
    case SubmitComment(now) => StoreOperationsKeepInv(s, now, localize);
    case TypeTitle(sec, text) =>
    case TypeComment(text) =>
  }

  /** Every session keeps the invariant: the buttons shown are the mode's,
      and no title is editable outside creation mode. */
  lemma {:induction false} RunKeepsInv(s: AppState, es: seq<Event>, localize: string -> string)
    requires Inv(s)
    ensures Inv(Run(s, es, localize))
    decreases |es|
  {
    if es != [] {
      StepKeepsInv(s, es[0], localize);
      RunKeepsInv(Step(s, es[0], localize), es[1..], localize);
    }
  }

  lemma {:induction false} StepKeepsShown(s: AppState, e: Event, localize: string -> string)
    requires Shown(s, localize)
    ensures Shown(Step(s, e, localize), localize)
  {
    match e
    case Press(slot) =>
      var b := match slot case FirstButton => s.buttons.first case SecondButton => s.buttons.second;
      match b.action {
        case EnterCreation =>
        case LoadProject =>
        case SaveProject => SaveEffect(s);
        case ExitCreation => if s.creationMode { ExitFromCreation(s); }
      }
    case EditButton(sec) =>
    case CommitTitle(sec) => SaveTitleEditEffect(s, sec);
    case SubmitComment(now) =>
    case TypeTitle(sec, text) =>
    case TypeComment(text) =>
  }

  /** In every session the rendered comment list shows exactly the
      document's comments, one line each, in order. */
  lemma {:induction false} RunKeepsShown(s: AppState, es: seq<Event>, localize: string -> string)
    requires Shown(s, localize)
    ensures Shown(Run(s, es, localize), localize)
    ensures |Run(s, es, localize).commentsList| == |Run(s, es, localize).projectData.comments|
    decreases |es|
  {
    if es != [] {
      StepKeepsShown(s, es[0], localize);
      RunKeepsShown(Step(s, es[0], localize), es[1..], localize);
    }
  }

  /** One event that loads nothing keeps the comments as a prefix. */
  lemma {:induction false} StepExtendsComments(s: AppState, e: Event, localize: string -> string)
    requires !LoadsDocument(s, e)
    ensures var cs := Step(s, e, localize).projectData.comments;
            |s.projectData.comments| <= |cs| && cs[..|s.projectData.comments|] == s.projectData.comments
  {
    match e
    case Press(slot) =>
      var b := match slot case FirstButton => s.buttons.first case SecondButton => s.buttons.second;
      match b.action {
        case EnterCreation =>
        case LoadProject => LoadNothing(s, localize);
        case SaveProject => SaveEffect(s);
        case ExitCreation => if s.creationMode { ExitFromCreation(s); }
      }
    case EditButton(sec) =>
    case CommitTitle(sec) => SaveTitleEditEffect(s, sec);
    case SubmitComment(now) =>
      if Blank(s.commentField) { AddCommentBlank(s, now, localize); }
      else { AddCommentAppends(s, now, localize); }
    case TypeTitle(sec, text) =>
    case TypeComment(text) =>
  }

  /** Comments are append-only: until a stored document is loaded, every
      comment of the start of a session is still there, in its place. */
  lemma {:induction false} RunExtendsComments(s: AppState, es: seq<Event>, localize: string -> string)
    requires !RunLoads(s, es, localize)
    ensures var cs := Run(s, es, localize).projectData.comments;
            |s.projectData.comments| <= |cs| && cs[..|s.projectData.comments|] == s.projectData.comments
    decreases |es|
  {
    if es != [] {
      var t := Step(s, es[0], localize);
      StepExtendsComments(s, es[0], localize);
      RunExtendsComments(t, es[1..], localize);
      var n := |s.projectData.comments|;
      var cs := Run(s, es, localize).projectData.comments;
      assert cs[..|t.projectData.comments|][..n] == cs[..n];
    }
  }

  /** A session from start-up keeps both invariants. */
  lemma {:induction false} SessionFromStart(treeText: string, notesText: string, discussionText: string,
                                            storage: map<string, Stored>, es: seq<Event>, localize: string -> string)
    ensures var r := Run(Start(treeText, notesText, discussionText, storage), es, localize);
            Inv(r) && Shown(r, localize)
  {
    var s := Start(treeText, notesText, discussionText, storage);
    RunKeepsInv(s, es, localize);
    RunKeepsShown(s, es, localize);
  }
}
