/** The SchemaTree object: the editor's state as fields that its methods
    update in place, with the page's elements reduced to the fields they
    contribute (title text and editability, the comment input, the rendered
    comment list, the header buttons) and local storage to a map. */
module SchemaTreeApp {
  import opened Text
  import opened SchemaData
  import opened SchemaSpec

  class SchemaTree {
    var creationMode: bool
    var projectData: ProjectData
    /** The header buttons as `updateButtons` last set them. */
    var buttons: ButtonPair
    var treeTitle: TitleView
    var notesTitle: TitleView
    var discussionTitle: string
    /** The value of the comment input field. */
    var commentField: string
    /** The lines of the rendered comment list, top to bottom. */
    var commentsList: seq<string>
    /** The key-value store the project is saved in. */
    var storage: map<string, Stored>
    /** How a stored timestamp is shown (the browser's locale formatting). */
    const localize: string -> string

    /** The object's state as a value. */
    function State(): AppState
      reads this
    {
      AppState(creationMode, projectData, buttons, treeTitle, notesTitle, discussionTitle,
               commentField, commentsList, storage)
    }

    /** What holds of the object between handler calls: the header shows the
        mode's buttons, a title is editable only in creation mode, and the
        comment list shows the document's comments. */
    ghost predicate Valid()
      reads this
    {
      Inv(State()) && Shown(State(), localize)
    }

    /** The object as created and initialised on a page whose titles read
        `treeText`, `notesText` and `discussionText`, over the store `stored`. */
    constructor (treeText: string, notesText: string, discussionText: string,
                 stored: map<string, Stored>, localize: string -> string)
      ensures State() == Start(treeText, notesText, discussionText, stored)
      ensures this.localize == localize
      ensures Valid()
    {
      creationMode := false;
      projectData := InitialProject();
      buttons := ButtonsFor(Initial);
      treeTitle := TitleView(treeText, false, treeText);
      notesTitle := TitleView(notesText, false, notesText);
      discussionTitle := discussionText;
      commentField := "";
      commentsList := [];
      storage := stored;
      this.localize := localize;
    }

    method EnterCreationMode()
      requires Valid()
      modifies this
      ensures State() == Enter(old(State()))
      ensures Valid()
    {
      if !creationMode {
        creationMode := true;
        buttons := ButtonsFor(Creation);
        treeTitle := treeTitle.(editable := true);
        notesTitle := notesTitle.(editable := true);
      }
    }

    method ExitCreationMode()
      requires Valid()
      modifies this
      ensures State() == Exit(old(State()))
      ensures Valid()
    {
      if creationMode {
        ghost var s := State();
        creationMode := false;
        buttons := ButtonsFor(Initial);
        treeTitle := treeTitle.(editable := false);
        ghost var s2 := s.(creationMode := false, buttons := ButtonsFor(Initial), treeTitle := s.treeTitle.(editable := false));
        assert State() == s2;
        SaveTitleEdit(TreeSection);
        ghost var s3 := State();
        notesTitle := notesTitle.(editable := false);
        assert State() == s3.(notesTitle := s3.notesTitle.(editable := false));
        SaveTitleEdit(NotesSection);
      }
    }

    method EnableTitleEdit(sec: Section)
      requires Valid()
      modifies this
      ensures State() == SchemaSpec.EnableTitleEdit(old(State()), sec)
      ensures Valid()
    {
      if !creationMode {
        return;
      }
      match sec
      case TreeSection => treeTitle := treeTitle.(editable := true);
      case NotesSection => notesTitle := notesTitle.(editable := true);
    }

    method SaveTitleEdit(sec: Section)
      modifies this
      ensures State() == SchemaSpec.SaveTitleEdit(old(State()), sec)
      ensures old(Valid()) ==> Valid()
    {
      ghost var s := State();
      var title := match sec case TreeSection => treeTitle case NotesSection => notesTitle;
      title := title.(editable := false);
      var newTitle := Trim(title.text);
      if newTitle == [] {
        title := title.(text := if title.defaultTitle != [] then title.defaultTitle else "Untitled");
      }
      ghost var t := CommittedTitle(Title(s, sec).text, Title(s, sec).defaultTitle);
      CommittedTitleByTrim(Title(s, sec).text, Title(s, sec).defaultTitle);
      assert title == Title(s, sec).(text := t, editable := false);
      match sec
      case TreeSection =>
        treeTitle := title;
        projectData := projectData.(treeTitle := title.text);
        assert State() == s.(treeTitle := title, projectData := s.projectData.(treeTitle := t));
      case NotesSection =>
        notesTitle := title;
        projectData := projectData.(notesTitle := title.text);
        assert State() == s.(notesTitle := title, projectData := s.projectData.(notesTitle := t));
    }

    method SaveProject()
      requires Valid()
      modifies this
      ensures State() == Save(old(State()))
      ensures Valid()
    {
      projectData := projectData.(treeTitle := treeTitle.text);
      projectData := projectData.(notesTitle := notesTitle.text);
      projectData := projectData.(discussionTitle := discussionTitle);
      storage := storage[ProjectKey := Document(projectData)];
      ExitCreationMode();
    }

    method LoadProject()
      requires Valid()
      modifies this
      ensures State() == Load(old(State()), localize)
      ensures Valid()
    {
      var saved := if ProjectKey in storage then storage[ProjectKey] else EmptyValue;
      if saved.Document? {
        projectData := saved.data;
        treeTitle := treeTitle.(text := projectData.treeTitle);
        notesTitle := notesTitle.(text := projectData.notesTitle);
        discussionTitle := projectData.discussionTitle;
        RenderComments();
      }
    }

    /** Adds the input field's comment, stamped with the current time `now`. */
    method AddComment(now: string)
      requires Valid()
      modifies this
      ensures State() == SchemaSpec.AddComment(old(State()), now, localize)
      ensures Valid()
    {
      ghost var s := State();
      var commentText := Trim(commentField);
      if commentText != [] {
        var comment := Comment(commentText, now);
        projectData := projectData.(comments := projectData.comments + [comment]);
        commentField := "";
        assert State() == s.(projectData := projectData, commentField := "");
        assert Inv(State());
        RenderComments();
      }
    }

    method RenderComments()
      modifies this`commentsList
      ensures State() == Render(old(State()), localize)
      ensures Shown(State(), localize)
      ensures old(Inv(State())) ==> Valid()
    {
      var comments := projectData.comments;
      commentsList := [];
      var i := 0;
      while i < |comments|
        invariant 0 <= i <= |comments|
        invariant commentsList == RenderLines(comments[..i], localize)
      {
        assert comments[..i + 1][..i] == comments[..i];
        commentsList := commentsList + [RenderLine(comments[i], localize)];
        i := i + 1;
      }
      assert comments[..i] == comments;
    }

    /** A click on a header button: runs the handler bound to it for the current mode. */
    method Click(slot: Slot)
      requires Valid()
      modifies this
      ensures State() == SchemaSpec.Click(old(State()), slot, localize)
      ensures Valid()
    {
      var button := match slot case FirstButton => buttons.first case SecondButton => buttons.second;
      match button.action
      case EnterCreation => EnterCreationMode();
      case LoadProject => LoadProject();
      case SaveProject => SaveProject();
      case ExitCreation => ExitCreationMode();
    }
  }
}
