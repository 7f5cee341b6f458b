# SchemaTree editor state, modelled in Dafny

SchemaTree is a browser page for a single project: a tree section, a notes
section and a discussion section with a list of comments. One singleton object
holds its state; it switches between a read-only *initial* mode and an
editable *creation* mode, lets the user rename the tree and notes titles,
saves the project to local storage under the key `schemaTreeProject` and
loads it back, and appends comments.

This project models that object's state logic from `script.js`:

- `text.dfy` (module `Text`): JavaScript's `String.prototype.trim`, over the
  white-space and line-terminator characters ECMAScript defines.
- `schema_data.dfy` (module `SchemaData`): the value types (comment, project
  document, stored value, displayed title), the title-commit rule, the
  comment rendering, and the `buttonStates` table as a pure function from
  mode to the two header buttons (text, CSS class, handler).
- `schema_spec.dfy` (module `SchemaSpec`): the whole editor state as one value
  (`AppState`), a function per operation giving the state after it, the
  reachable-state invariant, and the lemmas stating what the operations
  promise: guarded, idempotent mode transitions, the title-commit rule and
  its fallback, save and load with their round trip, and append-only comments.
- `schema_session.dfy` (module `SchemaSession`): the user events `init` wires
  to the operations (header clicks, the edit-title buttons, blur or Enter in
  a title, comment submission, and the browser's own typing into an editable
  title or the comment field), runs of any length, and what holds over every
  run: the invariant, the rendered list matching the comments, and comments
  being append-only until a load.
- `schema_tree.dfy` (module `SchemaTreeApp`): class `SchemaTree`, whose fields
  are the object's state with each page element reduced to the fields the
  code reads and writes. Every method updates the fields in place as the
  source does (the comment list is rendered by a loop) and is proved to leave
  `State()` equal to the matching `SchemaSpec` function of the old state.

The page is reduced to plain fields:
- each editable title has its text, its `contentEditable` flag and the
  default label recorded at start-up (script.js:278);
- the discussion title is text only;
- the comment input is a string;
- the rendered comment list is a sequence of lines;
- the header buttons are the pair `updateButtons` last installed, and the initial-mode pair before the first mode switch.

Local storage is a map from key to `Stored`. A `Stored` value is either
`EmptyValue` (the falsy empty string) or `Document(d)`, a serialised project
document that parsing gives back whole. The current time (`new Date().toISOString()`)
is the parameter `now` of `AddComment`. The locale formatting of a timestamp
(`toLocaleString`) is the function `localize`, given to the constructor.

Two behaviours of the code are worth knowing:
- Saving copies the displayed titles into the document and writes it to
  storage before `exitCreationMode` commits the title edits. So a blank
  tree or notes title is stored blank, while the document kept in memory and
  the display get the fallback label. `SaveStoresUncommittedTitle` proves
  this for every state and either section. `SaveKeepsStoredDocument` shows
  that the stored and in-memory documents agree whenever neither title is
  blank. In the page, leaving a
  title to click Save normally commits it first.
- A title is editable only in creation mode. The converse does not hold: a
  commit on blur or Enter switches editing off while the mode stays creation.

The model follows `script.js`, which has no comment length limit, no comment
deletion, no cancel-edit path, no `nodes` field and no recovery from
unreadable stored data.

## Model

| member | source | states |
|---|---|---|
| Text.TrimStart | script.js:160 | the result is a suffix of the input that is empty or starts with a non-white-space character, and everything dropped is white space |
| Text.TrimEnd | script.js:160 | the result is a prefix of the input that is empty or ends with a non-white-space character, and everything dropped is white space |
| Text.Trim | script.js:217 | the JavaScript trim (leading, then trailing white space removed) is never longer than its input |
| Text.TrimEmptyIffBlank | script.js:217-218 | trimming leaves nothing exactly when the whole input is white space (both directions) |
| Text.TrimUnchanged | script.js:160 | a string with no white space at either end is its own trim |
| Text.TrimEdges | script.js:217 | a trimmed string has no white space at either end |
| Text.TrimIdempotent | script.js:217 | trimming twice equals trimming once |
| Text.TrimIsInfix | script.js:217 | the trim is the contiguous part of the input starting where the leading white space ends |
| Text.TrimDropsOnlyWhitespace | script.js:217 | the characters the trim drops before and after the kept part are all white space |
| SchemaData.InitialProject | script.js:3-8 | the starting document has no comments and non-blank tree, notes and discussion titles |
| SchemaData.FallbackTitle | script.js:162 | the fallback is never empty: it is the recorded default when there is one, otherwise a non-blank label |
| SchemaData.CommittedTitle | script.js:160-163 | a committed title is never empty; non-blank text is kept exactly as typed (not trimmed); blank text becomes the fallback label |
| SchemaData.CommittedTitleByTrim | script.js:160-162 | the code's trim-based test (nothing left after trimming gives the recorded default, or "Untitled" when there is none; otherwise the text as typed) gives exactly the committed title of the blank rule |
| SchemaData.CommittedTitleIdempotent | script.js:157-163 | committing an already committed title leaves it unchanged |
| SchemaData.CommittedTitleVisible | script.js:161-162 | when the recorded default is empty or non-blank, a committed title is never blank |
| SchemaData.RenderLine | script.js:236 | a comment's line starts with its text unchanged, ends with ")" and is three characters longer than the text and the localised time together |
| SchemaData.RenderLineParts | script.js:236 | a rendered line is the comment text unchanged, then " (", the localised time, then ")" |
| SchemaData.RenderLines | script.js:229-238 | one rendered line per comment, the i-th line rendering the i-th comment |
| SchemaData.RenderLinesAppend | script.js:223-225 | rendering a list with one more comment at the end gives the old lines plus that comment's line at the end |
| SchemaData.ButtonsFor | script.js:9-18 | in each mode both buttons run handlers that belong to that mode, and the two buttons differ in handler, text and CSS class |
| SchemaData.ButtonsCoverCommands | script.js:9-18 | every handler is on a button in the mode it belongs to, and on no button in the other mode |
| SchemaData.ButtonsDistinguishModes | script.js:69-73 | the two modes show different buttons |
| SchemaSpec.Start | script.js:1-8 | the start-up state: initial mode with its buttons, no title editable, each editable title's default equal to the text the page shows (script.js:277-279), no comments, an empty list, the given store |
| SchemaSpec.EnterWhenCreating | script.js:20-21 | entering creation mode when already in it changes nothing |
| SchemaSpec.EnterFromInitial | script.js:20-31 | from initial mode, entering switches the mode and the buttons to creation, makes both titles editable, and changes nothing else |
| SchemaSpec.EnterIdempotent | script.js:20-32 | entering twice equals entering once |
| SchemaSpec.ExitWhenInitial | script.js:34-35 | leaving creation mode from initial mode changes nothing |
| SchemaSpec.ExitFromCreation | script.js:34-54 | from creation mode, leaving switches to initial, makes both titles non-editable, commits each into its document field, and keeps discussion title, comments, input, list, store and defaults |
| SchemaSpec.ExitIdempotent | script.js:34-54 | leaving twice equals leaving once |
| SchemaSpec.EnterThenExit | script.js:20-54 | entering then leaving always ends in initial mode with neither title editable |
| SchemaSpec.EnableTitleEditGuard | script.js:145-147 | outside creation mode nothing changes; in creation mode the result is the old state with only that title's editable flag set: its text, its default label and every other part of the state are kept |
| SchemaSpec.SaveTitleEditEffect | script.js:157-172 | editing stops; blank text becomes the fallback and other text is kept as typed; the result goes to the section's own document field; no other document field, title or state part changes |
| SchemaSpec.SaveTitleEditIdempotent | script.js:157-172 | committing the same title twice equals committing it once |
| SchemaSpec.SaveEffect | script.js:174-186 | the store maps the project key to the displayed titles plus the current comments, other keys untouched; the mode ends initial with its buttons; from creation mode both titles stop being editable and are committed into the display and the document; default labels, discussion title, comments, input and list unchanged, so no other part of the state changes; from a reachable state nothing stays editable |
| SchemaSpec.LoadNothing | script.js:189-212 | with no stored document (missing key or empty value) loading changes nothing |
| SchemaSpec.LoadReplaces | script.js:189-208 | with a stored document, loading replaces the whole document, shows its three titles and renders its comments, keeping mode, buttons, editable flags, defaults, input and store |
| SchemaSpec.SaveLoadRoundTrip | script.js:184-192 | loading right after saving gives back exactly the titles displayed at save time and the comments in order, in the document and on screen |
| SchemaSpec.SaveKeepsStoredDocument | script.js:179-185 | when neither editable title is blank, the in-memory document after saving is the stored one, reopening leaves the document unchanged, and when the list showed the comments reopening changes no part of the state |
| SchemaSpec.SaveStoresUncommittedTitle | script.js:176-185 | in creation mode, for either section, a blank displayed title is stored blank while the in-memory document and the display get the fallback label, and the two differ whenever the recorded default is empty or non-blank |
| SchemaSpec.AddCommentBlank | script.js:215-218 | input that trims to nothing changes nothing |
| SchemaSpec.AddCommentAppends | script.js:215-223 | other input appends exactly one comment after the old ones, in order; its text is the trimmed input, non-empty and already trimmed; its timestamp is `now` |
| SchemaSpec.AddCommentFrame | script.js:215-226 | after an accepted comment the input is cleared, the list is re-rendered from the comments, and nothing else changes |
| SchemaSpec.AddCommentRendersOneMore | script.js:223-238 | when the list showed the comments, adding one appends exactly that comment's line and keeps the earlier lines |
| SchemaSpec.ModeOperationsKeepInv | script.js:20-54 | entering, leaving, starting and committing title edits keep the buttons matching the mode and editing confined to creation mode |
| SchemaSpec.StoreOperationsKeepInv | script.js:174-238 | saving, loading, adding and rendering comments keep the invariant |
| SchemaSpec.PerformKeepsInv | script.js:9-18 | running any button handler keeps the invariant |
| SchemaSpec.ClickEffect | script.js:76-81 | in a reachable state the create/save button always toggles the mode, and the open/exit button always ends in initial mode |
| SchemaSession.StepKeepsInv | script.js:249-299 | every single event keeps the invariant |
| SchemaSession.RunKeepsInv | script.js:249-299 | every run of events keeps the invariant: the buttons shown are the mode's and no title is editable outside creation mode |
| SchemaSession.StepKeepsShown | script.js:208-238 | every single event keeps the rendered list equal to the rendering of the document's comments |
| SchemaSession.RunKeepsShown | script.js:229-238 | over every run the rendered list shows exactly the document's comments, one line each, in order |
| SchemaSession.StepExtendsComments | script.js:215-227 | an event that loads no document keeps the existing comments as a prefix of the new ones |
| SchemaSession.RunExtendsComments | script.js:215-227 | comments are append-only: over any run that loads no stored document, the starting comments stay in place as a prefix |
| SchemaSession.SessionFromStart | script.js:277-279 | every run from start-up satisfies the invariant and shows the document's comments |
| SchemaTreeApp.SchemaTree.constructor | script.js:1-8 | the new object is in the start-up state over the given store and page titles, and is `Valid`: buttons match the mode, editing only in creation mode, the list shows the comments |
| SchemaTreeApp.SchemaTree.EnterCreationMode | script.js:20-32 | the new state is `Enter` of the old one; from a `Valid` object it stays `Valid` |
| SchemaTreeApp.SchemaTree.ExitCreationMode | script.js:34-54 | the new state is `Exit` of the old one; from a `Valid` object it stays `Valid` |
| SchemaTreeApp.SchemaTree.EnableTitleEdit | script.js:145-149 | the new state is `EnableTitleEdit` of the old one; from a `Valid` object it stays `Valid` |
| SchemaTreeApp.SchemaTree.SaveTitleEdit | script.js:157-172 | the new state is `SaveTitleEdit` of the old one for that section; a `Valid` object stays `Valid` (it is also called mid-way through leaving creation mode, where the object is not `Valid`) |
| SchemaTreeApp.SchemaTree.SaveProject | script.js:174-187 | the new state is `Save` of the old one; from a `Valid` object it stays `Valid` |
| SchemaTreeApp.SchemaTree.LoadProject | script.js:189-213 | the new state is `Load` of the old one; from a `Valid` object it stays `Valid` |
| SchemaTreeApp.SchemaTree.AddComment | script.js:215-227 | the new state is `AddComment` of the old one at time `now`; from a `Valid` object it stays `Valid` |
| SchemaTreeApp.SchemaTree.RenderComments | script.js:229-239 | the loop leaves the comment list equal to `RenderLines` of the document's comments, nothing else changed; the list then shows the comments, so an object whose buttons and editing flags were in order is `Valid` |
| SchemaTreeApp.SchemaTree.Click | script.js:80-81 | a click runs the handler the current buttons bind to that slot: the new state is `Click` of the old one; from a `Valid` object it stays `Valid` |

## Left out

- Element lookups and their missing-element guards: `querySelector`, the `Buttons not found` return in `updateButtons`, `if (treeTitle)` and `if (!commentsList) return`. The model assumes the page has every element.
- The clone-and-replace of the buttons and the rebinding of listeners (script.js:64-81). Only the result is modelled: the `buttons` field holds the mode's button pair, and `Click` runs the bound handler.
- Tool panels (`addToolTabs`, `createTreeTools`, `createNotesTools`, `removeToolTabs`, `handleToolClick`): these are HTML markup and placeholder alerts with no state.
- Focus, selection ranges, the `editing` CSS class, the `creation-mode` body class and `aria-label` attributes: these are presentation only.
- The theme toggle, and the code in `init` that binds the listeners. The events those listeners react to (a header click, an edit-title click, blur or Enter in a title, the comment button or Enter in the comment field) are modelled as `Event`s in `SchemaSession.Step`. The one piece of state `init` sets up, the default label of each editable title and editing off, is in the constructor.
- The JSON text format. A stored document is a value that parsing gives back whole. No JSON text is modelled and no parse failure either, since the code does not handle one: a stored non-empty string that fails to parse, or parses to something that is not a project document, is not modelled.
- The clock and the locale: the timestamp is the parameter `now`, and its display form is the opaque function `localize`.
- `alert` and `console.error` messages: they do not change state.
- UTF-16 code units: white space is modelled as ECMAScript's WhiteSpace and LineTerminator characters (Unicode scalar values), and no white-space character lies outside the Basic Multilingual Plane.
- Storage failures: `localStorage.setItem` (script.js:184) can throw, for a full quota or disabled storage, and `saveProject` does not catch it. It would then stop after the three document titles were overwritten (script.js:179-181), with the store unchanged and creation mode kept. The model's store write always succeeds, so `Save` always stores and always leaves creation mode.
- The page's initial comment field, comment list and header button labels: `init` sets none of them; it only looks the buttons up and binds their handlers (script.js:241-249), and the labels come from the page's markup. `Start` and the constructor take the field and the list as empty and the buttons as the initial-mode pair of `buttonStates` ("Create" and "Open"). The `Shown` half of `SessionFromStart` rests on the first two, and its `Inv` half on the buttons.
- Other writers of the store: another same-origin tab or window can write `schemaTreeProject` at any time. In the model the store changes only through `Save`, so `SaveLoadRoundTrip` describes a load with no such write in between.
- Text.Trim: its own contract gives only the length bound. No white space at either end, emptiness exactly for blank input, the trim being a slice of the input and the dropped ends being white space are stated by `TrimEdges`, `TrimEmptyIffBlank`, `TrimIsInfix` and `TrimDropsOnlyWhitespace`.
