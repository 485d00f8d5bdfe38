# KeepNote multi-editor: editor slot and content-type dispatch

A Dafny model of `keepnote/gui/editor_multi.py` from KeepNote, the GTK note
taking application. The file holds two classes:

- `MultiEditor` is a slot in the main window that holds at most one active
  sub-editor. Every facade call (`view_pages`, `save`, `undo`, `add_ui`, ...)
  is forwarded to the active editor, or does nothing when there is none.
  `set_editor` swaps the active editor: the old one is torn down
  (`view_pages([])`, `save_preferences`, `remove_ui` if a window is
  recorded, `set_notebook(None)`, removal from the container), then the new
  one is set up (packed and shown, `set_notebook`, `add_ui` with the
  remembered minitoolbar flag if a window is recorded, `load_preferences`,
  and `view_pages` with the remembered pages).
- `ContentEditor` extends it with a registry from content type to editor
  and a default editor. Its `view_pages` splits the single page's content
  type on `/` (Python `str.split` semantics), looks up the prefixes from
  the longest to the shortest, takes the first one registered to a non-None
  editor, falls back to the default, and then shows the pages.

Sub-editors are opaque identities (`EditorId`); notebooks, windows and the
preferences object are opaque tokens passed through unchanged. Every call a
sub-editor receives is appended to the slot's `trace` as an `Event`, and
packing into and removal from the container are the `Mount` and `Unmount`
calls, so the ordering of the swap protocol, the calls made only when a
window is recorded, and "nothing happens without an editor" are
postconditions on the trace. The container's contents and the largest
number of editors it ever held are functions of the trace (`Replay`,
`Peak`); the class invariant `MultiEditor.Valid` says the container holds
exactly the active editor and never held two.

Files:

- `wrappers.dfy`: `Option` and `Result`.
- `editor_events.dfy` (module `EditorEvents`): tokens, `Page`, `Call`,
  `Event`, `Forward` (delegation), `Replay`/`Peak` and their lemmas.
- `multi_editor.dfy` (module `MultiEditors`): the remembered state `Slot`,
  the call sequences `Teardown`, `Setup`, `SwitchEvents` with their lemmas,
  and the class `MultiEditor`.
- `content_types.dfy` (module `ContentTypes`): `Split`/`Join`, the prefix
  search `Search`, the selection `Resolve`, and their lemmas.
- `content_editor.dfy` (module `ContentEditors`): `ViewOutcome` (what
  `view_pages` leaves behind), its lemmas, and the class `ContentEditor`.

The Python `ContentEditor` inherits from `MultiEditor`; the model's
`ContentEditor` owns a `MultiEditor` (`slot`) and calls its `SetEditor` and
`ViewPages` where the Python code calls `self.set_editor` and
`MultiEditor.view_pages`. The inherited facade methods are the slot's.

Two behaviours of the code are kept as written:

- With zero or several pages the active editor is kept and only receives
  `view_pages([])` (lines 195-196) (`ContentEditors.ManyPagesKeepEditor`).
- A newly selected editor is shown pages twice: the previously remembered
  pages at the end of its setup (line 87), then the new ones (line 208)
  (`ContentEditors.NewEditorSeesPagesTwice`).

## Model

| member | source | states |
|---|---|---|
| `MultiEditors.MultiEditor.constructor` | keepnote/gui/editor_multi.py:51-59 | starts with no notebook, no pages, no editor, no window, minitoolbar off, and an empty trace |
| `MultiEditors.MultiEditor.SetEditor` | keepnote/gui/editor_multi.py:62-87 | the only state change is the active editor; the calls made are the teardown of the old editor followed by the setup of the new one (`SwitchEvents`), none when the editor is already active; the container keeps holding exactly the active editor and never two |
| `MultiEditors.Teardown` | keepnote/gui/editor_multi.py:68-75 | the calls to the outgoing editor in source order: `view_pages([])`, `save_preferences(pref)`, `remove_ui(window)` only when a window is recorded, `set_notebook(None)`, removal from the container; all addressed to it, four or five of them |
| `MultiEditors.Setup` | keepnote/gui/editor_multi.py:79-87 | the calls to the incoming editor in source order: packing, `show`, `set_notebook(stored notebook)`, `add_ui(window, stored flag)` only when a window is recorded, `load_preferences(pref)`, `view_pages(stored pages)`; all addressed to it, five or six of them |
| `MultiEditors.SwitchEvents` | keepnote/gui/editor_multi.py:62-87 | `set_editor(e)` makes no call exactly when e is already active; otherwise the teardown of the old editor (if any) then the setup of e (if any); every call goes to the old or the new editor |
| `MultiEditors.SwitchTwiceIsQuiet` | keepnote/gui/editor_multi.py:64-66 | setting the active editor again makes no call, so the second of two equal `set_editor` calls does nothing |
| `MultiEditors.TeardownShape` | keepnote/gui/editor_multi.py:68-75 | the old editor's calls all go to it, start with `view_pages([])`, end with its removal from the container, and nothing before that removal changes the container |
| `MultiEditors.SetupShape` | keepnote/gui/editor_multi.py:79-87 | the new editor's calls all go to it, start with packing it into the container, end with `view_pages` of the remembered pages, and nothing after the packing changes the container |
| `MultiEditors.TeardownEmptiesContainer` | keepnote/gui/editor_multi.py:68-75 | the teardown leaves the container that held the old editor empty and never adds an editor to it |
| `MultiEditors.SetupFillsContainer` | keepnote/gui/editor_multi.py:79-87 | the setup puts exactly the new editor into an empty container and adds nothing else |
| `MultiEditors.SwitchKeepsOneMounted` | keepnote/gui/editor_multi.py:68-87 | from a container holding the old editor, a swap leaves it holding exactly the new editor (nothing for None), and at no point between calls does it hold two editors |
| `MultiEditors.SwitchTeardownFirst` | keepnote/gui/editor_multi.py:68-87 | replacing editor x by y: every call to x (from `view_pages([])` to its removal) comes before every call to y (from its packing on) |
| `MultiEditors.SwitchReplaysStoredPages` | keepnote/gui/editor_multi.py:87 | a newly activated editor's last setup call is `view_pages` with the pages the slot remembers |
| `MultiEditors.SwitchUiFollowsWindow` | keepnote/gui/editor_multi.py:72-85 | with a window recorded, the old editor gets `remove_ui(window)` and the new one `add_ui(window, remembered flag)`; with none, no editor gets `add_ui` or `remove_ui` |
| `MultiEditors.SwitchPreservesValid` | keepnote/gui/editor_multi.py:62-87 | a trace whose container holds the active editor and never held two keeps both properties, for the new editor, after the calls of a swap |
| `EditorEvents.Forward` | keepnote/gui/editor_multi.py:99-163 | a delegated call reaches exactly the active editor, once, and with no active editor nothing happens |
| `MultiEditors.MultiEditor.Delegate` | keepnote/gui/editor_multi.py:99-163 | the shared `if self._editor: return self._editor.X(...)` step: appends the call for the active editor, or nothing, and keeps the container invariant |
| `MultiEditors.MultiEditor.SetNotebook` | keepnote/gui/editor_multi.py:93-97 | records the notebook even with no editor and forwards it to the active editor |
| `MultiEditors.MultiEditor.IsFocus` | keepnote/gui/editor_multi.py:99-103 | true only when an editor is active and answers true; false with no editor; state unchanged |
| `MultiEditors.MultiEditor.GrabFocus` | keepnote/gui/editor_multi.py:105-108 | forwards to the active editor or does nothing; state unchanged |
| `MultiEditors.MultiEditor.ClearView` | keepnote/gui/editor_multi.py:110-113 | forwards to the active editor or does nothing; state unchanged |
| `MultiEditors.MultiEditor.ViewPages` | keepnote/gui/editor_multi.py:115-119 | remembers the pages even with no editor, and forwards them to the active editor |
| `MultiEditors.MultiEditor.Save` | keepnote/gui/editor_multi.py:121-124 | forwards to the active editor or does nothing; state unchanged |
| `MultiEditors.MultiEditor.SaveNeeded` | keepnote/gui/editor_multi.py:127-131 | true only when an editor is active and answers true; false with no editor; state unchanged |
| `MultiEditors.MultiEditor.LoadPreferences` | keepnote/gui/editor_multi.py:133-136 | forwards the preferences and the first-open flag to the active editor or does nothing |
| `MultiEditors.MultiEditor.SavePreferences` | keepnote/gui/editor_multi.py:139-142 | forwards the preferences to the active editor or does nothing |
| `MultiEditors.MultiEditor.AddUi` | keepnote/gui/editor_multi.py:145-149 | records the window and the minitoolbar flag and forwards both to the active editor |
| `MultiEditors.MultiEditor.RemoveUi` | keepnote/gui/editor_multi.py:152-155 | forgets the window, keeps the minitoolbar flag, forwards the given window to the active editor |
| `MultiEditors.MultiEditor.Undo` | keepnote/gui/editor_multi.py:157-159 | forwards to the active editor or does nothing; state unchanged |
| `MultiEditors.MultiEditor.Redo` | keepnote/gui/editor_multi.py:161-163 | forwards to the active editor or does nothing; state unchanged |
| `ContentTypes.Split` | keepnote/gui/editor_multi.py:198 | `split("/")` yields at least one segment and no segment contains `/` |
| `ContentTypes.Join` | keepnote/gui/editor_multi.py:201 | `"/".join(segs)`: the first segment is an initial part of the result; with `Split` it round-trips (`JoinSplit`, `SplitJoin`) |
| `ContentTypes.JoinSplit` | keepnote/gui/editor_multi.py:198-201 | joining the segments with `/` gives back the content type |
| `ContentTypes.SplitJoin` | keepnote/gui/editor_multi.py:198-201 | splitting joined `/`-free segments gives back the segments |
| `ContentTypes.PrefixAtBoundary` | keepnote/gui/editor_multi.py:200-201 | each looked-up key `"/".join(segments[:i])` is an initial part of the content type ending just before a `/`, and the first key looked up is the whole content type |
| `ContentTypes.Hits` | keepnote/gui/editor_multi.py:201-202 | prefix i hits when `"/".join(segments[:i])` is registered and its editor is not None (the `.get(key, None)` then `if editor:` test) |
| `ContentTypes.Search` | keepnote/gui/editor_multi.py:200-204 | the loop's first hit: the longest prefix registered to a non-None editor, and None exactly when no prefix is |
| `ContentTypes.Resolve` | keepnote/gui/editor_multi.py:198-206 | the editor of the longest hitting prefix, or the default when none hits; anything other than the default is an editor registered in the table |
| `ContentTypes.ResolveLongest` | keepnote/gui/editor_multi.py:200-204 | if prefix k hits and no longer prefix does, the editor registered under prefix k is selected |
| `ContentTypes.ResolveDefault` | keepnote/gui/editor_multi.py:205-206 | with no prefix registered to a non-None editor the default is selected; a selection other than the default is always an editor |
| `ContentTypes.ResolveExactType` | keepnote/gui/editor_multi.py:200-204 | an editor registered under the whole content type is always the one selected |
| `ContentTypes.ResolvedKeyIsAncestor` | keepnote/gui/editor_multi.py:200-204 | a hit's key is registered to an editor and is the content type itself or an ancestor of it ending at a `/` |
| `ContentTypes.ExampleSpecificWins` | keepnote/gui/editor_multi.py:193-208 | with "text" and "text/html" registered, "text/html/embedded" goes to the "text/html" editor |
| `ContentTypes.ExampleGeneralFallback` | keepnote/gui/editor_multi.py:193-208 | with the same registry, "text/plain" goes to the "text" editor |
| `ContentTypes.ExampleDefault` | keepnote/gui/editor_multi.py:193-208 | with the same registry, "image" goes to the default editor |
| `ContentEditors.ContentEditor.constructor` | keepnote/gui/editor_multi.py:171-175 | an empty registry, no default editor, and a fresh empty slot |
| `ContentEditors.ContentEditor.AddEditor` | keepnote/gui/editor_multi.py:178-179 | inserts or overwrites the entry (last write wins) and keeps every other entry |
| `ContentEditors.ContentEditor.RemovedEditor` | keepnote/gui/editor_multi.py:181-182 | deletes a registered entry; an unregistered type is a missing-key error that changes nothing |
| `ContentEditors.ContentEditor.GetEditor` | keepnote/gui/editor_multi.py:184-185 | succeeds exactly for registered types with the registered value; otherwise a missing-key error for that type |
| `ContentEditors.ContentEditor.SetDefaultEditor` | keepnote/gui/editor_multi.py:187-188 | replaces the default editor and leaves the registry alone |
| `ContentEditors.RemoveThenGet` | keepnote/gui/editor_multi.py:181-185 | after `removed_editor(t)`, `get_editor(t)` fails with a missing-key error for t |
| `ContentEditors.ContentEditor.ViewPages` | keepnote/gui/editor_multi.py:193-208 | with one page: the active editor becomes `Resolve` of its content type, the stored pages become the pages, and the calls are the swap followed by `view_pages(pages)` to the new editor; otherwise the editor is kept, the stored pages become empty and it receives `view_pages([])` |
| `ContentEditors.ViewOutcome` | keepnote/gui/editor_multi.py:193-208 | the active editor and the calls after `view_pages(pages)`: the active editor changes only for exactly one page, and every call goes to the old or the new editor |
| `ContentEditors.ManyPagesKeepEditor` | keepnote/gui/editor_multi.py:195-196 | zero or several pages keep the active editor, which alone receives `view_pages([])` |
| `ContentEditors.NewEditorSeesPagesTwice` | keepnote/gui/editor_multi.py:193-208 | a newly selected editor's last two calls are `view_pages` of the previously stored pages and then of the new pages |
| `ContentEditors.SameEditorOnlyViews` | keepnote/gui/editor_multi.py:193-208 | when the selected editor is already active, its only call is `view_pages(pages)` |
| `ContentEditors.ViewKeepsOneMounted` | keepnote/gui/editor_multi.py:193-208 | whatever the pages, the container ends holding exactly the selected editor and never holds two |
| `ContentEditors.FlagPersistsAcrossSwap` | keepnote/gui/editor_multi.py:145-147 | after `add_ui(w, True)`, the calls made by a later `set_editor(y)` in the same method include y's `add_ui(w, True)`; earlier calls in the trace are kept |

## Left out

- Toolkit calls: `pack_start`, `remove` and `show` on sub-editors are the `Mount`, `Unmount` and `Show` calls of the trace; the slot's own `show_all` in its constructor and the pygtk imports are not modelled.
- Return values of sub-editors: `is_focus` and `save_needed` take the active editor's answer as a parameter (`reply`); what `save`, `undo`, `redo`, `grab_focus`, `clear_view`, `load_preferences`, `save_preferences`, `add_ui` and `remove_ui` return is opaque and not modelled, nor are exceptions a sub-editor raises.
- `app.pref`: a preferences token fixed when the slot is constructed; the application object is not modelled.
- `set_editor` calls the new editor's `load_preferences(pref)` with one argument; the callee's default for `first_open` is in `keepnote/gui/editor.py`, which is not part of this model, and the trace records it as false.
- Python truthiness: editors, notebooks and windows are `Option` values and only `None` is false; a falsy non-None object is not modelled.
- Pages carry their content type and nothing else; `get_attr("content_type")` is assumed to return a string, as the code does.
- `keepnote.translate` and the `KeepNoteEditor` base class are not part of this model.
- Inheritance: `ContentEditor` owns its `MultiEditor` instead of extending it; the inherited facade is reached through its `slot`.
- `SetEditor` appends the teardown and setup calls to the trace together once both are computed; the resulting trace is the one the Python calls produce in order.
