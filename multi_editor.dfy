/**
 * MultiEditor: a slot holding at most one active sub-editor. Every facade
 * call is forwarded to the active editor, or does nothing when there is
 * none; `SetEditor` swaps the active editor with a fixed teardown of the old
 * one followed by a fixed setup of the new one.
 *
 * The slot's remembered state is the value `Slot`; the calls it makes are
 * specified by the functions `Teardown`, `Setup` and `SwitchEvents`, whose
 * properties are the lemmas below. The class `MultiEditor` updates its
 * fields in place and appends to `trace` exactly what those functions say.
 */
module MultiEditors {
  import opened Wrappers
  import opened EditorEvents

  /** The state a MultiEditor remembers between calls. */
  datatype Slot = Slot(
    notebook: Option<NotebookId>,
    pages: seq<Page>,
    editor: Option<EditorId>,
    window: Option<WindowId>,
    useMinitoolbar: bool)

  /** Calls the outgoing editor `x` receives when it is replaced. */
  function Teardown(x: EditorId, pref: PrefId, window: Option<WindowId>): (r: seq<Event>)
    ensures |r| == if window.Some? then 5 else 4
    ensures forall i :: 0 <= i < |r| ==> r[i].target == x
    ensures window.Some? <==> Event(x, RemoveUi(window)) in r
  {
    [Event(x, ViewPages([])), Event(x, SavePreferences(pref))]
    + (if window.Some? then [Event(x, RemoveUi(window))] else [])
    + [Event(x, SetNotebook(None)), Event(x, Unmount)]
  }

  /** Calls the incoming editor `y` receives, from the slot's remembered state `s`. */
  function Setup(y: EditorId, s: Slot, pref: PrefId): (r: seq<Event>)
    ensures |r| == if s.window.Some? then 6 else 5
    ensures forall i :: 0 <= i < |r| ==> r[i].target == y
    ensures s.window.Some? <==> Event(y, AddUi(s.window, s.useMinitoolbar)) in r
  {
    [Event(y, Mount), Event(y, Show), Event(y, SetNotebook(s.notebook))]
    + (if s.window.Some? then [Event(y, AddUi(s.window, s.useMinitoolbar))] else [])
    + [Event(y, LoadPreferences(pref, false)), Event(y, ViewPages(s.pages))]
  }

  /** Calls made by `set_editor(e)` in state `s`. */
  function SwitchEvents(s: Slot, pref: PrefId, e: Option<EditorId>): (r: seq<Event>)
    ensures r == [] <==> e == s.editor
    ensures forall i :: 0 <= i < |r| ==> r[i].target in Held(s.editor) + Held(e)
  {
    if e == s.editor then []
    else
      (if s.editor.Some? then Teardown(s.editor.value, pref, s.window) else [])
      + (if e.Some? then Setup(e.value, s, pref) else [])
  }

  /** Setting the editor that is already active does nothing, in particular the second of two equal calls. */
  lemma SwitchTwiceIsQuiet(s: Slot, pref: PrefId, e: Option<EditorId>)
    ensures SwitchEvents(s.(editor := e), pref, e) == []
  {
  }

  lemma TeardownShape(x: EditorId, pref: PrefId, window: Option<WindowId>)
    ensures var t := Teardown(x, pref, window);
      |t| >= 4 && t[0] == Event(x, ViewPages([])) && t[|t| - 1] == Event(x, Unmount)
      && (forall i :: 0 <= i < |t| ==> t[i].target == x)
      && (forall i :: 0 <= i < |t| - 1 ==> Quiet(t[i].call))
  {
  }

  lemma SetupShape(y: EditorId, s: Slot, pref: PrefId)
    ensures var t := Setup(y, s, pref);
      |t| >= 5 && t[0] == Event(y, Mount) && t[|t| - 1] == Event(y, ViewPages(s.pages))
      && (forall i :: 0 <= i < |t| ==> t[i].target == y)
      && (forall i :: 1 <= i < |t| ==> Quiet(t[i].call))
  {
  }

  /** The teardown takes the outgoing editor out of the container and never adds one. */
  lemma TeardownEmptiesContainer(x: EditorId, pref: PrefId, window: Option<WindowId>)
    ensures Replay({x}, Teardown(x, pref, window)) == {}
    ensures Peak({x}, Teardown(x, pref, window)) <= 1
  {
    var down := Teardown(x, pref, window);
    TeardownShape(x, pref, window);
    var quiet := down[..|down| - 1];
    assert down == quiet + [Event(x, Unmount)];
    ReplayAppend({x}, quiet, [Event(x, Unmount)]);
    QuietReplay({x}, quiet);
  }

  /** The setup puts the incoming editor into an empty container and adds nothing else. */
  lemma SetupFillsContainer(y: EditorId, s: Slot, pref: PrefId)
    ensures Replay({}, Setup(y, s, pref)) == {y}
    ensures Peak({}, Setup(y, s, pref)) <= 1
  {
    var up := Setup(y, s, pref);
    SetupShape(y, s, pref);
    assert up == [Event(y, Mount)] + up[1..];
    ReplayAppend({}, [Event(y, Mount)], up[1..]);
    QuietReplay({y}, up[1..]);
  }

  /**
   * Swapping editors keeps the container consistent with the active editor
   * and never has it hold two editors, not even between two calls.
   */
  lemma SwitchKeepsOneMounted(s: Slot, pref: PrefId, e: Option<EditorId>)
    ensures Replay(Held(s.editor), SwitchEvents(s, pref, e)) == Held(e)
    ensures Peak(Held(s.editor), SwitchEvents(s, pref, e)) <= 1
  {
    if e != s.editor {
      var down := if s.editor.Some? then Teardown(s.editor.value, pref, s.window) else [];
      var up := if e.Some? then Setup(e.value, s, pref) else [];
      assert SwitchEvents(s, pref, e) == down + up;
      ReplayAppend(Held(s.editor), down, up);
      if s.editor.Some? {
        TeardownEmptiesContainer(s.editor.value, pref, s.window);
      }
      if e.Some? {
        SetupFillsContainer(e.value, s, pref);
      }
    }
  }

  /**
   * When one editor replaces another, the old editor receives all of its
   * calls (from `view_pages([])` to its unmount) before the new editor
   * receives any (starting with its mount).
   */
  lemma SwitchTeardownFirst(s: Slot, pref: PrefId, x: EditorId, y: EditorId)
    requires s.editor == Some(x) && x != y
    ensures var ev := SwitchEvents(s, pref, Some(y));
      exists k :: 0 < k < |ev|
        && (forall i :: 0 <= i < k ==> ev[i].target == x)
        && (forall i :: k <= i < |ev| ==> ev[i].target == y)
        && ev[0] == Event(x, ViewPages([]))
        && ev[k - 1] == Event(x, Unmount)
        && ev[k] == Event(y, Mount)
  {
    var down := Teardown(x, pref, s.window);
    var up := Setup(y, s, pref);
    var ev := SwitchEvents(s, pref, Some(y));
    assert ev == down + up;
    TeardownShape(x, pref, s.window);
    SetupShape(y, s, pref);
    var k := |down|;
    assert forall i :: k <= i < |ev| ==> ev[i] == up[i - k];
    assert ev[k - 1] == Event(x, Unmount) && ev[k] == Event(y, Mount);
  }

  /**
   * A newly activated editor is shown the pages the slot remembers, as the
   * last call of its setup.
   */
  lemma SwitchReplaysStoredPages(s: Slot, pref: PrefId, y: EditorId)
    requires s.editor != Some(y)
    ensures var ev := SwitchEvents(s, pref, Some(y));
      |ev| > 0 && ev[|ev| - 1] == Event(y, ViewPages(s.pages))
  {
  }

  /**
   * With a window recorded, the new editor attaches its UI with the
   * remembered minitoolbar flag and the old one detaches; with none, no
   * editor is asked to attach or detach a UI.
   */
  lemma SwitchUiFollowsWindow(s: Slot, pref: PrefId, e: Option<EditorId>)
    ensures var ev := SwitchEvents(s, pref, e);
      (s.window.Some? && e.Some? && e != s.editor ==> Event(e.value, AddUi(s.window, s.useMinitoolbar)) in ev)
      && (s.window.Some? && s.editor.Some? && e != s.editor ==> Event(s.editor.value, RemoveUi(s.window)) in ev)
      && (s.window.None? ==> forall i :: 0 <= i < |ev| ==> !ev[i].call.AddUi? && !ev[i].call.RemoveUi?)
  {
  }

  /** A trace consistent with the slot stays consistent after the calls of a swap. */
  lemma SwitchPreservesValid(t: seq<Event>, s: Slot, pref: PrefId, e: Option<EditorId>)
    requires Replay({}, t) == Held(s.editor) && Peak({}, t) <= 1
    ensures Replay({}, t + SwitchEvents(s, pref, e)) == Held(e)
    ensures Peak({}, t + SwitchEvents(s, pref, e)) <= 1
  {
    ReplayAppend({}, t, SwitchEvents(s, pref, e));
    SwitchKeepsOneMounted(s, pref, e);
  }

  /** The slot: its fields are the Python object's attributes, `trace` the calls its sub-editors received. */
  class MultiEditor {
    const pref: PrefId
    var notebook: Option<NotebookId>
    var pages: seq<Page>
    var editor: Option<EditorId>
    var window: Option<WindowId>
    var useMinitoolbar: bool
    var trace: seq<Event>

    function State(): Slot
      reads this
    {
      Slot(notebook, pages, editor, window, useMinitoolbar)
    }

    /** The container holds exactly the active editor, and never held two. */
    ghost predicate Valid()
      reads this
    {
      Replay({}, trace) == Held(editor) && Peak({}, trace) <= 1
    }

    constructor (pref: PrefId)
      ensures Valid()
      ensures this.pref == pref
      ensures State() == Slot(None, [], None, None, false)
      ensures trace == []
    {
      this.pref := pref;
      notebook := None;
      pages := [];
      editor := None;
      window := None;
      useMinitoolbar := false;
      trace := [];
    }

    method SetEditor(e: Option<EditorId>)
      requires Valid()
      modifies this
      ensures Valid()
      ensures State() == old(State()).(editor := e)
      ensures trace == old(trace) + SwitchEvents(old(State()), pref, e)
    {
      if e == editor {
        return;
      }
      ghost var s := State();
      var down: seq<Event> := [];
      if editor.Some? {
        var x := editor.value;
        down := [Event(x, Call.ViewPages([])), Event(x, Call.SavePreferences(pref))];
        if window.Some? {
          down := down + [Event(x, Call.RemoveUi(window))];
        }
        down := down + [Event(x, Call.SetNotebook(None)), Event(x, Call.Unmount)];
        assert down == Teardown(x, pref, window) by { }
      }
      editor := e;
      var up: seq<Event> := [];
      if editor.Some? {
        var y := editor.value;
        up := [Event(y, Call.Mount), Event(y, Call.Show), Event(y, Call.SetNotebook(notebook))];
        if window.Some? {
          up := up + [Event(y, Call.AddUi(window, useMinitoolbar))];
        }
        up := up + [Event(y, Call.LoadPreferences(pref, false)), Event(y, Call.ViewPages(pages))];
        assert up == Setup(y, s, pref) by { }
      }
      assert down + up == SwitchEvents(s, pref, e);
      SwitchPreservesValid(trace, s, pref, e);
      trace := trace + (down + up);
    }

    /** Appends one forwarded quiet call, keeping Valid(). */
    method Delegate(c: Call)
      requires Valid() && Quiet(c)
      modifies this`trace
      ensures Valid()
      ensures trace == old(trace) + Forward(editor, c)
    {
      QuietExtension(trace, Forward(editor, c));
      trace := trace + Forward(editor, c);
    }

    method SetNotebook(nb: Option<NotebookId>)
      requires Valid()
      modifies this
      ensures Valid()
      ensures State() == old(State()).(notebook := nb)
      ensures trace == old(trace) + Forward(editor, Call.SetNotebook(nb))
    {
      notebook := nb;
      Delegate(Call.SetNotebook(nb));
    }

    /** `reply` is what the active editor would answer. */
    method IsFocus(reply: bool) returns (focused: bool)
      requires Valid()
      modifies this
      ensures Valid() && State() == old(State())
      ensures focused <==> editor.Some? && reply
      ensures trace == old(trace) + Forward(editor, Call.IsFocus)
    {
      Delegate(Call.IsFocus);
      focused := editor.Some? && reply;
    }

    method GrabFocus()
      requires Valid()
      modifies this
      ensures Valid() && State() == old(State())
      ensures trace == old(trace) + Forward(editor, Call.GrabFocus)
    {
      Delegate(Call.GrabFocus);
    }

    method ClearView()
      requires Valid()
      modifies this
      ensures Valid() && State() == old(State())
      ensures trace == old(trace) + Forward(editor, Call.ClearView)
    {
      Delegate(Call.ClearView);
    }

    /** Remembers the pages even with no active editor, so a later SetEditor replays them. */
    method ViewPages(pages: seq<Page>)
      requires Valid()
      modifies this
      ensures Valid()
      ensures State() == old(State()).(pages := pages)
      ensures trace == old(trace) + Forward(editor, Call.ViewPages(pages))
    {
      this.pages := pages;
      Delegate(Call.ViewPages(pages));
    }

    method Save()
      requires Valid()
      modifies this
      ensures Valid() && State() == old(State())
      ensures trace == old(trace) + Forward(editor, Call.Save)
    {
      Delegate(Call.Save);
    }

    /** `reply` is what the active editor would answer. */
    method SaveNeeded(reply: bool) returns (needed: bool)
      requires Valid()
      modifies this
      ensures Valid() && State() == old(State())
      ensures needed <==> editor.Some? && reply
      ensures trace == old(trace) + Forward(editor, Call.SaveNeeded)
    {
      Delegate(Call.SaveNeeded);
      needed := editor.Some? && reply;
    }

    method LoadPreferences(appPref: PrefId, firstOpen: bool)
      requires Valid()
      modifies this
      ensures Valid() && State() == old(State())
      ensures trace == old(trace) + Forward(editor, Call.LoadPreferences(appPref, firstOpen))
    {
      Delegate(Call.LoadPreferences(appPref, firstOpen));
    }

    method SavePreferences(appPref: PrefId)
      requires Valid()
      modifies this
      ensures Valid() && State() == old(State())
      ensures trace == old(trace) + Forward(editor, Call.SavePreferences(appPref))
    {
      Delegate(Call.SavePreferences(appPref));
    }

    /** Records the window and the minitoolbar flag for later swaps. */
    method AddUi(w: Option<WindowId>, useMinitoolbar: bool)
      requires Valid()
      modifies this
      ensures Valid()
      ensures State() == old(State()).(window := w, useMinitoolbar := useMinitoolbar)
      ensures trace == old(trace) + Forward(editor, Call.AddUi(w, useMinitoolbar))
    {
      window := w;
      this.useMinitoolbar := useMinitoolbar;
      Delegate(Call.AddUi(w, useMinitoolbar));
    }

    /** Forgets the window but keeps the minitoolbar flag. */
    method RemoveUi(w: Option<WindowId>)
      requires Valid()
      modifies this
      ensures Valid()
      ensures State() == old(State()).(window := None)
      ensures trace == old(trace) + Forward(editor, Call.RemoveUi(w))
    {
      window := None;
      Delegate(Call.RemoveUi(w));
    }

    method Undo()
      requires Valid()
      modifies this
      ensures Valid() && State() == old(State())
      ensures trace == old(trace) + Forward(editor, Call.Undo)
    {
      Delegate(Call.Undo);
    }

    method Redo()
      requires Valid()
      modifies this
      ensures Valid() && State() == old(State())
      ensures trace == old(trace) + Forward(editor, Call.Redo)
    {
      Delegate(Call.Redo);
    }
  }
}
