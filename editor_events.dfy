/**
 * The vocabulary shared by the editor slot and the content-type registry:
 * opaque handles, pages, and the trace of calls that sub-editors receive.
 *
 * A sub-editor is a widget whose behaviour is outside this model; what the
 * slot does to it is recorded as an `Event` (the editor that received the
 * call and the call itself). Packing an editor into the slot's container and
 * removing it again are recorded as `Mount` and `Unmount`, so the container's
 * contents are a function of the trace (`Replay`), and so is the largest
 * number of editors it ever held (`Peak`).
 */
module EditorEvents {
  import opened Wrappers

  /** Identity of a sub-editor widget. */
  type EditorId = nat
  /** Opaque notebook object, passed through unchanged. */
  type NotebookId = nat
  /** Opaque main-window object, passed through unchanged. */
  type WindowId = nat
  /** Opaque application preferences object, passed through unchanged. */
  type PrefId = nat

  /** A note page; the only attribute the dispatch reads is its content type. */
  datatype Page = Page(contentType: string)

  /** A call made on a sub-editor (or, for Mount/Unmount, on the container holding it). */
  datatype Call =
    | Mount
    | Show
    | Unmount
    | SetNotebook(notebook: Option<NotebookId>)
    | ViewPages(pages: seq<Page>)
    | IsFocus
    | GrabFocus
    | ClearView
    | Save
    | SaveNeeded
    | LoadPreferences(pref: PrefId, firstOpen: bool)
    | SavePreferences(pref: PrefId)
    | AddUi(window: Option<WindowId>, useMinitoolbar: bool)
    | RemoveUi(window: Option<WindowId>)
    | Undo
    | Redo

  datatype Event = Event(target: EditorId, call: Call)

  /** A call that does not change which editors sit in the container. */
  predicate Quiet(c: Call) {
    !c.Mount? && !c.Unmount?
  }

  /** The container contents that correspond to an optional active editor. */
  function Held(editor: Option<EditorId>): (r: set<EditorId>)
    ensures |r| <= 1
    ensures forall x :: x in r <==> editor == Some(x)
  {
    if editor.Some? then {editor.value} else {}
  }

  /**
   * What a delegating facade method does: the call reaches the active
   * editor, or nothing happens when there is none.
   */
  function Forward(editor: Option<EditorId>, c: Call): (r: seq<Event>)
    ensures |r| <= 1
    ensures r == [] <==> editor.None?
    ensures forall i :: 0 <= i < |r| ==> r[i] == Event(editor.value, c)
  {
    if editor.Some? then [Event(editor.value, c)] else []
  }

  /** The container contents after one event. */
  function Apply(m: set<EditorId>, ev: Event): set<EditorId> {
    match ev.call
    case Mount => m + {ev.target}
    case Unmount => m - {ev.target}
    case _ => m
  }

  /** The container contents after a trace, starting from `m`. */
  function Replay(m: set<EditorId>, t: seq<Event>): set<EditorId>
    decreases |t|
  {
    if t == [] then m else Replay(Apply(m, t[0]), t[1..])
  }

  function Max(a: nat, b: nat): nat {
    if a < b then b else a
  }

  /** The largest number of editors the container holds at any point of a trace, starting from `m`. */
  function Peak(m: set<EditorId>, t: seq<Event>): (r: nat)
    ensures r >= |m|
    decreases |t|
  {
    if t == [] then |m| else Max(|m|, Peak(Apply(m, t[0]), t[1..]))
  }

  lemma {:induction false} PeakCoversEnd(m: set<EditorId>, t: seq<Event>)
    ensures Peak(m, t) >= |Replay(m, t)|
    decreases |t|
  {
    if t != [] {
      PeakCoversEnd(Apply(m, t[0]), t[1..]);
    }
  }

  /** Replaying a concatenation is replaying its parts one after the other. */
  lemma {:induction false} ReplayAppend(m: set<EditorId>, t: seq<Event>, u: seq<Event>)
    ensures Replay(m, t + u) == Replay(Replay(m, t), u)
    ensures Peak(m, t + u) == Max(Peak(m, t), Peak(Replay(m, t), u))
    decreases |t|
  {
    if t == [] {
      assert t + u == u;
    } else {
      assert (t + u)[0] == t[0];
      assert (t + u)[1..] == t[1..] + u;
      ReplayAppend(Apply(m, t[0]), t[1..], u);
    }
  }

  /** Calls other than Mount and Unmount leave the container as it is. */
  lemma {:induction false} QuietReplay(m: set<EditorId>, u: seq<Event>)
    requires forall i :: 0 <= i < |u| ==> Quiet(u[i].call)
    ensures Replay(m, u) == m
    ensures Peak(m, u) == |m|
    decreases |u|
  {
    if u != [] {
      QuietReplay(Apply(m, u[0]), u[1..]);
    }
  }

  /** Appending quiet calls to a trace changes neither the container nor its peak. */
  lemma QuietExtension(t: seq<Event>, u: seq<Event>)
    requires forall i :: 0 <= i < |u| ==> Quiet(u[i].call)
    ensures Replay({}, t + u) == Replay({}, t)
    ensures Peak({}, t + u) == Peak({}, t)
  {
    ReplayAppend({}, t, u);
    QuietReplay(Replay({}, t), u);
    PeakCoversEnd({}, t);
  }
}
