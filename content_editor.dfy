/**
 * ContentEditor: a MultiEditor that keeps a registry from content type to
 * editor, plus a default editor, and chooses the active editor from the
 * content type of the single page it is asked to show.
 *
 * The Python class inherits from MultiEditor; here it owns one (`slot`) and
 * its overriding `view_pages` calls the slot's `SetEditor` and `ViewPages`
 * where the Python code calls `self.set_editor` and `MultiEditor.view_pages`.
 * The inherited facade methods are the slot's.
 */
module ContentEditors {
  import opened Wrappers
  import opened EditorEvents
  import opened MultiEditors
  import opened ContentTypes

  datatype RegistryError = KeyNotFound(contentType: string)

  /**
   * What `view_pages(pages)` leaves behind, from the slot's state `s`:
   * the active editor afterwards and the calls the sub-editors receive.
   */
  function ViewOutcome(s: Slot, pref: PrefId, editors: map<string, Option<EditorId>>,
                       default: Option<EditorId>, pages: seq<Page>): (r: (Option<EditorId>, seq<Event>))
    ensures r.0 != s.editor ==> |pages| == 1
    ensures forall i :: 0 <= i < |r.1| ==> r.1[i].target in Held(s.editor) + Held(r.0)
  {
    if |pages| != 1 then (s.editor, Forward(s.editor, Call.ViewPages([])))
    else
      var e := Resolve(editors, default, pages[0].contentType);
      (e, SwitchEvents(s, pref, e) + Forward(e, Call.ViewPages(pages)))
  }

  /**
   * Zero or several pages keep the active editor and only send it an empty
   * page list; in particular no editor is mounted or unmounted.
   */
  lemma ManyPagesKeepEditor(s: Slot, pref: PrefId, editors: map<string, Option<EditorId>>,
                            default: Option<EditorId>, pages: seq<Page>)
    requires |pages| != 1
    ensures ViewOutcome(s, pref, editors, default, pages).0 == s.editor
    ensures var ev := ViewOutcome(s, pref, editors, default, pages).1;
      (s.editor.Some? ==> ev == [Event(s.editor.value, Call.ViewPages([]))]) && (s.editor.None? ==> ev == [])
  {
  }

  /**
   * A single page whose editor differs from the active one: the new editor
   * is first shown the previously stored pages (end of its setup) and then
   * the new page list.
   */
  lemma NewEditorSeesPagesTwice(s: Slot, pref: PrefId, editors: map<string, Option<EditorId>>,
                                                    default: Option<EditorId>, pages: seq<Page>, y: EditorId)
    requires |pages| == 1
    requires Resolve(editors, default, pages[0].contentType) == Some(y) && s.editor != Some(y)
    ensures var ev := ViewOutcome(s, pref, editors, default, pages).1;
      |ev| >= 2 && ev[|ev| - 2] == Event(y, Call.ViewPages(s.pages)) && ev[|ev| - 1] == Event(y, Call.ViewPages(pages))
  {
  }

  /** A single page whose editor is already active: it only receives the new page list. */
  lemma SameEditorOnlyViews(s: Slot, pref: PrefId, editors: map<string, Option<EditorId>>,
                            default: Option<EditorId>, pages: seq<Page>)
    requires |pages| == 1 && Resolve(editors, default, pages[0].contentType) == s.editor
    ensures ViewOutcome(s, pref, editors, default, pages).1 == Forward(s.editor, Call.ViewPages(pages))
  {
  }

  /** Whatever the pages, the container holds exactly the resulting editor and never two. */
  lemma ViewKeepsOneMounted(s: Slot, pref: PrefId, editors: map<string, Option<EditorId>>,
                            default: Option<EditorId>, pages: seq<Page>)
    ensures var (e, ev) := ViewOutcome(s, pref, editors, default, pages);
      Replay(Held(s.editor), ev) == Held(e) && Peak(Held(s.editor), ev) <= 1
  {
    var (e, ev) := ViewOutcome(s, pref, editors, default, pages);
    if |pages| != 1 {
      QuietReplay(Held(s.editor), ev);
    } else {
      var sw := SwitchEvents(s, pref, e);
      var fw := Forward(e, Call.ViewPages(pages));
      SwitchKeepsOneMounted(s, pref, e);
      ReplayAppend(Held(s.editor), sw, fw);
      QuietReplay(Held(e), fw);
    }
  }

  class ContentEditor {
    const slot: MultiEditor
    var editors: map<string, Option<EditorId>>
    var defaultEditor: Option<EditorId>

    ghost predicate Valid()
      reads this, slot
    {
      slot.Valid()
    }

    constructor (pref: PrefId)
      ensures Valid() && fresh(slot)
      ensures slot.pref == pref && slot.State() == Slot(None, [], None, None, false) && slot.trace == []
      ensures editors == map[] && defaultEditor == None
    {
      slot := new MultiEditor(pref);
      editors := map[];
      defaultEditor := None;
    }

    /** Registers or replaces the editor for a content type; other entries are kept. */
    method AddEditor(contentType: string, editor: Option<EditorId>)
      modifies this
      ensures editors == old(editors)[contentType := editor]
      ensures editors[contentType] == editor
      ensures forall t :: t in old(editors) && t != contentType ==> t in editors && editors[t] == old(editors)[t]
      ensures defaultEditor == old(defaultEditor)
    {
      editors := editors[contentType := editor];
    }

    /** Deletes a registration; an unregistered type is a missing-key error and changes nothing. */
    method RemovedEditor(contentType: string) returns (r: Result<(), RegistryError>)
      modifies this
      ensures contentType in old(editors) ==> r == Ok(()) && editors == old(editors) - {contentType}
      ensures contentType !in old(editors) ==> r == Err(KeyNotFound(contentType)) && editors == old(editors)
      ensures contentType !in editors
      ensures defaultEditor == old(defaultEditor)
    {
      if contentType in editors {
        editors := editors - {contentType};
        r := Ok(());
      } else {
        r := Err(KeyNotFound(contentType));
      }
    }

    /** Exact-match lookup; an unregistered type is a missing-key error. */
    method GetEditor(contentType: string) returns (r: Result<Option<EditorId>, RegistryError>)
      ensures r.Ok? <==> contentType in editors
      ensures r.Ok? ==> r.value == editors[contentType]
      ensures r.Err? ==> r.error == KeyNotFound(contentType)
    {
      if contentType in editors {
        r := Ok(editors[contentType]);
      } else {
        r := Err(KeyNotFound(contentType));
      }
    }

    method SetDefaultEditor(editor: Option<EditorId>)
      modifies this
      ensures defaultEditor == editor && editors == old(editors)
    {
      defaultEditor := editor;
    }

    /**
     * With exactly one page, selects the editor registered under the
     * longest prefix of its content type (or the default) and shows it the
     * pages; otherwise keeps the active editor and shows it no pages.
     */
    method ViewPages(pages: seq<Page>)
      requires Valid()
      modifies slot
      ensures Valid()
      ensures var (e, ev) := ViewOutcome(old(slot.State()), slot.pref, editors, defaultEditor, pages);
        slot.State() == old(slot.State()).(editor := e, pages := if |pages| == 1 then pages else [])
        && slot.trace == old(slot.trace) + ev
    {
      if |pages| != 1 {
        slot.ViewPages([]);
      } else {
        var segs := Split(pages[0].contentType);
        var i := |segs|;
        var selected := defaultEditor;
        while i > 0
          invariant 0 <= i <= |segs|
          invariant forall j :: i < j <= |segs| ==> !Hits(editors, segs, j)
          invariant selected == defaultEditor
        {
          var key := Join(segs[..i]);
          var editor := if key in editors then editors[key] else None;
          if editor.Some? {
            selected := editor;
            break;
          }
          i := i - 1;
        }
        if i > 0 {
          assert Hits(editors, segs, i) && selected == editors[Join(segs[..i])];
          assert Search(editors, segs, |segs|) == Some(i);
        }
        assert selected == Resolve(editors, defaultEditor, pages[0].contentType);
        slot.SetEditor(selected);
        slot.ViewPages(pages);
      }
    }
  }

  /** After a content type's registration is removed, looking it up fails. */
  method RemoveThenGet(ce: ContentEditor, contentType: string) returns (r: Result<Option<EditorId>, RegistryError>)
    modifies ce
    ensures r == Err(KeyNotFound(contentType))
  {
    var _ := ce.RemovedEditor(contentType);
    r := ce.GetEditor(contentType);
  }

  /** The minitoolbar flag given to add_ui reaches an editor activated later. */
  method FlagPersistsAcrossSwap(ce: ContentEditor, w: WindowId, y: EditorId)
    requires ce.Valid() && ce.slot.editor != Some(y)
    modifies ce.slot
    ensures old(ce.slot.trace) <= ce.slot.trace
    ensures Event(y, Call.AddUi(Some(w), true)) in ce.slot.trace[|old(ce.slot.trace)|..]
  {
    ce.slot.AddUi(Some(w), true);
    ghost var s := ce.slot.State();
    ghost var before := ce.slot.trace;
    ce.slot.SetEditor(Some(y));
    SwitchUiFollowsWindow(s, ce.slot.pref, Some(y));
    ghost var added := ce.slot.trace[|old(ce.slot.trace)|..];
    assert added == Forward(old(ce.slot.editor), Call.AddUi(Some(w), true)) + SwitchEvents(s, ce.slot.pref, Some(y));
  }
}
