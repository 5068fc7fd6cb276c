/**
 * The editor store (app/src/store/editor.ts): the content being edited, its
 * sanitised form, the title, the slug and whether there are unsaved edits.
 */
module Editor {
  import opened Wrappers

  datatype EditorState = EditorState(content: string, sanitizedContent: string, isDirty: bool, title: string, slug: Option<string>)

  const Initial: EditorState := EditorState("", "", false, "", None)

  datatype Action =
    | SetContent(content: string, sanitizedContent: string)
    | SetTitle(title: string)
    | SetSlug(slug: Option<string>)
    | ResetEditor
    | MarkClean

  /** One action; each changes only the fields it names. */
  function Step(s: EditorState, a: Action): (r: EditorState)
    ensures a.SetContent? ==> r == s.(content := a.content, sanitizedContent := a.sanitizedContent, isDirty := true)
    ensures a.SetTitle? ==> r == s.(title := a.title, isDirty := true)
    ensures a.SetSlug? ==> r == s.(slug := a.slug)
    ensures a.ResetEditor? ==> r == Initial
    ensures a.MarkClean? ==> r == s.(isDirty := false)
  {
    match a
    case SetContent(c, sc) => s.(content := c, sanitizedContent := sc, isDirty := true)
    case SetTitle(t) => s.(title := t, isDirty := true)
    case SetSlug(sl) => s.(slug := sl)
    case ResetEditor => Initial
    case MarkClean => s.(isDirty := false)
  }

  /** The state after a sequence of actions. */
  function Run(s: EditorState, actions: seq<Action>): EditorState
    decreases |actions|
  {
    if actions == [] then s else Step(Run(s, actions[..|actions| - 1]), actions[|actions| - 1])
  }

  predicate IsEdit(a: Action) { a.SetContent? || a.SetTitle? }
  predicate IsClean(a: Action) { a.ResetEditor? || a.MarkClean? }

  /** Some edit is followed by no reset and no `markClean`. */
  predicate EditedSinceClean(actions: seq<Action>) {
    exists i :: 0 <= i < |actions| && IsEdit(actions[i]) && forall j :: i < j < |actions| ==> !IsClean(actions[j])
  }

  /** From the initial state, the editor is dirty exactly when an edit has not been followed by a reset or `markClean`. */
  lemma {:induction false} DirtyIffEdited(actions: seq<Action>)
    ensures Run(Initial, actions).isDirty <==> EditedSinceClean(actions)
    decreases |actions|
  {
    if actions != [] {
      var init, last := actions[..|actions| - 1], actions[|actions| - 1];
      DirtyIffEdited(init);
      if IsEdit(last) {
        assert IsEdit(actions[|actions| - 1]);
      } else if IsClean(last) {
        forall i | 0 <= i < |actions| && IsEdit(actions[i])
          ensures exists j :: i < j < |actions| && IsClean(actions[j])
        {
          assert i < |actions| - 1;
          assert IsClean(actions[|actions| - 1]);
        }
      } else {
        if EditedSinceClean(init) {
          var i :| 0 <= i < |init| && IsEdit(init[i]) && forall j :: i < j < |init| ==> !IsClean(init[j]);
          assert IsEdit(actions[i]) && forall j :: i < j < |actions| ==> !IsClean(actions[j]);
        }
        if EditedSinceClean(actions) {
          var i :| 0 <= i < |actions| && IsEdit(actions[i]) && forall j :: i < j < |actions| ==> !IsClean(actions[j]);
          assert i < |init| && IsEdit(init[i]) && forall j :: i < j < |init| ==> !IsClean(init[j]);
        }
      }
    }
  }

  /** `resetEditor` is idempotent, and `markClean` keeps the edits themselves. */
  lemma ResetAndClean(s: EditorState)
    ensures Step(Step(s, ResetEditor), ResetEditor) == Step(s, ResetEditor)
    ensures var c := Step(s, MarkClean); c.content == s.content && c.title == s.title && c.slug == s.slug && !c.isDirty
  {
  }

  class EditorStore {
    var content: string
    var sanitizedContent: string
    var isDirty: bool
    var title: string
    var slug: Option<string>

    function State(): EditorState
      reads this
    {
      EditorState(content, sanitizedContent, isDirty, title, slug)
    }

    constructor ()
      ensures State() == Initial
    {
      content, sanitizedContent, isDirty, title, slug := "", "", false, "", None;
    }

    method SetContent(c: string, sc: string)
      modifies this
      ensures State() == Step(old(State()), Action.SetContent(c, sc))
    {
      content, sanitizedContent, isDirty := c, sc, true;
    }

    method SetTitle(t: string)
      modifies this
      ensures State() == Step(old(State()), Action.SetTitle(t))
    {
      title, isDirty := t, true;
    }

    method SetSlug(sl: Option<string>)
      modifies this
      ensures State() == Step(old(State()), Action.SetSlug(sl))
    {
      slug := sl;
    }

    method ResetEditor()
      modifies this
      ensures State() == Initial
    {
      content, sanitizedContent, isDirty, title, slug := "", "", false, "", None;
    }

    method MarkClean()
      modifies this
      ensures State() == Step(old(State()), Action.MarkClean)
    {
      isDirty := false;
    }
  }
}
