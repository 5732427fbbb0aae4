/**
 * The editor panel (src/components/CodeEditorPanel.tsx): it forwards every edit to its
 * `onChange` callback and keeps one flag, set when the user dismisses the error box and cleared
 * by the next edit, that decides together with the `error` prop whether the box is shown.
 *
 * The callback is represented by the sequence of codes it has received.
 */
module EditorPanel {
  import opened Wrappers
  import opened Text

  /** The flag and everything passed to `onChange` so far. */
  datatype EditorState = EditorState(isErrorDismissed: bool, sent: seq<string>)

  /** What the user does: edit the code, or dismiss the error box. */
  datatype Action = Typed(code: string) | Dismiss

  const Initial := EditorState(false, [])

  function Apply(s: EditorState, a: Action): (r: EditorState)
    ensures a.Typed? ==> r.sent == s.sent + [a.code] && !r.isErrorDismissed
    ensures a.Dismiss? ==> r.sent == s.sent && r.isErrorDismissed
  {
    match a
    case Typed(code) => EditorState(false, s.sent + [code])
    case Dismiss => s.(isErrorDismissed := true)
  }

  /** The state after a sequence of actions, the last applied last. */
  function Replay(actions: seq<Action>): (r: EditorState)
    ensures r.isErrorDismissed <==> |actions| > 0 && actions[|actions| - 1].Dismiss?
    ensures |r.sent| <= |actions|
    decreases |actions|
  {
    if actions == [] then Initial else Apply(Replay(actions[..|actions| - 1]), actions[|actions| - 1])
  }

  /** `shouldShowError`: a non-empty error that has not been dismissed. */
  function ShouldShowError(error: Option<string>, s: EditorState): (show: bool)
    ensures show <==> Truthy(error) && !s.isErrorDismissed
  {
    Truthy(error) && !s.isErrorDismissed
  }

  /** The codes of the edits, in order. */
  function TypedCodes(actions: seq<Action>): seq<string>
    decreases |actions|
  {
    if actions == [] then []
    else TypedCodes(actions[..|actions| - 1]) + (match actions[|actions| - 1] case Typed(c) => [c] case Dismiss => [])
  }

  /** Some dismissal has not been followed by an edit. */
  predicate DismissedSinceLastEdit(actions: seq<Action>) {
    exists i :: 0 <= i < |actions| && actions[i].Dismiss? && forall j :: i < j < |actions| ==> actions[j].Dismiss?
  }

  /**
   * The flag is set exactly when a dismissal has not been followed by an edit, that is, when the
   * latest action was a dismissal.
   */
  lemma ReplayDismissedIff(actions: seq<Action>)
    ensures Replay(actions).isErrorDismissed <==> DismissedSinceLastEdit(actions)
  {
    if actions != [] {
      var n := |actions| - 1;
      if !actions[n].Dismiss? {
        forall i | 0 <= i < |actions| && actions[i].Dismiss?
          ensures !(forall j :: i < j < |actions| ==> actions[j].Dismiss?)
        {
          assert i < n;
        }
      }
    }
  }

  /** Every edit reaches `onChange` exactly once, in order, and nothing else does. */
  lemma {:induction false} ReplayForwardsEveryEdit(actions: seq<Action>)
    ensures Replay(actions).sent == TypedCodes(actions)
    decreases |actions|
  {
    if actions != [] {
      ReplayForwardsEveryEdit(actions[..|actions| - 1]);
    }
  }

  /** Before any dismissal the error box is shown exactly when there is a non-empty error. */
  lemma InitiallyShownIffError(error: Option<string>)
    ensures ShouldShowError(error, Initial) <==> Truthy(error)
  {
  }

  /** After a dismissal the box stays hidden, whatever the error, until the next edit; that edit shows it again. */
  lemma DismissHidesUntilEdit(s: EditorState, error: Option<string>, code: string)
    ensures !ShouldShowError(error, Apply(s, Dismiss))
    ensures !ShouldShowError(error, Apply(Apply(s, Dismiss), Dismiss))
    ensures ShouldShowError(error, Apply(Apply(s, Dismiss), Typed(code))) <==> Truthy(error)
  {
  }

  /** The panel, with its flag and the callback's record as fields. */
  class Editor {
    var isErrorDismissed: bool
    var sent: seq<string>

    function State(): EditorState
      reads this
    {
      EditorState(isErrorDismissed, sent)
    }

    constructor ()
      ensures State() == Initial
    {
      isErrorDismissed := false;
      sent := [];
    }

    /** `handleCodeChange`: forwards the code, then clears the flag if it is set. */
    method HandleCodeChange(newCode: string)
      modifies this
      ensures State() == Apply(old(State()), Typed(newCode))
      ensures sent == old(sent) + [newCode] && !isErrorDismissed
    {
      sent := sent + [newCode];
      if isErrorDismissed {
        isErrorDismissed := false;
      }
    }

    /** `handleErrorDismiss`. */
    method HandleErrorDismiss()
      modifies this
      ensures State() == Apply(old(State()), Dismiss)
      ensures isErrorDismissed && sent == old(sent)
    {
      isErrorDismissed := true;
    }

    function ShowsError(error: Option<string>): bool
      reads this
    {
      ShouldShowError(error, State())
    }
  }
}
