/**
 * The UI flag that says whether the NPS survey dialog is showing, and its
 * reducer.
 */
module NpsSurveyNotice {
  import opened Wrappers

  const NPS_SURVEY_DIALOG_IS_SHOWING := "NPS_SURVEY_DIALOG_IS_SHOWING"

  /** The default state, used when the store has no state yet. */
  const INITIAL_STATE := false

  /** A dispatched action: its `type` and its `isShowing` property, if defined. */
  datatype Action = Action(actionType: string, isShowing: Option<bool>)

  /**
   * `isNpsSurveyDialogShowing`. `state` is `None` while the store holds
   * `undefined`, which the reducer replaces by its default.
   */
  function IsNpsSurveyDialogShowing(state: Option<bool>, action: Action): (next: bool)
    ensures action.actionType == NPS_SURVEY_DIALOG_IS_SHOWING && action.isShowing.Some? ==>
      next == action.isShowing.value
    ensures action.actionType != NPS_SURVEY_DIALOG_IS_SHOWING || action.isShowing.None? ==>
      next == state.GetOr(INITIAL_STATE)
    ensures state.None? && !(action.actionType == NPS_SURVEY_DIALOG_IS_SHOWING && action.isShowing == Some(true)) ==>
      !next
  {
    var current := state.GetOr(INITIAL_STATE);
    match action.actionType
    case "NPS_SURVEY_DIALOG_IS_SHOWING" =>
      if action.isShowing.Some? then action.isShowing.value else current
    case _ => current
  }

  /** Applying the same action twice is applying it once. */
  lemma ReducerIdempotent(state: Option<bool>, action: Action)
    ensures IsNpsSurveyDialogShowing(Some(IsNpsSurveyDialogShowing(state, action)), action)
         == IsNpsSurveyDialogShowing(state, action)
  {
  }

  /**
   * The reducer folded over `actions`, first to last, starting from the
   * `undefined` state; `None` before any action.
   */
  function Replay(actions: seq<Action>): (state: Option<bool>)
    ensures state.None? <==> actions == []
  {
    if actions == [] then None
    else Some(IsNpsSurveyDialogShowing(Replay(actions[..|actions| - 1]), actions[|actions| - 1]))
  }

  /** A show action that defines `isShowing`. */
  predicate Shows(action: Action) {
    action.actionType == NPS_SURVEY_DIALOG_IS_SHOWING && action.isShowing.Some?
  }

  /** The `isShowing` of the last show action that defines it, if any. */
  function LastShown(actions: seq<Action>): (shown: Option<bool>)
    ensures shown.None? <==> forall i :: 0 <= i < |actions| ==> !Shows(actions[i])
  {
    if actions == [] then None
    else
      var last := actions[|actions| - 1];
      if Shows(last) then last.isShowing
      else
        var prefix := actions[..|actions| - 1];
        assert forall i :: 0 <= i < |prefix| ==> prefix[i] == actions[i];
        LastShown(prefix)
  }

  /**
   * After any non-empty run of actions the dialog is showing exactly when the
   * last show action that defines `isShowing` said so, and is hidden when
   * there was none.
   */
  lemma {:induction false} ReplayIsLastShown(actions: seq<Action>)
    requires actions != []
    ensures Replay(actions) == Some(LastShown(actions).GetOr(INITIAL_STATE))
  {
    var prefix := actions[..|actions| - 1];
    if prefix != [] {
      ReplayIsLastShown(prefix);
    }
  }

  /** Actions of other types, and show actions without `isShowing`, change nothing. */
  lemma IgnoredActionsKeepState(actions: seq<Action>, ignored: Action)
    requires actions != []
    requires ignored.actionType != NPS_SURVEY_DIALOG_IS_SHOWING || ignored.isShowing.None?
    ensures Replay(actions + [ignored]) == Replay(actions)
  {
  }
}
