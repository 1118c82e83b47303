/**
 * The concierge session's next appointment and its reducer. The appointment
 * itself is opaque: any type `A`.
 */
module NextAppointment {
  import opened Wrappers

  const CONCIERGE_INITIAL_REQUEST := "CONCIERGE_INITIAL_REQUEST"
  const CONCIERGE_INITIAL_UPDATE := "CONCIERGE_INITIAL_UPDATE"

  /** The `initial` payload of an update: its `nextAppointment`, `None` for `null`. */
  datatype Initial<A> = Initial(nextAppointment: Option<A>)

  /** A dispatched action: its `type` and its `initial` property, if defined. */
  datatype Action<A> = Action(actionType: string, initial: Option<Initial<A>>)

  /** Reading `action.initial.nextAppointment` when `initial` is undefined throws. */
  datatype TypeError = UndefinedInitial

  /**
   * `nextAppointment`. The state is `None` for `null`; an `undefined` store
   * state takes the default `null`, so it is `None` as well.
   */
  function NextAppointmentReducer<A>(state: Option<A>, action: Action<A>): (r: Result<Option<A>, TypeError>)
    ensures action.actionType == CONCIERGE_INITIAL_REQUEST ==> r == Ok(None)
    ensures action.actionType == CONCIERGE_INITIAL_UPDATE ==>
      if action.initial.Some? then r == Ok(action.initial.value.nextAppointment) else r == Err(UndefinedInitial)
    ensures action.actionType !in {CONCIERGE_INITIAL_REQUEST, CONCIERGE_INITIAL_UPDATE} ==> r == Ok(state)
  {
    match action.actionType
    case "CONCIERGE_INITIAL_REQUEST" => Ok(None)
    case "CONCIERGE_INITIAL_UPDATE" =>
      if action.initial.Some? then Ok(action.initial.value.nextAppointment) else Err(UndefinedInitial)
    case _ => Ok(state)
  }

  /** The handled actions do not depend on the prior state. */
  lemma HandledActionsForgetState<A>(s: Option<A>, t: Option<A>, action: Action<A>)
    requires action.actionType in {CONCIERGE_INITIAL_REQUEST, CONCIERGE_INITIAL_UPDATE}
    ensures NextAppointmentReducer(s, action) == NextAppointmentReducer(t, action)
  {
  }

  /** Applying the same action twice is applying it once. */
  lemma ReducerIdempotent<A>(state: Option<A>, action: Action<A>)
    requires NextAppointmentReducer(state, action).Ok?
    ensures NextAppointmentReducer(NextAppointmentReducer(state, action).value, action)
         == NextAppointmentReducer(state, action)
  {
  }

  /**
   * The reducer folded over `actions`, first to last, starting from the
   * default `null`, and stopping at the first action that throws. (A Redux
   * store would instead keep its previous state and go on dispatching; that
   * recovery is not modelled.)
   */
  function Replay<A>(actions: seq<Action<A>>): (r: Result<Option<A>, TypeError>)
    ensures actions == [] ==> r == Ok(None)
    ensures r.Err? ==> exists i :: 0 <= i < |actions| && Throws(actions[i])
  {
    if actions == [] then Ok(None)
    else
      var prefix := actions[..|actions| - 1];
      assert forall i :: 0 <= i < |prefix| ==> prefix[i] == actions[i];
      match Replay(prefix)
      case Err(e) => Err(e)
      case Ok(state) => NextAppointmentReducer(state, actions[|actions| - 1])
  }

  /** The effect an action has on the state, when it does not throw. */
  datatype Effect<A> = Keep | Set(value: Option<A>)

  function EffectOf<A>(action: Action<A>): Effect<A> {
    if action.actionType == CONCIERGE_INITIAL_REQUEST then Set(None)
    else if action.actionType == CONCIERGE_INITIAL_UPDATE && action.initial.Some? then
      Set(action.initial.value.nextAppointment)
    else Keep
  }

  /** An update without an `initial` payload: the one action that throws. */
  predicate Throws<A>(action: Action<A>) {
    action.actionType == CONCIERGE_INITIAL_UPDATE && action.initial.None?
  }

  /** The value set by the last action that sets one, or `null` when none does. */
  function LastSet<A>(actions: seq<Action<A>>): (v: Option<A>)
    ensures (forall i :: 0 <= i < |actions| ==> EffectOf(actions[i]).Keep?) ==> v.None?
  {
    if actions == [] then None
    else
      var prefix := actions[..|actions| - 1];
      assert forall i :: 0 <= i < |prefix| ==> prefix[i] == actions[i];
      match EffectOf(actions[|actions| - 1])
      case Set(value) => value
      case Keep => LastSet(prefix)
  }

  /**
   * A run in which no action throws ends in the value the last request or
   * update set; a run with a throwing action fails.
   */
  lemma {:induction false} ReplayIsLastSet<A>(actions: seq<Action<A>>)
    ensures (forall i :: 0 <= i < |actions| ==> !Throws(actions[i])) ==> Replay(actions) == Ok(LastSet(actions))
    ensures (exists i :: 0 <= i < |actions| && Throws(actions[i])) ==> Replay(actions).Err?
  {
    if actions != [] {
      var prefix := actions[..|actions| - 1];
      assert forall i :: 0 <= i < |prefix| ==> prefix[i] == actions[i];
      ReplayIsLastSet(prefix);
      if exists i :: 0 <= i < |actions| && Throws(actions[i]) {
        var i :| 0 <= i < |actions| && Throws(actions[i]);
        if i < |prefix| {
          assert Throws(prefix[i]);
        }
      }
    }
  }
}
