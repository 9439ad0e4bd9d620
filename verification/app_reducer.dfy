/** The status reducer of state/appReducer.ts. */
module AppReducer {

  /** `AppStatus` */
  datatype Status = Idle | FetchingSchema | ProcessingAI | RefiningAI | UploadingNotion

  /** `AppState`: the status and the two banner messages, `""` meaning none. */
  datatype AppState = AppState(status: Status, error: string, successMessage: string)

  /**
   * `AppAction`, plus the action of any other `type`, which the reducer's
   * `default` branch answers.
   */
  datatype Action =
    | SetStatus(newStatus: Status)
    | SetError(message: string)
    | SetSuccess(message: string)
    | Reset
    | Unknown

  /** `initialState` */
  const InitialState := AppState(Idle, "", "")

  /**
   * `appStateReducer`. Each recognised action decides the whole new state:
   * a status change clears both messages, an error or a success returns to
   * idle and clears the other message, and a reset restores the initial
   * state. An unrecognised action changes nothing.
   */
  function Reduce(s: AppState, a: Action): (r: AppState)
    ensures a.SetStatus? ==> r.status == a.newStatus && r.error == "" && r.successMessage == ""
    ensures a.SetError? ==> r.status == Idle && r.error == a.message && r.successMessage == ""
    ensures a.SetSuccess? ==> r.status == Idle && r.successMessage == a.message && r.error == ""
    ensures a.Reset? ==> r == InitialState
    ensures a.Unknown? ==> r == s
  {
    match a
    case SetStatus(st) => s.(status := st, error := "", successMessage := "")
    case SetError(m) => s.(status := Idle, error := m, successMessage := "")
    case SetSuccess(m) => s.(status := Idle, successMessage := m, error := "")
    case Reset => InitialState
    case Unknown => s
  }

  /** Never an error and a success message at once after a recognised action. */
  lemma AtMostOneMessage(s: AppState, a: Action)
    requires !a.Unknown?
    ensures Reduce(s, a).error == "" || Reduce(s, a).successMessage == ""
  {
  }

  /** Every action is idempotent: dispatching it twice is dispatching it once. */
  lemma ReduceIdempotent(s: AppState, a: Action)
    ensures Reduce(Reduce(s, a), a) == Reduce(s, a)
  {
  }

  /** A recognised action forgets the state it is applied to. */
  lemma RecognisedForgetsState(s: AppState, t: AppState, a: Action)
    requires !a.Unknown?
    ensures Reduce(s, a) == Reduce(t, a)
  {
  }

  /** Replays a sequence of dispatches in order. */
  function ReduceAll(s: AppState, actions: seq<Action>): (r: AppState)
    ensures |actions| > 0 && !actions[|actions| - 1].Unknown? ==>
      r == Reduce(s, actions[|actions| - 1])
    decreases |actions|
  {
    if |actions| == 0 then s else ReduceAll(Reduce(s, actions[0]), actions[1..])
  }
}
