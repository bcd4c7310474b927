/** Tool calls as the worker loop reads them (internal/runtime/runtime.go:453-634). */
module Tools {
  /** The `state` argument of SET_STATE. A missing argument is the unknown state with the empty name. */
  datatype Signal = Blocking | Completed | Failed | Unknown(name: string)

  /** The value of `stateChange` before any call. */
  const NO_CHANGE := Unknown("")

  /** A call whose JSON arguments have been decoded; a missing argument is the empty string. */
  datatype Action =
    | SetState(state: Signal, result: string)
    | SendParent(message: string)
    | SpawnTask(description: string)
    | ExecuteCmd(code: string)
    | UnknownTool

  /** What the loop does after the last call of a response. */
  datatype Verdict = KeepListening | Unregister | Leave

  /** The local variable `stateChange` after one more call: any SET_STATE overwrites it, even with an unknown state. */
  function NextChange(change: Signal, a: Action): Signal {
    if a.SetState? then a.state else change
  }

  function VerdictOf(change: Signal): Verdict {
    match change
    case Blocking => KeepListening
    case Completed => Unregister
    case Failed => Unregister
    case Unknown(_) => Leave
  }
}
