/**
 * Property-change notifications (INotifyPropertyChanged). A setter's effect is
 * the new state together with the property names it raised, in order.
 */
module Notifications {

  /** The outcome of one setter call: the new state and the names raised. */
  datatype Step<S> = Step(state: S, raised: seq<string>)

  /**
   * RaisePropertyChanged: when no handler is attached (`PropertyChanged` is null)
   * raising has no observable effect; otherwise exactly one event with `name`.
   */
  function Raise(listening: bool, name: string): seq<string> {
    if listening then [name] else []
  }
}
