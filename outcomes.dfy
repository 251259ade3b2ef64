/** Values shared by the actor, the tasks and the questions: what a browser
    read or a browser action can come back with. */
module Outcomes {

  /** A value that may be absent, as the browser's `null`. */
  datatype Option<+T> = None | Some(value: T)

  /** The failure a browser call rejects with (element or option not found,
      and so on); its cause lies outside this model. */
  datatype Error = Error(message: string)

  /** The result of a read: a value, or the failure it rejected with. */
  datatype Result<+T> = Ok(value: T) | Err(error: Error)

  /** How a `Promise<void>` settles: resolved, or rejected with an error. */
  datatype Completion = Resolved | Rejected(error: Error)

  /** What running a task does to a state: it completes, or it fails and
      leaves behind whatever it had already changed. */
  datatype Outcome<+S> = Done(state: S) | Failed(state: S, error: Error) {

    /** The settlement a caller awaiting this outcome observes. */
    function ToCompletion(): (c: Completion)
      ensures c.Resolved? <==> Done?
      ensures Failed? ==> c.error == error
    {
      match this
      case Done(_) => Resolved
      case Failed(_, e) => Rejected(e)
    }
  }

  /** The outcome seen from outside: the state a call left and how it settled. */
  function Settled<S>(state: S, c: Completion): (o: Outcome<S>)
    ensures o.state == state
    ensures o.ToCompletion() == c
  {
    match c
    case Resolved => Done(state)
    case Rejected(e) => Failed(state, e)
  }
}
