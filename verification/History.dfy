/** What a machine has done so far, oldest first.

  Every state machine of the model keeps the observable effects of its
  handlers in such a log, and every "over all runs" theorem is an induction on
  a log of inputs. */
module History {

  datatype Option<+T> = None | Some(value: T)

  datatype Log<+T> = Empty | Then(past: Log<T>, last: T)

  /** The entries of a log that satisfy `p`. */
  ghost function Count<T>(log: Log<T>, p: T -> bool): nat {
    match log
    case Empty => 0
    case Then(past, e) => Count(past, p) + if p(e) then 1 else 0
  }

  ghost function Length<T>(log: Log<T>): nat {
    match log
    case Empty => 0
    case Then(past, _) => Length(past) + 1
  }

  /** A one-shot timer of the event loop: stopped, or due after `ms`. */
  datatype Timer = Stopped | Armed(ms: nat)
}
