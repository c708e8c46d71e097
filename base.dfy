/**
 * Shared vocabulary of the statize model: labels, optional values, the
 * library's exceptions, and the shape of an event callback.
 *
 * Ruby mixes symbols and strings for states, events and profiles; the model
 * collapses both into one `Label` type compared by content.
 */
module Base {

  /** A state, event, profile or attribute name. */
  type Label = string

  /** Ruby's `nil` versus a present value. */
  datatype Option<+T> = None | Some(value: T)

  /**
   * The exceptions the core raises. `NoMethodError` stands for Ruby's
   * NoMethodError on a `nil` receiver, which the Ruby code reaches when a
   * profile was never opened, `event` is given no transition hash, a state
   * has no row in a table, or the current state is `nil` where `to_sym` is
   * called on it.
   */
  datatype Err =
    | InvalidState(state: Label)
    | InvalidStateForEvent(state: Label, evt: Label)
    | UserHalt(evt: Label, dest: Label)
    | InvalidEvent(evt: Label, profile: Label)
    | NoMethodError

  /** A call that either returns a value or raises one of the errors above. */
  datatype Result<+T> = Ok(value: T) | Fail(err: Err)

  /** The phase a callback is invoked in. */
  datatype Action = Before | After

  /**
   * What a callback returned, as far as the engine can tell it apart:
   * the boolean `false`, the boolean `true`, `nil`, or any other object.
   */
  datatype Reply = ReplyFalse | ReplyTrue | ReplyNil | ReplyOther

  /** An event block, called as `block.call(action, evt, from, to)`. */
  type Callback = (Action, Label, Label, Label) -> Reply

  /** One invocation of an event block, with the arguments it received. */
  datatype Call = Call(action: Action, evt: Label, from: Label, to: Label)

  /** The toolrack helper `is_empty?` on a label: `nil` or the empty string. */
  predicate IsEmpty(s: Option<Label>)
  {
    s.None? || s.value == ""
  }

  /**
   * Whether a before-callback's reply lets the transition go ahead: only an
   * explicit `false` stops it, because every empty or non-boolean reply is
   * replaced by `true`.
   */
  predicate Proceeds(r: Reply)
  {
    r != ReplyFalse
  }

  /** No element occurs twice. */
  predicate NoDup<T(==)>(s: seq<T>)
  {
    forall i, j :: 0 <= i < j < |s| ==> s[i] != s[j]
  }

  /** `n` copies of `x`. */
  function Repeat<T>(x: T, n: nat): (r: seq<T>)
    ensures |r| == n
    ensures forall i :: 0 <= i < n ==> r[i] == x
  {
    seq(n, _ => x)
  }
}
