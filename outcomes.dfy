/** Failure-compatible result types shared by the template engine model.
    Every `throw` of the engine becomes an `Err` carrying one of the `Error` cases. */
module Outcomes {

  datatype Option<+T> = None | Some(value: T) {
    function GetOr(default: T): T {
      match this
      case Some(v) => v
      case None => default
    }
  }

  /** The errors the engine raises, named after their messages. */
  datatype Error =
    | InvalidTags(tags: seq<string>)           // 'Invalid tags: ...'
    | TagsNotJoinable                          // `tags.join` on a non-array `tags` argument (TypeError)
    | UnclosedTag(pos: nat)                    // 'Unclosed tag at <pos>'
    | UnopenedSection(name: string, pos: nat)  // 'Unopened section "<name>" at <pos>'
    | UnclosedSection(name: string, pos: nat)  // 'Unclosed section "<name>" at <pos>'
    | NilView(name: string)                    // reading a property of a null/undefined view (TypeError)
    | StackExhausted                           // partial expansion nested deeper than the host stack allows

  datatype Result<+T> = Ok(value: T) | Err(error: Error) {
    predicate IsFailure() {
      Err?
    }

    function PropagateFailure<U>(): Result<U>
      requires Err?
    {
      Err(error)
    }

    function Extract(): T
      requires Ok?
    {
      value
    }
  }
}
