/**
  Values shared by the presence registry and the message path of the chat
  server: an optional value (for JavaScript's `undefined` and for a missing
  map entry), the two string constants the server substitutes, and the
  naming rule that hides an anonymous user.
 */
module Common {

  /** An optional value; `None` stands for `undefined` or a missing entry. */
  datatype Option<+T> = None | Some(value: T) {

    /** The value, or `default` when there is none (JavaScript's `x = default` parameter). */
    function GetOr(default: T): T {
      match this
      case Some(v) => v
      case None => default
    }
  }

  /** The name shown instead of the real one for a user who is anonymous. */
  const AnonymousName: string := "Anonymous"

  /** The group a `join` or `message` event falls back to when it names none. */
  const DefaultGroup: string := "fun_friday"

  /** `isAnon ? 'Anonymous' : name`: the rule applied both to the member list and to messages. */
  function ShownName(anon: bool, name: string): string {
    if anon then AnonymousName else name
  }

  /** Anonymity hides the name completely, and a non-anonymous name is shown as it is:
      two names look the same exactly when the user is anonymous or the names are equal. */
  lemma ShownNameHidesExactlyWhenAnonymous(anon: bool, a: string, b: string)
    ensures ShownName(anon, a) == ShownName(anon, b) <==> (anon || a == b)
    ensures !anon ==> ShownName(anon, a) == a
  {
  }
}
