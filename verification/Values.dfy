/** JavaScript-flavoured values shared by the models: optional values, truthiness and `||`. */
module Values {

  datatype Option<+T> = None | Some(value: T) {
    function GetOr(default: T): T {
      match this
      case Some(v) => v
      case None => default
    }
  }

  /** A string that JavaScript's `if (s)` accepts: present and not empty. */
  predicate Truthy(s: Option<string>) {
    s.Some? && s.value != ""
  }

  /** A number that JavaScript's `if (n)` accepts: present and not zero. */
  predicate TruthyNumber(n: Option<real>) {
    n.Some? && n.value != 0.0
  }

  /** JavaScript's `a || b` on optional strings. */
  function Or(a: Option<string>, b: Option<string>): Option<string> {
    if Truthy(a) then a else b
  }

  /** JavaScript's `a || null`: the empty string becomes absent. */
  function OrNull(a: Option<string>): Option<string> {
    Or(a, None)
  }

  /** JavaScript's `a ?? b`. */
  function Coalesce<T>(a: Option<T>, b: Option<T>): Option<T> {
    if a.Some? then a else b
  }
}
