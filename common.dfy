/** Small value types shared by the client and the server model. */
module Common {

  /** A value that may be absent: `undefined`/`null` in TypeScript, `None` in Python. */
  datatype Option<+T> = None | Some(value: T) {
    function GetOr(default: T): T {
      match this
      case Some(v) => v
      case None => default
    }
  }

  /** Truthiness of an optional string, which is the same in JavaScript and in
      Python: absent and empty are false, every other string is true. */
  predicate Truthy(s: Option<string>) {
    s.Some? && s.value != ""
  }
}
