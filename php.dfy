/** The PHP values the mailer passes around: nullable strings, array keys that
    may be absent, and operations that either return or throw. */
module Php {

  /** A PHP value that may be null, or an array key that may be missing.
      Each use says which of the two readings applies. */
  datatype Option<+T> = None | Some(value: T)

  /** An operation that either yields a value or throws an exception. */
  datatype Result<+T, +E> = Success(value: T) | Failure(error: E)

  /** PHP truthiness of a nullable string, as `if ($x)` and `empty($x)` read
      it: set and not the empty string. */
  predicate Truthy(v: Option<string>)
  {
    v.Some? && v.value != ""
  }

  /** PHP's loose `==` on nullable strings: besides equal strings, null and
      the empty string compare equal. */
  predicate LooseEq(a: Option<string>, b: Option<string>)
  {
    a == b || (!Truthy(a) && !Truthy(b))
  }
}
