/** The parts of PHP's value semantics the plugin's decisions rest on:
    request and array entries that may be missing, and what `empty()` and a
    boolean test make of a string. */
module Php {

  datatype Option<T> = None | Some(value: T)

  /** `empty($s)` for a string: exactly "" and "0" are empty. */
  predicate EmptyString(s: string) {
    s == "" || s == "0"
  }

  /** `empty($a['k'])` for an entry that may be unset (an unset entry reads as null). */
  predicate EmptyEntry(v: Option<string>) {
    v.None? || EmptyString(v.value)
  }

  /** A string entry used as a condition, `if ($a['k'])`: PHP converts a string
      to false exactly when `empty()` holds of it. */
  predicate Truthy(v: Option<string>) {
    !EmptyEntry(v)
  }
}
