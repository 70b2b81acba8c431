/**
  The Ruby values that the result fields of `ServerData` can hold. The class
  stores `nil`, `true`, `false` and strings in them, and the difference
  between `nil`, `false` and `""` is part of its observable behaviour.
 */
module RubyValue {

  datatype Value = Nil | False | True | Str(s: string)

  /** Ruby truthiness: everything except `nil` and `false` is true, so the
      empty string is truthy. */
  predicate Truthy(v: Value) {
    !v.Nil? && !v.False?
  }

  /** What the Boolean-valued fields may hold: `nil` before a probe, then
      `true` or `false`. */
  predicate IsBoolOrNil(v: Value) {
    v.Nil? || v.False? || v.True?
  }

  /** What `dns_record_type` may hold: `nil`, `false`, `'A'` or `'CNAME'`. */
  predicate IsRecordTypeOrNil(v: Value) {
    v.Nil? || v.False? || v == Str("A") || v == Str("CNAME")
  }
}
