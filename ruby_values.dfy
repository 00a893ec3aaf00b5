/**
  The Ruby values that reach a request payload, and the two pieces of Ruby's
  core semantics the client leans on: truthiness and case mapping.
 */
module RubyValues {

  /** A value stored in a parameter Hash. `AsFloat(v)` stands for
      `v.to_s.to_f`: float conversion is kept symbolic. */
  datatype Value =
    | Nil
    | Bool(b: bool)
    | Int(i: int)
    | Float(f: real)
    | Str(s: string)
    | AsFloat(of: Value)

  /** Ruby truthiness: every value except `nil` and `false`. */
  predicate Truthy(v: Value) {
    v != Nil && v != Bool(false)
  }

  predicate IsLower(c: char) { 'a' <= c <= 'z' }

  predicate IsUpper(c: char) { 'A' <= c <= 'Z' }

  function UpChar(c: char): char {
    if IsLower(c) then (c as int - 32) as char else c
  }

  function DownChar(c: char): char {
    if IsUpper(c) then (c as int + 32) as char else c
  }

  /** `String#upcase` on ASCII letters: no lower-case letter survives and
      each character is the same letter ignoring case. */
  function Upcase(s: string): (r: string)
    ensures |r| == |s|
    ensures forall i :: 0 <= i < |r| ==> !IsLower(r[i]) && DownChar(r[i]) == DownChar(s[i])
    ensures forall i :: 0 <= i < |r| ==> !IsLower(s[i]) ==> r[i] == s[i]
  {
    seq(|s|, i requires 0 <= i < |s| => UpChar(s[i]))
  }

  /** `String#downcase` (and `Symbol#downcase`) on ASCII letters. */
  function Downcase(s: string): (r: string)
    ensures |r| == |s|
    ensures forall i :: 0 <= i < |r| ==> !IsUpper(r[i]) && UpChar(r[i]) == UpChar(s[i])
    ensures forall i :: 0 <= i < |r| ==> !IsUpper(s[i]) ==> r[i] == s[i]
  {
    seq(|s|, i requires 0 <= i < |s| => DownChar(s[i]))
  }

  /** Upper-casing a string that is already upper case changes nothing. */
  lemma UpcaseIdempotent(s: string)
    ensures Upcase(Upcase(s)) == Upcase(s)
  {
  }

  /** Downcasing forgets an earlier upper-casing. */
  lemma DowncaseIgnoresCase(s: string)
    ensures Downcase(Upcase(s)) == Downcase(s)
  {
  }
}
