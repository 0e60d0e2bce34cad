/**
 * The few JavaScript notions the application's logic relies on: absent
 * values, truthiness and the `||` fallback chain, and the string methods
 * `startsWith`, `includes` and (ASCII) `toLowerCase`.
 */
module Js {

  datatype Option<+T> = None | Some(value: T) {
    /** The value, or `default` when absent. */
    function GetOr(default: T): T {
      match this
      case Some(v) => v
      case None => default
    }
  }

  /**
   * A JavaScript value as far as it is only passed along or looked up by
   * key: context props, activation parameters, card identifiers.
   */
  datatype Value =
    | Undefined
    | Null
    | Bool(b: bool)
    | Num(n: real)
    | Str(s: string)
    | Arr(items: seq<Value>)
    | Obj(fields: map<string, Value>)

  /**
   * Truthiness of a field that holds a string or nothing: `undefined`,
   * `null` (both `None`) and the empty string are falsy.
   */
  predicate Truthy(x: Option<string>) {
    x.Some? && x.value != ""
  }

  /** `a || b` on two string-or-absent fields. */
  function Or(a: Option<string>, b: Option<string>): Option<string> {
    if Truthy(a) then a else b
  }

  /** `a || 'literal'`: the chain ends in a string, so the result is one. */
  function OrElse(a: Option<string>, last: string): string {
    if Truthy(a) then a.value else last
  }

  /**
   * Reference meaning of a fallback chain `x0 || x1 || ... || last`: the
   * first truthy candidate, else `last`.
   */
  function FirstTruthy(xs: seq<Option<string>>, last: string): (r: string)
    ensures (forall i :: 0 <= i < |xs| ==> !Truthy(xs[i])) ==> r == last
    ensures forall i :: 0 <= i < |xs| && Truthy(xs[i]) && (forall j :: 0 <= j < i ==> !Truthy(xs[j]))
                        ==> r == xs[i].value
    ensures r == last || exists i :: 0 <= i < |xs| && Truthy(xs[i]) && r == xs[i].value
  {
    if xs == [] then last
    else if Truthy(xs[0]) then xs[0].value
    else
      var r := FirstTruthy(xs[1..], last);
      assert forall i :: 1 <= i < |xs| ==> xs[i] == xs[1..][i - 1];
      r
  }

  /** A two-link `||` chain ending in a string literal picks the first truthy candidate. */
  lemma OrChain2(a: Option<string>, b: Option<string>, last: string)
    ensures OrElse(Or(a, b), last) == FirstTruthy([a, b], last)
  {
  }

  /** A three-link `||` chain ending in a string literal picks the first truthy candidate. */
  lemma {:induction false} OrChain3(a: Option<string>, b: Option<string>, c: Option<string>, last: string)
    ensures OrElse(Or(Or(a, b), c), last) == FirstTruthy([a, b, c], last)
  {
    assert [a, b, c][1..] == [b, c];
    OrChain2(b, c, last);
  }

  /** `s.startsWith(p)` */
  predicate StartsWith(s: string, p: string) {
    |p| <= |s| && s[..|p|] == p
  }

  /** `s.endsWith(p)` */
  predicate EndsWith(s: string, p: string) {
    |p| <= |s| && s[|s| - |p|..] == p
  }

  /** `t` occurs in `s` at position `i`. */
  predicate OccursAt(s: string, t: string, i: nat) {
    i + |t| <= |s| && s[i..i + |t|] == t
  }

  /** `s.includes(t)`, as a left-to-right search. */
  predicate Includes(s: string, t: string)
    decreases |s|
  {
    StartsWith(s, t) || (|s| > 0 && Includes(s[1..], t))
  }

  /** The search finds `t` exactly when `t` occurs somewhere in `s`. */
  lemma {:induction false} IncludesIff(s: string, t: string)
    ensures Includes(s, t) <==> exists i: nat :: OccursAt(s, t, i)
    decreases |s|
  {
    if StartsWith(s, t) {
      assert OccursAt(s, t, 0);
    } else if |s| == 0 {
      assert forall i: nat :: !OccursAt(s, t, i);
    } else {
      IncludesIff(s[1..], t);
      if Includes(s[1..], t) {
        var i: nat :| OccursAt(s[1..], t, i);
        assert s[i + 1..i + 1 + |t|] == s[1..][i..i + |t|];
        assert OccursAt(s, t, i + 1);
      } else {
        forall i: nat | OccursAt(s, t, i) ensures false {
          if i > 0 {
            assert s[1..][i - 1..i - 1 + |t|] == s[i..i + |t|];
            assert OccursAt(s[1..], t, i - 1);
          }
        }
      }
    }
  }

  /** ASCII lower-casing of one character. */
  function LowerChar(c: char): char {
    if 'A' <= c <= 'Z' then (c as int + 32) as char else c
  }

  /** `s.toLowerCase()`, restricted to ASCII letters. */
  function AsciiLower(s: string): (r: string)
    ensures |r| == |s|
    ensures forall i :: 0 <= i < |s| ==> r[i] == LowerChar(s[i])
  {
    if s == [] then [] else [LowerChar(s[0])] + AsciiLower(s[1..])
  }

  /** Lower-casing twice is lower-casing once. */
  lemma AsciiLowerIdempotent(s: string)
    ensures AsciiLower(AsciiLower(s)) == AsciiLower(s)
  {
  }
}
