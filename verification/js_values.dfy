/**
 The few JavaScript value rules the LOAD interceptor depends on: optional
 (possibly `undefined`) fields, truthiness of strings and booleans, and
 `String.prototype.endsWith`.
 */
module JsValues {

  /** A field that may be `undefined` (or `null`) on a JavaScript object. */
  datatype Option<+T> = None | Some(value: T)

  /** A string-valued field is truthy exactly when it is defined and not `''`. */
  predicate TruthyString(v: Option<string>) {
    v.Some? && v.value != ""
  }

  /** A boolean-valued field is truthy exactly when it is defined and `true`. */
  predicate TruthyBool(v: Option<bool>) {
    v == Some(true)
  }

  /** `suffix` is the tail of `s`: the reference meaning of `s.endsWith(suffix)`. */
  predicate IsSuffix(suffix: string, s: string) {
    |suffix| <= |s| && s[|s| - |suffix|..] == suffix
  }

  /** `s.endsWith(suffix)`, comparing characters from the back of both strings. */
  function EndsWith(s: string, suffix: string): (r: bool)
    ensures r <==> IsSuffix(suffix, s)
    decreases |suffix|
  {
    if |suffix| == 0 then true
    else if |s| == 0 then false
    else
      var r := s[|s| - 1] == suffix[|suffix| - 1] && EndsWith(s[..|s| - 1], suffix[..|suffix| - 1]);
      assert IsSuffix(suffix, s) <==> s[|s| - 1] == suffix[|suffix| - 1] && IsSuffix(suffix[..|suffix| - 1], s[..|s| - 1]) by {
        if IsSuffix(suffix, s) {
          assert s[|s| - 1] == s[|s| - |suffix|..][|suffix| - 1];
          assert s[..|s| - 1][|s| - |suffix|..] == s[|s| - |suffix|..][..|suffix| - 1];
        }
        if s[|s| - 1] == suffix[|suffix| - 1] && IsSuffix(suffix[..|suffix| - 1], s[..|s| - 1]) {
          assert s[|s| - |suffix|..] == s[..|s| - 1][|s| - |suffix|..] + [s[|s| - 1]];
          assert suffix == suffix[..|suffix| - 1] + [suffix[|suffix| - 1]];
        }
      }
      r
  }
}
