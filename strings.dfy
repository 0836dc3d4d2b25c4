/** JavaScript's `String.prototype.includes`, case-sensitive and exact. */
module Strings {

  ghost predicate OccursAt(s: string, sub: string, k: int)
  {
    0 <= k && k + |sub| <= |s| && s[k..k + |sub|] == sub
  }

  /** `s.includes(sub)`: `sub` occurs somewhere in `s`. */
  function Includes(s: string, sub: string): (r: bool)
    ensures r <==> exists k :: OccursAt(s, sub, k)
    decreases |s|
  {
    if |sub| > |s| then
      false
    else if s[..|sub|] == sub then
      assert OccursAt(s, sub, 0);
      true
    else
      var rest := Includes(s[1..], sub);
      assert forall k :: OccursAt(s[1..], sub, k) <==> OccursAt(s, sub, k + 1);
      assert forall k :: OccursAt(s, sub, k) ==> k == 0 || OccursAt(s[1..], sub, k - 1);
      rest
  }

  /** A text that lacks the first character of `sub` does not include `sub`. */
  lemma LacksFirstChar(s: string, sub: string)
    requires |sub| > 0 && sub[0] !in s
    ensures !Includes(s, sub)
  {
  }

  /** An occurrence of `sub` in `s` is still an occurrence once any `prefix` is put in front of `s`. */
  lemma IncludesAfterPrefix(prefix: string, s: string, sub: string, k: int)
    requires OccursAt(s, sub, k)
    ensures Includes(prefix + s, sub)
  {
    assert (prefix + s)[|prefix| + k..|prefix| + k + |sub|] == s[k..k + |sub|];
    assert OccursAt(prefix + s, sub, |prefix| + k);
  }
}

/** The JSON values that `JSON.parse` produces and that zod validates. */
module JsValues {

  datatype Json =
    | JNull
    | JBool(b: bool)
    | JNumber(n: real)
    | JString(s: string)
    | JArray(items: seq<Json>)
    | JObject(fields: map<string, Json>)
}
