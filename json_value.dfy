/**
 * The decoded JSON value that the API client hands back for `host.create`,
 * and the two Python operations the provisioner applies to it: the
 * membership test `key in value` and the subscript `value[key]`.  Both raise
 * a TypeError on values that do not support them, and the subscript raises a
 * KeyError on a missing key; `None` stands for either exception.
 */
module JsonValue {
  import opened Wrappers

  datatype Value =
    | Null
    | Bool(b: bool)
    | Num(n: int)
    | Str(s: string)
    | Arr(items: seq<Value>)
    | Obj(members: map<string, Value>)

  /** `pattern` sits in `s` starting at position `k`. */
  predicate OccursAt(s: string, pattern: string, k: nat) {
    k + |pattern| <= |s| && s[k..k + |pattern|] == pattern
  }

  /** Whether `pattern` occurs as a contiguous piece of `s` (Python `pattern in s`). */
  predicate HasInfix(s: string, pattern: string)
    decreases |s|
  {
    if |s| < |pattern| then false
    else s[..|pattern|] == pattern || HasInfix(s[1..], pattern)
  }

  /** The scan above finds exactly the positions where the pattern occurs. */
  lemma {:induction false} HasInfixIff(s: string, pattern: string)
    ensures HasInfix(s, pattern) <==> exists k: nat :: OccursAt(s, pattern, k)
    decreases |s|
  {
    if |s| < |pattern| {
      forall k: nat ensures !OccursAt(s, pattern, k) { }
    } else if s[..|pattern|] == pattern {
      assert OccursAt(s, pattern, 0);
    } else {
      HasInfixIff(s[1..], pattern);
      forall k: nat
        ensures OccursAt(s, pattern, k) <==> k > 0 && OccursAt(s[1..], pattern, k - 1)
      {
        if k > 0 && k + |pattern| <= |s| {
          assert s[1..][k - 1..k - 1 + |pattern|] == s[k..k + |pattern|];
        }
      }
      if HasInfix(s, pattern) {
        var k: nat :| OccursAt(s[1..], pattern, k);
        assert OccursAt(s, pattern, k + 1);
      }
    }
  }

  /**
   * Python's `key in v` for a text key: key lookup on an object, element
   * equality on a list, substring test on a text; `None` (TypeError) on
   * null, booleans and numbers.
   */
  function Contains(v: Value, key: string): (r: Option<bool>)
    ensures r.Some? <==> (v.Obj? || v.Arr? || v.Str?)
    ensures v.Obj? ==> r == Some(key in v.members)
    ensures v.Arr? ==> r == Some(exists k | 0 <= k < |v.items| :: v.items[k] == Str(key))
    ensures v.Str? ==> r == Some(HasInfix(v.s, key))
  {
    match v
    case Obj(m) => Some(key in m)
    case Arr(xs) => Some(Str(key) in xs)
    case Str(s) => Some(HasInfix(s, key))
    case _ => None
  }

  /** Python's `v[key]` for a text key: only an object that has the key answers. */
  function Subscript(v: Value, key: string): (r: Option<Value>)
    ensures r.Some? <==> v.Obj? && key in v.members
    ensures r.Some? ==> r.value == v.members[key]
  {
    if v.Obj? && key in v.members then Some(v.members[key]) else None
  }
}
