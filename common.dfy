/** Shared vocabulary: optional values, results that carry an error message
    the way a raised exception carries `str(e)`, decimal rendering of numbers
    and substring search on strings. */
module Common {

  datatype Option<T> = None | Some(value: T)

  /** The outcome of a step that may raise: `Err(message)` stands for an
      exception whose string form is `message`. */
  datatype Result<T> = Ok(value: T) | Err(message: string) {
    predicate IsFailure() { Err? }

    function PropagateFailure<U>(): Result<U>
      requires Err?
    {
      Err(message)
    }

    function Extract(): T
      requires Ok?
    {
      value
    }
  }

  /** A dictionary lookup `d[key]`: a missing key raises `KeyError`, whose
      string form is the key in single quotes. */
  function Lookup(d: map<string, string>, key: string): (r: Result<string>)
    ensures r.Ok? <==> key in d
    ensures r.Ok? ==> r.value == d[key]
    ensures r.Err? ==> r.message == KeyErrorText(key)
  {
    if key in d then Ok(d[key]) else Err(KeyErrorText(key))
  }

  function KeyErrorText(key: string): string {
    "'" + key + "'"
  }

  /** A dictionary lookup `d.get(key)`, which yields None for a missing key. */
  function Get(d: map<string, string>, key: string): Option<string> {
    if key in d then Some(d[key]) else None
  }

  function Pow2(n: nat): (r: nat)
    ensures r >= 1
  {
    if n == 0 then 1 else 2 * Pow2(n - 1)
  }

  function Digit(d: nat): (c: char)
    requires d < 10
  {
    ('0' as int + d) as char
  }

  /** The decimal notation of `n`, as Python's `str(n)` writes it. */
  function Decimal(n: nat): (s: string)
    ensures |s| >= 1
    ensures n < 10 <==> |s| == 1
    decreases n
  {
    if n < 10 then [Digit(n)] else Decimal(n / 10) + [Digit(n % 10)]
  }

  /** Python's `sub in s` on strings. */
  predicate Contains(s: string, sub: string)
    decreases |s|
  {
    sub <= s || (|s| > 0 && Contains(s[1..], sub))
  }

  /** `sub` occurs in `s` at position `i`. */
  predicate OccursAt(s: string, sub: string, i: int) {
    0 <= i && i + |sub| <= |s| && s[i..i + |sub|] == sub
  }

  /** `sub` occurs in `s` at some position. */
  ghost predicate OccursIn(s: string, sub: string) {
    exists i :: OccursAt(s, sub, i)
  }

  /** `Contains` is substring search: it holds exactly when `sub` occurs
      somewhere in `s`. */
  lemma {:induction false} ContainsOccurs(s: string, sub: string)
    ensures Contains(s, sub) <==> OccursIn(s, sub)
    decreases |s|
  {
    if sub <= s {
      assert OccursAt(s, sub, 0);
    } else if |s| > 0 {
      ContainsOccurs(s[1..], sub);
      if OccursIn(s[1..], sub) {
        var i :| OccursAt(s[1..], sub, i);
        assert s[i + 1..i + 1 + |sub|] == s[1..][i..i + |sub|];
        assert OccursAt(s, sub, i + 1);
      }
      if OccursIn(s, sub) {
        var i :| OccursAt(s, sub, i);
        if i > 0 {
          assert s[1..][i - 1..i - 1 + |sub|] == s[i..i + |sub|];
          assert OccursAt(s[1..], sub, i - 1);
        }
      }
    }
  }

  /** The first of `keys`, read in order, that `d` lacks: the key whose
      lookup raises KeyError first. */
  function FirstMissing(d: map<string, string>, keys: seq<string>): (r: Option<string>)
    ensures r.None? <==> forall j :: 0 <= j < |keys| ==> keys[j] in d
    ensures r.Some? ==> exists i :: && 0 <= i < |keys| && keys[i] == r.value && r.value !in d
                                    && forall j :: 0 <= j < i ==> keys[j] in d
  {
    if keys == [] then None
    else if keys[0] !in d then Some(keys[0])
    else
      var r := FirstMissing(d, keys[1..]);
      if r.Some? then
        var i :| && 0 <= i < |keys[1..]| && keys[1..][i] == r.value && r.value !in d
                 && forall j :: 0 <= j < i ==> keys[1..][j] in d;
        assert keys[i + 1] == r.value;
        r
      else r
  }

  /** A string ending in `sub` contains it. */
  lemma {:induction false} ContainsSuffix(front: string, sub: string)
    ensures Contains(front + sub, sub)
    decreases |front|
  {
    if front != [] {
      assert (front + sub)[1..] == front[1..] + sub;
      ContainsSuffix(front[1..], sub);
    }
  }
}
