/** The JavaScript built-ins the core relies on, stated as Dafny functions:
    truthiness, `String.prototype.trim`, `Array.prototype.join`,
    `s.split(',')[0]`, `Array.prototype.findIndex`/`find` and the decimal
    `toString` of a millisecond timestamp. */
module Js {
  import opened Wrappers

  /** An opaque JSON value (the `any` payloads: analyses, generated hooks). */
  datatype Json =
    | JNull
    | JBool(b: bool)
    | JNumber(n: real)
    | JString(s: string)
    | JArray(items: seq<Json>)
    | JObject(fields: seq<(string, Json)>)

  /** JavaScript truthiness of a JSON value: `null`, `false`, `0` and `""` are falsy. */
  predicate Truthy(j: Json)
  {
    match j
    case JNull => false
    case JBool(b) => b
    case JNumber(n) => n != 0.0
    case JString(s) => s != ""
    case JArray(_) => true
    case JObject(_) => true
  }

  /** Truthiness of an optional string field: absent and `""` are falsy. */
  predicate Present(f: Option<string>)
  {
    f.Some? && f.value != ""
  }

  /** `a || b` on an optional string. */
  function OrElse(a: Option<string>, b: string): (r: string)
    ensures Present(a) ==> r == a.value
    ensures !Present(a) ==> r == b
  {
    if a.Some? && a.value != "" then a.value else b
  }

  // ---------------------------------------------------------------------------
  // String.prototype.trim

  /** The characters `trim` removes: ECMAScript WhiteSpace and LineTerminator. */
  predicate IsWhitespace(c: char)
  {
    || c == '\t' || c == '\n' || c == '\U{000B}' || c == '\U{000C}' || c == '\r'
    || c == ' ' || c == '\U{00A0}' || c == '\U{1680}'
    || ('\U{2000}' <= c <= '\U{200A}')
    || c == '\U{2028}' || c == '\U{2029}' || c == '\U{202F}' || c == '\U{205F}'
    || c == '\U{3000}' || c == '\U{FEFF}'
  }

  predicate AllWhitespace(s: string)
  {
    forall i :: 0 <= i < |s| ==> IsWhitespace(s[i])
  }

  /** Drops leading whitespace: the result is the suffix of `s` that starts at its
      first non-whitespace character. */
  function TrimStart(s: string): (r: string)
    ensures |r| <= |s| && r == s[|s| - |r|..]
    ensures AllWhitespace(s[..|s| - |r|])
    ensures r != [] ==> !IsWhitespace(r[0])
  {
    if s == [] then []
    else if IsWhitespace(s[0]) then TrimStart(s[1..])
    else s
  }

  /** Drops trailing whitespace: the result is the prefix of `s` that ends at its
      last non-whitespace character. */
  function TrimEnd(s: string): (r: string)
    ensures |r| <= |s| && r == s[..|r|]
    ensures AllWhitespace(s[|r|..])
    ensures r != [] ==> !IsWhitespace(r[|r| - 1])
  {
    if s == [] then []
    else if IsWhitespace(s[|s| - 1]) then TrimEnd(s[..|s| - 1])
    else s
  }

  /** `s.trim()`. */
  function Trim(s: string): string
  {
    TrimEnd(TrimStart(s))
  }

  /** `s.trim()` is empty exactly when every character of `s` is whitespace. */
  lemma TrimEmptyIff(s: string)
    ensures Trim(s) == "" <==> AllWhitespace(s)
  {
    var t := TrimStart(s);
    if Trim(s) == "" {
      assert AllWhitespace(t[0..]);
      assert t == [];
      assert s[..|s|] == s;
    } else {
      assert t != [];
      assert s[|s| - |t|] == t[0];
    }
  }

  /** `s.trim()` of a string that contains a non-whitespace character is not empty. */
  lemma TrimKeepsNonWhitespace(s: string, i: nat)
    requires i < |s| && !IsWhitespace(s[i])
    ensures Trim(s) != ""
  {
    TrimEmptyIff(s);
  }

  // ---------------------------------------------------------------------------
  // Array.prototype.join and String.prototype.split

  /** `xs.join(sep)`: `[]` gives `""`, one element gives itself. */
  function Join(xs: seq<string>, sep: string): string
  {
    if |xs| == 0 then ""
    else if |xs| == 1 then xs[0]
    else xs[0] + sep + Join(xs[1..], sep)
  }

  /** `t` occurs in `s` starting at index `k`. */
  predicate ContainsAt(s: string, t: string, k: int)
  {
    0 <= k && k + |t| <= |s| && s[k..k + |t|] == t
  }

  /** `s.includes(t)`. */
  predicate Contains(s: string, t: string)
  {
    exists k :: 0 <= k <= |s| && ContainsAt(s, t, k)
  }

  /** An occurrence survives putting text in front of and after the string. */
  lemma ContainsAtWrap(p: string, s: string, q: string, t: string, k: int)
    requires ContainsAt(s, t, k)
    ensures ContainsAt(p + s + q, t, |p| + k)
  {
    assert (p + s + q)[|p| + k..|p| + k + |t|] == s[k..k + |t|];
  }

  lemma ContainsWrap(p: string, s: string, q: string, t: string)
    requires Contains(s, t)
    ensures Contains(p + s + q, t)
  {
    var k :| ContainsAt(s, t, k);
    ContainsAtWrap(p, s, q, t, k);
  }

  /** Every element of an array occurs in its join, whatever the separator. */
  lemma {:induction false} JoinContains(xs: seq<string>, sep: string, i: nat)
    requires i < |xs|
    ensures Contains(Join(xs, sep), xs[i])
  {
    if |xs| == 1 {
      assert ContainsAt(Join(xs, sep), xs[i], 0);
    } else if i == 0 {
      ContainsAtWrap([], xs[0], sep + Join(xs[1..], sep), xs[0], 0);
      assert [] + xs[0] + (sep + Join(xs[1..], sep)) == Join(xs, sep);
    } else {
      JoinContains(xs[1..], sep, i - 1);
      ContainsWrap(xs[0] + sep, Join(xs[1..], sep), [], xs[i]);
      assert xs[0] + sep + Join(xs[1..], sep) + [] == Join(xs, sep);
    }
  }

  /** `s.split(',')[0]`: the part of `s` before its first comma, all of `s` when it
      has none. */
  function FirstField(s: string): (r: string)
    ensures |r| <= |s| && r == s[..|r|]
    ensures forall i :: 0 <= i < |r| ==> r[i] != ','
    ensures |r| == |s| || s[|r|] == ','
  {
    if s == [] || s[0] == ',' then []
    else [s[0]] + FirstField(s[1..])
  }

  /** Without a comma `split(',')[0]` is the whole string. */
  lemma FirstFieldNoComma(s: string)
    requires forall i :: 0 <= i < |s| ==> s[i] != ','
    ensures FirstField(s) == s
  {
  }

  // ---------------------------------------------------------------------------
  // Array.prototype.findIndex and find

  /** `xs.findIndex(p)`: the first index whose element satisfies `p`, else -1. */
  function FindIndex<T>(xs: seq<T>, p: T -> bool): (r: int)
    ensures -1 <= r < |xs|
    ensures r >= 0 ==> p(xs[r]) && forall j :: 0 <= j < r ==> !p(xs[j])
    ensures r == -1 <==> forall j :: 0 <= j < |xs| ==> !p(xs[j])
  {
    if xs == [] then -1
    else if p(xs[0]) then 0
    else
      var k := FindIndex(xs[1..], p);
      if k == -1 then -1 else k + 1
  }

  /** `xs.find(p)`: the first element that satisfies `p`, else `undefined`. */
  function Find<T>(xs: seq<T>, p: T -> bool): (r: Option<T>)
    ensures r.None? <==> FindIndex(xs, p) == -1
    ensures r.Some? ==> r.value == xs[FindIndex(xs, p)]
  {
    var i := FindIndex(xs, p);
    if i == -1 then None else Some(xs[i])
  }

  /** `xs.findIndex(x => key(x) === k)`: the first position whose key is `k`. */
  function IndexOfKey<T>(xs: seq<T>, key: T -> string, k: string): (r: int)
    ensures -1 <= r < |xs|
    ensures r >= 0 ==> key(xs[r]) == k && forall j :: 0 <= j < r ==> key(xs[j]) != k
    ensures r == -1 <==> forall j :: 0 <= j < |xs| ==> key(xs[j]) != k
  {
    FindIndex(xs, (x: T) => key(x) == k)
  }

  /** `xs.find(x => key(x) === k)`: the entry at `IndexOfKey`, if any. */
  function FindByKey<T>(xs: seq<T>, key: T -> string, k: string): (r: Option<T>)
    ensures r.None? <==> IndexOfKey(xs, key, k) == -1
    ensures r.Some? ==> r.value == xs[IndexOfKey(xs, key, k)]
  {
    Find(xs, (x: T) => key(x) == k)
  }

  /** Replacing the first entry with a given key by a record with the same key keeps
      it the first entry with that key. */
  lemma IndexOfKeyAfterReplace<T>(xs: seq<T>, key: T -> string, i: nat, q: T)
    requires i < |xs| && IndexOfKey(xs, key, key(q)) == i
    ensures IndexOfKey(xs[i := q], key, key(q)) == i
  {
    assert key(xs[i := q][i]) == key(q);
  }

  /** Appending a record whose key is new makes it the first entry with that key. */
  lemma IndexOfKeyAfterAppend<T>(xs: seq<T>, key: T -> string, q: T)
    requires IndexOfKey(xs, key, key(q)) == -1
    ensures IndexOfKey(xs + [q], key, key(q)) == |xs|
  {
    assert key((xs + [q])[|xs|]) == key(q);
  }

  // ---------------------------------------------------------------------------
  // Number.prototype.toString on a non-negative integer (`Date.now().toString()`)

  function Digit(d: nat): (c: char)
    requires d < 10
    ensures '0' <= c <= '9'
    ensures (c as int) - ('0' as int) == d
  {
    "0123456789"[d]
  }

  /** The number a string of decimal digits denotes. */
  ghost function DecimalValue(r: string): int
  {
    if r == [] then 0 else 10 * DecimalValue(r[..|r| - 1]) + ((r[|r| - 1] as int) - ('0' as int))
  }

  /** The decimal representation of `n`: digits only, never empty, no leading zero,
      and it denotes `n`. */
  function DecimalString(n: nat): (r: string)
    ensures |r| >= 1
    ensures forall i :: 0 <= i < |r| ==> '0' <= r[i] <= '9'
    ensures |r| == 1 <==> n < 10
    ensures |r| > 1 ==> r[0] != '0'
    ensures DecimalValue(r) == n
  {
    if n < 10 then
      var r := [Digit(n)];
      assert r[..0] == [];
      r
    else
      var p := DecimalString(n / 10);
      var r := p + [Digit(n % 10)];
      assert r[..|r| - 1] == p;
      r
  }

  /** Distinct clock readings give distinct ids. */
  lemma DecimalStringInjective(a: nat, b: nat)
    ensures DecimalString(a) == DecimalString(b) <==> a == b
  {
  }
}
