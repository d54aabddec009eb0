/** The two library behaviours every parser of the plugin relies on: `getline` and NUL-terminated strings. */
module Text {

  const NUL: char := '\0'

  /** Index of the first `c` in `s`, or |s|. */
  function Find(s: string, c: char): (i: nat)
    ensures i <= |s|
    ensures forall k :: 0 <= k < i ==> s[k] != c
    ensures i < |s| ==> s[i] == c
  {
    FindFrom(s, c, 0)
  }

  function FindFrom(s: string, c: char, from: nat): (i: nat)
    requires from <= |s|
    ensures from <= i <= |s|
    ensures forall k :: from <= k < i ==> s[k] != c
    ensures i < |s| ==> s[i] == c
    decreases |s| - from
  {
    if from == |s| || s[from] == c then from else FindFrom(s, c, from + 1)
  }

  /** What a callee sees of `s` through `c_str()`. */
  function CStr(s: string): (r: string)
    ensures NUL !in r && r <= s
    ensures |r| < |s| ==> s[|r|] == NUL
    ensures NUL !in s ==> r == s
  {
    s[..Find(s, NUL)]
  }

  /** The items of `while (getline(stream, item, sep))`: an empty last item is never produced. */
  function Tokens(s: string, sep: char): seq<string> {
    if s == [] then []
    else
      var i := Find(s, sep);
      [s[..i]] + (if i < |s| then Tokens(s[i + 1..], sep) else [])
  }

  /** `s` is empty or its last character is `sep`. */
  predicate Closed(s: string, sep: char) {
    s != [] ==> s[|s| - 1] == sep
  }

  lemma TokensCons(t: string, sep: char, rest: string)
    requires sep !in t
    ensures Tokens(t + [sep] + rest, sep) == [t] + Tokens(rest, sep)
  {
    var s := t + [sep] + rest;
    var i := Find(s, sep);
    assert s[|t|] == sep;
    assert i == |t|;
    assert s[..i] == t && s[i + 1..] == rest;
  }

  lemma TokensLast(t: string, sep: char)
    requires sep !in t && t != []
    ensures Tokens(t, sep) == [t]
  {
    var i := Find(t, sep);
    assert i == |t| && t[..i] == t;
  }

  lemma {:induction false} TokensAvoid(s: string, sep: char, c: char)
    requires c !in s || c == sep
    ensures forall t :: t in Tokens(s, sep) ==> c !in t
    decreases |s|
  {
    if s != [] && Find(s, sep) < |s| {
      TokensAvoid(s[Find(s, sep) + 1..], sep, c);
    }
  }

  /** Text appended after a separator does not disturb the items before it. */
  lemma {:induction false} TokensAppend(a: string, b: string, sep: char)
    requires Closed(a, sep)
    ensures Tokens(a + b, sep) == Tokens(a, sep) + Tokens(b, sep)
    decreases |a|
  {
    if a == [] {
      assert a + b == b;
    } else {
      var i := Find(a, sep);
      assert i < |a|;
      TokensAppend(a[i + 1..], b, sep);
      TokensSplit(a, b, sep);
      Assoc([a[..i]], Tokens(a[i + 1..], sep), Tokens(b, sep));
    }
  }

  lemma Assoc<T>(x: seq<T>, y: seq<T>, z: seq<T>)
    ensures x + (y + z) == x + y + z
  {
  }

  lemma FindInPrefix(a: string, b: string, sep: char)
    requires Find(a, sep) < |a|
    ensures Find(a + b, sep) == Find(a, sep)
  {
    var i := Find(a, sep);
    assert (a + b)[i] == a[i];
    assert forall k :: 0 <= k < i ==> (a + b)[k] == a[k];
  }

  lemma TokensSplit(a: string, b: string, sep: char)
    requires Find(a, sep) < |a|
    ensures var i := Find(a, sep);
            && Tokens(a + b, sep) == [a[..i]] + Tokens(a[i + 1..] + b, sep)
            && Tokens(a, sep) == [a[..i]] + Tokens(a[i + 1..], sep)
  {
    var i, ab := Find(a, sep), a + b;
    FindInPrefix(a, b, sep);
    assert ab[..i] == a[..i];
    assert ab[i + 1..] == a[i + 1..] + b;
  }

  // ----- items with a separator between them -----

  function Join(ts: seq<string>, sep: char): string {
    if ts == [] then "" else if |ts| == 1 then ts[0] else ts[0] + [sep] + Join(ts[1..], sep)
  }

  predicate Free(ts: seq<string>, sep: char) { forall i :: 0 <= i < |ts| ==> sep !in ts[i] }

  /** The items that come back: an empty last one is dropped. */
  function Kept(ts: seq<string>): seq<string>
    requires ts != []
  {
    if ts[|ts| - 1] == "" then ts[..|ts| - 1] else ts
  }

  lemma KeptCons(ts: seq<string>)
    requires |ts| > 1
    ensures Kept(ts) == [ts[0]] + Kept(ts[1..])
  {
  }

  lemma {:induction false} JoinedTokens(ts: seq<string>, sep: char)
    requires Free(ts, sep) && ts != []
    ensures Tokens(Join(ts, sep), sep) == Kept(ts)
  {
    if |ts| == 1 {
      if ts[0] != "" { TokensLast(ts[0], sep); }
    } else {
      JoinedTokens(ts[1..], sep);
      TokensCons(ts[0], sep, Join(ts[1..], sep));
      KeptCons(ts);
    }
  }
}
