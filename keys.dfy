/**
 * Key derivation of the singleton pool: a class name alone, or
 * `className#p1_p2_..._pn` when construction parameters are given.
 * Parameters are taken as their string forms.
 */
module Keys {

  /** Separates the class name from the joined parameters. */
  const ClassSeparator: char := '#'

  /** Separates two consecutive parameters. */
  const ParamSeparator: char := '_'

  /** The parts, in order, with `sep` between each two neighbours (no leading or trailing `sep`). */
  function Join(parts: seq<string>, sep: char): string
  {
    if |parts| == 0 then ""
    else if |parts| == 1 then parts[0]
    else parts[0] + [sep] + Join(parts[1..], sep)
  }

  /** The pool key for a class name and the string forms of its construction parameters. */
  function BuildKey(className: string, params: seq<string>): (key: string)
    ensures |params| == 0 ==> key == className
    ensures |params| > 0 ==> |key| > |className| && key[..|className| + 1] == className + [ClassSeparator]
  {
    if |params| == 0 then className
    else className + [ClassSeparator] + Join(params, ParamSeparator)
  }

  // ---------------------------------------------------------------------------
  // An inverse of key derivation, used to state when two keys can collide.

  /** A Java binary class name never contains the class separator. */
  ghost predicate PlainClassName(className: string)
  {
    ClassSeparator !in className
  }

  /** No parameter string contains the parameter separator. */
  ghost predicate PlainParams(params: seq<string>)
  {
    forall i :: 0 <= i < |params| ==> ParamSeparator !in params[i]
  }

  /** The pieces of `s` between occurrences of `sep` (always at least one piece). */
  ghost function Split(s: string, sep: char): (pieces: seq<string>)
    ensures |pieces| >= 1
    decreases |s|
  {
    if s == [] then [[]]
    else
      var rest := Split(s[1..], sep);
      if s[0] == sep then [[]] + rest
      else [[s[0]] + rest[0]] + rest[1..]
  }

  /** The position of the first `c` in `s`. */
  ghost function FirstIndex(s: string, c: char): (i: nat)
    requires c in s
    ensures i < |s| && s[i] == c && c !in s[..i]
  {
    if s[0] == c then 0
    else
      assert c in s[1..] by { assert s == [s[0]] + s[1..]; }
      var j := FirstIndex(s[1..], c);
      assert s[..j + 1] == [s[0]] + s[1..][..j];
      j + 1
  }

  /** Recovers the class name and the parameters from a key. */
  ghost function ParseKey(key: string): (string, seq<string>)
  {
    if ClassSeparator !in key then (key, [])
    else
      var i := FirstIndex(key, ClassSeparator);
      (key[..i], Split(key[i + 1..], ParamSeparator))
  }

  lemma {:induction false} SplitWithoutSeparator(s: string, sep: char)
    requires sep !in s
    ensures Split(s, sep) == [s]
    decreases |s|
  {
    if s != [] {
      SplitWithoutSeparator(s[1..], sep);
      assert [s[0]] + s[1..] == s;
    }
  }

  lemma {:induction false} SplitAfterFirstPiece(a: string, sep: char, b: string)
    requires sep !in a
    ensures Split(a + [sep] + b, sep) == [a] + Split(b, sep)
    decreases |a|
  {
    var s := a + [sep] + b;
    if a == [] {
      assert s[1..] == b;
    } else {
      assert s[1..] == a[1..] + [sep] + b;
      SplitAfterFirstPiece(a[1..], sep, b);
      assert [a[0]] + a[1..] == a;
    }
  }

  /** Splitting a joined list gives the list back when no part contains the separator. */
  lemma {:induction false} SplitJoin(parts: seq<string>, sep: char)
    requires |parts| > 0
    requires forall i :: 0 <= i < |parts| ==> sep !in parts[i]
    ensures Split(Join(parts, sep), sep) == parts
    decreases |parts|
  {
    if |parts| == 1 {
      SplitWithoutSeparator(parts[0], sep);
    } else {
      SplitAfterFirstPiece(parts[0], sep, Join(parts[1..], sep));
      SplitJoin(parts[1..], sep);
      assert [parts[0]] + parts[1..] == parts;
    }
  }

  /** Key derivation can be undone when the class name and the parameters avoid the separators. */
  lemma KeyRoundTrip(className: string, params: seq<string>)
    requires PlainClassName(className) && PlainParams(params)
    ensures ParseKey(BuildKey(className, params)) == (className, params)
  {
    if |params| > 0 {
      var joined := Join(params, ParamSeparator);
      var key := BuildKey(className, params);
      assert key == className + [ClassSeparator] + joined;
      assert key[|className|] == ClassSeparator;
      var i := FirstIndex(key, ClassSeparator);
      assert key[..i] == className;
      assert key[i + 1..] == joined;
      SplitJoin(params, ParamSeparator);
    }
  }

  /**
   * Different classes or different parameter lists get different keys, as long as
   * class names contain no `#` and parameters no `_`.
   */
  lemma BuildKeyInjective(c1: string, ps1: seq<string>, c2: string, ps2: seq<string>)
    requires PlainClassName(c1) && PlainParams(ps1)
    requires PlainClassName(c2) && PlainParams(ps2)
    requires BuildKey(c1, ps1) == BuildKey(c2, ps2)
    ensures c1 == c2 && ps1 == ps2
  {
    KeyRoundTrip(c1, ps1);
    KeyRoundTrip(c2, ps2);
  }

  /** Parameters that are joined the same way collide: `["a_b"]` and `["a", "b"]` share a key. */
  lemma ParamsCollide()
    ensures BuildKey("Foo", ["a_b"]) == BuildKey("Foo", ["a", "b"]) == "Foo#a_b"
    ensures BuildKey("Foo", []) == "Foo"
  {
    assert Join(["a", "b"], ParamSeparator) == "a" + "_" + Join(["b"], ParamSeparator);
  }
}
