/** String helpers shared by the URL, path and classpath models. */
module Strings {

  /** The pieces of `s` between the occurrences of `sep`, as Rust's `str::split`
      yields them: there is always at least one piece, and no piece holds `sep`. */
  function Split(s: string, sep: char): (parts: seq<string>)
    ensures |parts| >= 1
    ensures forall i :: 0 <= i < |parts| ==> sep !in parts[i]
    decreases |s|
  {
    if s == [] then [""]
    else
      var init := Split(s[..|s| - 1], sep);
      if s[|s| - 1] == sep then init + [""]
      else init[..|init| - 1] + [init[|init| - 1] + [s[|s| - 1]]]
  }

  /** A string without the separator is a single piece. */
  lemma {:induction false} SplitWithoutSeparator(s: string, sep: char)
    requires sep !in s
    ensures Split(s, sep) == [s]
    decreases |s|
  {
    if s != [] {
      var init := s[..|s| - 1];
      assert sep !in init by {
        forall i | 0 <= i < |init| ensures init[i] != sep { assert init[i] == s[i]; }
      }
      SplitWithoutSeparator(init, sep);
      assert init + [s[|s| - 1]] == s;
    }
  }

  /** Whatever follows the last separator is the last piece. */
  lemma {:induction false} SplitAround(a: string, sep: char, b: string)
    requires sep !in b
    ensures Split(a + [sep] + b, sep) == Split(a, sep) + [b]
    decreases |b|
  {
    var s := a + [sep] + b;
    if b == [] {
      assert s[..|s| - 1] == a;
    } else {
      var b' := b[..|b| - 1];
      assert sep !in b' by {
        forall i | 0 <= i < |b'| ensures b'[i] != sep { assert b'[i] == b[i]; }
      }
      assert s[..|s| - 1] == a + [sep] + b';
      SplitAround(a, sep, b');
      assert b' + [b[|b| - 1]] == b;
    }
  }

  /** The longest prefix of `s` that holds no character of `stops`. */
  function PrefixBefore(s: string, stops: set<char>): (p: string)
    ensures p <= s
    ensures forall i :: 0 <= i < |p| ==> p[i] !in stops
    ensures |p| < |s| ==> s[|p|] in stops
    decreases |s|
  {
    if s == [] || s[0] in stops then [] else [s[0]] + PrefixBefore(s[1..], stops)
  }

  /** A stop-free `a` followed by a stop (or by nothing) is exactly that prefix. */
  lemma {:induction false} PrefixBeforeStop(a: string, b: string, stops: set<char>)
    requires forall i :: 0 <= i < |a| ==> a[i] !in stops
    requires b == [] || b[0] in stops
    ensures PrefixBefore(a + b, stops) == a
    decreases |a|
  {
    if a != [] {
      assert (a + b)[0] == a[0];
      assert (a + b)[1..] == a[1..] + b;
      PrefixBeforeStop(a[1..], b, stops);
    }
  }
}
