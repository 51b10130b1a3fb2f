/** The string operations the builder borrows from Python's str type. */
module Text {

  /** Python's str.isspace for one character. */
  predicate IsSpace(c: char) {
    || c == ' '
    || ('\t' <= c <= '\r')
    || ('\U{1c}' <= c <= '\U{1f}')
    || c == '\U{85}' || c == '\U{a0}' || c == '\U{1680}'
    || ('\U{2000}' <= c <= '\U{200a}')
    || c == '\U{2028}' || c == '\U{2029}' || c == '\U{202f}' || c == '\U{205f}' || c == '\U{3000}'
  }

  /** Neither end of s is whitespace. */
  predicate Trimmed(s: string) {
    s == [] || (!IsSpace(s[0]) && !IsSpace(s[|s| - 1]))
  }

  /** str.lstrip(): drops the leading whitespace. */
  function StripLeft(s: string): string {
    if |s| > 0 && IsSpace(s[0]) then StripLeft(s[1..]) else s
  }

  /** str.rstrip(): drops the trailing whitespace. */
  function StripRight(s: string): string {
    if |s| > 0 && IsSpace(s[|s| - 1]) then StripRight(s[..|s| - 1]) else s
  }

  /** str.strip(): lstrip then rstrip. */
  function Strip(s: string): string {
    StripRight(StripLeft(s))
  }

  /** lstrip keeps a suffix that starts with a non-space, and what it drops
      is whitespace. */
  lemma {:induction false} StripLeftSuffix(s: string)
    ensures |StripLeft(s)| <= |s| && StripLeft(s) == s[|s| - |StripLeft(s)|..]
    ensures StripLeft(s) == [] || !IsSpace(StripLeft(s)[0])
    ensures forall k :: 0 <= k < |s| - |StripLeft(s)| ==> IsSpace(s[k])
    decreases |s|
  {
    if |s| > 0 && IsSpace(s[0]) {
      StripLeftSuffix(s[1..]);
      assert s[1..][|s[1..]| - |StripLeft(s)|..] == s[|s| - |StripLeft(s)|..];
      forall k | 0 <= k < |s| - |StripLeft(s)| ensures IsSpace(s[k]) {
        if k > 0 { assert s[k] == s[1..][k - 1]; }
      }
    }
  }

  /** rstrip keeps a prefix that ends with a non-space, and what it drops
      is whitespace. */
  lemma {:induction false} StripRightPrefix(s: string)
    ensures |StripRight(s)| <= |s| && StripRight(s) == s[..|StripRight(s)|]
    ensures StripRight(s) == [] || !IsSpace(StripRight(s)[|StripRight(s)| - 1])
    ensures forall k :: |StripRight(s)| <= k < |s| ==> IsSpace(s[k])
    decreases |s|
  {
    if |s| > 0 && IsSpace(s[|s| - 1]) {
      StripRightPrefix(s[..|s| - 1]);
      assert s[..|s| - 1][..|StripRight(s)|] == s[..|StripRight(s)|];
      forall k | |StripRight(s)| <= k < |s| ensures IsSpace(s[k]) {
        if k < |s| - 1 { assert s[k] == s[..|s| - 1][k]; }
      }
    }
  }

  /** Strip never lengthens and leaves no whitespace at either end. */
  lemma StripTrims(s: string)
    ensures Trimmed(Strip(s)) && |Strip(s)| <= |s|
  {
    var t := StripLeft(s);
    StripLeftSuffix(s);
    StripRightPrefix(t);
    var r := StripRight(t);
    if r != [] {
      assert r[0] == t[0];
    }
  }

  /** Strip keeps the slice s[i..i + |Strip(s)|] and drops only whitespace
      around it. */
  lemma StripIsSlice(s: string) returns (i: nat)
    ensures i + |Strip(s)| <= |s| && Strip(s) == s[i..i + |Strip(s)|]
    ensures forall k :: 0 <= k < i ==> IsSpace(s[k])
    ensures forall k :: i + |Strip(s)| <= k < |s| ==> IsSpace(s[k])
  {
    var t := StripLeft(s);
    StripLeftSuffix(s);
    StripRightPrefix(t);
    var r := StripRight(t);
    i := |s| - |t|;
    assert t == s[i..];
    forall k | i + |r| <= k < |s| ensures IsSpace(s[k]) { assert s[k] == t[k - i]; }
  }

  /** A trimmed string is left alone by Strip. */
  lemma StripTrimmed(s: string)
    requires Trimmed(s)
    ensures Strip(s) == s
  {
  }

  /** Python's sep.join(parts). */
  function Join(parts: seq<string>, sep: string): string
    decreases |parts|
  {
    if |parts| == 0 then ""
    else if |parts| == 1 then parts[0]
    else Join(parts[..|parts| - 1], sep) + sep + parts[|parts| - 1]
  }

  /** Joining peels off from the front just as it is built from the back. */
  lemma {:induction false} JoinCons(x: string, parts: seq<string>, sep: string)
    requires parts != []
    ensures Join([x] + parts, sep) == x + sep + Join(parts, sep)
    decreases |parts|
  {
    var xs := [x] + parts;
    if |parts| == 1 {
      assert xs[..|xs| - 1] == [x];
    } else {
      assert xs[..|xs| - 1] == [x] + parts[..|parts| - 1];
      JoinCons(x, parts[..|parts| - 1], sep);
    }
  }

  /** s holds "__" somewhere. */
  predicate HasDoubleUnderscore(s: string)
    decreases |s|
  {
    |s| >= 2 && ((s[0] == '_' && s[1] == '_') || HasDoubleUnderscore(s[1..]))
  }

  /** The scan agrees with looking for an index where "__" begins. */
  lemma {:induction false} DoubleUnderscoreAt(s: string)
    ensures HasDoubleUnderscore(s) <==> exists i :: 0 <= i < |s| - 1 && s[i] == '_' && s[i + 1] == '_'
    decreases |s|
  {
    if |s| >= 2 {
      DoubleUnderscoreAt(s[1..]);
      if HasDoubleUnderscore(s) && !(s[0] == '_' && s[1] == '_') {
        var i :| 0 <= i < |s[1..]| - 1 && s[1..][i] == '_' && s[1..][i + 1] == '_';
        assert s[i + 1] == '_' && s[i + 2] == '_';
      }
      if exists i :: 0 <= i < |s| - 1 && s[i] == '_' && s[i + 1] == '_' {
        var i :| 0 <= i < |s| - 1 && s[i] == '_' && s[i + 1] == '_';
        if i > 0 {
          assert s[1..][i - 1] == '_' && s[1..][i] == '_';
        }
      }
    }
  }

  /** name.replace('__', '-'): non-overlapping, scanning from the left. */
  function DashesForDoubleUnderscores(s: string): string {
    if |s| >= 2 && s[0] == '_' && s[1] == '_' then "-" + DashesForDoubleUnderscores(s[2..])
    else if s == [] then ""
    else [s[0]] + DashesForDoubleUnderscores(s[1..])
  }

  /** Afterwards no "__" is left, the name is untouched when it had none,
      it shrinks exactly when it had one, and it starts with an underscore
      only if the name did. */
  lemma {:induction false} DashesRemoveDoubleUnderscores(s: string)
    ensures !HasDoubleUnderscore(DashesForDoubleUnderscores(s))
    ensures HasDoubleUnderscore(s) ==> |DashesForDoubleUnderscores(s)| < |s|
    ensures !HasDoubleUnderscore(s) ==> DashesForDoubleUnderscores(s) == s
    ensures var r := DashesForDoubleUnderscores(s); r != [] && r[0] == '_' ==> s != [] && s[0] == '_'
    decreases |s|
  {
    var r := DashesForDoubleUnderscores(s);
    if |s| >= 2 && s[0] == '_' && s[1] == '_' {
      var rest := DashesForDoubleUnderscores(s[2..]);
      DashesRemoveDoubleUnderscores(s[2..]);
      assert r == "-" + rest;
      assert r[1..] == rest;
    } else if s != [] {
      var rest := DashesForDoubleUnderscores(s[1..]);
      DashesRemoveDoubleUnderscores(s[1..]);
      assert r == [s[0]] + rest;
      assert r[1..] == rest;
      if |rest| > 0 {
        assert r[1] == rest[0];
      }
      if |s| >= 2 {
        assert s[1..][0] == s[1];
      }
      assert [s[0]] + s[1..] == s;
    }
  }

  /** Text with no double underscore, not ending in one underscore, comes
      out unchanged ahead of whatever follows it. */
  lemma {:induction false} DashesAfterPlain(a: string, t: string)
    requires !HasDoubleUnderscore(a) && (a == [] || a[|a| - 1] != '_')
    ensures DashesForDoubleUnderscores(a + t) == a + DashesForDoubleUnderscores(t)
    decreases |a|
  {
    if a != [] {
      var a' := a[1..];
      var at := a + t;
      assert at[1..] == a' + t;
      assert at[0] == a[0];
      if |a| >= 2 {
        assert at[1] == a[1];
      }
      DashesAfterPlain(a', t);
      assert DashesForDoubleUnderscores(at) == [a[0]] + DashesForDoubleUnderscores(a' + t);
      assert a == [a[0]] + a';
    } else {
      assert a + t == t;
    }
  }

  /** A junction "__" after such text becomes "-", whatever follows it; with
      DashesAfterPlain this covers names with any number of junctions. */
  lemma DashesJunction(a: string, t: string)
    requires !HasDoubleUnderscore(a) && (a == [] || a[|a| - 1] != '_')
    ensures DashesForDoubleUnderscores(a + "__" + t) == a + "-" + DashesForDoubleUnderscores(t)
  {
    var u := "__" + t;
    Regroup(a, "__", t);
    assert DashesForDoubleUnderscores(u) == "-" + DashesForDoubleUnderscores(t) by {
      assert u[0] == '_' && u[1] == '_' && u[2..] == t;
    }
    DashesAfterPlain(a, u);
    Regroup(a, "-", DashesForDoubleUnderscores(t));
  }

  /** Associativity of concatenation, stated apart so that using it does
      not bring the replacement function's facts into the same proof. */
  lemma Regroup(x: string, y: string, z: string)
    ensures x + y + z == x + (y + z)
  {
  }
}
