/**
 * PHP's `trim` with its default character list: space, tab, line feed,
 * carriage return, NUL and vertical tab are removed from both ends.
 */
module PhpString {

  /** One of the six characters PHP's `trim` strips by default. */
  predicate IsTrimChar(c: char) {
    c == ' ' || c == '\t' || c == '\n' || c == '\r' || c == '\0' || c == '\U{000B}'
  }

  /** Every character of `s` would be stripped. */
  predicate AllTrimChars(s: string) {
    forall i :: 0 <= i < |s| ==> IsTrimChar(s[i])
  }

  /** `s` neither starts nor ends with a stripped character. */
  predicate IsTrimmed(s: string) {
    s == [] || (!IsTrimChar(s[0]) && !IsTrimChar(s[|s| - 1]))
  }

  /** `ltrim($s)`: drops the leading run of trim characters. */
  function TrimLeft(s: string): string {
    if s != [] && IsTrimChar(s[0]) then TrimLeft(s[1..]) else s
  }

  /** The leading run of trim characters that `TrimLeft` drops. */
  function LeadingTrim(s: string): string {
    if s != [] && IsTrimChar(s[0]) then [s[0]] + LeadingTrim(s[1..]) else []
  }

  /** `rtrim($s)`: drops the trailing run of trim characters. */
  function TrimRight(s: string): string {
    if s != [] && IsTrimChar(s[|s| - 1]) then TrimRight(s[..|s| - 1]) else s
  }

  /** The trailing run of trim characters that `TrimRight` drops. */
  function TrailingTrim(s: string): string {
    if s != [] && IsTrimChar(s[|s| - 1]) then TrailingTrim(s[..|s| - 1]) + [s[|s| - 1]] else []
  }

  /**
   * `TrimLeft` splits `s` into a run of trim characters and a rest that does
   * not start with one.
   */
  lemma {:induction false} TrimLeftSplit(s: string)
    ensures s == LeadingTrim(s) + TrimLeft(s)
    ensures AllTrimChars(LeadingTrim(s))
    ensures TrimLeft(s) == [] || !IsTrimChar(TrimLeft(s)[0])
  {
    if s != [] && IsTrimChar(s[0]) {
      var c, rest := s[0], s[1..];
      TrimLeftSplit(rest);
      var p, t := LeadingTrim(rest), TrimLeft(rest);
      assert LeadingTrim(s) == [c] + p && TrimLeft(s) == t;
      assert s == [c] + (p + t) == [c] + p + t;
      forall i | 0 <= i < |[c] + p| ensures IsTrimChar(([c] + p)[i]) {
        if i > 0 {
          assert ([c] + p)[i] == p[i - 1];
        }
      }
    }
  }

  /**
   * `TrimRight` splits `s` into a rest that does not end with a trim
   * character and a run of trim characters.
   */
  lemma {:induction false} TrimRightSplit(s: string)
    ensures s == TrimRight(s) + TrailingTrim(s)
    ensures AllTrimChars(TrailingTrim(s))
    ensures TrimRight(s) == [] || !IsTrimChar(TrimRight(s)[|TrimRight(s)| - 1])
  {
    if s != [] && IsTrimChar(s[|s| - 1]) {
      var c, rest := s[|s| - 1], s[..|s| - 1];
      TrimRightSplit(rest);
      var q := TrailingTrim(rest);
      assert s == rest + [c];
      assert TrimRight(rest) + (q + [c]) == TrimRight(rest) + q + [c];
      forall i | 0 <= i < |q + [c]| ensures IsTrimChar((q + [c])[i]) {
        if i < |q| {
          assert (q + [c])[i] == q[i];
        }
      }
    } else {
      assert s + [] == s;
    }
  }

  /** `trim($s)`: the result has no trim character at either end. */
  function Trim(s: string): (r: string)
    ensures IsTrimmed(r)
  {
    var t := TrimLeft(s);
    TrimLeftSplit(s);
    TrimRightSplit(t);
    assert TrimRight(t) != [] ==> TrimRight(t)[0] == t[0];
    TrimRight(t)
  }

  /**
   * What `trim` removes: `s` is the result of `Trim` with a run of trim
   * characters on either side.
   */
  lemma TrimDecomposition(s: string)
    ensures var q := TrailingTrim(TrimLeft(s));
      && s == LeadingTrim(s) + Trim(s) + q
      && AllTrimChars(LeadingTrim(s)) && AllTrimChars(q)
  {
    var t := TrimLeft(s);
    TrimLeftSplit(s);
    TrimRightSplit(t);
    assert Trim(s) == TrimRight(t);
    assert LeadingTrim(s) + (Trim(s) + TrailingTrim(t)) == LeadingTrim(s) + Trim(s) + TrailingTrim(t);
  }

  /** Leading trim characters do not change what `TrimLeft` returns. */
  lemma {:induction false} TrimLeftSkips(p: string, t: string)
    requires AllTrimChars(p)
    ensures TrimLeft(p + t) == TrimLeft(t)
  {
    if p != [] {
      var s, rest := p + t, p[1..];
      assert IsTrimChar(p[0]);
      assert s[0] == p[0] && s[1..] == rest + t;
      assert AllTrimChars(rest) by {
        forall i | 0 <= i < |rest| ensures IsTrimChar(rest[i]) {
          assert rest[i] == p[i + 1];
        }
      }
      assert TrimLeft(s) == TrimLeft(s[1..]);
      TrimLeftSkips(rest, t);
    } else {
      assert p + t == t;
    }
  }

  /** Trailing trim characters do not change what `TrimRight` returns. */
  lemma {:induction false} TrimRightSkips(t: string, q: string)
    requires AllTrimChars(q)
    ensures TrimRight(t + q) == TrimRight(t)
  {
    if q != [] {
      var s, rest := t + q, q[..|q| - 1];
      assert IsTrimChar(q[|q| - 1]);
      assert s[|s| - 1] == q[|q| - 1] && s[..|s| - 1] == t + rest;
      assert AllTrimChars(rest) by {
        forall i | 0 <= i < |rest| ensures IsTrimChar(rest[i]) {
          assert rest[i] == q[i];
        }
      }
      assert TrimRight(s) == TrimRight(s[..|s| - 1]);
      TrimRightSkips(t, rest);
    } else {
      assert t + q == t;
    }
  }

  /**
   * The reference characterisation of `trim`: whatever stands between a run
   * of trim characters on the left and one on the right, and itself has no
   * trim character at either end, is exactly what `Trim` returns. With
   * `TrimDecomposition`, which gives such a split for every `s`, this pins
   * `Trim` down completely.
   */
  lemma TrimUnique(p: string, m: string, q: string)
    requires AllTrimChars(p) && AllTrimChars(q) && IsTrimmed(m)
    ensures Trim(p + m + q) == m
  {
    var s := p + m + q;
    assert p + (m + q) == p + m + q;
    TrimLeftSkips(p, m + q);
    if m == [] {
      assert m + q == q + [];
      TrimLeftSkips(q, []);
      assert TrimLeft(s) == [];
    } else {
      assert (m + q)[0] == m[0];
      assert TrimLeft(s) == m + q;
      TrimRightSkips(m, q);
    }
  }

  /** A string with no trim character at either end is left as it is. */
  lemma TrimOfTrimmed(s: string)
    requires IsTrimmed(s)
    ensures Trim(s) == s
  {
  }

  /** Both directions: `trim` is the identity exactly on trimmed strings. */
  lemma TrimFixedPoints(s: string)
    ensures Trim(s) == s <==> IsTrimmed(s)
  {
  }

  /** Trimming twice is the same as trimming once. */
  lemma TrimIdempotent(s: string)
    ensures Trim(Trim(s)) == Trim(s)
  {
  }
}
