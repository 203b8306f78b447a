/**
 * The string and path operations the model-source resolution relies on:
 * `str.endswith`, `str.replace(pat, "")`, `os.path.basename` and
 * `os.path.join` for POSIX paths (separator '/').
 */
module PathText {

  /** Python's `s.endswith(suffix)`. */
  predicate EndsWith(s: string, suffix: string) {
    |suffix| <= |s| && s[|s| - |suffix|..] == suffix
  }

  /** Appending `suffix` to any string gives a string that ends with it. */
  lemma EndsWithAppend(p: string, suffix: string)
    ensures EndsWith(p + suffix, suffix)
  {
  }

  /** `pat` occurs in `s` starting at index `i`. */
  predicate OccursAt(s: string, pat: string, i: nat) {
    i + |pat| <= |s| && s[i..i + |pat|] == pat
  }

  /** Python's `pat in s`, for a non-empty `pat`. */
  predicate Occurs(s: string, pat: string) {
    exists i: nat | i <= |s| :: OccursAt(s, pat, i)
  }

  /**
   * Python's `s.replace(pat, "")`: scanning from the left, every
   * non-overlapping occurrence of `pat` is removed. One pass only, so
   * the result can contain `pat` again ("..tartar" loses one ".tar").
   */
  function RemoveAll(s: string, pat: string): (r: string)
    requires |pat| > 0
    ensures |r| <= |s|
    ensures !Occurs(s, pat) ==> r == s
    ensures Occurs(s, pat) ==> |r| <= |s| - |pat|
    decreases |s|
  {
    if |s| < |pat| then
      s
    else if s[..|pat|] == pat then
      assert OccursAt(s, pat, 0);
      RemoveAll(s[|pat|..], pat)
    else
      OccurrenceInTail(s, pat);
      [s[0]] + RemoveAll(s[1..], pat)
  }

  /**
   * An occurrence in the tail of `s` is an occurrence in `s`, and an
   * occurrence in `s` that does not start it lies in its tail.
   */
  lemma OccurrenceInTail(s: string, pat: string)
    requires |s| > 0
    requires |pat| <= |s| ==> s[..|pat|] != pat
    ensures Occurs(s[1..], pat) <==> Occurs(s, pat)
  {
    if Occurs(s[1..], pat) {
      var i: nat :| i <= |s[1..]| && OccursAt(s[1..], pat, i);
      assert s[i + 1..i + 1 + |pat|] == s[1..][i..i + |pat|];
      assert OccursAt(s, pat, i + 1);
    }
    if Occurs(s, pat) {
      var i: nat :| i <= |s| && OccursAt(s, pat, i);
      assert i != 0;
      assert s[1..][i - 1..i - 1 + |pat|] == s[i..i + |pat|];
      assert OccursAt(s[1..], pat, i - 1);
    }
  }

  /** The archive suffix that the model source must carry. */
  const TarSuffix: string := ".tar"

  /**
   * Removing every ".tar" works across an occurrence: what lies before it
   * and what lies after it are treated independently. No suffix of `a`
   * can join a leading part of ".tar" into an earlier occurrence, because
   * '.' appears in ".tar" only at its start.
   */
  lemma {:induction false} RemoveAllAcrossTar(a: string, b: string)
    ensures RemoveAll(a + TarSuffix + b, TarSuffix) == RemoveAll(a, TarSuffix) + RemoveAll(b, TarSuffix)
    decreases |a|
  {
    var s := a + TarSuffix + b;
    TarDoesNotStraddle(a, b);
    if |a| == 0 {
      assert s[..4] == TarSuffix && s[4..] == b;
    } else if s[..4] == TarSuffix {
      assert a[..4] == TarSuffix;
      assert s[4..] == a[4..] + TarSuffix + b;
      RemoveAllAcrossTar(a[4..], b);
    } else {
      assert s[1..] == a[1..] + TarSuffix + b;
      RemoveAllAcrossTar(a[1..], b);
      if |a| >= 4 {
        assert a[..4] == s[..4];
      } else {
        assert !Occurs(a, TarSuffix);
        assert !Occurs(a[1..], TarSuffix);
      }
    }
  }

  /** Removing ".tar" everywhere ignores one trailing ".tar". */
  lemma RemoveAllTarSuffix(p: string)
    ensures RemoveAll(p + TarSuffix, TarSuffix) == RemoveAll(p, TarSuffix)
  {
    RemoveAllAcrossTar(p, "");
    assert p + TarSuffix + "" == p + TarSuffix;
  }

  /** An occurrence of ".tar" cannot begin inside a string shorter than it and end in a ".tar" that follows. */
  lemma TarDoesNotStraddle(a: string, b: string)
    ensures 0 < |a| < 4 ==> (a + TarSuffix + b)[..4] != TarSuffix
  {
    if 0 < |a| < 4 {
      assert (a + TarSuffix + b)[|a|] == '.';
    }
  }

  /** `r` is a (possibly empty) trailing part of `p`. */
  predicate IsSuffix(r: string, p: string) {
    |r| <= |p| && p[|p| - |r|..] == r
  }

  /**
   * Python's `os.path.basename(p)`: everything after the last '/', or all
   * of `p` when it has none.
   */
  function Basename(p: string): (r: string)
    ensures '/' !in r
    ensures IsSuffix(r, p)
    ensures |r| < |p| ==> p[|p| - |r| - 1] == '/'
    decreases |p|
  {
    if |p| == 0 then ""
    else if p[|p| - 1] == '/' then ""
    else
      var r' := Basename(p[..|p| - 1]);
      assert p[..|p| - 1][|p| - 1 - |r'|..] == p[|p| - 1 - |r'|..|p| - 1];
      r' + [p[|p| - 1]]
  }

  /**
   * Python's `os.path.join(a, b)` for two components: an absolute `b`
   * replaces `a`; otherwise a '/' is inserted unless `a` is empty or
   * already ends with one.
   */
  function Join(a: string, b: string): (r: string)
    ensures IsSuffix(b, r)
    ensures |b| > 0 && b[0] == '/' ==> r == b
    ensures (|b| == 0 || b[0] != '/') && a != [] && a[|a| - 1] != '/' ==> r == a + "/" + b
    ensures (|b| == 0 || b[0] != '/') && (a == [] || a[|a| - 1] == '/') ==> r == a + b
  {
    if |b| > 0 && b[0] == '/' then b
    else if a == [] || a[|a| - 1] == '/' then a + b
    else a + "/" + b
  }

  /**
   * The basename of a joined path is the last component, when that
   * component holds no '/' (so `Join` then never discards `a`).
   */
  lemma BasenameOfJoin(a: string, b: string)
    requires '/' !in b
    ensures Basename(Join(a, b)) == b
  {
    if a == [] || a[|a| - 1] == '/' {
      BasenameAfterSeparator(a, b);
    } else {
      assert a + "/" + b == (a + "/") + b;
      BasenameAfterSeparator(a + "/", b);
    }
  }

  /** After a separator (or at the start), a slash-free tail is the basename. */
  lemma {:induction false} BasenameAfterSeparator(q: string, b: string)
    requires q == [] || q[|q| - 1] == '/'
    requires '/' !in b
    ensures Basename(q + b) == b
    decreases |b|
  {
    if |b| > 0 {
      var b' := b[..|b| - 1];
      assert (q + b)[..|q + b| - 1] == q + b';
      assert b[|b| - 1] in b;
      BasenameAfterSeparator(q, b');
      assert b == b' + [b[|b| - 1]];
    } else {
      assert q + b == q;
    }
  }
}
