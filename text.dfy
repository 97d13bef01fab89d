/** String operations of Python's `str` that the dispatchers and the CLI rely on,
    restricted to ASCII where Python's versions depend on Unicode tables. */
module Text {

  predicate StartsWith(s: string, prefix: string) {
    |prefix| <= |s| && s[..|prefix|] == prefix
  }

  /** A one-character prefix is a test of the first character. */
  lemma StartsWithChar(s: string, c: char)
    ensures StartsWith(s, [c]) <==> s != [] && s[0] == c
  {
    if s != [] && s[0] == c {
      assert s[..1] == [c];
    }
  }

  predicate EndsWith(s: string, suffix: string) {
    |suffix| <= |s| && s[|s| - |suffix|..] == suffix
  }

  /** `pat` occurs in `s` starting at index `i`. */
  predicate OccursAt(s: string, pat: string, i: int) {
    0 <= i && i + |pat| <= |s| && s[i..i + |pat|] == pat
  }

  predicate Occurs(s: string, pat: string) {
    exists i :: 0 <= i <= |s| && OccursAt(s, pat, i)
  }

  /** Python's `s.replace(pat, "")`: scanning left to right, every non-overlapping
      occurrence of `pat` is deleted and the scan resumes after it. An empty `pat`
      leaves `s` unchanged. */
  function RemoveAll(s: string, pat: string): (r: string)
    ensures |r| <= |s|
    decreases |s|
  {
    if pat == [] || |s| < |pat| then s
    else if s[..|pat|] == pat then RemoveAll(s[|pat|..], pat)
    else [s[0]] + RemoveAll(s[1..], pat)
  }

  /** Python's slice `s[:-n]` for a positive `n`: drops the last `n` characters, or
      everything when `s` is shorter. */
  function DropLast(s: string, n: nat): (r: string)
    requires n > 0
    ensures |r| == if |s| >= n then |s| - n else 0
    ensures r == s[..|r|]
  {
    if |s| >= n then s[..|s| - n] else []
  }

  /** Deleting a pattern that does not occur changes nothing. */
  lemma {:induction false} RemoveAllAbsent(s: string, pat: string)
    requires !Occurs(s, pat)
    ensures RemoveAll(s, pat) == s
    decreases |s|
  {
    if pat == [] || |s| < |pat| {
    } else {
      assert !OccursAt(s, pat, 0);
      assert s[0..0 + |pat|] == s[..|pat|];
      forall i | OccursAt(s[1..], pat, i) ensures OccursAt(s, pat, i + 1) {
        assert s[1..][i..i + |pat|] == s[i + 1..i + 1 + |pat|];
      }
      RemoveAllAbsent(s[1..], pat);
      assert s == [s[0]] + s[1..];
    }
  }

  /** When ".py" occurs only as the suffix, deleting every occurrence and dropping
      the last three characters give the same name. */
  lemma {:induction false} RemovePySuffix(p: string)
    requires !Occurs(p, ".py")
    ensures RemoveAll(p + ".py", ".py") == p
    ensures DropLast(p + ".py", 3) == p
    decreases |p|
  {
    var s := p + ".py";
    assert s[..|p|] == p;
    if p == [] {
      assert s[..3] == ".py";
      assert s[3..] == [];
    } else {
      if |p| >= 3 {
        assert !OccursAt(p, ".py", 0);
        assert p[0..3] == s[..3];
      } else if |p| == 2 {
        assert s[2] == '.';
      } else {
        assert s[1] == '.' && s[2] == 'p';
      }
      assert s[..3] != ".py";
      forall i | OccursAt(p[1..], ".py", i) ensures OccursAt(p, ".py", i + 1) {
        assert p[1..][i..i + 3] == p[i + 1..i + 4];
      }
      RemovePySuffix(p[1..]);
      assert s[1..] == p[1..] + ".py";
      assert p == [p[0]] + p[1..];
    }
  }

  /** ".py" needs a period. */
  lemma NoDotNoPy(s: string)
    requires forall i :: 0 <= i < |s| ==> s[i] != '.'
    ensures !Occurs(s, ".py")
  {
    forall i | 0 <= i <= |s| ensures !OccursAt(s, ".py", i) {
      if i + 3 <= |s| {
        assert s[i..i + 3][0] == s[i];
      }
    }
  }

  /** Deleting every occurrence can leave an occurrence behind: the pieces around a
      deleted ".py" may join into a new one. */
  lemma RemoveAllCanLeaveOccurrence()
    ensures RemoveAll("a..pypy", ".py") == "a.py"
    ensures OccursAt(RemoveAll("a..pypy", ".py"), ".py", 1)
  {
    var s := "a..pypy";
    assert s[..3] == "a..";
    assert s[1..][..3] == "..p";
    assert s[2..][..3] == ".py";
    assert s[5..] == "py";
    assert s[1..][1..] == s[2..];
    assert s[2..][3..] == s[5..];
    assert "a.py"[1..4] == ".py";
  }

  /** A name with ".py" twice loses both under `RemoveAll`, but only the suffix under
      `DropLast`. */
  lemma DoubleSuffix()
    ensures RemoveAll("a.py.py", ".py") == "a"
    ensures DropLast("a.py.py", 3) == "a.py"
  {
    var s := "a.py.py";
    assert s[..3] == "a.p";
    assert s[1..][..3] == ".py";
    assert s[1..][3..] == ".py";
    assert ".py"[..3] == ".py";
    assert ".py"[3..] == [];
    assert s[..4] == "a.py";
  }

  // ---- Case folding and digits (ASCII only) ----

  function LowerChar(c: char): char {
    if 'A' <= c <= 'Z' then (c as int + 32) as char else c
  }

  /** Python's `str.lower` on ASCII text. */
  function Lower(s: string): (r: string)
    ensures |r| == |s|
  {
    seq(|s|, i requires 0 <= i < |s| => LowerChar(s[i]))
  }

  predicate IsDigit(c: char) {
    '0' <= c <= '9'
  }

  /** Python's `str.isdigit` on ASCII text: non-empty and every character a digit. */
  predicate IsDigits(s: string) {
    |s| > 0 && forall i :: 0 <= i < |s| ==> IsDigit(s[i])
  }

  /** Python's `int(s)` on a non-empty string of decimal digits; leading zeros are
      allowed. The empty string, on which `int` raises, gives 0 here: it only arises as
      the last step of the recursion, and the callers pass `IsDigits` text. */
  function DigitsValue(s: string): nat
    requires forall i :: 0 <= i < |s| ==> IsDigit(s[i])
    decreases |s|
  {
    if s == [] then 0
    else
      assert IsDigit(s[|s| - 1]);
      DigitsValue(s[..|s| - 1]) * 10 + (s[|s| - 1] as int - '0' as int)
  }

  /** The decimal text of `n`, as Python's `str(n)` writes it. */
  function Decimal(n: nat): (r: string)
    ensures IsDigits(r)
    ensures |r| > 1 ==> r[0] != '0'
  {
    if n < 10 then [('0' as int + n) as char]
    else Decimal(n / 10) + [('0' as int + n % 10) as char]
  }

  /** Reading back the decimal text of `n` gives `n`. */
  lemma {:induction false} DigitsValueDecimal(n: nat)
    ensures DigitsValue(Decimal(n)) == n
  {
    var d := Decimal(n);
    if n >= 10 {
      DigitsValueDecimal(n / 10);
      assert d[..|d| - 1] == Decimal(n / 10);
    } else {
      assert d[..|d| - 1] == [];
    }
  }
}
