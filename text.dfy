/**
 * String operations the views and the database rely on: ASCII case folding
 * for `icontains`, the character-code order used for `order_by('title')`,
 * Python's `str.split`, Python's `int()` on a decimal string and the decimal
 * rendering of an id inside a URL.
 */
module Text {
  import opened Wrappers

  // ---------------------------------------------------------------------
  // Case-insensitive containment (`__icontains`)
  // ---------------------------------------------------------------------

  /** ASCII lower-casing, the folding SQLite's LIKE applies. */
  function LowerChar(c: char): (d: char)
    ensures 'A' <= c <= 'Z' ==> d as int == c as int + 32
    ensures !('A' <= c <= 'Z') ==> d == c
  {
    if 'A' <= c <= 'Z' then (c as int + 32) as char else c
  }

  function Lower(s: string): (t: string)
    ensures |t| == |s|
    ensures forall i :: 0 <= i < |s| ==> t[i] == LowerChar(s[i])
  {
    if s == [] then [] else [LowerChar(s[0])] + Lower(s[1..])
  }

  /** `p` is a prefix of `s` once both are folded. */
  predicate IPrefix(p: string, s: string) {
    |p| <= |s| && Lower(p) == Lower(s[..|p|])
  }

  /** `sub` occurs somewhere in `s`, ignoring ASCII case. */
  predicate IContains(s: string, sub: string)
    decreases |s|
  {
    IPrefix(sub, s) || (|s| > 0 && IContains(s[1..], sub))
  }

  /** The window of `s` starting at `i` matches `sub`, ignoring ASCII case. */
  predicate MatchAt(s: string, sub: string, i: int) {
    0 <= i <= |s| - |sub| && Lower(s[i..i + |sub|]) == Lower(sub)
  }

  /** IContains holds exactly when some window of `s` matches `sub`. */
  lemma {:induction false} IContainsAt(s: string, sub: string)
    ensures IContains(s, sub) <==> exists i :: MatchAt(s, sub, i)
    decreases |s|
  {
    if IPrefix(sub, s) {
      assert MatchAt(s, sub, 0);
    }
    if |s| > 0 {
      IContainsAt(s[1..], sub);
      if IContains(s[1..], sub) {
        var i :| MatchAt(s[1..], sub, i);
        assert s[1..][i..i + |sub|] == s[i + 1..i + 1 + |sub|];
        assert MatchAt(s, sub, i + 1);
      }
      if exists i :: MatchAt(s, sub, i) {
        var i :| MatchAt(s, sub, i);
        if i > 0 {
          assert s[1..][i - 1..i - 1 + |sub|] == s[i..i + |sub|];
          assert MatchAt(s[1..], sub, i - 1);
        }
      }
    }
  }

  // ---------------------------------------------------------------------
  // Title order: the database's ordering of product titles
  // ---------------------------------------------------------------------

  /** Strict lexicographic order on character codes. */
  predicate TitleBefore(a: string, b: string)
    decreases |a|
  {
    if |a| == 0 then |b| > 0
    else if |b| == 0 then false
    else a[0] < b[0] || (a[0] == b[0] && TitleBefore(a[1..], b[1..]))
  }

  lemma {:induction false} TitleBeforeIrreflexive(a: string)
    ensures !TitleBefore(a, a)
    decreases |a|
  {
    if |a| > 0 { TitleBeforeIrreflexive(a[1..]); }
  }

  lemma {:induction false} TitleBeforeTransitive(a: string, b: string, c: string)
    requires TitleBefore(a, b) && TitleBefore(b, c)
    ensures TitleBefore(a, c)
    decreases |a|
  {
    if |a| > 0 && |b| > 0 && |c| > 0 && a[0] == b[0] == c[0] {
      TitleBeforeTransitive(a[1..], b[1..], c[1..]);
    }
  }

  // ---------------------------------------------------------------------
  // Python's `str.split(sep)`
  // ---------------------------------------------------------------------

  /** The pieces of `s` between occurrences of `sep`; empty pieces are kept. */
  function Split(s: string, sep: char): (parts: seq<string>)
    ensures |parts| >= 1
    decreases |s|
  {
    if |s| == 0 then [""]
    else if s[0] == sep then [""] + Split(s[1..], sep)
    else
      var rest := Split(s[1..], sep);
      [[s[0]] + rest[0]] + rest[1..]
  }

  /** A string free of the separator is one piece. */
  lemma {:induction false} SplitNoSep(s: string, sep: char)
    requires sep !in s
    ensures Split(s, sep) == [s]
    decreases |s|
  {
    if |s| > 0 {
      assert sep !in s[1..] by { assert forall c :: c in s[1..] ==> c in s; }
      SplitNoSep(s[1..], sep);
      assert [s[0]] + s[1..] == s;
    }
  }

  /** A leading separator closes an empty first piece. */
  lemma SplitConsSep(t: string, sep: char)
    ensures Split([sep] + t, sep) == [""] + Split(t, sep)
  {
    assert ([sep] + t)[0] == sep && ([sep] + t)[1..] == t;
  }

  /** Any other leading character joins the first piece. */
  lemma SplitConsChar(c: char, t: string, sep: char)
    requires c != sep
    ensures Split([c] + t, sep) == [[c] + Split(t, sep)[0]] + Split(t, sep)[1..]
  {
    assert ([c] + t)[0] == c && ([c] + t)[1..] == t;
  }

  /** Splitting at one separator splits the two sides independently. */
  lemma {:induction false} SplitJoin(a: string, sep: char, b: string)
    ensures Split(a + [sep] + b, sep) == Split(a, sep) + Split(b, sep)
    decreases |a|
  {
    if |a| == 0 {
      assert a + [sep] + b == [sep] + b;
      SplitConsSep(b, sep);
    } else {
      var t := a[1..] + [sep] + b;
      SplitJoin(a[1..], sep, b);
      assert a + [sep] + b == [a[0]] + t;
      assert a == [a[0]] + a[1..];
      if a[0] == sep {
        SplitJoinSepStep(a[1..], sep, b);
      } else {
        SplitJoinCharStep(a[0], a[1..], sep, b);
      }
    }
  }

  lemma SplitJoinSepStep(a: string, sep: char, b: string)
    requires Split(a + [sep] + b, sep) == Split(a, sep) + Split(b, sep)
    ensures Split([sep] + (a + [sep] + b), sep) == Split([sep] + a, sep) + Split(b, sep)
  {
    SplitConsSep(a + [sep] + b, sep);
    SplitConsSep(a, sep);
    JoinAfterEmpty(Split(a, sep), Split(b, sep));
  }

  lemma SplitJoinCharStep(c: char, a: string, sep: char, b: string)
    requires c != sep
    requires Split(a + [sep] + b, sep) == Split(a, sep) + Split(b, sep)
    ensures Split([c] + (a + [sep] + b), sep) == Split([c] + a, sep) + Split(b, sep)
  {
    SplitConsChar(c, a + [sep] + b, sep);
    SplitConsChar(c, a, sep);
    JoinIntoFirst([c], Split(a, sep), Split(b, sep));
  }

  lemma JoinAfterEmpty(l: seq<string>, r: seq<string>)
    ensures [""] + (l + r) == ([""] + l) + r
  {
  }

  /** Prefixing the first piece of `l + r` is prefixing the first piece of `l`. */
  lemma JoinIntoFirst(h: string, l: seq<string>, r: seq<string>)
    requires |l| >= 1
    ensures [h + (l + r)[0]] + (l + r)[1..] == ([h + l[0]] + l[1..]) + r
  {
    assert (l + r)[0] == l[0];
    assert (l + r)[1..] == l[1..] + r;
  }

  // ---------------------------------------------------------------------
  // Decimal integers: Python's `int(s)` and the `<int:...>` URL segment
  // ---------------------------------------------------------------------

  predicate IsDigit(c: char) { '0' <= c <= '9' }

  predicate AllDigits(s: string) { forall i :: 0 <= i < |s| ==> IsDigit(s[i]) }

  function DigitValue(c: char): (d: nat)
    requires IsDigit(c)
    ensures d < 10
  {
    c as int - '0' as int
  }

  function DigitChar(d: nat): (c: char)
    requires d < 10
    ensures IsDigit(c) && DigitValue(c) == d
  {
    ('0' as int + d) as char
  }

  /** The value of a string of decimal digits, most significant first. */
  function ParseDigits(s: string): nat
    requires AllDigits(s)
    decreases |s|
  {
    if s == [] then 0 else ParseDigits(s[..|s| - 1]) * 10 + DigitValue(s[|s| - 1])
  }

  /** `int(s)` for an optional sign followed by at least one ASCII digit; None where Python raises ValueError. */
  function ParseInt(s: string): (r: Option<int>)
    ensures r.Some? <==> (|s| > 0 && AllDigits(s)) ||
                         (|s| > 1 && (s[0] == '-' || s[0] == '+') && AllDigits(s[1..]))
    ensures |s| > 0 && AllDigits(s) ==> r == Some(ParseDigits(s) as int)
    ensures |s| > 1 && s[0] == '-' && AllDigits(s[1..]) ==> r == Some(-(ParseDigits(s[1..]) as int))
    ensures |s| > 1 && s[0] == '+' && AllDigits(s[1..]) ==> r == Some(ParseDigits(s[1..]) as int)
  {
    if |s| > 1 && (s[0] == '-' || s[0] == '+') && AllDigits(s[1..]) then
      Some(if s[0] == '-' then -(ParseDigits(s[1..]) as int) else ParseDigits(s[1..]) as int)
    else if |s| > 0 && AllDigits(s) then Some(ParseDigits(s) as int)
    else None
  }

  /** The decimal rendering of `n`, as `str(n)` writes it. */
  function ShowNat(n: nat): (s: string)
    ensures |s| > 0 && AllDigits(s)
    decreases n
  {
    if n < 10 then [DigitChar(n)] else ShowNat(n / 10) + [DigitChar(n % 10)]
  }

  /** Rendering then parsing gives the number back. */
  lemma {:induction false} ParseShowNat(n: nat)
    ensures ParseInt(ShowNat(n)) == Some(n as int)
    decreases n
  {
    ParseDigitsShowNat(n);
  }

  /** A sign in front of a rendered number: `int("-7") == -7`, `int("+7") == 7`. */
  lemma ParseSignedShowNat(n: nat)
    ensures ParseInt("-" + ShowNat(n)) == Some(-(n as int))
    ensures ParseInt("+" + ShowNat(n)) == Some(n as int)
  {
    ParseDigitsShowNat(n);
    assert ("-" + ShowNat(n))[1..] == ShowNat(n);
    assert ("+" + ShowNat(n))[1..] == ShowNat(n);
  }

  lemma {:induction false} ParseDigitsShowNat(n: nat)
    ensures ParseDigits(ShowNat(n)) == n
    decreases n
  {
    if n >= 10 {
      var s := ShowNat(n);
      assert s[..|s| - 1] == ShowNat(n / 10);
      ParseDigitsShowNat(n / 10);
    }
  }
}
