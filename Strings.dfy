/**
 * The string operations the pages rely on, stated over `seq<char>`: ASCII case
 * folding (standing in for `toLowerCase`), `includes`, `split` on one character,
 * `join`, and the decimal rendering of a number inside a template string.
 */
module Strings {

  /** ASCII case folding of one character: 'A'..'Z' become 'a'..'z', everything else is kept. */
  function Lower(c: char): (d: char)
    ensures 'A' <= c <= 'Z' ==> d as int == c as int + 32
    ensures !('A' <= c <= 'Z') ==> d == c
    ensures !('A' <= d <= 'Z')
  {
    if 'A' <= c <= 'Z' then (c as int + 32) as char else c
  }

  /** `s.toLowerCase()`, with ASCII case folding. */
  function LowerCase(s: string): (r: string)
    ensures |r| == |s|
    ensures forall i :: 0 <= i < |s| ==> r[i] == Lower(s[i])
  {
    seq(|s|, i requires 0 <= i < |s| => Lower(s[i]))
  }

  /** Lower-casing twice is lower-casing once. */
  lemma LowerCaseIdempotent(s: string)
    ensures LowerCase(LowerCase(s)) == LowerCase(s)
  {
  }

  /** `n` occurs in `h` starting at index `i`: the reference meaning of a substring. */
  predicate OccursAt(h: string, n: string, i: int)
  {
    0 <= i && i + |n| <= |h| && h[i..i + |n|] == n
  }

  /** The characters `n[j..]` appear in `h` from index `i + j` on. */
  predicate MatchFrom(h: string, n: string, i: nat, j: nat)
    decreases |n| - j
  {
    j >= |n| || (i + j < |h| && h[i + j] == n[j] && MatchFrom(h, n, i, j + 1))
  }

  /** Some occurrence of `n` in `h` starts at index `i` or later. */
  predicate IncludesFrom(h: string, n: string, i: nat)
    decreases |h| - i
  {
    i + |n| <= |h| && (MatchFrom(h, n, i, 0) || IncludesFrom(h, n, i + 1))
  }

  /** `h.includes(n)`: a left-to-right scan over the start positions. */
  predicate Includes(h: string, n: string)
  {
    IncludesFrom(h, n, 0)
  }

  lemma {:induction false} MatchFromMeaning(h: string, n: string, i: nat, j: nat)
    requires i + |n| <= |h| && j <= |n|
    ensures MatchFrom(h, n, i, j) <==> h[i + j..i + |n|] == n[j..]
    decreases |n| - j
  {
    if j < |n| {
      MatchFromMeaning(h, n, i, j + 1);
      assert h[i + j..i + |n|] == [h[i + j]] + h[i + j + 1..i + |n|];
      assert n[j..] == [n[j]] + n[j + 1..];
    }
  }

  lemma {:induction false} IncludesFromMeaning(h: string, n: string, i: nat)
    ensures IncludesFrom(h, n, i) <==> exists k :: i <= k && OccursAt(h, n, k)
    decreases |h| - i
  {
    if i + |n| <= |h| {
      MatchFromMeaning(h, n, i, 0);
      IncludesFromMeaning(h, n, i + 1);
      if IncludesFrom(h, n, i) {
        if MatchFrom(h, n, i, 0) {
          assert OccursAt(h, n, i);
        }
      } else {
        forall k | i <= k ensures !OccursAt(h, n, k) {
          if k == i {
            assert n[0..] == n;
          }
        }
      }
    } else {
      forall k | i <= k ensures !OccursAt(h, n, k) {
      }
    }
  }

  /** `includes` holds exactly when some start position carries the needle. */
  lemma IncludesMeaning(h: string, n: string)
    ensures Includes(h, n) <==> exists k :: OccursAt(h, n, k)
  {
    IncludesFromMeaning(h, n, 0);
  }

  /** Every string includes the empty string. */
  lemma IncludesEmpty(h: string)
    ensures Includes(h, "")
  {
    assert OccursAt(h, "", 0);
    IncludesMeaning(h, "");
  }

  /** `parts.join(sep)`. */
  function Join(parts: seq<string>, sep: string): string
  {
    if |parts| == 0 then ""
    else if |parts| == 1 then parts[0]
    else parts[0] + sep + Join(parts[1..], sep)
  }

  /**
   * `s.split(sep)` for a one-character separator: the pieces between the
   * separators, always at least one (the empty string splits into [""]).
   */
  function Split(s: string, sep: char): (parts: seq<string>)
    ensures |parts| >= 1
    decreases |s|
  {
    if s == [] then [""] else Prepend(s[0], sep, Split(s[1..], sep))
  }

  /** Put one more character in front of the pieces of a split: a separator opens a new empty piece. */
  function Prepend(c: char, sep: char, pieces: seq<string>): (r: seq<string>)
    requires |pieces| >= 1
    ensures |r| >= 1
  {
    if c == sep then [""] + pieces else [[c] + pieces[0]] + pieces[1..]
  }

  /** One step of `Split`, for a string given as its first character and the rest. */
  lemma SplitCons(c: char, t: string, sep: char)
    ensures Split([c] + t, sep) == Prepend(c, sep, Split(t, sep))
  {
    assert ([c] + t)[1..] == t;
  }

  lemma PrependAppend(c: char, sep: char, ra: seq<string>, sb: seq<string>)
    requires |ra| >= 1
    ensures Prepend(c, sep, ra + sb) == Prepend(c, sep, ra) + sb
  {
    if c != sep {
      assert (ra + sb)[1..] == ra[1..] + sb;
    }
  }

  /** No piece of a split holds the separator. */
  lemma {:induction false} SplitPiecesClean(s: string, sep: char)
    ensures forall k :: 0 <= k < |Split(s, sep)| ==> sep !in Split(s, sep)[k]
    decreases |s|
  {
    if s != [] {
      SplitPiecesClean(s[1..], sep);
    }
  }

  /** The pieces of a split join back into the original string. */
  lemma {:induction false} JoinSplit(s: string, sep: char)
    ensures Join(Split(s, sep), [sep]) == s
    decreases |s|
  {
    if s != [] {
      var rest := Split(s[1..], sep);
      JoinSplit(s[1..], sep);
      if s[0] == sep {
        assert ([""] + rest)[1..] == rest;
      } else {
        var parts := [[s[0]] + rest[0]] + rest[1..];
        assert parts[1..] == rest[1..];
        if |rest| > 1 {
          assert Join(rest, [sep]) == rest[0] + [sep] + Join(rest[1..], [sep]);
        }
      }
    }
  }

  lemma {:induction false} SplitWithoutSeparator(s: string, sep: char)
    requires sep !in s
    ensures Split(s, sep) == [s]
    decreases |s|
  {
    if s != [] {
      SplitWithoutSeparator(s[1..], sep);
      assert [s[0]] + s[1..] == s;
    }
  }

  /** Splitting distributes over a separator that joins two strings. */
  lemma {:induction false} SplitAppend(a: string, b: string, sep: char)
    ensures Split(a + [sep] + b, sep) == Split(a, sep) + Split(b, sep)
    decreases |a|
  {
    if a == [] {
      assert a + [sep] + b == [sep] + b;
      SplitCons(sep, b, sep);
    } else {
      var c, t := a[0], a[1..];
      assert a == [c] + t;
      assert a + [sep] + b == [c] + (t + [sep] + b);
      SplitAppend(t, b, sep);
      SplitCons(c, t + [sep] + b, sep);
      SplitCons(c, t, sep);
      PrependAppend(c, sep, Split(t, sep), Split(b, sep));
    }
  }

  lemma {:induction false} JoinSnoc(init: seq<string>, last: string, sep: string)
    requires |init| >= 1
    ensures Join(init + [last], sep) == Join(init, sep) + sep + last
    decreases |init|
  {
    if |init| > 1 {
      assert (init + [last])[1..] == init[1..] + [last];
      JoinSnoc(init[1..], last, sep);
    }
  }

  /** Joining two non-empty lists of pieces puts one separator between their joins. */
  lemma {:induction false} JoinAppend(xs: seq<string>, ys: seq<string>, sep: string)
    requires |xs| >= 1 && |ys| >= 1
    ensures Join(xs + ys, sep) == Join(xs, sep) + sep + Join(ys, sep)
    decreases |xs|
  {
    if |xs| > 1 {
      JoinAppend(xs[1..], ys, sep);
      assert (xs + ys)[1..] == xs[1..] + ys;
    } else {
      assert (xs + ys)[1..] == ys;
    }
  }

  /** Every character of a piece of a split comes from the string. */
  lemma {:induction false} SplitPieceChars(s: string, sep: char)
    ensures forall k, c :: 0 <= k < |Split(s, sep)| && c in Split(s, sep)[k] ==> c in s
    decreases |s|
  {
    if s != [] {
      SplitPieceChars(s[1..], sep);
      assert forall c :: c in s[1..] ==> c in s;
    }
  }

  /** The decimal digits of a natural number, as a template string renders it. */
  function Decimal(n: nat): (r: string)
    ensures |r| >= 1
    ensures forall i :: 0 <= i < |r| ==> '0' <= r[i] <= '9'
  {
    if n < 10 then [(48 + n) as char] else Decimal(n / 10) + [(48 + n % 10) as char]
  }
}
