/**
 * The three pieces of Rust's string library that the pipeline relies on:
 * `str::split` on a character, `str::replace` of a literal pattern, and
 * `str::trim`. Each is given a definition that follows the library's
 * documented behaviour, together with the properties the pipeline needs.
 */
module Text {

  /** `s.split(sep)`: the pieces between separators, empty pieces included. */
  function Split(s: string, sep: char): (r: seq<string>)
    ensures |r| >= 1
    decreases |s|
  {
    if |s| == 0 then [""]
    else
      var rest := Split(s[1..], sep);
      if s[0] == sep then [""] + rest
      else [[s[0]] + rest[0]] + rest[1..]
  }

  /** Puts the pieces back together with `sep` between them. */
  function Join(pieces: seq<string>, sep: char): string
    requires |pieces| >= 1
    decreases |pieces|
  {
    if |pieces| == 1 then pieces[0] else pieces[0] + [sep] + Join(pieces[1..], sep)
  }

  /** Splitting is undone by joining, and no piece holds the separator. */
  lemma {:induction false} SplitJoin(s: string, sep: char)
    ensures Join(Split(s, sep), sep) == s
    ensures forall i | 0 <= i < |Split(s, sep)| :: sep !in Split(s, sep)[i]
    decreases |s|
  {
    if |s| > 0 {
      var rest := Split(s[1..], sep);
      SplitJoin(s[1..], sep);
      var r := Split(s, sep);
      if s[0] == sep {
        assert r[1..] == rest;
      } else {
        assert r[0] == [s[0]] + rest[0];
        assert r[1..] == rest[1..];
        if |rest| > 1 {
          assert Join(rest, sep) == rest[0] + [sep] + Join(rest[1..], sep);
        }
      }
    }
  }

  /** A string without the separator splits into itself alone. */
  lemma {:induction false} SplitWithoutSeparator(s: string, sep: char)
    requires sep !in s
    ensures Split(s, sep) == [s]
    decreases |s|
  {
    if |s| > 0 {
      SplitWithoutSeparator(s[1..], sep);
      assert [s[0]] + s[1..] == s;
    }
  }

  /** The first separator ends the first piece. */
  lemma {:induction false} SplitAtFirst(head: string, sep: char, tail: string)
    requires sep !in head
    ensures Split(head + [sep] + tail, sep) == [head] + Split(tail, sep)
    decreases |head|
  {
    var s := head + [sep] + tail;
    if |head| == 0 {
      assert s[1..] == tail;
    } else {
      assert s[1..] == head[1..] + [sep] + tail;
      SplitAtFirst(head[1..], sep, tail);
      assert [head[0]] + head[1..] == head;
    }
  }

  /** The pieces that are not empty, in order: `.filter(|p| !p.is_empty())`. */
  function NonEmptyPieces(pieces: seq<string>): (r: seq<string>)
    ensures |r| <= |pieces|
    ensures forall i | 0 <= i < |r| :: r[i] != ""
    decreases |pieces|
  {
    if pieces == [] then []
    else (if pieces[0] == "" then [] else [pieces[0]]) + NonEmptyPieces(pieces[1..])
  }

  /**
   * Splitting `s` yields no non-empty piece exactly when `s` is made of
   * separators only (the empty string included).
   */
  lemma {:induction false} NoPiecesIffOnlySeparators(s: string, sep: char)
    ensures NonEmptyPieces(Split(s, sep)) == [] <==> forall i | 0 <= i < |s| :: s[i] == sep
    decreases |s|
  {
    if |s| > 0 {
      NoPiecesIffOnlySeparators(s[1..], sep);
      var rest := Split(s[1..], sep);
      var r := Split(s, sep);
      if s[0] == sep {
        assert r[1..] == rest;
        assert NonEmptyPieces(r) == NonEmptyPieces(rest);
        if forall i | 0 <= i < |s| - 1 :: s[1..][i] == sep {
          forall i | 0 <= i < |s| ensures s[i] == sep {
            if i > 0 { assert s[i] == s[1..][i - 1]; }
          }
        }
      } else {
        assert r[0] != "";
      }
    }
  }

  /** `s.starts_with(p)`, compared character by character. */
  predicate StartsWith(s: string, p: string)
    decreases |p|
  {
    |p| == 0 || (|s| > 0 && s[0] == p[0] && StartsWith(s[1..], p[1..]))
  }

  /** `s` starts with `p` exactly when its first `|p|` characters are `p`. */
  lemma {:induction false} StartsWithIffPrefix(s: string, p: string)
    ensures StartsWith(s, p) <==> |p| <= |s| && s[..|p|] == p
    decreases |p|
  {
    if |p| > 0 && |s| > 0 {
      StartsWithIffPrefix(s[1..], p[1..]);
      if |p| <= |s| && s[0] == p[0] && s[1..][..|p| - 1] == p[1..] {
        assert s[..|p|] == [s[0]] + s[1..][..|p| - 1];
        assert p == [p[0]] + p[1..];
      }
      if |p| <= |s| && s[..|p|] == p {
        assert s[1..][..|p| - 1] == s[..|p|][1..];
      }
    }
  }

  /** `s.contains(p)`: `p` occurs in `s` as a contiguous substring. */
  predicate Contains(s: string, p: string)
    decreases |s|
  {
    if |s| < |p| then false
    else if StartsWith(s, p) then true
    else Contains(s[1..], p)
  }

  /** A pattern occurs in any string built around it. */
  lemma {:induction false} ContainsSurrounded(before: string, p: string, after: string)
    ensures Contains(before + p + after, p)
    decreases |before|
  {
    var s := before + p + after;
    if |before| == 0 {
      assert s[..|p|] == p;
      StartsWithIffPrefix(s, p);
    } else {
      ContainsSurrounded(before[1..], p, after);
      assert s[1..] == before[1..] + p + after;
    }
  }

  /** A single differing position rules out `p` as a prefix of `s`. */
  lemma {:induction false} MismatchAt(s: string, p: string, k: nat)
    requires k < |p| && k < |s| && s[k] != p[k]
    ensures !StartsWith(s, p)
    decreases k
  {
    if k > 0 && |s| > 0 && s[0] == p[0] {
      MismatchAt(s[1..], p[1..], k - 1);
    }
  }

  /**
   * For every offset `i` at which `p` could start in `s`, `ks[i]` names a
   * position of `p` at which `s` differs.
   */
  predicate MismatchWitness(s: string, p: string, ks: seq<nat>)
  {
    && |ks| + |p| == |s| + 1
    && forall i | 0 <= i < |ks| :: ks[i] < |p| && s[i + ks[i]] != p[ks[i]]
  }

  /** A pattern that differs from `s` at every offset does not occur in `s`. */
  lemma {:induction false} NotContainedByMismatches(s: string, p: string, ks: seq<nat>)
    requires |p| > 0 && MismatchWitness(s, p, ks)
    ensures !Contains(s, p)
    decreases |s|
  {
    if |s| >= |p| {
      MismatchAt(s, p, ks[0]);
      assert forall i | 0 <= i < |ks| - 1 :: s[1..][i + ks[1..][i]] == s[i + 1 + ks[i + 1]];
      NotContainedByMismatches(s[1..], p, ks[1..]);
    }
  }

  /**
   * `s.replace(from, to)`: every non-overlapping occurrence of `from`, found
   * left to right, is replaced by `to`.
   */
  function ReplaceAll(s: string, from: string, to: string): string
    requires |from| > 0
    decreases |s|
  {
    if |s| < |from| then s
    else if StartsWith(s, from) then to + ReplaceAll(s[|from|..], from, to)
    else [s[0]] + ReplaceAll(s[1..], from, to)
  }

  /** Replacing a pattern that does not occur leaves the string as it is. */
  lemma {:induction false} ReplaceAllAbsent(s: string, from: string, to: string)
    requires |from| > 0
    requires !Contains(s, from)
    ensures ReplaceAll(s, from, to) == s
    decreases |s|
  {
    if |s| >= |from| {
      ReplaceAllAbsent(s[1..], from, to);
      assert [s[0]] + s[1..] == s;
    }
  }

  /** Replacing a pattern that differs from `s` at every offset leaves `s` as it is. */
  lemma ReplaceAllMismatched(s: string, from: string, to: string, ks: seq<nat>)
    requires |from| > 0 && MismatchWitness(s, from, ks)
    ensures ReplaceAll(s, from, to) == s
  {
    NotContainedByMismatches(s, from, ks);
    ReplaceAllAbsent(s, from, to);
  }

  /** A leading occurrence is replaced and the scan resumes right after it. */
  lemma ReplaceAllLeading(from: string, to: string, rest: string)
    requires |from| > 0
    ensures ReplaceAll(from + rest, from, to) == to + ReplaceAll(rest, from, to)
  {
    var s := from + rest;
    assert s[..|from|] == from;
    StartsWithIffPrefix(s, from);
    assert s[|from|..] == rest;
  }

  /** A string that is exactly the pattern becomes the replacement. */
  lemma ReplaceAllWhole(from: string, to: string)
    requires |from| > 0
    ensures ReplaceAll(from, from, to) == to
  {
    ReplaceAllLeading(from, to, "");
    assert from + "" == from;
  }

  /** Text in which the pattern's first character never appears is copied as it is. */
  lemma {:induction false} ReplaceAllPlainPrefix(plain: string, rest: string, from: string, to: string)
    requires |from| > 0
    requires from[0] !in plain
    ensures ReplaceAll(plain + rest, from, to) == plain + ReplaceAll(rest, from, to)
    decreases |plain|
  {
    if |plain| > 0 {
      var s := plain + rest;
      assert s[0] == plain[0] != from[0];
      assert s[1..] == plain[1..] + rest;
      ReplaceAllPlainPrefix(plain[1..], rest, from, to);
      if |s| >= |from| {
        assert ReplaceAll(s, from, to) == [s[0]] + ReplaceAll(s[1..], from, to);
      } else {
        assert |rest| < |from|;
      }
      assert [plain[0]] + (plain[1..] + ReplaceAll(rest, from, to)) == plain + ReplaceAll(rest, from, to);
    } else {
      assert plain + rest == rest;
    }
  }

  /** Rust's `char::is_whitespace`: the Unicode White_Space property. */
  predicate IsWhitespace(c: char)
  {
    || ('\t' <= c <= '\r')
    || c == ' '
    || c == '\U{85}'
    || c == '\U{A0}'
    || c == '\U{1680}'
    || ('\U{2000}' <= c <= '\U{200A}')
    || c == '\U{2028}'
    || c == '\U{2029}'
    || c == '\U{202F}'
    || c == '\U{205F}'
    || c == '\U{3000}'
  }

  /** Every character of `s` is whitespace. */
  predicate IsBlank(s: string)
  {
    forall i | 0 <= i < |s| :: IsWhitespace(s[i])
  }

  function TrimStart(s: string): string
    decreases |s|
  {
    if |s| > 0 && IsWhitespace(s[0]) then TrimStart(s[1..]) else s
  }

  function TrimEnd(s: string): string
    decreases |s|
  {
    if |s| > 0 && IsWhitespace(s[|s| - 1]) then TrimEnd(s[..|s| - 1]) else s
  }

  /** `s.trim()` */
  function Trim(s: string): string
  {
    TrimEnd(TrimStart(s))
  }

  lemma {:induction false} TrimStartEmptyIffBlank(s: string)
    ensures TrimStart(s) == "" <==> IsBlank(s)
    decreases |s|
  {
    if |s| > 0 && IsWhitespace(s[0]) {
      TrimStartEmptyIffBlank(s[1..]);
      if IsBlank(s[1..]) {
        forall i | 0 <= i < |s| ensures IsWhitespace(s[i]) {
          if i > 0 { assert s[i] == s[1..][i - 1]; }
        }
      }
    }
  }

  lemma {:induction false} TrimEndEmptyIffBlank(s: string)
    ensures TrimEnd(s) == "" <==> IsBlank(s)
    decreases |s|
  {
    if |s| > 0 && IsWhitespace(s[|s| - 1]) {
      TrimEndEmptyIffBlank(s[..|s| - 1]);
      if IsBlank(s[..|s| - 1]) {
        forall i | 0 <= i < |s| ensures IsWhitespace(s[i]) {
          if i < |s| - 1 { assert s[i] == s[..|s| - 1][i]; }
        }
      }
    }
  }

  /** `s.trim().is_empty()` holds exactly when `s` is all whitespace. */
  lemma TrimEmptyIffBlank(s: string)
    ensures Trim(s) == "" <==> IsBlank(s)
  {
    TrimStartEmptyIffBlank(s);
    TrimEndEmptyIffBlank(TrimStart(s));
    if IsBlank(TrimStart(s)) && !IsBlank(s) {
      TrimStartSuffix(s);
    }
  }

  /** What `TrimStart` removes is whitespace: its result is a blank-prefixed suffix. */
  lemma {:induction false} TrimStartSuffix(s: string)
    ensures |TrimStart(s)| <= |s|
    ensures TrimStart(s) == s[|s| - |TrimStart(s)|..]
    ensures IsBlank(s[..|s| - |TrimStart(s)|])
    decreases |s|
  {
    if |s| > 0 && IsWhitespace(s[0]) {
      TrimStartSuffix(s[1..]);
      var k := |s| - |TrimStart(s)|;
      assert s[1..][k - 1..] == s[k..];
      forall i | 0 <= i < k ensures IsWhitespace(s[..k][i]) {
        if i > 0 { assert s[..k][i] == s[1..][..k - 1][i - 1]; }
      }
    }
  }
}
