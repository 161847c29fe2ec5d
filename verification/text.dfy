/** The few JavaScript string operations the core uses, on `seq<char>`:
    `includes`, `startsWith`, `split(sep)[k]`, `replace(/c/g, d)`,
    `toLowerCase` (ASCII letters only) and `slice(0, n)`. */
module Text {
  import opened Wrappers

  /** `pat` occurs in `s` starting at index `j`. */
  predicate MatchesAt(s: string, pat: string, j: nat) {
    j + |pat| <= |s| && s[j..j + |pat|] == pat
  }

  /** JavaScript's `s.includes(pat)`. */
  predicate Contains(s: string, pat: string) {
    exists j: nat | j <= |s| :: MatchesAt(s, pat, j)
  }

  /** JavaScript's `s.startsWith(p)`. */
  predicate StartsWith(s: string, p: string) {
    |p| <= |s| && s[..|p|] == p
  }

  /** The first index at or after `from` where `pat` occurs, if any. */
  function IndexOf(s: string, pat: string, from: nat): (r: Option<nat>)
    decreases |s| - from
    ensures r.Some? ==> from <= r.value && MatchesAt(s, pat, r.value)
    ensures r.Some? ==> forall j: nat :: from <= j < r.value ==> !MatchesAt(s, pat, j)
    ensures r.None? ==> forall j: nat :: from <= j ==> !MatchesAt(s, pat, j)
  {
    if from + |pat| > |s| then None
    else if s[from..from + |pat|] == pat then Some(from)
    else IndexOf(s, pat, from + 1)
  }

  lemma ContainsIffFound(s: string, pat: string)
    ensures Contains(s, pat) <==> IndexOf(s, pat, 0).Some?
  {
    var r := IndexOf(s, pat, 0);
    if r.Some? {
      assert MatchesAt(s, pat, r.value);
    }
  }

  /** JavaScript's `s.split(sep)[0]` for a non-empty separator: the text before
      the first occurrence of `sep`, or all of `s` when `sep` does not occur. */
  function BeforeFirst(s: string, sep: string): (r: string)
    requires sep != []
    ensures |r| <= |s| && r == s[..|r|]
    ensures !Contains(r, sep)
    ensures Contains(s, sep) ==> MatchesAt(s, sep, |r|)
    ensures forall j: nat :: j < |r| ==> !MatchesAt(s, sep, j)
    ensures !Contains(s, sep) ==> r == s
  {
    ContainsIffFound(s, sep);
    match IndexOf(s, sep, 0)
    case Some(i) =>
      var r := s[..i];
      assert forall j: nat :: MatchesAt(r, sep, j) ==> MatchesAt(s, sep, j) by {
        forall j: nat | MatchesAt(r, sep, j) ensures MatchesAt(s, sep, j) {
          assert r[j..j + |sep|] == s[j..j + |sep|];
        }
      }
      r
    case None => s
  }

  /** Text that does not hold the separator's first character ends at the
      separator that follows it. */
  lemma BeforeFirstOfPrefix(pre: string, sep: string, rest: string)
    requires sep != [] && sep[0] !in pre
    ensures BeforeFirst(pre + sep + rest, sep) == pre
  {
    var s := pre + sep + rest;
    assert s[|pre|..|pre| + |sep|] == sep;
    assert MatchesAt(s, sep, |pre|);
    var r := BeforeFirst(s, sep);
    assert r == s[..|pre|];
  }

  /** JavaScript's `s.split(c)[1]`: the text between the first and the second
      occurrence of `c` (or to the end), and nothing when `c` does not occur. */
  function SecondField(s: string, c: char): (r: Option<string>)
    ensures r.Some? <==> c in s
    ensures r.Some? ==> c !in r.value
    ensures r.Some? ==>
      exists i :: 0 <= i < |s| && s[i] == c && c !in s[..i] && r.value == BeforeFirst(s[i + 1..], [c])
  {
    var sep := [c];
    ContainsIffFound(s, sep);
    match IndexOf(s, sep, 0)
    case Some(i) =>
      assert s[i] == c;
      assert c !in s[..i] by {
        forall k | 0 <= k < i ensures s[k] != c {
          assert !MatchesAt(s, sep, k);
          assert s[k..k + 1] == [s[k]];
        }
      }
      var rest := BeforeFirst(s[i + 1..], sep);
      var tail := s[i + 1..];
      assert forall k :: 0 <= k < |rest| ==> rest[k] != c by {
        forall k | 0 <= k < |rest| ensures rest[k] != c {
          assert !MatchesAt(tail, sep, k);
          assert tail[k..k + 1] == [tail[k]];
        }
      }
      Some(rest)
    case None =>
      assert forall k :: 0 <= k < |s| ==> s[k] != c by {
        forall k | 0 <= k < |s| ensures s[k] != c {
          assert !MatchesAt(s, sep, k);
          assert s[k..k + 1] == [s[k]];
        }
      }
      None
  }

  /** Whatever precedes the first `c`, the second field is what follows it up
      to the next `c`. */
  lemma SecondFieldAfter(pre: string, c: char, tail: string)
    requires c !in pre
    ensures SecondField(pre + [c] + tail, c) == Some(BeforeFirst(tail, [c]))
  {
    var s := pre + [c] + tail;
    assert MatchesAt(s, [c], |pre|) by {
      assert s[|pre|..|pre| + 1] == [c];
    }
    forall j: nat | j < |pre| ensures !MatchesAt(s, [c], j) {
      assert s[j..j + 1] == [pre[j]];
    }
    assert IndexOf(s, [c], 0) == Some(|pre|);
    assert s[|pre| + 1..] == tail;
  }

  /** So a field between two `c` that holds no `c` itself is the second field. */
  lemma SecondFieldBetween(pre: string, c: char, mid: string, rest: string)
    requires c !in pre && c !in mid
    ensures SecondField(pre + [c] + mid + [c] + rest, c) == Some(mid)
  {
    assert pre + [c] + mid + [c] + rest == pre + [c] + (mid + [c] + rest);
    SecondFieldAfter(pre, c, mid + [c] + rest);
    BeforeFirstOfPrefix(mid, [c], rest);
  }

  /** JavaScript's `s.replace(/a/g, b)`: every `a` becomes `b`, all else stays. */
  function ReplaceChar(s: string, a: char, b: char): (r: string)
    ensures |r| == |s|
    ensures a != b ==> a !in r
    ensures forall i :: 0 <= i < |s| && s[i] != a ==> r[i] == s[i]
    ensures forall i :: 0 <= i < |s| && s[i] == a ==> r[i] == b
  {
    seq(|s|, i requires 0 <= i < |s| => if s[i] == a then b else s[i])
  }

  /** Replacing `a` by a character `b` that `pat` does not use cannot create
      an occurrence of `pat`. */
  lemma ReplaceCreatesNoMatch(s: string, a: char, b: char, pat: string)
    requires b !in pat
    ensures Contains(ReplaceChar(s, a, b), pat) ==> Contains(s, pat)
  {
    var r := ReplaceChar(s, a, b);
    if Contains(r, pat) {
      var j: nat :| j <= |r| && MatchesAt(r, pat, j);
      assert j + |pat| <= |s| && r[j..j + |pat|] == pat;
      forall k | 0 <= k < |pat| ensures s[j + k] == pat[k] {
        assert r[j..j + |pat|][k] == r[j + k];
        assert r[j + k] == pat[k];
        assert pat[k] != b;
      }
      assert s[j..j + |pat|] == pat;
      assert MatchesAt(s, pat, j);
    }
  }

  /** JavaScript's `s.replace(/c/g, '')`: drops every `c`, keeps the rest in order. */
  function RemoveChar(s: string, c: char): (r: string)
    ensures c !in r
    ensures |r| <= |s|
    ensures forall x :: x in r ==> x in s
    ensures c !in s ==> r == s
  {
    if |s| == 0 then []
    else
      assert s == [s[0]] + s[1..];
      (if s[0] == c then [] else [s[0]]) + RemoveChar(s[1..], c)
  }

  /** Every character other than `c` is kept as often as it occurs, so the
      result is `s` shorter by the number of `c` in it. */
  lemma {:induction false} RemoveCharCounts(s: string, c: char)
    ensures forall x :: x != c ==> multiset(RemoveChar(s, c))[x] == multiset(s)[x]
    ensures |RemoveChar(s, c)| == |s| - multiset(s)[c]
  {
    if |s| > 0 {
      assert s == [s[0]] + s[1..];
      RemoveCharCounts(s[1..], c);
    }
  }

  lemma {:induction false} RemoveCharAppend(a: string, b: string, c: char)
    ensures RemoveChar(a + b, c) == RemoveChar(a, c) + RemoveChar(b, c)
  {
    if |a| > 0 {
      var head := if a[0] == c then [] else [a[0]];
      assert (a + b)[0] == a[0] && (a + b)[1..] == a[1..] + b;
      assert RemoveChar(a + b, c) == head + RemoveChar(a[1..] + b, c);
      assert RemoveChar(a, c) == head + RemoveChar(a[1..], c);
      RemoveCharAppend(a[1..], b, c);
    } else {
      assert a + b == b;
    }
  }

  predicate IsAsciiUpper(ch: char) {
    'A' <= ch <= 'Z'
  }

  /** JavaScript's `s.toLowerCase()` restricted to ASCII: `A`..`Z` become `a`..`z`. */
  function ToLowerAscii(s: string): (r: string)
    ensures |r| == |s|
    ensures forall i :: 0 <= i < |r| ==> !IsAsciiUpper(r[i])
    ensures forall i :: 0 <= i < |s| && !IsAsciiUpper(s[i]) ==> r[i] == s[i]
    ensures forall i :: 0 <= i < |s| && IsAsciiUpper(s[i]) ==> r[i] == (s[i] as int + 32) as char
  {
    seq(|s|, i requires 0 <= i < |s| =>
      if IsAsciiUpper(s[i]) then (s[i] as int + 32) as char else s[i])
  }

  lemma ToLowerAsciiAppend(a: string, b: string)
    ensures ToLowerAscii(a + b) == ToLowerAscii(a) + ToLowerAscii(b)
  {
  }

  lemma ToLowerAsciiIdempotent(s: string)
    ensures ToLowerAscii(ToLowerAscii(s)) == ToLowerAscii(s)
  {
  }

  /** JavaScript's `s.slice(0, n)`. */
  function Prefix(s: string, n: nat): (r: string)
    ensures |r| <= n && |r| <= |s| && r == s[..|r|]
    ensures |s| <= n ==> r == s
    ensures n <= |s| ==> |r| == n
  {
    if |s| <= n then s else s[..n]
  }
}
