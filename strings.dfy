/**
 * The few `str` operations the program relies on, on `string` = `seq<char>`:
 * `split`, `splitn(2, ..)`, joining with a separator, `starts_with` and
 * `trim_start_matches` for a single-character pattern.
 */
module Strings {
  import opened Wrappers

  /** The position of the first `c` in `s`. */
  function FirstIndexOf(s: string, c: char): (i: nat)
    requires c in s
    ensures i < |s| && s[i] == c
    ensures c !in s[..i]
  {
    if s[0] == c then 0
    else
      var j := FirstIndexOf(s[1..], c);
      assert s[..j + 1] == [s[0]] + s[1..][..j];
      j + 1
  }

  /** Whatever follows a prefix free of `c` does not move the first `c`. */
  lemma FirstIndexOfAfterPrefix(p: string, c: char, t: string)
    requires c !in p
    ensures c in p + [c] + t
    ensures FirstIndexOf(p + [c] + t, c) == |p|
  {
    var s := p + [c] + t;
    assert s[|p|] == c;
    assert s[..|p|] == p;
  }

  /** `s.split(sep)`: the maximal pieces between separators; never empty. */
  function Split(s: string, sep: char): (parts: seq<string>)
    ensures |parts| >= 1
    decreases |s|
  {
    if sep in s then
      var i := FirstIndexOf(s, sep);
      [s[..i]] + Split(s[i + 1..], sep)
    else [s]
  }

  /** A prefix free of the separator is the first piece, and the rest splits on its own. */
  lemma SplitAfterPrefix(p: string, sep: char, t: string)
    requires sep !in p
    ensures Split(p + [sep] + t, sep) == [p] + Split(t, sep)
  {
    var s := p + [sep] + t;
    FirstIndexOfAfterPrefix(p, sep, t);
    assert s[..|p|] == p;
    assert s[|p| + 1..] == t;
  }

  /** The first piece is the text before the first separator. */
  lemma SplitFirstPiece(s: string, sep: char)
    ensures sep in s ==> |Split(s, sep)| >= 2 && Split(s, sep)[0] == s[..FirstIndexOf(s, sep)]
    ensures sep !in s ==> Split(s, sep) == [s]
  {
  }

  /** The pieces joined back with one separator between neighbours. */
  function Join(parts: seq<string>, sep: char): string
  {
    if |parts| == 0 then ""
    else if |parts| == 1 then parts[0]
    else parts[0] + [sep] + Join(parts[1..], sep)
  }

  /** Splitting undoes joining when no piece contains the separator. */
  lemma {:induction false} SplitJoin(parts: seq<string>, sep: char)
    requires |parts| >= 1
    requires forall k :: 0 <= k < |parts| ==> sep !in parts[k]
    ensures Split(Join(parts, sep), sep) == parts
  {
    if |parts| > 1 {
      var rest := Join(parts[1..], sep);
      var s := parts[0] + [sep] + rest;
      FirstIndexOfAfterPrefix(parts[0], sep, rest);
      assert s[..|parts[0]|] == parts[0];
      assert s[|parts[0]| + 1..] == rest;
      SplitJoin(parts[1..], sep);
      assert parts == [parts[0]] + parts[1..];
    }
  }

  /** Joining one more piece adds a separator and that piece, unless it is the only one. */
  lemma {:induction false} JoinSnoc(parts: seq<string>, last: string, sep: char)
    ensures Join(parts + [last], sep) == if parts == [] then last else Join(parts, sep) + [sep] + last
  {
    if |parts| == 1 {
      assert (parts + [last])[1..] == [last];
    } else if |parts| > 1 {
      assert (parts + [last])[1..] == parts[1..] + [last];
      JoinSnoc(parts[1..], last, sep);
    }
  }

  /** `s.splitn(2, sep)`: the text before the first separator, and the rest after it if there is one. */
  function SplitOnce(s: string, sep: char): (r: (string, Option<string>))
    ensures sep !in r.0
    ensures r.1.None? <==> sep !in s
    ensures r.1.Some? ==> s == r.0 + [sep] + r.1.value
    ensures r.1.None? ==> r.0 == s
  {
    if sep in s then
      var i := FirstIndexOf(s, sep);
      assert s == s[..i] + [sep] + s[i + 1..];
      (s[..i], Some(s[i + 1..]))
    else (s, None)
  }

  /** `splitn(2, sep)` on a text built as head + sep + tail, with no sep in head, gives the two parts back. */
  lemma SplitOnceOfJoined(head: string, sep: char, tail: string)
    requires sep !in head
    ensures SplitOnce(head + [sep] + tail, sep) == (head, Some(tail))
  {
    var s := head + [sep] + tail;
    FirstIndexOfAfterPrefix(head, sep, tail);
    assert s[..|head|] == head;
    assert s[|head| + 1..] == tail;
  }

  predicate StartsWith(s: string, c: char)
  {
    |s| > 0 && s[0] == c
  }

  /** `s.trim_start_matches(c)`: drop every leading `c`. */
  function TrimStartMatches(s: string, c: char): (r: string)
  {
    if StartsWith(s, c) then TrimStartMatches(s[1..], c) else s
  }

  /** The trimmed text is a suffix of the input, everything cut off was `c`, and it no longer starts with `c`. */
  lemma {:induction false} TrimStartMatchesSpec(s: string, c: char)
    ensures |TrimStartMatches(s, c)| <= |s|
    ensures TrimStartMatches(s, c) == s[|s| - |TrimStartMatches(s, c)|..]
    ensures forall k :: 0 <= k < |s| - |TrimStartMatches(s, c)| ==> s[k] == c
    ensures !StartsWith(TrimStartMatches(s, c), c)
    decreases |s|
  {
    if StartsWith(s, c) {
      var t := s[1..];
      TrimStartMatchesSpec(t, c);
      var r := TrimStartMatches(t, c);
      assert TrimStartMatches(s, c) == r;
      assert t[|t| - |r|..] == s[|s| - |r|..];
      forall k | 0 <= k < |s| - |r|
        ensures s[k] == c
      {
        if k > 0 {
          assert s[k] == t[k - 1];
        }
      }
    }
  }

  /** The decimal digits of a number, as `{}` formats it. */
  function NatToString(n: nat): (r: string)
    ensures |r| >= 1
    ensures forall k :: 0 <= k < |r| ==> '0' <= r[k] <= '9'
    decreases n
  {
    var d := ['0' + (n % 10) as char];
    if n < 10 then d else NatToString(n / 10) + d
  }
}
