/** The two pieces of java.lang.String the network's text format relies on:
    joining with a separator (what Arrays.deepToString does between elements)
    and String.split with a literal separator and no limit. */
module Strings {
  import opened Outcomes

  /** The separator occurs in `s` at index i. */
  predicate MatchAt(s: string, sep: string, i: nat)
  {
    i + |sep| <= |s| && s[i..i + |sep|] == sep
  }

  /** The leftmost occurrence of `sep` in `s` at or after `from`. */
  function FirstMatch(s: string, sep: string, from: nat): (r: Option<nat>)
    ensures r.Some? ==> from <= r.value && MatchAt(s, sep, r.value)
    ensures r.Some? ==> forall j :: from <= j < r.value ==> !MatchAt(s, sep, j)
    ensures r.None? ==> forall j :: from <= j ==> !MatchAt(s, sep, j)
    decreases |s| - from
  {
    if from + |sep| > |s| then None
    else if s[from..from + |sep|] == sep then Some(from)
    else FirstMatch(s, sep, from + 1)
  }

  /** The pieces between successive leftmost, non-overlapping occurrences. */
  function Pieces(s: string, sep: string): (r: seq<string>)
    requires |sep| > 0
    ensures |r| > 0
    decreases |s|
  {
    match FirstMatch(s, sep, 0)
    case None => [s]
    case Some(i) => [s[..i]] + Pieces(s[i + |sep|..], sep)
  }

  /** split(regex) with limit 0 removes trailing empty strings. */
  function DropTrailingEmpty(ps: seq<string>): (r: seq<string>)
    ensures |r| <= |ps| && r == ps[..|r|]
    ensures |r| > 0 ==> r[|r| - 1] != ""
    ensures forall k :: |r| <= k < |ps| ==> ps[k] == ""
  {
    if |ps| > 0 && ps[|ps| - 1] == "" then DropTrailingEmpty(ps[..|ps| - 1]) else ps
  }

  /** String.split: a string without the separator splits into itself (even
      the empty string); otherwise the pieces, less trailing empty ones. */
  function Split(s: string, sep: string): (r: seq<string>)
    requires |sep| > 0
  {
    if FirstMatch(s, sep, 0).None? then [s] else DropTrailingEmpty(Pieces(s, sep))
  }

  /** The elements with `sep` between each pair. */
  function Join(sep: string, parts: seq<string>): string
  {
    if |parts| == 0 then ""
    else if |parts| == 1 then parts[0]
    else parts[0] + sep + Join(sep, parts[1..])
  }

  /** Every element between brackets. */
  function Bracket(q: seq<string>): (r: seq<string>)
    ensures |r| == |q| && forall i :: 0 <= i < |q| ==> r[i] == "[" + q[i] + "]"
  {
    seq(|q|, i requires 0 <= i < |q| => "[" + q[i] + "]")
  }

  predicate Avoids(s: string, c: char)
  {
    forall i :: 0 <= i < |s| ==> s[i] != c
  }

  /** Every `a` in `s` is followed, inside `s`, by something other than `b`. */
  predicate NoPair(s: string, a: char, b: char)
  {
    forall i :: 0 <= i < |s| && s[i] == a ==> i + 1 < |s| && s[i + 1] != b
  }

  /** A part whose first two separator characters never occur together has no
      match of the separator starting inside it, whatever follows. */
  lemma NoMatchInside(p: string, sep: string, rest: string)
    requires |sep| >= 2 && NoPair(p, sep[0], sep[1])
    ensures forall j :: 0 <= j < |p| ==> !MatchAt(p + rest, sep, j)
  {
    var s := p + rest;
    forall j | 0 <= j < |p| ensures !MatchAt(s, sep, j) {
      if j + |sep| <= |s| {
        assert s[j..j + |sep|][0] == s[j] == p[j];
        if p[j] == sep[0] {
          assert s[j..j + |sep|][1] == s[j + 1] == p[j + 1];
        }
      }
    }
  }

  /** In part + separator + rest, the first match is the separator after the part. */
  lemma FirstMatchAfterPart(p: string, sep: string, rest: string)
    requires |sep| >= 2 && NoPair(p, sep[0], sep[1])
    ensures (var s := p + sep + rest;
             FirstMatch(s, sep, 0) == Some(|p|) && s[..|p|] == p && s[|p| + |sep|..] == rest)
  {
    var s := p + sep + rest;
    NoMatchInside(p, sep, sep + rest);
    assert p + (sep + rest) == s;
    assert s[|p|..|p| + |sep|] == sep;
    assert MatchAt(s, sep, |p|);
  }

  /** Splitting a join gives back the parts, provided no separator can be
      matched inside a part. */
  lemma {:induction false} PiecesOfJoin(sep: string, parts: seq<string>)
    requires |sep| >= 2 && |parts| > 0
    requires forall k :: 0 <= k < |parts| ==> NoPair(parts[k], sep[0], sep[1])
    ensures Pieces(Join(sep, parts), sep) == parts
    ensures |parts| == 1 <==> FirstMatch(Join(sep, parts), sep, 0).None?
    decreases |parts|
  {
    var p := parts[0];
    if |parts| == 1 {
      NoMatchInside(p, sep, "");
      assert p + "" == p;
    } else {
      var rest := Join(sep, parts[1..]);
      assert Join(sep, parts) == p + sep + rest;
      FirstMatchAfterPart(p, sep, rest);
      PiecesOfJoin(sep, parts[1..]);
      assert [p] + parts[1..] == parts;
    }
  }

  lemma SplitJoin(sep: string, parts: seq<string>)
    requires |sep| >= 2 && |parts| > 0 && parts[|parts| - 1] != ""
    requires forall k :: 0 <= k < |parts| ==> NoPair(parts[k], sep[0], sep[1])
    ensures Split(Join(sep, parts), sep) == parts
  {
    PiecesOfJoin(sep, parts);
  }

  /** A join of parts that avoid `c`, with a separator that avoids it, avoids it. */
  lemma {:induction false} JoinAvoids(sep: string, parts: seq<string>, c: char)
    requires Avoids(sep, c) && forall k :: 0 <= k < |parts| ==> Avoids(parts[k], c)
    ensures Avoids(Join(sep, parts), c)
    decreases |parts|
  {
    if |parts| > 1 {
      JoinAvoids(sep, parts[1..], c);
    }
  }

  /** A join of parts without `a` keeps the separator's own pairing of `a`. */
  lemma {:induction false} JoinNoPair(sep: string, parts: seq<string>, a: char, b: char)
    requires NoPair(sep, a, b) && forall k :: 0 <= k < |parts| ==> Avoids(parts[k], a)
    ensures NoPair(Join(sep, parts), a, b)
    decreases |parts|
  {
    if |parts| > 1 {
      JoinNoPair(sep, parts[1..], a, b);
      var p, rest := parts[0], Join(sep, parts[1..]);
      var s := p + sep + rest;
      forall i | 0 <= i < |s| && s[i] == a ensures i + 1 < |s| && s[i + 1] != b {
        if |p| <= i < |p| + |sep| {
          assert s[i] == sep[i - |p|];
          assert s[i + 1] == sep[i - |p| + 1];
        } else if i >= |p| + |sep| {
          assert s[i] == rest[i - |p| - |sep|];
          assert s[i + 1] == rest[i - |p| - |sep| + 1];
        }
      }
    }
  }

  /** A join with a non-empty last part is not empty. */
  lemma {:induction false} JoinNonEmpty(sep: string, parts: seq<string>)
    requires |parts| > 0 && parts[|parts| - 1] != ""
    ensures Join(sep, parts) != ""
    decreases |parts|
  {
    if |parts| > 1 {
      JoinNonEmpty(sep, parts[1..]);
    }
  }

  /** Joining bracketed elements is bracketing the join with the brackets
      folded into the separator: [a], [b] is [a], [b] with "], [" inside. */
  lemma {:induction false} JoinBracketed(sep: string, q: seq<string>)
    requires |q| > 0
    ensures Join(sep, Bracket(q)) == "[" + Join("]" + sep + "[", q) + "]"
    decreases |q|
  {
    if |q| > 1 {
      assert Bracket(q)[1..] == Bracket(q[1..]);
      JoinBracketed(sep, q[1..]);
      var inner := Join("]" + sep + "[", q[1..]);
      calc {
        Join(sep, Bracket(q));
        "[" + q[0] + "]" + sep + Join(sep, Bracket(q[1..]));
        "[" + q[0] + "]" + sep + ("[" + inner + "]");
        "[" + (q[0] + ("]" + sep + "[") + inner) + "]";
      }
    }
  }

  /** String.substring(begin, end): fails unless 0 <= begin <= end <= length. */
  function Substring(s: string, begin: int, end: int): (r: Result<string>)
    ensures r.Ok? <==> 0 <= begin <= end <= |s|
    ensures r.Ok? ==> |r.value| == end - begin && forall i :: 0 <= i < |r.value| ==> r.value[i] == s[begin + i]
    ensures r.Err? ==> r.error == StringIndexOutOfBounds
  {
    if 0 <= begin <= end <= |s| then Ok(s[begin..end]) else Err(StringIndexOutOfBounds)
  }

  /** The concatenation of all of them, in order (a StringBuilder's appends). */
  function Concat(lines: seq<string>): string
  {
    if |lines| == 0 then "" else Concat(lines[..|lines| - 1]) + lines[|lines| - 1]
  }
}
