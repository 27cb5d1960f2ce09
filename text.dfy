/** The string operations the handlers and templates apply: `trim`, `toLowerCase`,
    `substring(0, n)`, `split(sep)`, `join`, a global literal `replace`, and the
    tag-stripping `replace(/<[^>]*>/g, '')`. Strings are sequences of characters. */
module Text {
  import opened Js

  predicate IsPrefix(p: string, s: string)
  {
    |p| <= |s| && s[..|p|] == p
  }

  predicate IsSuffix(p: string, s: string)
  {
    |p| <= |s| && s[|s| - |p|..] == p
  }

  /** `p` occurs in `s` starting at index `i`. */
  predicate OccursAt(s: string, p: string, i: int)
  {
    0 <= i && i + |p| <= |s| && s[i..i + |p|] == p
  }

  predicate Contains(s: string, p: string)
  {
    exists i :: 0 <= i <= |s| - |p| && OccursAt(s, p, i)
  }

  /** A text holds each of its middle parts. */
  lemma ContainsMiddle(a: string, m: string, b: string)
    ensures Contains(a + m + b, m)
  {
    assert (a + m + b)[|a|..|a| + |m|] == m;
    assert OccursAt(a + m + b, m, |a|);
  }

  /** Whatever a part holds, the whole holds. */
  lemma ContainsWithin(a: string, x: string, b: string, m: string)
    requires Contains(x, m)
    ensures Contains(a + x + b, m)
  {
    var i :| 0 <= i <= |x| - |m| && OccursAt(x, m, i);
    assert (a + x + b)[|a| + i..|a| + i + |m|] == x[i..i + |m|];
    assert OccursAt(a + x + b, m, |a| + i);
  }

  predicate NoSpace(s: string)
  {
    forall i :: 0 <= i < |s| ==> !IsSpace(s[i])
  }

  // ---------------------------------------------------------------------------
  // trim()

  /** Number of leading whitespace characters. */
  function LeadLen(s: string): (n: nat)
    ensures n <= |s|
    ensures forall i :: 0 <= i < n ==> IsSpace(s[i])
    ensures n < |s| ==> !IsSpace(s[n])
  {
    if |s| > 0 && IsSpace(s[0]) then 1 + LeadLen(s[1..]) else 0
  }

  /** Number of trailing whitespace characters. */
  function TrailLen(s: string): (n: nat)
    ensures n <= |s|
    ensures forall i :: |s| - n <= i < |s| ==> IsSpace(s[i])
    ensures n < |s| ==> !IsSpace(s[|s| - n - 1])
  {
    if |s| > 0 && IsSpace(s[|s| - 1]) then 1 + TrailLen(s[..|s| - 1]) else 0
  }

  /** `s.trim()` */
  function Trim(s: string): string
  {
    var t := s[LeadLen(s)..];
    t[..|t| - TrailLen(t)]
  }

  /** `trim` removes a whitespace prefix and a whitespace suffix and nothing else, and
      what remains neither starts nor ends with whitespace. */
  lemma TrimSpec(s: string)
    ensures exists a, b ::
              && 0 <= a <= b <= |s| && Trim(s) == s[a..b]
              && (forall i :: 0 <= i < a ==> IsSpace(s[i]))
              && (forall i :: b <= i < |s| ==> IsSpace(s[i]))
    ensures Trim(s) != "" ==> !IsSpace(Trim(s)[0]) && !IsSpace(Trim(s)[|Trim(s)| - 1])
  {
    var a := LeadLen(s);
    var t := s[a..];
    var b := a + |t| - TrailLen(t);
    assert Trim(s) == s[a..b];
    forall i | b <= i < |s| ensures IsSpace(s[i]) {
      assert s[i] == t[i - a];
    }
  }

  /** `trim` yields the empty string exactly for whitespace-only input. */
  lemma TrimEmptyIff(s: string)
    ensures Trim(s) == "" <==> forall i :: 0 <= i < |s| ==> IsSpace(s[i])
  {
    var a := LeadLen(s);
    var t := s[a..];
    if Trim(s) == "" {
      assert |t| == TrailLen(t);
      assert a == |s|;
    }
  }

  /** A string without whitespace is its own trim. */
  lemma TrimNoSpace(s: string)
    requires NoSpace(s)
    ensures Trim(s) == s
  {
    assert LeadLen(s) == 0;
    assert TrailLen(s) == 0;
  }

  /** A non-empty trim starts and ends with a non-space character, and every
      character of it comes from the trimmed string. */
  lemma TrimEnds(s: string)
    ensures Trim(s) != "" ==> !IsSpace(Trim(s)[0]) && !IsSpace(Trim(s)[|Trim(s)| - 1])
    ensures forall c :: c in Trim(s) ==> c in s
  {
    var a := LeadLen(s);
    var t := s[a..];
    var r := t[..|t| - TrailLen(t)];
    assert r == Trim(s);
    if r != "" {
      assert r[0] == s[a];
      assert r[|r| - 1] == t[|t| - TrailLen(t) - 1];
    }
    forall c | c in r ensures c in s {
      var k :| 0 <= k < |r| && r[k] == c;
      assert s[a + k] == c;
    }
  }

  /** A one-character string occurs exactly when the character does. */
  lemma ContainsChar(s: string, c: char)
    ensures Contains(s, [c]) <==> c in s
  {
    if c in s {
      var k :| 0 <= k < |s| && s[k] == c;
      assert s[k..k + 1] == [c];
      assert OccursAt(s, [c], k);
    }
    if Contains(s, [c]) {
      var k :| 0 <= k <= |s| - 1 && OccursAt(s, [c], k);
      assert s[k] == s[k..k + 1][0];
    }
  }

  /** Leading whitespace before a non-space character is counted exactly. */
  lemma {:induction false} LeadLenPadded(pad: string, rest: string)
    requires forall i :: 0 <= i < |pad| ==> IsSpace(pad[i])
    requires |rest| > 0 && !IsSpace(rest[0])
    ensures LeadLen(pad + rest) == |pad|
    decreases |pad|
  {
    if |pad| > 0 {
      assert (pad + rest)[1..] == pad[1..] + rest;
      LeadLenPadded(pad[1..], rest);
    } else {
      assert pad + rest == rest;
    }
  }

  /** Trailing whitespace after a non-space character is counted exactly. */
  lemma {:induction false} TrailLenPadded(rest: string, pad: string)
    requires forall i :: 0 <= i < |pad| ==> IsSpace(pad[i])
    requires |rest| > 0 && !IsSpace(rest[|rest| - 1])
    ensures TrailLen(rest + pad) == |pad|
    decreases |pad|
  {
    if |pad| > 0 {
      assert (rest + pad)[..|rest + pad| - 1] == rest + pad[..|pad| - 1];
      TrailLenPadded(rest, pad[..|pad| - 1]);
    } else {
      assert rest + pad == rest;
    }
  }

  /** Trimming a text that starts and ends with non-space characters, wrapped in
      whitespace, gives back the text. */
  lemma TrimPadded(before: string, body: string, after: string)
    requires forall i :: 0 <= i < |before| ==> IsSpace(before[i])
    requires forall i :: 0 <= i < |after| ==> IsSpace(after[i])
    requires |body| > 0 && !IsSpace(body[0]) && !IsSpace(body[|body| - 1])
    ensures Trim(before + body + after) == body
  {
    var s := before + body + after;
    assert s == before + (body + after);
    LeadLenPadded(before, body + after);
    var t := s[|before|..];
    assert t == body + after;
    TrailLenPadded(body, after);
  }

  // ---------------------------------------------------------------------------
  // toLowerCase()

  /** Lower-case mapping of the ASCII and Latin-1 capital letters; every other
      character is left alone. */
  function LowerChar(c: char): char
  {
    if 'A' <= c <= 'Z' || ('\U{C0}' <= c <= '\U{DE}' && c != '\U{D7}') then
      (c as int + 32) as char
    else c
  }

  /** `s.toLowerCase()` */
  function ToLower(s: string): (r: string)
    ensures |r| == |s|
    ensures forall i :: 0 <= i < |s| ==> r[i] == LowerChar(s[i])
  {
    seq(|s|, i requires 0 <= i < |s| => LowerChar(s[i]))
  }

  // ---------------------------------------------------------------------------
  // substring(0, n) and the "first n characters, then '...'" idiom

  /** `s.substring(0, n)` */
  function Prefix(s: string, n: nat): (r: string)
    ensures |r| == if |s| <= n then |s| else n
    ensures IsPrefix(r, s)
  {
    if |s| <= n then s else s[..n]
  }

  /** `s.substring(0, n) + (s.length > n ? '...' : '')`: the text itself when it is
      short enough, and otherwise its first `n` characters followed by "...". */
  function Truncate(s: string, n: nat): (r: string)
    ensures |r| <= n + 3
    ensures |s| <= n ==> r == s
    ensures |s| > n ==>
              && |r| == n + 3
              && IsPrefix(s[..n], r)
              && IsSuffix("...", r)
  {
    Prefix(s, n) + (if |s| > n then "..." else "")
  }

  // ---------------------------------------------------------------------------
  // indexOf, split, join

  /** `s.indexOf(p)`: the first index at which `p` occurs, or -1. */
  function IndexOf(s: string, p: string): (i: int)
    ensures -1 <= i <= |s|
    ensures 0 <= i ==> OccursAt(s, p, i) && forall j :: 0 <= j < i ==> !OccursAt(s, p, j)
    ensures i < 0 ==> forall j :: !OccursAt(s, p, j)
    decreases |s|
  {
    if |s| < |p| then -1
    else if s[..|p|] == p then 0
    else
      var t := IndexOf(s[1..], p);
      ShiftOccurrence(s, p);
      if t < 0 then -1 else t + 1
  }

  /** An occurrence in `s[1..]` is an occurrence in `s` one position later. */
  lemma ShiftOccurrence(s: string, p: string)
    requires |s| > 0
    ensures forall j :: 1 <= j ==> (OccursAt(s, p, j) <==> OccursAt(s[1..], p, j - 1))
    ensures forall j :: 0 <= j ==> (OccursAt(s[1..], p, j) <==> OccursAt(s, p, j + 1))
  {
    forall j | 0 <= j
      ensures OccursAt(s[1..], p, j) <==> OccursAt(s, p, j + 1)
    {
      if j + |p| <= |s| - 1 {
        assert s[1..][j..j + |p|] == s[j + 1..j + 1 + |p|];
      }
    }
  }

  /** `s.split(sep)` for a non-empty separator: the pieces between the successive
      leftmost non-overlapping occurrences of `sep`. */
  function Split(s: string, sep: string): (parts: seq<string>)
    requires |sep| > 0
    ensures |parts| >= 1
    decreases |s|
  {
    var i := IndexOf(s, sep);
    if i < 0 then [s] else [s[..i]] + Split(s[i + |sep|..], sep)
  }

  /** `parts.join(sep)` */
  function Join(parts: seq<string>, sep: string): string
  {
    if |parts| == 0 then ""
    else if |parts| == 1 then parts[0]
    else parts[0] + sep + Join(parts[1..], sep)
  }

  /** `join('')` of two runs of pieces is the concatenation of their joins. */
  lemma {:induction false} JoinEmptyAppend(a: seq<string>, b: seq<string>)
    ensures Join(a + b, "") == Join(a, "") + Join(b, "")
    decreases |a|
  {
    if |a| == 0 {
      assert a + b == b;
    } else if |b| == 0 {
      assert a + b == a;
    } else {
      JoinEmptyAppend(a[1..], b);
      assert a + b == [a[0]] + (a[1..] + b);
      JoinCons(a[0], a[1..] + b, "");
      if |a| > 1 {
        assert a == [a[0]] + a[1..];
        JoinCons(a[0], a[1..], "");
      } else {
        assert a[1..] == [];
      }
    }
  }

  /** Joining a piece in front of at least one more piece puts a separator between. */
  lemma JoinCons(x: string, rest: seq<string>, sep: string)
    requires |rest| > 0
    ensures Join([x] + rest, sep) == x + sep + Join(rest, sep)
  {
    assert ([x] + rest)[1..] == rest;
  }

  /** Splitting is undone by joining with the same separator. */
  lemma {:induction false} SplitJoin(s: string, sep: string)
    requires |sep| > 0
    ensures Join(Split(s, sep), sep) == s
    decreases |s|
  {
    var i := IndexOf(s, sep);
    if i >= 0 {
      var pre, rest := s[..i], s[i + |sep|..];
      assert Split(s, sep) == [pre] + Split(rest, sep);
      SplitJoin(rest, sep);
      JoinCons(pre, Split(rest, sep), sep);
      assert s == pre + sep + rest by {
        assert s[i..i + |sep|] == sep;
        assert s == pre + s[i..i + |sep|] + rest;
      }
    }
  }

  /** The text before the first occurrence of `sep` does not contain `sep`. */
  lemma BeforeFirstAvoids(s: string, sep: string)
    requires |sep| > 0
    requires 0 <= IndexOf(s, sep)
    ensures !Contains(s[..IndexOf(s, sep)], sep)
  {
    var i := IndexOf(s, sep);
    forall j | OccursAt(s[..i], sep, j) ensures false {
      assert s[..i][j..j + |sep|] == s[j..j + |sep|];
      assert OccursAt(s, sep, j);
    }
  }

  /** No piece of a split contains the separator. */
  lemma {:induction false} SplitPiecesAvoid(s: string, sep: string)
    requires |sep| > 0
    ensures forall k :: 0 <= k < |Split(s, sep)| ==> !Contains(Split(s, sep)[k], sep)
    decreases |s|
  {
    var i := IndexOf(s, sep);
    if i >= 0 {
      var rest := s[i + |sep|..];
      SplitPiecesAvoid(rest, sep);
      BeforeFirstAvoids(s, sep);
      var parts := Split(s, sep);
      assert parts == [s[..i]] + Split(rest, sep);
      forall k | 0 <= k < |parts| ensures !Contains(parts[k], sep) {
        if k > 0 { assert parts[k] == Split(rest, sep)[k - 1]; }
      }
    }
  }

  /** The first piece of a split is a prefix of the input without the separator;
      it is the whole input exactly when the separator does not occur. */
  lemma FirstPiece(s: string, sep: string)
    requires |sep| > 0
    ensures IsPrefix(Split(s, sep)[0], s)
    ensures !Contains(Split(s, sep)[0], sep)
    ensures Split(s, sep)[0] == s <==> !Contains(s, sep)
  {
    var i := IndexOf(s, sep);
    if i >= 0 {
      BeforeFirstAvoids(s, sep);
      assert OccursAt(s, sep, i);
    }
  }

  // ---------------------------------------------------------------------------
  // replace(/literal/g, rep)

  /** A global replacement of a literal pattern, scanning left to right as the
      regular-expression engine does: at each position either the pattern matches
      and is replaced, or one character is copied. */
  function ReplaceAll(s: string, pat: string, rep: string): string
    requires |pat| > 0
    decreases |s|
  {
    if |s| == 0 then ""
    else if IsPrefix(pat, s) then rep + ReplaceAll(s[|pat|..], pat, rep)
    else [s[0]] + ReplaceAll(s[1..], pat, rep)
  }

  /** When the pattern does not start the text, the first character of the text
      belongs to the first piece of the split. */
  lemma SplitStep(s: string, sep: string)
    requires |sep| > 0 && |s| > 0 && !IsPrefix(sep, s)
    ensures Split(s, sep) == [[s[0]] + Split(s[1..], sep)[0]] + Split(s[1..], sep)[1..]
  {
    var tail := s[1..];
    ShiftOccurrence(s, sep);
    var t := IndexOf(tail, sep);
    if t < 0 {
      assert IndexOf(s, sep) < 0;
      assert [s[0]] + tail == s;
    } else {
      assert IndexOf(s, sep) == t + 1;
      assert tail[t + |sep|..] == s[t + 1 + |sep|..];
      assert [s[0]] + tail[..t] == s[..t + 1];
    }
  }

  /** When the pattern starts the text, the first piece of the split is empty. */
  lemma SplitAtStart(s: string, sep: string)
    requires |sep| > 0 && IsPrefix(sep, s)
    ensures Split(s, sep) == [""] + Split(s[|sep|..], sep)
  {
    assert IndexOf(s, sep) == 0;
    assert s[..0] == "";
  }

  /** A character put in front of the first piece comes out in front of the join. */
  lemma JoinHead(c: char, parts: seq<string>, sep: string)
    requires |parts| > 0
    ensures Join([[c] + parts[0]] + parts[1..], sep) == [c] + Join(parts, sep)
  {
    if |parts| > 1 {
      JoinCons([c] + parts[0], parts[1..], sep);
      JoinCons(parts[0], parts[1..], sep);
      assert parts == [parts[0]] + parts[1..];
    }
  }

  /** The scan replaces exactly the occurrences that `split` cuts at: replacing is
      splitting on the pattern and joining with the replacement. */
  lemma {:induction false} ReplaceAllIsSplitJoin(s: string, pat: string, rep: string)
    requires |pat| > 0
    ensures ReplaceAll(s, pat, rep) == Join(Split(s, pat), rep)
    decreases |s|
  {
    if |s| == 0 {
    } else if IsPrefix(pat, s) {
      var rest := s[|pat|..];
      ReplaceAllIsSplitJoin(rest, pat, rep);
      SplitAtStart(s, pat);
      JoinCons("", Split(rest, pat), rep);
    } else {
      ReplaceAllIsSplitJoin(s[1..], pat, rep);
      SplitStep(s, pat);
      JoinHead(s[0], Split(s[1..], pat), rep);
    }
  }

  /** No occurrence, nothing replaced. */
  lemma ReplaceAllAbsent(s: string, pat: string, rep: string)
    requires |pat| > 0
    requires !Contains(s, pat)
    ensures ReplaceAll(s, pat, rep) == s
  {
    ReplaceAllIsSplitJoin(s, pat, rep);
    assert IndexOf(s, pat) < 0;
  }

  /** Joining pieces free of `c` with a separator free of `c` gives a string free of `c`. */
  lemma {:induction false} JoinAvoids(parts: seq<string>, sep: string, c: char)
    requires forall k :: 0 <= k < |parts| ==> c !in parts[k]
    requires c !in sep
    ensures c !in Join(parts, sep)
  {
    if |parts| > 1 {
      JoinAvoids(parts[1..], sep, c);
    }
  }

  /** Replacing every occurrence of a one-character pattern by a text that does not
      contain that character leaves none of it behind. */
  lemma ReplaceCharRemovesIt(s: string, c: char, rep: string)
    requires c !in rep
    ensures c !in ReplaceAll(s, [c], rep)
  {
    ReplaceAllIsSplitJoin(s, [c], rep);
    SplitPiecesAvoid(s, [c]);
    var parts := Split(s, [c]);
    forall k | 0 <= k < |parts| ensures c !in parts[k] {
      if c in parts[k] {
        var j :| 0 <= j < |parts[k]| && parts[k][j] == c;
        assert OccursAt(parts[k], [c], j);
      }
    }
    JoinAvoids(parts, rep, c);
  }

  // ---------------------------------------------------------------------------
  // replace(/<[^>]*>/g, '')

  /** Removes every span from a '<' to the next '>' (both included), scanning left to
      right; a '<' with no '>' after it is kept. */
  function StripTags(s: string): string
    decreases |s|
  {
    if |s| == 0 then ""
    else if s[0] == '<' && IndexOf(s[1..], ">") >= 0 then
      StripTags(s[IndexOf(s[1..], ">") + 2..])
    else [s[0]] + StripTags(s[1..])
  }

  /** Every character of the result is one of the input's. */
  lemma {:induction false} StripTagsKeepsChars(s: string)
    ensures forall k :: 0 <= k < |StripTags(s)| ==> StripTags(s)[k] in s
    decreases |s|
  {
    if |s| == 0 {
    } else if s[0] == '<' && IndexOf(s[1..], ">") >= 0 {
      var rest := s[IndexOf(s[1..], ">") + 2..];
      StripTagsKeepsChars(rest);
      forall k | 0 <= k < |StripTags(rest)| ensures StripTags(rest)[k] in s {
        var c := StripTags(rest)[k];
        var j :| 0 <= j < |rest| && rest[j] == c;
        assert s[IndexOf(s[1..], ">") + 2 + j] == c;
      }
    } else {
      StripTagsKeepsChars(s[1..]);
      forall k | 1 <= k < |StripTags(s)| ensures StripTags(s)[k] in s {
        var c := StripTags(s)[k];
        assert c == StripTags(s[1..])[k - 1];
        var j :| 0 <= j < |s[1..]| && s[1..][j] == c;
        assert s[j + 1] == c;
      }
    }
  }

  /** `t` is `s` with some of its characters deleted: a subsequence of `s`. */
  predicate IsSubsequence(t: string, s: string)
    decreases |s|
  {
    |t| == 0 || (|s| > 0 && ((t[0] == s[0] && IsSubsequence(t[1..], s[1..])) || IsSubsequence(t, s[1..])))
  }

  /** A subsequence of a suffix of `s` is a subsequence of `s`. */
  lemma {:induction false} SubsequenceOfSuffix(t: string, s: string, m: nat)
    requires m <= |s| && IsSubsequence(t, s[m..])
    ensures IsSubsequence(t, s)
    decreases m
  {
    if m > 0 {
      assert s[1..][m - 1..] == s[m..];
      SubsequenceOfSuffix(t, s[1..], m - 1);
    } else {
      assert s[0..] == s;
    }
  }

  /** Stripping only deletes characters: the result is a subsequence of the input. */
  lemma {:induction false} StripTagsIsSubsequence(s: string)
    ensures IsSubsequence(StripTags(s), s)
    decreases |s|
  {
    if |s| == 0 {
    } else if s[0] == '<' && IndexOf(s[1..], ">") >= 0 {
      var m := IndexOf(s[1..], ">") + 2;
      StripTagsIsSubsequence(s[m..]);
      SubsequenceOfSuffix(StripTags(s), s, m);
    } else {
      StripTagsIsSubsequence(s[1..]);
      var r := StripTags(s);
      assert r[0] == s[0] && r[1..] == StripTags(s[1..]);
    }
  }

  /** After stripping, no '<' is followed anywhere later by a '>': no tag is left. */
  lemma {:induction false} StripTagsLeavesNoTag(s: string)
    ensures forall i, j :: 0 <= i < j < |StripTags(s)| ==>
      !(StripTags(s)[i] == '<' && StripTags(s)[j] == '>')
    decreases |s|
  {
    if |s| == 0 {
    } else if s[0] == '<' && IndexOf(s[1..], ">") >= 0 {
      StripTagsLeavesNoTag(s[IndexOf(s[1..], ">") + 2..]);
    } else {
      var tail := s[1..];
      StripTagsLeavesNoTag(tail);
      var r := StripTags(s);
      assert r == [s[0]] + StripTags(tail);
      if s[0] == '<' {
        StripTagsKeepsChars(tail);
        forall m | 0 <= m < |tail| ensures tail[m] != '>' {
          assert !OccursAt(tail, ">", m);
          assert tail[m..m + 1] == [tail[m]];
        }
        forall j | 1 <= j < |r| ensures r[j] != '>' {
          assert r[j] == StripTags(tail)[j - 1];
        }
      }
    }
  }

  /** A leading tag is dropped whole. */
  lemma StripTagsDropsTag(x: string, rest: string)
    requires '>' !in x
    ensures StripTags("<" + x + ">" + rest) == StripTags(rest)
  {
    var s := "<" + x + ">" + rest;
    var t := s[1..];
    assert t == x + ">" + rest;
    assert OccursAt(t, ">", |x|);
    forall k | 0 <= k < |x| ensures !OccursAt(t, ">", k) {
      assert x[k] in x;
      assert t[k..k + 1] == [x[k]];
    }
    var i := IndexOf(t, ">");
    assert i == |x|;
    assert s[i + 2..] == rest;
  }

  /** Text without '<' passes through unchanged. */
  lemma {:induction false} StripTagsPlainText(s: string)
    requires '<' !in s
    ensures StripTags(s) == s
    decreases |s|
  {
    if |s| > 0 {
      StripTagsPlainText(s[1..]);
    }
  }
}
