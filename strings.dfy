/** String operations the rubric engine relies on: case folding, the
    prefix and substring tests behind its `any(...)` checks, and the
    paragraph join that assembles the feedback text. */
module TextOps {

  /** ASCII lower-casing of one character; every other character is kept. */
  function LowerChar(c: char): (r: char)
    ensures 'A' <= c <= 'Z' ==> r as int == c as int + 32
    ensures !('A' <= c <= 'Z') ==> r == c
  {
    if 'A' <= c <= 'Z' then (c as int + 32) as char else c
  }

  predicate IsUpper(c: char) {
    'A' <= c <= 'Z'
  }

  /** The case folding applied to the transcript (ASCII only). */
  function Lower(s: string): (r: string)
    ensures |r| == |s|
    ensures forall i :: 0 <= i < |s| ==> r[i] == LowerChar(s[i])
  {
    seq(|s|, i requires 0 <= i < |s| => LowerChar(s[i]))
  }

  /** Folding leaves no upper-case letter behind, so folding twice is folding once. */
  lemma LowerIdempotent(s: string)
    ensures forall i :: 0 <= i < |s| ==> !IsUpper(Lower(s)[i])
    ensures Lower(Lower(s)) == Lower(s)
  {
    var once := Lower(s);
    forall i | 0 <= i < |s|
      ensures Lower(once)[i] == once[i]
    {
      assert !IsUpper(once[i]);
    }
  }

  /** `s.startswith(p)` */
  predicate StartsWith(s: string, p: string) {
    |p| <= |s| && s[..|p|] == p
  }

  /** `p` occurs in `s` starting at index `i`. */
  predicate OccursAt(s: string, p: string, i: int) {
    0 <= i && i + |p| <= |s| && s[i..i + |p|] == p
  }

  /** `p in s`: tries `p` at every position of `s`, left to right. */
  function Contains(s: string, p: string): bool
    decreases |s|
  {
    StartsWith(s, p) || (|s| > 0 && Contains(s[1..], p))
  }

  /** Position `i` of the tail is position `i + 1` of the whole text. */
  lemma ShiftOccurrence(s: string, p: string, i: nat)
    requires |s| > 0
    ensures OccursAt(s[1..], p, i) <==> OccursAt(s, p, i + 1)
  {
    if i + 1 + |p| <= |s| {
      assert s[1..][i..i + |p|] == s[i + 1..i + 1 + |p|];
    }
  }

  /** The search finds `p` exactly when `p` occurs somewhere in `s`. */
  lemma {:induction false} ContainsSpec(s: string, p: string)
    ensures Contains(s, p) <==> exists i :: OccursAt(s, p, i)
    decreases |s|
  {
    if StartsWith(s, p) {
      assert OccursAt(s, p, 0);
    } else if |s| == 0 {
      assert forall i :: !OccursAt(s, p, i);
    } else {
      ContainsSpec(s[1..], p);
      if i :| OccursAt(s, p, i) {
        assert i != 0;
        ShiftOccurrence(s, p, i - 1);
      }
      if i :| OccursAt(s[1..], p, i) {
        ShiftOccurrence(s, p, i);
      }
    }
  }

  /** `any(s.startswith(p) for p in phrases)` */
  function AnyPrefix(s: string, phrases: seq<string>): bool {
    |phrases| > 0 && (StartsWith(s, phrases[0]) || AnyPrefix(s, phrases[1..]))
  }

  lemma {:induction false} AnyPrefixSpec(s: string, phrases: seq<string>)
    ensures AnyPrefix(s, phrases) <==> exists k :: 0 <= k < |phrases| && StartsWith(s, phrases[k])
  {
    if |phrases| > 0 {
      AnyPrefixSpec(s, phrases[1..]);
      assert forall k :: 1 <= k < |phrases| ==> phrases[k] == phrases[1..][k - 1];
    }
  }

  /** `any(p in s for p in phrases)` */
  function AnySubstring(s: string, phrases: seq<string>): bool {
    |phrases| > 0 && (Contains(s, phrases[0]) || AnySubstring(s, phrases[1..]))
  }

  lemma {:induction false} AnySubstringSpec(s: string, phrases: seq<string>)
    ensures AnySubstring(s, phrases) <==> exists k :: 0 <= k < |phrases| && Contains(s, phrases[k])
  {
    if |phrases| > 0 {
      AnySubstringSpec(s, phrases[1..]);
      assert forall k :: 1 <= k < |phrases| ==> phrases[k] == phrases[1..][k - 1];
    }
  }

  /** The separator placed between feedback statements. */
  const ParagraphBreak: string := "\n\n"

  /** `"\n\n".join(parts)` */
  function JoinParagraphs(parts: seq<string>): string
  {
    if |parts| == 0 then ""
    else if |parts| == 1 then parts[0]
    else parts[0] + ParagraphBreak + JoinParagraphs(parts[1..])
  }

  /** Cuts a text at every paragraph break: the inverse of `JoinParagraphs`
      on statements that hold no line break themselves. */
  function SplitParagraphs(s: string): (r: seq<string>)
    ensures |r| >= 1
  {
    if |s| < 2 then [s]
    else if s[0] == '\n' && s[1] == '\n' then [""] + SplitParagraphs(s[2..])
    else
      var tail := SplitParagraphs(s[1..]);
      [[s[0]] + tail[0]] + tail[1..]
  }

  lemma {:induction false} SplitSingleLine(x: string)
    requires '\n' !in x
    ensures SplitParagraphs(x) == [x]
  {
    if |x| >= 2 {
      assert x[1..][0] == x[1];
      SplitSingleLine(x[1..]);
      assert [x[0]] + x[1..] == x;
    }
  }

  lemma {:induction false} SplitAfterLine(x: string, rest: string)
    requires '\n' !in x
    ensures SplitParagraphs(x + ParagraphBreak + rest) == [x] + SplitParagraphs(rest)
  {
    var s := x + ParagraphBreak + rest;
    if |x| == 0 {
      assert s == "\n\n" + rest;
      assert s[2..] == rest;
    } else {
      assert s[1..] == x[1..] + ParagraphBreak + rest;
      SplitAfterLine(x[1..], rest);
      assert [x[0]] + x[1..] == x;
    }
  }

  /** Splitting the joined statements gives back exactly the statements. */
  lemma {:induction false} SplitJoin(parts: seq<string>)
    requires |parts| >= 1
    requires forall k :: 0 <= k < |parts| ==> '\n' !in parts[k]
    ensures SplitParagraphs(JoinParagraphs(parts)) == parts
  {
    if |parts| == 1 {
      SplitSingleLine(parts[0]);
    } else {
      SplitJoin(parts[1..]);
      SplitAfterLine(parts[0], JoinParagraphs(parts[1..]));
      assert [parts[0]] + parts[1..] == parts;
    }
  }
}
