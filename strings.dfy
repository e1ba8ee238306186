/**
 * The JavaScript string operations the components rely on, over ASCII:
 * `toLowerCase`, `toUpperCase`, `includes`, `startsWith`, `split(c)[0]`,
 * `split(c)` and `replace(/\s+/g, "-")`.
 */
module Strings {

  /** A character of JavaScript's `\s` class, restricted to ASCII. */
  predicate IsSpace(c: char) {
    c == ' ' || c == '\t' || c == '\n' || c == '\r' || c == 11 as char || c == 12 as char
  }

  predicate NoSpace(s: string) {
    forall i :: 0 <= i < |s| ==> !IsSpace(s[i])
  }

  function LowerChar(c: char): char {
    if 'A' <= c <= 'Z' then (c as int + 32) as char else c
  }

  function UpperChar(c: char): char {
    if 'a' <= c <= 'z' then (c as int - 32) as char else c
  }

  /** `s.toLowerCase()` over ASCII. */
  function Lower(s: string): (r: string)
    ensures |r| == |s|
    ensures forall i :: 0 <= i < |s| ==> r[i] == LowerChar(s[i])
  {
    seq(|s|, i requires 0 <= i < |s| => LowerChar(s[i]))
  }

  /** `s.startsWith(prefix)`. */
  predicate StartsWith(s: string, prefix: string) {
    |prefix| <= |s| && s[..|prefix|] == prefix
  }

  /** `s.includes(sub)`: `sub` occurs somewhere in `s`, scanning from the left. */
  predicate Contains(s: string, sub: string)
    decreases |s|
  {
    StartsWith(s, sub) || (s != [] && Contains(s[1..], sub))
  }

  /** `sub` occurs in `s` starting at index `i`. */
  predicate OccursAt(s: string, sub: string, i: int) {
    0 <= i <= |s| - |sub| && s[i..i + |sub|] == sub
  }

  /** `Contains` agrees with the positional definition of a substring occurrence. */
  lemma {:induction false} ContainsAt(s: string, sub: string)
    ensures Contains(s, sub) <==> exists i :: OccursAt(s, sub, i)
  {
    if StartsWith(s, sub) {
      assert OccursAt(s, sub, 0);
    } else if s != [] {
      ContainsAt(s[1..], sub);
      if exists i :: OccursAt(s, sub, i) {
        var i :| OccursAt(s, sub, i);
        assert i != 0;
        assert s[1..][i - 1..i - 1 + |sub|] == s[i..i + |sub|];
        assert OccursAt(s[1..], sub, i - 1);
      }
      if Contains(s[1..], sub) {
        var j :| OccursAt(s[1..], sub, j);
        assert s[1..][j..j + |sub|] == s[j + 1..j + 1 + |sub|];
        assert OccursAt(s, sub, j + 1);
      }
    }
  }

  /** Every string contains the empty string. */
  lemma ContainsEmpty(s: string)
    ensures Contains(s, "")
  {
    assert StartsWith(s, "");
  }

  /**
   * `s.split(c)[0]`: the text before the first `c`, or all of `s` when it
   * has none.
   */
  function BeforeFirst(s: string, c: char): (r: string)
    ensures |r| <= |s| && r == s[..|r|]
    ensures c !in r
    ensures |r| < |s| ==> s[|r|] == c
  {
    if s == [] || s[0] == c then [] else [s[0]] + BeforeFirst(s[1..], c)
  }

  /** The date part `YYYY-MM-DD` of an ISO timestamp: `stamp.split("T")[0]`. */
  function DatePart(stamp: string): (d: string)
    ensures 'T' !in d && StartsWith(stamp, d)
  {
    BeforeFirst(stamp, 'T')
  }

  /** `s.split(c)`: the maximal `c`-free pieces between occurrences of `c`. */
  function Split(s: string, c: char): (parts: seq<string>)
    ensures |parts| >= 1
    ensures forall k :: 0 <= k < |parts| ==> c !in parts[k]
    decreases |s|
  {
    var head := BeforeFirst(s, c);
    if |head| == |s| then [s] else [head] + Split(s[|head| + 1..], c)
  }

  /** `parts.join(c)`: the parts with one `c` between neighbours. */
  function Join(parts: seq<string>, c: char): string {
    if parts == [] then ""
    else if |parts| == 1 then parts[0]
    else parts[0] + [c] + Join(parts[1..], c)
  }

  /** Joining a piece in front of at least one other puts one separator between them. */
  lemma JoinCons(head: string, parts: seq<string>, c: char)
    requires parts != []
    ensures Join([head] + parts, c) == head + [c] + Join(parts, c)
  {
    assert ([head] + parts)[1..] == parts;
  }

  /** Splitting loses nothing: joining the pieces with the separator gives the text back. */
  lemma {:induction false} SplitJoin(s: string, c: char)
    ensures Join(Split(s, c), c) == s
    decreases |s|
  {
    var head := BeforeFirst(s, c);
    if |head| < |s| {
      var rest := s[|head| + 1..];
      SplitJoin(rest, c);
      var parts := Split(rest, c);
      assert Split(s, c) == [head] + parts;
      JoinCons(head, parts, c);
      assert s == s[..|head|] + [s[|head|]] + rest;
    } else {
      assert head == s;
      assert Split(s, c) == [s];
    }
  }

  /** Lower-casing leaves whitespace as it is. */
  lemma LowerKeepsSpaces(s: string)
    requires forall i :: 0 <= i < |s| ==> IsSpace(s[i])
    ensures Lower(s) == s
  {
    forall i | 0 <= i < |s| ensures Lower(s)[i] == s[i] {
      assert IsSpace(s[i]);
    }
  }

  /** A text made only of whitespace becomes a single `-`. */
  lemma DashRunsOfSpaces(s: string)
    requires s != [] && forall i :: 0 <= i < |s| ==> IsSpace(s[i])
    ensures DashRuns(s) == "-"
  {
    DropSpacesRun(s[1..], []);
    assert s[1..] + [] == s[1..];
    assert DashRuns(s) == "-" + DashRuns(DropSpaces(s[1..]));
  }

  /** Drops the leading characters of `s` that are whitespace. */
  function DropSpaces(s: string): (r: string)
    ensures |r| <= |s| && r == s[|s| - |r|..]
    ensures r != [] ==> !IsSpace(r[0])
  {
    if s != [] && IsSpace(s[0]) then DropSpaces(s[1..]) else s
  }

  /** `s.replace(/\s+/g, "-")`: each maximal run of whitespace becomes one `-`. */
  function DashRuns(s: string): (r: string)
    decreases |s|
  {
    if s == [] then []
    else if IsSpace(s[0]) then "-" + DashRuns(DropSpaces(s[1..]))
    else [s[0]] + DashRuns(s[1..])
  }

  /** The replacement leaves no whitespace and never lengthens the text. */
  lemma {:induction false} DashRunsShape(s: string)
    ensures NoSpace(DashRuns(s))
    ensures |DashRuns(s)| <= |s|
    ensures DashRuns(s) == [] <==> s == []
  {
    if s != [] {
      var head: string, tail: string;
      if IsSpace(s[0]) {
        head, tail := "-", DropSpaces(s[1..]);
      } else {
        head, tail := [s[0]], s[1..];
      }
      assert DashRuns(s) == head + DashRuns(tail);
      DashRunsShape(tail);
      NoSpaceAppend(head, DashRuns(tail));
    }
  }

  lemma NoSpaceAppend(a: string, b: string)
    requires NoSpace(a) && NoSpace(b)
    ensures NoSpace(a + b)
  {
    forall i | 0 <= i < |a + b| ensures !IsSpace((a + b)[i]) {
      if i >= |a| {
        assert (a + b)[i] == b[i - |a|];
      }
    }
  }

  /** Text without whitespace is left as it is. */
  lemma {:induction false} DashRunsNoSpace(s: string)
    requires NoSpace(s)
    ensures DashRuns(s) == s
  {
    if s != [] {
      DashRunsNoSpace(s[1..]);
      assert s == [s[0]] + s[1..];
    }
  }

  /**
   * A whitespace-free word followed by a non-empty run of whitespace becomes
   * the word, one `-`, and the replacement of what follows the run.
   */
  lemma {:induction false} DashRunsWordThenRun(word: string, run: string, rest: string)
    requires NoSpace(word)
    requires run != [] && forall i :: 0 <= i < |run| ==> IsSpace(run[i])
    requires rest == [] || !IsSpace(rest[0])
    ensures DashRuns(word + run + rest) == word + "-" + DashRuns(rest)
  {
    if word == [] {
      assert word + run + rest == run + rest;
      DropSpacesRun(run[1..], rest);
      assert (run + rest)[1..] == run[1..] + rest;
    } else {
      DashRunsWordThenRun(word[1..], run, rest);
      assert (word + run + rest)[1..] == word[1..] + run + rest;
      assert (word + run + rest)[0] == word[0];
      assert word == [word[0]] + word[1..];
    }
  }

  lemma {:induction false} DropSpacesRun(run: string, rest: string)
    requires forall i :: 0 <= i < |run| ==> IsSpace(run[i])
    requires rest == [] || !IsSpace(rest[0])
    ensures DropSpaces(run + rest) == rest
  {
    if run == [] {
      assert run + rest == rest;
    } else {
      DropSpacesRun(run[1..], rest);
      assert (run + rest)[1..] == run[1..] + rest;
    }
  }
}
