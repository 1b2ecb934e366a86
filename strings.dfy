/**
 * The parts of the JavaScript string library that the scheduler and the chat
 * parsers use: `includes`, `split`, `trim`, `split(/\s+/)`, `toLowerCase`,
 * `toUpperCase` on one character, `padStart`, number-to-text interpolation and
 * the digit case of `Number(...)`. Strings are sequences of Unicode scalar
 * values; case mapping covers the ASCII and Latin-1 letters.
 */
module Strings {

  predicate IsDigit(c: char) { '0' <= c <= '9' }

  predicate IsDigits(s: string) { forall i :: 0 <= i < |s| ==> IsDigit(s[i]) }

  function DigitChar(d: nat): (c: char)
    requires d < 10
    ensures IsDigit(c)
  {
    (('0' as int) + d) as char
  }

  function DigitValue(c: char): nat
    requires IsDigit(c)
  {
    (c as int) - ('0' as int)
  }

  /** The decimal text of `n`, as a template literal `${n}` prints it. */
  function NatToString(n: nat): (r: string)
    ensures |r| >= 1 && IsDigits(r)
    decreases n
  {
    if n < 10 then [DigitChar(n)] else NatToString(n / 10) + [DigitChar(n % 10)]
  }

  /** The value of a string of decimal digits; the empty string reads as 0, as `Number("")` does. */
  function DigitsValue(s: string): nat
    requires IsDigits(s)
  {
    if s == [] then 0 else DigitsValue(s[..|s| - 1]) * 10 + DigitValue(s[|s| - 1])
  }

  /** Reading back the text of a number gives the number. */
  lemma {:induction false} DigitsValueOfNatToString(n: nat)
    ensures DigitsValue(NatToString(n)) == n
    decreases n
  {
    if n >= 10 {
      var s := NatToString(n);
      assert s[..|s| - 1] == NatToString(n / 10);
      DigitsValueOfNatToString(n / 10);
    }
  }

  /** Different numbers print differently, so `prefix_${n}` identifiers are unique. */
  lemma NatToStringInjective(a: nat, b: nat)
    ensures NatToString(a) == NatToString(b) ==> a == b
  {
    DigitsValueOfNatToString(a);
    DigitsValueOfNatToString(b);
  }

  /** Leading zeros do not change the value of a digit string. */
  lemma {:induction false} DigitsValueLeadingZero(s: string)
    requires IsDigits(s)
    ensures IsDigits("0" + s) && DigitsValue("0" + s) == DigitsValue(s)
    decreases |s|
  {
    var z := "0" + s;
    assert IsDigits(z) by {
      forall i | 0 <= i < |z| ensures IsDigit(z[i]) {
        if i > 0 { assert z[i] == s[i - 1]; }
      }
    }
    if s != [] {
      assert z[..|z| - 1] == "0" + s[..|s| - 1];
      DigitsValueLeadingZero(s[..|s| - 1]);
    }
  }

  /** `t` occurs in `s` starting at index `i`. */
  predicate OccursAt(s: string, t: string, i: nat)
  {
    i + |t| <= |s| && s[i..i + |t|] == t
  }

  /** `s.includes(t)`. */
  function Includes(s: string, t: string): (r: bool)
    ensures r <==> exists i: nat :: OccursAt(s, t, i)
    decreases |s|
  {
    if |t| > |s| then
      false
    else if s[..|t|] == t then
      assert OccursAt(s, t, 0);
      true
    else
      var r := Includes(s[1..], t);
      assert forall i: nat :: OccursAt(s[1..], t, i) <==> OccursAt(s, t, i + 1) by {
        forall i: nat ensures OccursAt(s[1..], t, i) <==> OccursAt(s, t, i + 1) {
          if i + 1 + |t| <= |s| {
            assert s[1..][i..i + |t|] == s[i + 1..i + 1 + |t|];
          }
        }
      }
      assert r ==> exists i: nat :: OccursAt(s, t, i) by {
        if r {
          var i: nat :| OccursAt(s[1..], t, i);
          assert OccursAt(s, t, i + 1);
        }
      }
      assert (exists i: nat :: OccursAt(s, t, i)) ==> r by {
        if exists i: nat :: OccursAt(s, t, i) {
          var i: nat :| OccursAt(s, t, i);
          assert i != 0;
          assert OccursAt(s[1..], t, i - 1);
        }
      }
      r
  }

  /** `toLowerCase` of one character: ASCII and Latin-1 capitals (not the multiplication sign). */
  function LowerChar(c: char): char
  {
    if 'A' <= c <= 'Z' || ('\U{00C0}' <= c <= '\U{00DE}' && c != '\U{00D7}') then
      ((c as int) + 32) as char
    else
      c
  }

  /** `toUpperCase` of one character: ASCII and Latin-1 small letters (not the division sign). */
  function UpperChar(c: char): char
  {
    if 'a' <= c <= 'z' || ('\U{00E0}' <= c <= '\U{00FE}' && c != '\U{00F7}') then
      ((c as int) - 32) as char
    else
      c
  }

  /** Upper-casing a character never changes its lower-case form. */
  lemma LowerOfUpper(c: char)
    ensures LowerChar(UpperChar(c)) == LowerChar(c)
  {
  }

  /** `s.toLowerCase()`. */
  function Lower(s: string): string
  {
    seq(|s|, i requires 0 <= i < |s| => LowerChar(s[i]))
  }

  /** `s.toUpperCase()`. */
  function Upper(s: string): string
  {
    seq(|s|, i requires 0 <= i < |s| => UpperChar(s[i]))
  }

  /** `s.charAt(0).toUpperCase() + s.slice(1)`. */
  function Capitalize(s: string): (r: string)
    ensures |r| == |s|
    ensures Lower(r) == Lower(s)
    ensures s != [] ==> r[0] == UpperChar(s[0]) && r[1..] == s[1..]
  {
    if s == [] then
      []
    else
      var r := [UpperChar(s[0])] + s[1..];
      LowerOfUpper(s[0]);
      assert forall i :: 0 <= i < |s| ==> LowerChar(r[i]) == LowerChar(s[i]);
      r
  }

  /** The characters JavaScript's `\s` and `trim` treat as white space. */
  predicate IsSpace(c: char)
  {
    || c == ' ' || c == '\t' || c == '\n' || c == '\r' || c == '\U{000B}' || c == '\U{000C}'
    || c == '\U{00A0}' || c == '\U{1680}' || ('\U{2000}' <= c <= '\U{200A}')
    || c == '\U{2028}' || c == '\U{2029}' || c == '\U{202F}' || c == '\U{205F}'
    || c == '\U{3000}' || c == '\U{FEFF}'
  }

  predicate AllSpace(s: string) { forall i :: 0 <= i < |s| ==> IsSpace(s[i]) }

  predicate NoSpace(s: string) { forall i :: 0 <= i < |s| ==> !IsSpace(s[i]) }

  /** The number of white-space characters `s` starts with. */
  function LeadingSpaces(s: string): (n: nat)
    ensures n <= |s| && AllSpace(s[..n])
    ensures n < |s| ==> !IsSpace(s[n])
  {
    if s != [] && IsSpace(s[0]) then
      var m := LeadingSpaces(s[1..]);
      assert s[..1 + m] == [s[0]] + s[1..][..m];
      1 + m
    else
      0
  }

  /** The number of white-space characters `s` ends with. */
  function TrailingSpaces(s: string): (n: nat)
    ensures n <= |s|
    ensures forall i :: |s| - n <= i < |s| ==> IsSpace(s[i])
    ensures n < |s| ==> !IsSpace(s[|s| - n - 1])
  {
    if s != [] && IsSpace(s[|s| - 1]) then
      1 + TrailingSpaces(s[..|s| - 1])
    else
      0
  }

  /** `s.trimStart()`. */
  function TrimStart(s: string): (r: string)
    ensures r == [] || !IsSpace(r[0])
  {
    s[LeadingSpaces(s)..]
  }

  /** `s.trim()`: the slice of `s` between its leading and its trailing white space. */
  function Trim(s: string): (r: string)
    ensures r == [] || (!IsSpace(r[0]) && !IsSpace(r[|r| - 1]))
  {
    var i := LeadingSpaces(s);
    var t := s[i..];
    var n := TrailingSpaces(t);
    assert s[i..|s| - n] == t[..|t| - n];
    s[i..|s| - n]
  }

  /** What `trim` removes is white space, from both ends and nothing else. */
  lemma TrimIsSlice(s: string)
    ensures exists i, j :: 0 <= i <= j <= |s| && Trim(s) == s[i..j] && AllSpace(s[..i]) && AllSpace(s[j..])
  {
    var i := LeadingSpaces(s);
    var t := s[i..];
    var n := TrailingSpaces(t);
    var j := |s| - n;
    assert s[i..j] == t[..|t| - n];
    forall p | 0 <= p < |s| - j
      ensures IsSpace(s[j..][p])
    {
      assert s[j..][p] == t[|t| - n + p];
    }
    assert Trim(s) == s[i..j] && AllSpace(s[..i]) && AllSpace(s[j..]);
  }

  /** `s.split(...)` on a set of separator characters (`split(':')`, `split(/[,\n]/)`):
      the pieces between separators, empty ones included. */
  function Split(s: string, seps: set<char>): (r: seq<string>)
    ensures |r| >= 1
    ensures forall k :: 0 <= k < |r| ==> NoneOf(r[k], seps)
  {
    if s == [] then
      [""]
    else
      var rest := Split(s[1..], seps);
      if s[0] in seps then [""] + rest else [[s[0]] + rest[0]] + rest[1..]
  }

  predicate NoneOf(s: string, seps: set<char>) { forall i :: 0 <= i < |s| ==> s[i] !in seps }

  /** Joining pieces with one separator: the inverse of `Split` on that separator. */
  function Join(parts: seq<string>, sep: char): string
    decreases |parts|
  {
    if parts == [] then "" else if |parts| == 1 then parts[0] else parts[0] + [sep] + Join(parts[1..], sep)
  }

  /** Splitting on one character and joining back with it gives the original string. */
  lemma {:induction false} JoinSplit(s: string, sep: char)
    ensures Join(Split(s, {sep}), sep) == s
    decreases |s|
  {
    if s != [] {
      var rest := Split(s[1..], {sep});
      JoinSplit(s[1..], sep);
      if s[0] != sep {
        var r := Split(s, {sep});
        assert r[1..] == rest[1..];
        if |rest| > 1 {
          assert Join(r, sep) == r[0] + [sep] + Join(rest[1..], sep);
          assert Join(rest, sep) == rest[0] + [sep] + Join(rest[1..], sep);
        }
      }
    }
  }

  /** The pieces `parts` with the texts `gaps` between them: `parts[0] + gaps[0] + parts[1] + ...`. */
  function Interleave(parts: seq<string>, gaps: seq<string>): string
    requires |parts| >= 1 && |gaps| == |parts| - 1
    decreases |parts|
  {
    if |parts| == 1 then parts[0] else parts[0] + gaps[0] + Interleave(parts[1..], gaps[1..])
  }

  lemma InterleaveCons(p: string, g: string, parts: seq<string>, gaps: seq<string>)
    requires |parts| >= 1 && |gaps| == |parts| - 1
    ensures Interleave([p] + parts, [g] + gaps) == p + g + Interleave(parts, gaps)
  {
    assert ([p] + parts)[1..] == parts && ([g] + gaps)[1..] == gaps;
  }

  /** A character glued to the first piece comes first in the interleaving. */
  lemma {:induction false} InterleaveGlue(c: char, parts: seq<string>, gaps: seq<string>)
    requires |parts| >= 1 && |gaps| == |parts| - 1
    ensures Interleave([[c] + parts[0]] + parts[1..], gaps) == [c] + Interleave(parts, gaps)
  {
    var glued := [[c] + parts[0]] + parts[1..];
    assert glued[0] == [c] + parts[0] && glued[1..] == parts[1..];
    if |parts| > 1 {
      assert Interleave(glued, gaps) == glued[0] + gaps[0] + Interleave(parts[1..], gaps[1..]);
      assert Interleave(parts, gaps) == parts[0] + gaps[0] + Interleave(parts[1..], gaps[1..]);
    }
  }

  /** The separator characters of `s`, in order, each as a one-character text. */
  function Separators(s: string, seps: set<char>): seq<string>
    decreases |s|
  {
    if s == [] then [] else (if s[0] in seps then [[s[0]]] else []) + Separators(s[1..], seps)
  }

  /**
   * `Split` cuts `s` at every separator and loses nothing: putting each separator
   * back between the pieces gives `s`. With the separator-free pieces of `Split`'s
   * contract, this makes the pieces the text between consecutive separators.
   */
  lemma {:induction false} SplitInterleave(s: string, seps: set<char>)
    ensures |Separators(s, seps)| == |Split(s, seps)| - 1
    ensures forall k :: 0 <= k < |Separators(s, seps)| ==>
      |Separators(s, seps)[k]| == 1 && Separators(s, seps)[k][0] in seps
    ensures Interleave(Split(s, seps), Separators(s, seps)) == s
    decreases |s|
  {
    if s != [] {
      var rest := Split(s[1..], seps);
      var gs := Separators(s[1..], seps);
      SplitInterleave(s[1..], seps);
      assert s == [s[0]] + s[1..];
      if s[0] in seps {
        assert Split(s, seps) == [""] + rest && Separators(s, seps) == [[s[0]]] + gs;
        InterleaveCons("", [s[0]], rest, gs);
      } else {
        assert Split(s, seps) == [[s[0]] + rest[0]] + rest[1..] && Separators(s, seps) == gs;
        InterleaveGlue(s[0], rest, gs);
      }
    }
  }

  /** A string free of separators splits into itself. */
  lemma {:induction false} SplitNone(a: string, seps: set<char>)
    requires NoneOf(a, seps)
    ensures Split(a, seps) == [a]
    decreases |a|
  {
    if a != [] {
      SplitNone(a[1..], seps);
      assert [a[0]] + a[1..] == a;
    }
  }

  /** The first piece of a split ends at the first separator. */
  lemma {:induction false} SplitAfterFirst(a: string, c: char, b: string, seps: set<char>)
    requires NoneOf(a, seps) && c in seps
    ensures Split(a + [c] + b, seps) == [a] + Split(b, seps)
    decreases |a|
  {
    if a == [] {
      assert (a + [c] + b)[1..] == b;
    } else {
      var s := a + [c] + b;
      assert s[0] == a[0] && s[1..] == a[1..] + [c] + b;
      SplitAfterFirst(a[1..], c, b, seps);
      assert [a[0]] + a[1..] == a;
    }
  }

  /** A string with exactly one separator splits into the two sides. */
  lemma SplitPair(a: string, c: char, b: string, seps: set<char>)
    requires NoneOf(a, seps) && NoneOf(b, seps) && c in seps
    ensures Split(a + [c] + b, seps) == [a, b]
  {
    SplitAfterFirst(a, c, b, seps);
    SplitNone(b, seps);
  }

  /** `s.split(/\s+/)`: the pieces between runs of white space; the first and the last
      piece are empty when `s` starts or ends with white space, no other piece is. */
  function Words(s: string): (r: seq<string>)
    ensures |r| >= 1
    ensures forall k :: 0 <= k < |r| ==> NoSpace(r[k])
    ensures forall k :: 0 < k < |r| - 1 ==> r[k] != []
    ensures s != [] && !IsSpace(s[0]) ==> r[0] != []
    decreases |s|
  {
    if s == [] then
      [""]
    else if IsSpace(s[0]) then
      [""] + Words(TrimStart(s[1..]))
    else
      var rest := Words(s[1..]);
      [[s[0]] + rest[0]] + rest[1..]
  }

  /** The runs of white space `Words` cuts `s` at, in order. */
  function SpaceRuns(s: string): seq<string>
    decreases |s|
  {
    if s == [] then
      []
    else if IsSpace(s[0]) then
      [[s[0]] + s[1..][..LeadingSpaces(s[1..])]] + SpaceRuns(TrimStart(s[1..]))
    else
      SpaceRuns(s[1..])
  }

  /**
   * `Words` loses nothing: putting the white-space runs back between the pieces
   * gives `s`. With `Words`' contract (no piece holds white space, no middle piece
   * is empty) the pieces are exactly the maximal runs of non-space characters.
   */
  lemma {:induction false} WordsInterleave(s: string)
    ensures |SpaceRuns(s)| == |Words(s)| - 1
    ensures forall k :: 0 <= k < |SpaceRuns(s)| ==> SpaceRuns(s)[k] != [] && AllSpace(SpaceRuns(s)[k])
    ensures Interleave(Words(s), SpaceRuns(s)) == s
    decreases |s|, 1
  {
    if s != [] {
      if IsSpace(s[0]) {
        WordsAtSpace(s);
      } else {
        WordsAtLetter(s);
      }
    }
  }

  lemma {:induction false} WordsAtSpace(s: string)
    requires s != [] && IsSpace(s[0])
    ensures |SpaceRuns(s)| == |Words(s)| - 1
    ensures forall k :: 0 <= k < |SpaceRuns(s)| ==> SpaceRuns(s)[k] != [] && AllSpace(SpaceRuns(s)[k])
    ensures Interleave(Words(s), SpaceRuns(s)) == s
    decreases |s|, 0
  {
    var t := TrimStart(s[1..]);
    var run := SpaceStep(s);
    var words, runs := Words(t), SpaceRuns(t);
    WordsInterleave(t);
    RunsCons(run, runs);
    InterleaveCons("", run, words, runs);
    assert "" + run + Interleave(words, runs) == s;
  }

  /** One step of `Words` at a white-space character: the run it consumes, and what is left. */
  lemma SpaceStep(s: string) returns (run: string)
    requires s != [] && IsSpace(s[0])
    ensures run != [] && AllSpace(run)
    ensures s == run + TrimStart(s[1..])
    ensures Words(s) == [""] + Words(TrimStart(s[1..]))
    ensures SpaceRuns(s) == [run] + SpaceRuns(TrimStart(s[1..]))
  {
    var n := LeadingSpaces(s[1..]);
    run := [s[0]] + s[1..][..n];
    assert s == [s[0]] + s[1..] && s[1..] == s[1..][..n] + s[1..][n..];
    SpaceRun(s[0], s[1..][..n]);
  }

  lemma RunsCons(run: string, runs: seq<string>)
    requires run != [] && AllSpace(run)
    requires forall k :: 0 <= k < |runs| ==> runs[k] != [] && AllSpace(runs[k])
    ensures forall k :: 0 <= k < |[run] + runs| ==> ([run] + runs)[k] != [] && AllSpace(([run] + runs)[k])
  {
  }

  lemma {:induction false} WordsAtLetter(s: string)
    requires s != [] && !IsSpace(s[0])
    ensures |SpaceRuns(s)| == |Words(s)| - 1
    ensures forall k :: 0 <= k < |SpaceRuns(s)| ==> SpaceRuns(s)[k] != [] && AllSpace(SpaceRuns(s)[k])
    ensures Interleave(Words(s), SpaceRuns(s)) == s
    decreases |s|, 0
  {
    var rest := Words(s[1..]);
    WordsInterleave(s[1..]);
    assert Words(s) == [[s[0]] + rest[0]] + rest[1..] && SpaceRuns(s) == SpaceRuns(s[1..]);
    InterleaveGlue(s[0], rest, SpaceRuns(s[1..]));
    assert s == [s[0]] + s[1..];
  }

  lemma SpaceRun(c: char, spaces: string)
    requires IsSpace(c) && AllSpace(spaces)
    ensures AllSpace([c] + spaces)
  {
    forall i | 0 <= i < |[c] + spaces|
      ensures IsSpace(([c] + spaces)[i])
    {
      if i > 0 {
        assert ([c] + spaces)[i] == spaces[i - 1];
      }
    }
  }

  /** `s.padStart(2, '0')`: a digit string keeps its number value. */
  function PadStart2(s: string): (r: string)
    ensures |r| == if |s| < 2 then 2 else |s|
    ensures IsDigits(s) ==> IsDigits(r) && DigitsValue(r) == DigitsValue(s)
  {
    if |s| >= 2 then
      s
    else
      var r := if |s| == 1 then "0" + s else "00";
      assert IsDigits(s) ==> IsDigits(r) && DigitsValue(r) == DigitsValue(s) by {
        if IsDigits(s) {
          DigitsValueLeadingZero(s);
          if s == [] {
            DigitsValueLeadingZero("0");
          }
        }
      }
      r
  }

  /** Padding keeps the text as a suffix. */
  lemma PadStart2Suffix(s: string)
    ensures PadStart2(s)[|PadStart2(s)| - |s|..] == s
  {
  }
}
