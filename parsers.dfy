/**
 * The two message parsers of the chat assistant (`parseSubjectsFromMessage`
 * and `parseScheduleFromMessage` in `src/config/openai.ts`).
 *
 * Regular expressions are not modelled character by character. What the
 * parsers learn from them is given as inputs: whether one of the three
 * "subject with exam date" patterns matches the message (`patternMatched`),
 * and the hour pairs captured by the time-range pattern, in the order
 * `matchAll` finds them (`ranges`). The exam date the source derives from the
 * current day (`getDefaultExamDate(index)`) is the function `examDateFor`.
 * The splits the parsers do on white space, commas and newlines are modelled
 * exactly (`Strings.Words`, `Strings.Split`).
 */
module MessageParsing {
  import opened Wrappers
  import opened Strings
  import opened PlanningTypes
  import PlanningAlgorithm

  // ---------------------------------------------------------------------------
  // Subjects
  // ---------------------------------------------------------------------------

  const CommonSubjects: seq<string> := ["mathématiques", "histoire", "physique", "français", "anglais"]

  /** `s.slice(0, 4)`. */
  function Prefix4(s: string): string
  {
    if |s| <= 4 then s else s[..4]
  }

  /** `subjects.some(subject => word.includes(subject.slice(0, 4)))`. */
  predicate ContainsPrefixOfSome(word: string, subjects: seq<string>)
  {
    subjects != [] && (Includes(word, Prefix4(subjects[0])) || ContainsPrefixOfSome(word, subjects[1..]))
  }

  /** A word names a common subject when it contains the first four letters of one. */
  predicate NamesCommonSubject(word: string)
  {
    ContainsPrefixOfSome(word, CommonSubjects)
  }

  /** `subject_${n}`. */
  function SubjectId(n: nat): string
  {
    "subject_" + NatToString(n)
  }

  /** A subject read from the message: coefficient 1, revision, 8 hours, no progress. */
  function Extracted(id: string, name: string, examDate: string): Subject
  {
    Subject(id, name, 1.0, examDate, 8, 0, "revision")
  }

  predicate IsExtracted(s: Subject)
  {
    s.coefficient == 1.0 && s.kind == "revision" && s.estimatedHours == 8 && s.currentProgress == 0
  }

  /** The subject the parser falls back to when it finds nothing. */
  const DefaultSubject: Subject := Subject("subject_1", "Mathématiques", 2.0, "2025-01-20", 10, 0, "revision")

  /** A word of the message with what the word loop reads off it: whether it names a
      common subject, and the capitalized form the subject would be listed under. */
  datatype Candidate = Candidate(keep: bool, name: string)

  function WordCandidate(word: string): Candidate
  {
    Candidate(NamesCommonSubject(word), Capitalize(word))
  }

  function WordCandidates(words: seq<string>): seq<Candidate>
  {
    seq(|words|, i requires 0 <= i < |words| => WordCandidate(words[i]))
  }

  /**
   * The subjects read off the first `n` candidates: one per kept candidate, numbered
   * by how many were kept before it, dated by the candidate's position.
   */
  function Numbered(candidates: seq<Candidate>, examDateFor: int -> string, n: nat): (r: seq<Subject>)
    requires n <= |candidates|
    ensures |r| <= n
    ensures forall k :: 0 <= k < |r| ==> r[k].id == SubjectId(k) && IsExtracted(r[k])
  {
    if n == 0 then
      []
    else
      var prev := Numbered(candidates, examDateFor, n - 1);
      var c := candidates[n - 1];
      if c.keep then prev + [Extracted(SubjectId(|prev|), c.name, examDateFor(n - 1))] else prev
  }

  lemma NumberedNext(candidates: seq<Candidate>, examDateFor: int -> string, n: nat)
    requires n < |candidates|
    ensures var prev := Numbered(candidates, examDateFor, n);
      Numbered(candidates, examDateFor, n + 1)
        == prev + (if candidates[n].keep then [Extracted(SubjectId(|prev|), candidates[n].name, examDateFor(n))] else [])
  {
  }

  /** `s` is the `k`-th subject, read off one of the first `n` candidates that is kept. */
  predicate FromKept(candidates: seq<Candidate>, examDateFor: int -> string, n: nat, k: nat, s: Subject)
    requires n <= |candidates|
  {
    exists i :: 0 <= i < n && candidates[i].keep && s == Extracted(SubjectId(k), candidates[i].name, examDateFor(i))
  }

  /** Subject `s` appears in `r` at a position `k` and is numbered `k`. */
  predicate ListedAt(r: seq<Subject>, name: string, examDate: string)
  {
    exists k :: 0 <= k < |r| && r[k] == Extracted(SubjectId(k), name, examDate)
  }

  /** Every subject comes from a kept candidate. */
  lemma {:induction false} NumberedSound(candidates: seq<Candidate>, examDateFor: int -> string, n: nat)
    requires n <= |candidates|
    ensures forall k :: 0 <= k < |Numbered(candidates, examDateFor, n)| ==>
      FromKept(candidates, examDateFor, n, k, Numbered(candidates, examDateFor, n)[k])
  {
    if n > 0 {
      NumberedSound(candidates, examDateFor, n - 1);
      var prev := Numbered(candidates, examDateFor, n - 1);
      var r := Numbered(candidates, examDateFor, n);
      var c := candidates[n - 1];
      var extra := if c.keep then [Extracted(SubjectId(|prev|), c.name, examDateFor(n - 1))] else [];
      assert r == prev + extra;
      forall k | 0 <= k < |r|
        ensures FromKept(candidates, examDateFor, n, k, r[k])
      {
        if k < |prev| {
          assert FromKept(candidates, examDateFor, n - 1, k, prev[k]);
          var i :| 0 <= i < n - 1 && candidates[i].keep
            && prev[k] == Extracted(SubjectId(k), candidates[i].name, examDateFor(i));
          assert r[k] == prev[k];
        } else {
          assert r[k] == Extracted(SubjectId(k), c.name, examDateFor(n - 1));
        }
      }
    } else {
      assert Numbered(candidates, examDateFor, n) == [];
    }
  }

  /** Every kept candidate gives a subject. */
  lemma {:induction false} NumberedComplete(candidates: seq<Candidate>, examDateFor: int -> string, n: nat)
    requires n <= |candidates|
    ensures forall i :: 0 <= i < n && candidates[i].keep ==>
      ListedAt(Numbered(candidates, examDateFor, n), candidates[i].name, examDateFor(i))
  {
    if n > 0 {
      NumberedComplete(candidates, examDateFor, n - 1);
      NumberedNext(candidates, examDateFor, n - 1);
      var prev := Numbered(candidates, examDateFor, n - 1);
      var c := candidates[n - 1];
      var extra := if c.keep then [Extracted(SubjectId(|prev|), c.name, examDateFor(n - 1))] else [];
      forall i | 0 <= i < n && candidates[i].keep
        ensures ListedAt(prev + extra, candidates[i].name, examDateFor(i))
      {
        if i < n - 1 {
          ListedAtAppend(prev, extra, candidates[i].name, examDateFor(i));
        } else {
          ListedAtEnd(prev, c.name, examDateFor(n - 1));
        }
      }
    }
  }

  /** The positions, among the first `n`, of the kept candidates, in message order. */
  function KeptIndices(candidates: seq<Candidate>, n: nat): (r: seq<nat>)
    requires n <= |candidates|
    ensures forall k :: 0 <= k < |r| ==> r[k] < n && candidates[r[k]].keep
    ensures forall a, b :: 0 <= a < b < |r| ==> r[a] < r[b]
    ensures forall i :: 0 <= i < n && candidates[i].keep ==> i in r
  {
    if n == 0 then [] else KeptIndices(candidates, n - 1) + (if candidates[n - 1].keep then [n - 1] else [])
  }

  /** The `k`-th subject is read off the `k`-th kept candidate: the subjects follow the message. */
  lemma {:induction false} NumberedInOrder(candidates: seq<Candidate>, examDateFor: int -> string, n: nat)
    requires n <= |candidates|
    ensures |Numbered(candidates, examDateFor, n)| == |KeptIndices(candidates, n)|
    ensures forall k :: 0 <= k < |KeptIndices(candidates, n)| ==>
      var i := KeptIndices(candidates, n)[k];
      Numbered(candidates, examDateFor, n)[k] == Extracted(SubjectId(k), candidates[i].name, examDateFor(i))
  {
    if n > 0 {
      NumberedInOrder(candidates, examDateFor, n - 1);
      NumberedNext(candidates, examDateFor, n - 1);
      var prev := Numbered(candidates, examDateFor, n - 1);
      var r := Numbered(candidates, examDateFor, n);
      var before := KeptIndices(candidates, n - 1);
      var ks := KeptIndices(candidates, n);
      assert ks == before + (if candidates[n - 1].keep then [n - 1] else []);
      forall k | 0 <= k < |ks|
        ensures r[k] == Extracted(SubjectId(k), candidates[ks[k]].name, examDateFor(ks[k]))
      {
        if k < |before| {
          assert ks[k] == before[k] && r[k] == prev[k];
        } else {
          assert ks[k] == n - 1;
        }
      }
    }
  }

  lemma ListedAtAppend(r: seq<Subject>, extra: seq<Subject>, name: string, examDate: string)
    requires ListedAt(r, name, examDate)
    ensures ListedAt(r + extra, name, examDate)
  {
    var k :| 0 <= k < |r| && r[k] == Extracted(SubjectId(k), name, examDate);
    assert (r + extra)[k] == r[k];
  }

  lemma ListedAtEnd(r: seq<Subject>, name: string, examDate: string)
    ensures ListedAt(r + [Extracted(SubjectId(|r|), name, examDate)], name, examDate)
  {
    var s := r + [Extracted(SubjectId(|r|), name, examDate)];
    assert s[|r|] == Extracted(SubjectId(|r|), name, examDate);
  }

  /** The word path's subjects: one per word of the lower-cased message that names a
      common subject, listed capitalized, in order, with the word's position as the
      exam date index. */
  function WordSubjects(words: seq<string>, examDateFor: int -> string): seq<Subject>
  {
    Numbered(WordCandidates(words), examDateFor, |words|)
  }

  /** `s` is the `k`-th subject listed for some word that names a common subject. */
  predicate FromCommonWord(words: seq<string>, examDateFor: int -> string, k: nat, s: Subject)
  {
    exists i :: 0 <= i < |words| && NamesCommonSubject(words[i])
      && s == Extracted(SubjectId(k), Capitalize(words[i]), examDateFor(i))
  }

  /** Every subject of the word path comes from a word that names a common subject. */
  lemma WordSubjectsSound(words: seq<string>, examDateFor: int -> string)
    ensures forall k :: 0 <= k < |WordSubjects(words, examDateFor)| ==>
      FromCommonWord(words, examDateFor, k, WordSubjects(words, examDateFor)[k])
  {
    var r := WordSubjects(words, examDateFor);
    forall k | 0 <= k < |r|
      ensures FromCommonWord(words, examDateFor, k, r[k])
    {
      WordSubjectSound(words, examDateFor, k);
    }
  }

  lemma WordSubjectSound(words: seq<string>, examDateFor: int -> string, k: nat)
    requires k < |WordSubjects(words, examDateFor)|
    ensures FromCommonWord(words, examDateFor, k, WordSubjects(words, examDateFor)[k])
  {
    var candidates := WordCandidates(words);
    var r := WordSubjects(words, examDateFor);
    NumberedSound(candidates, examDateFor, |words|);
    assert FromKept(candidates, examDateFor, |words|, k, r[k]);
    var i :| 0 <= i < |words| && candidates[i].keep
      && r[k] == Extracted(SubjectId(k), candidates[i].name, examDateFor(i));
    assert candidates[i] == WordCandidate(words[i]);
  }

  /** Every word that names a common subject gives a subject of the word path. */
  lemma WordSubjectsComplete(words: seq<string>, examDateFor: int -> string)
    ensures forall i :: 0 <= i < |words| && NamesCommonSubject(words[i]) ==>
      ListedAt(WordSubjects(words, examDateFor), Capitalize(words[i]), examDateFor(i))
  {
    var candidates := WordCandidates(words);
    NumberedComplete(candidates, examDateFor, |words|);
    forall i | 0 <= i < |words| && NamesCommonSubject(words[i])
      ensures ListedAt(WordSubjects(words, examDateFor), Capitalize(words[i]), examDateFor(i))
    {
      assert candidates[i] == WordCandidate(words[i]);
    }
  }

  /** `.map(s => s.trim())`. */
  function TrimAll(parts: seq<string>): seq<string>
  {
    seq(|parts|, i requires 0 <= i < |parts| => Trim(parts[i]))
  }

  /** `.filter(s => s.length > 2)` on the first `n` names. */
  function LongerThanTwo(names: seq<string>, n: nat): (r: seq<string>)
    requires n <= |names|
    ensures |r| <= n
    ensures forall k :: 0 <= k < |r| ==> |r[k]| > 2
  {
    if n == 0 then
      []
    else
      var prev := LongerThanTwo(names, n - 1);
      if |names[n - 1]| > 2 then prev + [names[n - 1]] else prev
  }

  /** Every name kept is one of the names. */
  lemma {:induction false} LongerThanTwoSound(names: seq<string>, n: nat)
    requires n <= |names|
    ensures forall k :: 0 <= k < |LongerThanTwo(names, n)| ==>
      exists i :: 0 <= i < n && LongerThanTwo(names, n)[k] == names[i]
  {
    if n > 0 {
      LongerThanTwoSound(names, n - 1);
      var prev := LongerThanTwo(names, n - 1);
      var r := LongerThanTwo(names, n);
      var extra := if |names[n - 1]| > 2 then [names[n - 1]] else [];
      assert r == prev + extra;
      forall k | 0 <= k < |r|
        ensures exists i :: 0 <= i < n && r[k] == names[i]
      {
        if k < |prev| {
          assert r[k] == prev[k];
        } else {
          assert r[k] == names[n - 1];
        }
      }
    } else {
      assert LongerThanTwo(names, n) == [];
    }
  }

  /** Every name longer than two characters is kept. */
  lemma {:induction false} LongerThanTwoComplete(names: seq<string>, n: nat)
    requires n <= |names|
    ensures forall i :: 0 <= i < n && |names[i]| > 2 ==> names[i] in LongerThanTwo(names, n)
  {
    if n > 0 {
      LongerThanTwoComplete(names, n - 1);
      var prev := LongerThanTwo(names, n - 1);
      var r := LongerThanTwo(names, n);
      var extra := if |names[n - 1]| > 2 then [names[n - 1]] else [];
      assert r == prev + extra;
      forall i | 0 <= i < n && |names[i]| > 2
        ensures names[i] in r
      {
        if i < n - 1 {
          assert names[i] in prev;
        } else {
          assert r[|r| - 1] == names[n - 1];
        }
      }
    }
  }

  /** `subjectNames` of the comma path: the pieces between commas and newlines,
      trimmed, that are longer than two characters. */
  function SubjectNames(message: string): seq<string>
  {
    NamesOfPieces(Split(message, {',', '\n'}))
  }

  /** The names of some pieces: trimmed, longer than two characters, kept in order. */
  function NamesOfPieces(parts: seq<string>): seq<string>
  {
    LongerThanTwo(TrimAll(parts), |parts|)
  }

  /** Each name is a trimmed piece, longer than two characters (and so, by `Trim`,
      with no white space at either end). */
  lemma NamesOfPiecesSound(parts: seq<string>)
    ensures forall k :: 0 <= k < |NamesOfPieces(parts)| ==>
      |NamesOfPieces(parts)[k]| > 2 && exists i :: 0 <= i < |parts| && NamesOfPieces(parts)[k] == Trim(parts[i])
  {
    var trimmed := TrimAll(parts);
    var names := NamesOfPieces(parts);
    LongerThanTwoSound(trimmed, |trimmed|);
    forall k | 0 <= k < |names|
      ensures exists i :: 0 <= i < |parts| && names[k] == Trim(parts[i])
    {
      var i :| 0 <= i < |trimmed| && names[k] == trimmed[i];
      assert names[k] == Trim(parts[i]);
    }
  }

  /** Every piece longer than two characters once trimmed gives a name. */
  lemma NamesOfPiecesComplete(parts: seq<string>)
    ensures forall i :: 0 <= i < |parts| && |Trim(parts[i])| > 2 ==> Trim(parts[i]) in NamesOfPieces(parts)
  {
    var trimmed := TrimAll(parts);
    LongerThanTwoComplete(trimmed, |trimmed|);
    forall i | 0 <= i < |parts| && |Trim(parts[i])| > 2
      ensures Trim(parts[i]) in NamesOfPieces(parts)
    {
      assert trimmed[i] == Trim(parts[i]);
    }
  }

  /** One subject per name, numbered and dated by its position among the names. */
  function CommaSubjects(names: seq<string>, examDateFor: int -> string): seq<Subject>
  {
    seq(|names|, k requires 0 <= k < |names| => Extracted(SubjectId(k), Capitalize(names[k]), examDateFor(k)))
  }

  /** The comma path numbers its subjects from `subject_0`, one per name. */
  lemma CommaSubjectsNumbered(names: seq<string>, examDateFor: int -> string)
    ensures |CommaSubjects(names, examDateFor)| == |names|
    ensures forall k :: 0 <= k < |names| ==>
      CommaSubjects(names, examDateFor)[k].id == SubjectId(k) && IsExtracted(CommaSubjects(names, examDateFor)[k])
  {
    var r := CommaSubjects(names, examDateFor);
    forall k | 0 <= k < |names|
      ensures r[k].id == SubjectId(k) && IsExtracted(r[k])
    {
      assert r[k] == Extracted(SubjectId(k), Capitalize(names[k]), examDateFor(k));
    }
  }

  /** The subjects the word path finds; none when a date pattern matched, as that skips it. */
  function FromWords(message: string, patternMatched: bool, examDateFor: int -> string): seq<Subject>
  {
    if patternMatched then
      []
    else
      WordSubjects(Words(Lower(message)), examDateFor)
  }

  /** What `parseSubjectsFromMessage` returns. */
  function SubjectsOfMessage(message: string, patternMatched: bool, examDateFor: int -> string): seq<Subject>
  {
    var fromWords := FromWords(message, patternMatched, examDateFor);
    var found := if fromWords != [] then fromWords else CommaSubjects(SubjectNames(message), examDateFor);
    if found != [] then found else [DefaultSubject]
  }

  /** `parseSubjectsFromMessage`: the word loop, then the comma loop if it found nothing. */
  method ParseSubjects(message: string, patternMatched: bool, examDateFor: int -> string) returns (subjects: seq<Subject>)
    ensures subjects == SubjectsOfMessage(message, patternMatched, examDateFor)
  {
    subjects := [];
    if !patternMatched {
      subjects := CollectWordSubjects(Words(Lower(message)), examDateFor);
    }
    if |subjects| == 0 {
      subjects := CollectCommaSubjects(SubjectNames(message), examDateFor);
    }
    if |subjects| == 0 {
      subjects := [DefaultSubject];
    }
  }

  /** `words.forEach(...)`: pushes a subject for each word that names a common subject. */
  method CollectWordSubjects(words: seq<string>, examDateFor: int -> string) returns (subjects: seq<Subject>)
    ensures subjects == WordSubjects(words, examDateFor)
  {
    ghost var candidates := WordCandidates(words);
    subjects := [];
    var index := 0;
    while index < |words|
      invariant 0 <= index <= |words|
      invariant subjects == Numbered(candidates, examDateFor, index)
    {
      NumberedNext(candidates, examDateFor, index);
      subjects := AddWordSubject(subjects, words[index], examDateFor(index));
      index := index + 1;
    }
  }

  /** One pass of the word loop. */
  method AddWordSubject(subjects0: seq<Subject>, word: string, examDate: string) returns (subjects: seq<Subject>)
    ensures var c := WordCandidate(word);
      subjects == subjects0 + if c.keep then [Extracted(SubjectId(|subjects0|), c.name, examDate)] else []
  {
    subjects := subjects0;
    if NamesCommonSubject(word) {
      subjects := subjects + [Extracted(SubjectId(|subjects|), Capitalize(word), examDate)];
    }
  }

  /** `subjectNames.forEach(...)`: pushes a subject for each name. */
  method CollectCommaSubjects(subjectNames: seq<string>, examDateFor: int -> string) returns (subjects: seq<Subject>)
    ensures subjects == CommaSubjects(subjectNames, examDateFor)
  {
    subjects := [];
    var index := 0;
    while index < |subjectNames|
      invariant 0 <= index <= |subjectNames|
      invariant subjects == CommaSubjects(subjectNames[..index], examDateFor)
    {
      var name := subjectNames[index];
      assert subjectNames[..index + 1] == subjectNames[..index] + [name];
      subjects := subjects + [Extracted(SubjectId(index), Capitalize(name), examDateFor(index))];
      index := index + 1;
    }
    assert subjectNames[..index] == subjectNames;
  }

  /**
   * The parser always returns at least one subject; it returns the default subject
   * exactly when neither path finds one, and otherwise subjects numbered
   * `subject_0`, `subject_1`, ... with coefficient 1, 8 hours and no progress.
   */
  lemma SubjectsOfMessageShape(message: string, patternMatched: bool, examDateFor: int -> string)
    ensures var r := SubjectsOfMessage(message, patternMatched, examDateFor);
      && r != []
      && (r == [DefaultSubject] <==> FromWords(message, patternMatched, examDateFor) == [] && SubjectNames(message) == [])
      && (r != [DefaultSubject] ==> forall k :: 0 <= k < |r| ==> r[k].id == SubjectId(k) && IsExtracted(r[k]))
  {
    var r := SubjectsOfMessage(message, patternMatched, examDateFor);
    var fromWords := FromWords(message, patternMatched, examDateFor);
    var names := SubjectNames(message);
    if fromWords != [] {
      assert r == fromWords;
      assert IsExtracted(r[0]);
    } else if names != [] {
      CommaSubjectsNumbered(names, examDateFor);
      assert r == CommaSubjects(names, examDateFor);
      assert IsExtracted(r[0]);
    } else {
      assert r == [DefaultSubject];
    }
  }

  /** `subject_${a}` and `subject_${b}` differ when `a` and `b` do. */
  lemma SubjectIdInjective(a: nat, b: nat)
    requires a != b
    ensures SubjectId(a) != SubjectId(b)
  {
    NatToStringInjective(a, b);
    assert SubjectId(a)[8..] == NatToString(a);
    assert SubjectId(b)[8..] == NatToString(b);
  }

  /** The subjects the parser returns have pairwise distinct identifiers. */
  lemma ParsedIdsDistinct(message: string, patternMatched: bool, examDateFor: int -> string, i: nat, j: nat)
    requires i < j < |SubjectsOfMessage(message, patternMatched, examDateFor)|
    ensures SubjectsOfMessage(message, patternMatched, examDateFor)[i].id != SubjectsOfMessage(message, patternMatched, examDateFor)[j].id
  {
    var r := SubjectsOfMessage(message, patternMatched, examDateFor);
    SubjectsOfMessageShape(message, patternMatched, examDateFor);
    assert r != [DefaultSubject];
    SubjectIdInjective(i, j);
  }

  /** When no date pattern matches and some word names a common subject, the result
      is exactly the word path's subjects: the comma path is not taken. */
  lemma WordPathWins(message: string, examDateFor: int -> string, i: nat)
    requires i < |Words(Lower(message))| && NamesCommonSubject(Words(Lower(message))[i])
    ensures SubjectsOfMessage(message, false, examDateFor) == FromWords(message, false, examDateFor)
    ensures FromWords(message, false, examDateFor) != []
  {
    WordSubjectsComplete(Words(Lower(message)), examDateFor);
  }

  /** A matched date pattern sends every message down the comma path, which keeps
      each long enough trimmed piece whole (dates and all) as a subject name. */
  lemma PatternUsesCommaPath(message: string, examDateFor: int -> string)
    ensures SubjectNames(message) != [] ==>
      SubjectsOfMessage(message, true, examDateFor) == CommaSubjects(SubjectNames(message), examDateFor)
    ensures SubjectNames(message) == [] ==> SubjectsOfMessage(message, true, examDateFor) == [DefaultSubject]
  {
  }

  // ---------------------------------------------------------------------------
  // Schedule
  // ---------------------------------------------------------------------------

  const DayNames: seq<string> := ["lundi", "mardi", "mercredi", "jeudi", "vendredi", "samedi", "dimanche"]

  /** The two hour groups one match of the time-range pattern captures. */
  datatype TimeRange = TimeRange(startHour: string, endHour: string)

  /** `slot_${day}_${slot}`. */
  function SlotId(day: nat, slot: nat): string
  {
    "slot_" + NatToString(day) + "_" + NatToString(slot)
  }

  /** The slot built from the `slotIndex`-th range for the day at `day` in `DayNames`. */
  function RangeSlot(day: nat, slotIndex: nat, range: TimeRange): TimeSlot
  {
    TimeSlot(SlotId(day, slotIndex), day + 1, PadStart2(range.startHour) + ":00", PadStart2(range.endHour) + ":00", true)
  }

  /** Every range of the message, for one day. */
  function DaySlots(day: nat, ranges: seq<TimeRange>): (r: seq<TimeSlot>)
    ensures |r| == |ranges|
    decreases |ranges|
  {
    if ranges == [] then
      []
    else
      DaySlots(day, ranges[..|ranges| - 1]) + [RangeSlot(day, |ranges| - 1, ranges[|ranges| - 1])]
  }

  /** For each entry of `DayNames`, whether the lower-cased message contains it. */
  function DaysNamed(lower: string): seq<bool>
  {
    seq(|DayNames|, i requires 0 <= i < |DayNames| => Includes(lower, DayNames[i]))
  }

  /** The slots for the first `n` days, given which days are named. */
  function SlotsUpTo(named: seq<bool>, ranges: seq<TimeRange>, n: nat): seq<TimeSlot>
    requires n <= |named|
  {
    if n == 0 then
      []
    else
      SlotsUpTo(named, ranges, n - 1) + (if named[n - 1] then DaySlots(n - 1, ranges) else [])
  }

  const DefaultSlots: seq<TimeSlot> := [
    TimeSlot("slot_1", 1, "14:00", "16:00", true),
    TimeSlot("slot_2", 2, "09:00", "11:00", true),
    TimeSlot("slot_3", 3, "18:00", "20:00", true)]

  /** The slots of the day loop, before the fallback. */
  function NamedDaySlots(message: string, ranges: seq<TimeRange>): seq<TimeSlot>
  {
    SlotsUpTo(DaysNamed(Lower(message)), ranges, |DayNames|)
  }

  /** What `parseScheduleFromMessage` returns. */
  function ScheduleOfMessage(message: string, ranges: seq<TimeRange>): seq<TimeSlot>
  {
    var slots := NamedDaySlots(message, ranges);
    if slots == [] then DefaultSlots else slots
  }

  /** `parseScheduleFromMessage`: for each day named in the message, one slot per range. */
  method ParseSchedule(message: string, ranges: seq<TimeRange>) returns (slots: seq<TimeSlot>)
    ensures slots == ScheduleOfMessage(message, ranges)
  {
    ghost var named := DaysNamed(Lower(message));
    slots := [];
    var index := 0;
    while index < |DayNames|
      invariant 0 <= index <= |DayNames|
      invariant slots == SlotsUpTo(named, ranges, index)
    {
      var day := DayNames[index];
      if Includes(Lower(message), day) {
        slots := AppendDaySlots(slots, index, ranges);
      }
      index := index + 1;
    }
    if |slots| == 0 {
      slots := DefaultSlots;
    }
  }

  /** `matches.forEach(...)` for one day: pushes one slot per range. */
  method AppendDaySlots(slots0: seq<TimeSlot>, day: nat, ranges: seq<TimeRange>) returns (slots: seq<TimeSlot>)
    ensures slots == slots0 + DaySlots(day, ranges)
  {
    slots := slots0;
    var slotIndex := 0;
    while slotIndex < |ranges|
      invariant 0 <= slotIndex <= |ranges|
      invariant slots == slots0 + DaySlots(day, ranges[..slotIndex])
    {
      var slot := RangeSlot(day, slotIndex, ranges[slotIndex]);
      assert ranges[..slotIndex + 1][..slotIndex] == ranges[..slotIndex];
      slots := slots + [slot];
      slotIndex := slotIndex + 1;
    }
    assert ranges[..slotIndex] == ranges;
  }

  lemma SlotsUpToStep(named: seq<bool>, ranges: seq<TimeRange>, n: nat)
    requires 0 < n <= |named|
    ensures SlotsUpTo(named, ranges, n) ==
      SlotsUpTo(named, ranges, n - 1) + (if named[n - 1] then DaySlots(n - 1, ranges) else [])
  {
  }

  /** How many of the first `n` days are named. */
  function DaysMentioned(named: seq<bool>, n: nat): (r: nat)
    requires n <= |named|
    ensures r <= n
  {
    if n == 0 then 0 else DaysMentioned(named, n - 1) + (if named[n - 1] then 1 else 0)
  }

  /** Each named day gets every range: days times ranges slots. */
  lemma {:induction false} SlotsCount(named: seq<bool>, ranges: seq<TimeRange>, n: nat)
    requires n <= |named|
    ensures |SlotsUpTo(named, ranges, n)| == DaysMentioned(named, n) * |ranges|
  {
    if n > 0 {
      SlotsCount(named, ranges, n - 1);
      var c := DaysMentioned(named, n - 1);
      assert |SlotsUpTo(named, ranges, n)| == c * |ranges| + (if named[n - 1] then |ranges| else 0);
      MultiplySuccessor(c, |ranges|);
    }
  }

  /** `slot` is for one of the first `n` days, numbered from 1, that is named, on one
      of the ranges. */
  predicate SlotOfNamedDay(named: seq<bool>, ranges: seq<TimeRange>, n: nat, slot: TimeSlot)
    requires n <= |named|
  {
    && 1 <= slot.dayOfWeek <= n
    && named[slot.dayOfWeek - 1]
    && exists j :: 0 <= j < |ranges| && slot == RangeSlot(slot.dayOfWeek - 1, j, ranges[j])
  }

  /** Every slot is for a named day, numbered from 1, on one of the ranges. */
  lemma {:induction false} SlotsSound(named: seq<bool>, ranges: seq<TimeRange>, n: nat)
    requires n <= |named|
    ensures forall k :: 0 <= k < |SlotsUpTo(named, ranges, n)| ==>
      SlotOfNamedDay(named, ranges, n, SlotsUpTo(named, ranges, n)[k])
  {
    if n > 0 {
      SlotsSound(named, ranges, n - 1);
      var prev := SlotsUpTo(named, ranges, n - 1);
      var r := SlotsUpTo(named, ranges, n);
      var extra := if named[n - 1] then DaySlots(n - 1, ranges) else [];
      assert r == prev + extra;
      forall k | 0 <= k < |r|
        ensures SlotOfNamedDay(named, ranges, n, r[k])
      {
        if k < |prev| {
          assert r[k] == prev[k];
          assert SlotOfNamedDay(named, ranges, n - 1, prev[k]);
        } else {
          var j := k - |prev|;
          DaySlotAt(n - 1, ranges, j);
          assert r[k] == RangeSlot(n - 1, j, ranges[j]);
        }
      }
    } else {
      assert SlotsUpTo(named, ranges, n) == [];
    }
  }

  /** The slots come in the order of the days, whatever the order of the message. */
  lemma {:induction false} SlotsOrdered(named: seq<bool>, ranges: seq<TimeRange>, n: nat)
    requires n <= |named|
    ensures forall a, b :: 0 <= a < b < |SlotsUpTo(named, ranges, n)| ==>
      SlotsUpTo(named, ranges, n)[a].dayOfWeek <= SlotsUpTo(named, ranges, n)[b].dayOfWeek
  {
    if n > 0 {
      SlotsOrdered(named, ranges, n - 1);
      SlotsBefore(named, ranges, n - 1);
      var prev := SlotsUpTo(named, ranges, n - 1);
      var extra := if named[n - 1] then DaySlots(n - 1, ranges) else [];
      DaySlotsDay(n - 1, ranges);
      SlotsUpToStep(named, ranges, n);
      OrderedAppend(prev, extra, n);
    }
  }

  /** The slots of the first `n` days are for days `1..n`. */
  lemma SlotsBefore(named: seq<bool>, ranges: seq<TimeRange>, n: nat)
    requires n <= |named|
    ensures forall k :: 0 <= k < |SlotsUpTo(named, ranges, n)| ==> SlotsUpTo(named, ranges, n)[k].dayOfWeek <= n
  {
    SlotsSound(named, ranges, n);
    forall k | 0 <= k < |SlotsUpTo(named, ranges, n)|
      ensures SlotsUpTo(named, ranges, n)[k].dayOfWeek <= n
    {
      assert SlotOfNamedDay(named, ranges, n, SlotsUpTo(named, ranges, n)[k]);
    }
  }

  lemma DaySlotsDay(day: nat, ranges: seq<TimeRange>)
    ensures forall j :: 0 <= j < |DaySlots(day, ranges)| ==> DaySlots(day, ranges)[j].dayOfWeek == day + 1
  {
    forall j | 0 <= j < |DaySlots(day, ranges)|
      ensures DaySlots(day, ranges)[j].dayOfWeek == day + 1
    {
      DaySlotAt(day, ranges, j);
    }
  }

  /** Appending slots for a later day keeps the order of the days. */
  lemma OrderedAppend(prev: seq<TimeSlot>, extra: seq<TimeSlot>, day: int)
    requires forall a, b :: 0 <= a < b < |prev| ==> prev[a].dayOfWeek <= prev[b].dayOfWeek
    requires forall k :: 0 <= k < |prev| ==> prev[k].dayOfWeek < day
    requires forall k :: 0 <= k < |extra| ==> extra[k].dayOfWeek == day
    ensures forall a, b :: 0 <= a < b < |prev + extra| ==> (prev + extra)[a].dayOfWeek <= (prev + extra)[b].dayOfWeek
  {
  }

  /** Every range is attached to every named day. */
  lemma SlotsComplete(named: seq<bool>, ranges: seq<TimeRange>, n: nat)
    requires n <= |named|
    ensures forall i, j :: 0 <= i < n && named[i] && 0 <= j < |ranges| ==>
      RangeSlot(i, j, ranges[j]) in SlotsUpTo(named, ranges, n)
  {
    forall i, j | 0 <= i < n && named[i] && 0 <= j < |ranges|
      ensures RangeSlot(i, j, ranges[j]) in SlotsUpTo(named, ranges, n)
    {
      SlotInSlotsUpTo(named, ranges, n, i, j);
      DaySlotAt(i, ranges, j);
    }
  }

  lemma SlotInSlotsUpTo(named: seq<bool>, ranges: seq<TimeRange>, n: nat, i: nat, j: nat)
    requires i < n <= |named| && named[i] && j < |ranges|
    ensures DaySlots(i, ranges)[j] in SlotsUpTo(named, ranges, n)
  {
    var upTo := SlotsUpTo(named, ranges, i + 1);
    SlotsUpToStep(named, ranges, i + 1);
    SlotsUpToPrefix(named, ranges, i + 1, n);
    InPrefixRight(SlotsUpTo(named, ranges, i), DaySlots(i, ranges), upTo, SlotsUpTo(named, ranges, n), j);
  }

  /** The `j`-th slot of a day is built from the `j`-th range. */
  lemma {:induction false} DaySlotAt(day: nat, ranges: seq<TimeRange>, j: nat)
    requires j < |ranges|
    ensures DaySlots(day, ranges)[j] == RangeSlot(day, j, ranges[j])
    decreases |ranges|
  {
    var init := ranges[..|ranges| - 1];
    if j < |init| {
      DaySlotAt(day, init, j);
      assert ranges[j] == init[j];
    }
  }

  lemma InPrefixRight<T>(a: seq<T>, b: seq<T>, p: seq<T>, c: seq<T>, j: nat)
    requires p == a + b && p <= c && j < |b|
    ensures b[j] in c
  {
    assert c[|a| + j] == p[|a| + j] == b[j];
  }

  /** The slots of the first `m` days start the slots of the first `n`. */
  lemma {:induction false} SlotsUpToPrefix(named: seq<bool>, ranges: seq<TimeRange>, m: nat, n: nat)
    requires m <= n <= |named|
    ensures SlotsUpTo(named, ranges, m) <= SlotsUpTo(named, ranges, n)
    decreases n - m
  {
    if m < n {
      SlotsUpToPrefix(named, ranges, m, n - 1);
      SlotsUpToStep(named, ranges, n);
      PrefixOfAppend(SlotsUpTo(named, ranges, m), SlotsUpTo(named, ranges, n - 1),
        if named[n - 1] then DaySlots(n - 1, ranges) else []);
    }
  }

  lemma PrefixOfAppend<T>(a: seq<T>, b: seq<T>, c: seq<T>)
    requires a <= b
    ensures a <= b + c
  {
    assert (b + c)[..|a|] == b[..|a|];
  }

  /**
   * The slots of the day loop: each is for a day the message names, on one of the
   * message's ranges, and they come in the order Monday to Sunday whatever the order
   * of the message.
   */
  lemma NamedDaySlotsSound(message: string, ranges: seq<TimeRange>)
    ensures var r := NamedDaySlots(message, ranges);
      && (forall k :: 0 <= k < |r| ==>
        && 1 <= r[k].dayOfWeek <= 7
        && Includes(Lower(message), DayNames[r[k].dayOfWeek - 1])
        && exists j :: 0 <= j < |ranges| && r[k] == RangeSlot(r[k].dayOfWeek - 1, j, ranges[j]))
      && (forall a, b :: 0 <= a < b < |r| ==> r[a].dayOfWeek <= r[b].dayOfWeek)
  {
    var named := DaysNamed(Lower(message));
    var r := NamedDaySlots(message, ranges);
    SlotsSound(named, ranges, |DayNames|);
    SlotsOrdered(named, ranges, |DayNames|);
    forall k | 0 <= k < |r|
      ensures 1 <= r[k].dayOfWeek <= 7
      ensures Includes(Lower(message), DayNames[r[k].dayOfWeek - 1])
      ensures exists j :: 0 <= j < |ranges| && r[k] == RangeSlot(r[k].dayOfWeek - 1, j, ranges[j])
    {
      assert SlotOfNamedDay(named, ranges, |DayNames|, r[k]);
      assert named[r[k].dayOfWeek - 1];
    }
  }

  /** Each range of the message is attached to each day the message names, not only
      to the day it follows. */
  lemma NamedDaySlotsComplete(message: string, ranges: seq<TimeRange>)
    ensures forall i, j :: 0 <= i < |DayNames| && Includes(Lower(message), DayNames[i]) && 0 <= j < |ranges| ==>
      RangeSlot(i, j, ranges[j]) in NamedDaySlots(message, ranges)
  {
    var named := DaysNamed(Lower(message));
    forall i | 0 <= i < |DayNames|
      ensures named[i] == Includes(Lower(message), DayNames[i])
    {
    }
    SlotsComplete(named, ranges, |DayNames|);
  }

  lemma SlotIdLength(day: nat, slot: nat)
    ensures |SlotId(day, slot)| >= 8
  {
  }

  /**
   * The schedule parser falls back to the three default slots exactly when the
   * message names no day or holds no time range; otherwise it returns one slot per
   * (named day, range) pair.
   */
  lemma ScheduleShape(message: string, ranges: seq<TimeRange>)
    ensures var r := ScheduleOfMessage(message, ranges);
      var days := DaysMentioned(DaysNamed(Lower(message)), |DayNames|);
      && (r == DefaultSlots <==> days == 0 || ranges == [])
      && (days > 0 && ranges != [] ==> r == NamedDaySlots(message, ranges) && |r| == days * |ranges|)
  {
    var named := DaysNamed(Lower(message));
    SlotsCount(named, ranges, |DayNames|);
    var s := SlotsUpTo(named, ranges, |DayNames|);
    var days := DaysMentioned(named, |DayNames|);
    if days > 0 && ranges != [] {
      assert |s| >= |ranges| by {
        assert days * |ranges| >= |ranges|;
      }
      SlotsSound(named, ranges, |DayNames|);
      assert SlotOfNamedDay(named, ranges, |DayNames|, s[0]);
      var j :| 0 <= j < |ranges| && s[0] == RangeSlot(s[0].dayOfWeek - 1, j, ranges[j]);
      SlotIdLength(s[0].dayOfWeek - 1, j);
      assert s[0] != DefaultSlots[0];
    }
  }

  /** A parsed slot whose hours are digits lasts (end - start) hours, in minutes,
      as the scheduler computes it. */
  lemma RangeSlotDuration(day: nat, slotIndex: nat, range: TimeRange)
    requires IsDigits(range.startHour) && IsDigits(range.endHour)
    ensures var slot := RangeSlot(day, slotIndex, range);
      PlanningAlgorithm.Duration(slot.startTime, slot.endTime)
        == Some((DigitsValue(range.endHour) - DigitsValue(range.startHour)) * 60)
  {
    var slot := RangeSlot(day, slotIndex, range);
    var s := PadStart2(range.startHour);
    var e := PadStart2(range.endHour);
    assert slot.startTime == s + ":" + "00" && slot.endTime == e + ":" + "00";
    assert DigitsValue("00") == 0;
    PlanningAlgorithm.DurationOfDigits(s, "00", e, "00");
  }

  // Proof helpers: small facts about arithmetic that the proofs above
  // call to keep heavy terms from unfolding. They state nothing about the program.

  lemma MultiplySuccessor(c: nat, m: nat)
    ensures (c + 1) * m == c * m + m
  {
  }
}
