/**
 * The priority ranker of `generateOptimalPlanning`: every subject gets an
 * urgency score from the number of days left before its exam and a priority
 * that blends urgency with the subject's coefficient; the subjects are then
 * sorted by decreasing priority with a stable sort (what `Array.prototype.sort`
 * guarantees). The day count, which the source derives from the exam date and
 * the current instant, is given as `daysUntil`.
 */
module Ranking {
  import opened PlanningTypes

  /** A subject with the two scores the ranker adds to it. */
  datatype Prioritized = Prioritized(subject: Subject, urgencyScore: real, priority: real)

  function Max(a: real, b: real): real { if a >= b then a else b }

  function Min(a: real, b: real): real { if a <= b then a else b }

  /** `Math.max(0.1, Math.min(1, (30 - days) / 30))`. */
  function Urgency(days: int): (u: real)
    ensures 0.1 <= u <= 1.0
    ensures days <= 0 ==> u == 1.0
    ensures days >= 27 ==> u == 0.1
    ensures 0 <= days <= 27 ==> u == (30 - days) as real / 30.0
  {
    Max(0.1, Min(1.0, (30 - days) as real / 30.0))
  }

  /** A later exam is never more urgent. */
  lemma UrgencyNonIncreasing(d1: int, d2: int)
    requires d1 <= d2
    ensures Urgency(d2) <= Urgency(d1)
  {
  }

  /** `subject.coefficient || 1`: a zero (or missing) coefficient counts as 1. */
  function Coefficient(c: real): real
  {
    if c == 0.0 then 1.0 else c
  }

  function Prioritize(s: Subject, daysUntil: string -> int): Prioritized
  {
    var u := Urgency(daysUntil(s.examDate));
    Prioritized(s, u, u * 0.7 + Coefficient(s.coefficient) * 0.3)
  }

  /** `subjects.map(...)`, before sorting. */
  function PrioritizeAll(subjects: seq<Subject>, daysUntil: string -> int): (r: seq<Prioritized>)
    ensures |r| == |subjects|
    ensures forall i :: 0 <= i < |r| ==> r[i] == Prioritize(subjects[i], daysUntil)
  {
    if subjects == [] then [] else [Prioritize(subjects[0], daysUntil)] + PrioritizeAll(subjects[1..], daysUntil)
  }

  /** The list of `f` applied to each element. */
  function Image<U>(f: Prioritized -> U, s: seq<Prioritized>): (r: seq<U>)
    ensures |r| == |s|
    ensures forall i :: 0 <= i < |s| ==> r[i] == f(s[i])
  {
    if s == [] then [] else [f(s[0])] + Image(f, s[1..])
  }

  function SubjectOf(p: Prioritized): Subject { p.subject }

  function SubjectIdOf(p: Prioritized): string { p.subject.id }

  /** `subjects.map(s => s.id)`. */
  function SubjectIds(subjects: seq<Subject>): seq<string>
  {
    seq(|subjects|, i requires 0 <= i < |subjects| => subjects[i].id)
  }

  predicate SortedByPriority(s: seq<Prioritized>)
  {
    forall i, j :: 0 <= i < j < |s| ==> s[i].priority >= s[j].priority
  }

  /** Puts `x` in front of the first element whose priority is not above its own. */
  function Insert(x: Prioritized, t: seq<Prioritized>): (r: seq<Prioritized>)
    requires SortedByPriority(t)
    ensures |r| == |t| + 1
    ensures r[0] == x || (t != [] && r[0] == t[0])
    ensures SortedByPriority(r)
    ensures multiset(r) == multiset(t) + multiset{x}
  {
    if t == [] || t[0].priority <= x.priority then
      [x] + t
    else
      var rest := Insert(x, t[1..]);
      assert t == [t[0]] + t[1..];
      [t[0]] + rest
  }

  /** Stable sort by decreasing priority (insertion sort). */
  function SortByPriority(s: seq<Prioritized>): (r: seq<Prioritized>)
    ensures SortedByPriority(r)
    ensures multiset(r) == multiset(s)
  {
    if s == [] then
      []
    else
      assert s == [s[0]] + s[1..];
      Insert(s[0], SortByPriority(s[1..]))
  }

  /** The elements of `s` whose priority is `p`, in their order in `s`. */
  function WithPriority(s: seq<Prioritized>, p: real): seq<Prioritized>
  {
    if s == [] then [] else (if s[0].priority == p then [s[0]] else []) + WithPriority(s[1..], p)
  }

  lemma WithPriorityCons(x: Prioritized, t: seq<Prioritized>, p: real)
    ensures WithPriority([x] + t, p) == (if x.priority == p then [x] else []) + WithPriority(t, p)
  {
    assert ([x] + t)[0] == x;
    assert ([x] + t)[1..] == t;
  }

  lemma {:induction false} InsertWithPriority(x: Prioritized, t: seq<Prioritized>, p: real)
    requires SortedByPriority(t)
    ensures WithPriority(Insert(x, t), p) == (if x.priority == p then [x] else []) + WithPriority(t, p)
    decreases |t|
  {
    if t == [] || t[0].priority <= x.priority {
      assert Insert(x, t) == [x] + t;
      WithPriorityCons(x, t, p);
    } else {
      var rest := Insert(x, t[1..]);
      assert Insert(x, t) == [t[0]] + rest;
      assert t == [t[0]] + t[1..];
      InsertWithPriority(x, t[1..], p);
      WithPriorityCons(t[0], rest, p);
      WithPriorityCons(t[0], t[1..], p);
      var tail := WithPriority(t[1..], p);
      var head := if t[0].priority == p then [t[0]] else [];
      var mine := if x.priority == p then [x] else [];
      assert WithPriority(Insert(x, t), p) == head + (mine + tail);
      assert WithPriority(t, p) == head + tail;
      SwapEmpty(head, mine, tail);
    }
  }

  /** Sorting keeps the relative order of equal-priority elements. */
  lemma {:induction false} SortIsStable(s: seq<Prioritized>, p: real)
    ensures WithPriority(SortByPriority(s), p) == WithPriority(s, p)
    decreases |s|
  {
    if s != [] {
      SortIsStable(s[1..], p);
      InsertWithPriority(s[0], SortByPriority(s[1..]), p);
    }
  }

  lemma ImageCons<U>(f: Prioritized -> U, x: Prioritized, t: seq<Prioritized>)
    ensures Image(f, [x] + t) == [f(x)] + Image(f, t)
  {
    assert ([x] + t)[0] == x;
    assert ([x] + t)[1..] == t;
  }

  lemma {:induction false} InsertImage<U>(f: Prioritized -> U, x: Prioritized, t: seq<Prioritized>)
    requires SortedByPriority(t)
    ensures multiset(Image(f, Insert(x, t))) == multiset(Image(f, t)) + multiset{f(x)}
    decreases |t|
  {
    if t == [] || t[0].priority <= x.priority {
      assert Insert(x, t) == [x] + t;
      ImageCons(f, x, t);
    } else {
      var rest := Insert(x, t[1..]);
      assert Insert(x, t) == [t[0]] + rest;
      assert t == [t[0]] + t[1..];
      InsertImage(f, x, t[1..]);
      ImageCons(f, t[0], rest);
      ImageCons(f, t[0], t[1..]);
      var tail := multiset(Image(f, t[1..]));
      assert multiset(Image(f, Insert(x, t))) == multiset{f(t[0])} + (tail + multiset{f(x)});
      assert multiset(Image(f, t)) == multiset{f(t[0])} + tail;
    }
  }

  /** Sorting permutes whatever is read off the elements. */
  lemma {:induction false} SortPermutesImage<U>(f: Prioritized -> U, s: seq<Prioritized>)
    ensures multiset(Image(f, SortByPriority(s))) == multiset(Image(f, s))
    decreases |s|
  {
    if s != [] {
      var sorted := SortByPriority(s[1..]);
      SortPermutesImage(f, s[1..]);
      InsertImage(f, s[0], sorted);
      assert SortByPriority(s) == Insert(s[0], sorted);
      assert Image(f, s) == [f(s[0])] + Image(f, s[1..]);
    }
  }

  lemma SubjectsOfPrioritizeAll(subjects: seq<Subject>, daysUntil: string -> int)
    ensures Image(SubjectOf, PrioritizeAll(subjects, daysUntil)) == subjects
    ensures Image(SubjectIdOf, PrioritizeAll(subjects, daysUntil)) == SubjectIds(subjects)
  {
  }

  /**
   * The prioritized subjects of lines 7-20: each input subject once, with its
   * scores, in decreasing order of priority.
   */
  function Rank(subjects: seq<Subject>, daysUntil: string -> int): (r: seq<Prioritized>)
    ensures |r| == |subjects|
    ensures SortedByPriority(r)
    ensures multiset(Image(SubjectOf, r)) == multiset(subjects)
    ensures multiset(Image(SubjectIdOf, r)) == multiset(SubjectIds(subjects))
    ensures forall i :: 0 <= i < |r| ==> r[i] == Prioritize(r[i].subject, daysUntil)
  {
    var all := PrioritizeAll(subjects, daysUntil);
    var r := SortByPriority(all);
    SortPermutesImage(SubjectOf, all);
    SortPermutesImage(SubjectIdOf, all);
    SubjectsOfPrioritizeAll(subjects, daysUntil);
    PermutationKeepsScores(r, all, daysUntil);
    r
  }

  /** A permutation of prioritized subjects has the same length and still holds
      only subjects with the scores `Prioritize` gives them. */
  lemma PermutationKeepsScores(r: seq<Prioritized>, all: seq<Prioritized>, daysUntil: string -> int)
    requires multiset(r) == multiset(all)
    requires forall i :: 0 <= i < |all| ==> all[i] == Prioritize(all[i].subject, daysUntil)
    ensures |r| == |all|
    ensures forall i :: 0 <= i < |r| ==> r[i] == Prioritize(r[i].subject, daysUntil)
  {
    assert |r| == |multiset(r)|;
    forall i | 0 <= i < |r|
      ensures r[i] == Prioritize(r[i].subject, daysUntil)
    {
      assert r[i] in multiset(all);
      var j :| 0 <= j < |all| && all[j] == r[i];
    }
  }

  /** Ties keep their input order: among subjects of equal priority, the ranking
      lists them as the input does. */
  lemma RankIsStable(subjects: seq<Subject>, daysUntil: string -> int, p: real)
    ensures WithPriority(Rank(subjects, daysUntil), p) == WithPriority(PrioritizeAll(subjects, daysUntil), p)
  {
    SortIsStable(PrioritizeAll(subjects, daysUntil), p);
  }

  // Proof helpers: small facts about sequences that the proofs above
  // call to keep heavy terms from unfolding. They state nothing about the program.

  lemma SwapEmpty<T>(a: seq<T>, b: seq<T>, c: seq<T>)
    requires a == [] || b == []
    ensures a + (b + c) == b + (a + c)
  {
    if a == [] {
      assert a + (b + c) == b + c;
      assert b + (a + c) == b + c;
    } else {
      assert a + (b + c) == a + c;
      assert b + (a + c) == a + c;
    }
  }
}
