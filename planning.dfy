/**
 * The slot assigner of `generateOptimalPlanning` with its helpers
 * `getNextDate`, `calculateDuration`, `timeToMinutes` and `generateDescription`.
 * The i-th slot receives the i-th ranked subject; slots beyond the number of
 * subjects receive nothing. The current instant is a `Clock`: today's weekday
 * as `Date.getDay` numbers it (0 = Sunday), the hour, and the number of days
 * from now to a given exam date.
 */
module PlanningAlgorithm {
  import opened Wrappers
  import opened Strings
  import opened PlanningTypes
  import opened Ranking

  type Weekday = d: int | 0 <= d <= 6

  type Hour = h: int | 0 <= h <= 23

  datatype Clock = Clock(weekday: Weekday, hour: Hour, daysUntil: string -> int)

  function MinNat(a: nat, b: nat): nat { if a <= b then a else b }

  /** `a / b` truncated toward zero, the quotient that goes with JavaScript's `%`. */
  function TruncatedQuotient(a: int, b: int): int
    requires b > 0
  {
    if a >= 0 then a / b else -((-a) / b)
  }

  /** JavaScript's `a % b` for a positive `b`: the remainder of the quotient truncated
      toward zero, so it has the sign of `a`. */
  function JsRemainder(a: int, b: int): (r: int)
    requires b > 0
    ensures a == b * TruncatedQuotient(a, b) + r
    ensures a >= 0 ==> 0 <= r < b
    ensures a < 0 ==> -b < r <= 0
    ensures a >= 0 ==> r == a % b
  {
    if a >= 0 then
      a % b
    else
      var q := (-a) / b;
      assert -a == b * q + (-a) % b;
      assert b * -q == -(b * q);
      -((-a) % b)
  }

  /** The weekday (0 = Sunday) reached `days` days after `weekday`. */
  function Lands(weekday: int, days: int): int { (weekday + days) % 7 }

  /** `getNextDate` as a number of days from today: the offset is
      `(dayOfWeek - today + 7) % 7`, pushed to a week later when that is today
      and it is 18:00 or later. */
  function DayOffset(dayOfWeek: int, weekday: Weekday, hour: Hour): int
  {
    var days := JsRemainder(dayOfWeek - weekday + 7, 7);
    if days == 0 && hour >= 18 then 7 else days
  }

  /**
   * For every non-negative `dayOfWeek` (the slots use 1 = Monday to 7 = Sunday)
   * the session falls on the weekday `dayOfWeek % 7`, on the first such day
   * after today, or today itself before 18:00.
   */
  lemma DayOffsetLands(dayOfWeek: int, weekday: Weekday, hour: Hour)
    requires dayOfWeek >= 0
    ensures var r := DayOffset(dayOfWeek, weekday, hour);
      && 0 <= r <= 7
      && Lands(weekday, r) == dayOfWeek % 7
      && (r == 0 <==> dayOfWeek % 7 == weekday && hour < 18)
      && (r == 7 <==> dayOfWeek % 7 == weekday && hour >= 18)
      && forall k :: 0 < k < r ==> Lands(weekday, k) != dayOfWeek % 7
  {
    var m := dayOfWeek % 7;
    var q := dayOfWeek / 7;
    var x := m - weekday + 7;
    assert dayOfWeek - weekday + 7 == 7 * q + x;
    ModOfShift(q, x);
    var days := if x < 7 then x else x - 7;
    assert JsRemainder(dayOfWeek - weekday + 7, 7) == days;
    ModOfShift(0, weekday + days);
    forall k | 0 < k < DayOffset(dayOfWeek, weekday, hour)
      ensures Lands(weekday, k) != m
    {
      ModOfShift(0, weekday + k);
    }
  }

  lemma ModOfShift(q: int, x: int)
    requires 0 <= x < 14
    ensures (7 * q + x) % 7 == if x < 7 then x else x - 7
  {
    var c := if x < 7 then 0 else 1;
    assert 7 * q + x == 7 * (q + c) + (x - 7 * c);
  }

  /** `Number(text)` on the pieces of a clock time: digits read as decimal, the
      empty string as 0, anything else as `NaN`. */
  function NumberOf(text: string): Option<int>
  {
    if IsDigits(text) then Some(DigitsValue(text)) else None
  }

  /** `timeToMinutes`: hours times 60 plus minutes, from the first two pieces of `time.split(':')`. */
  function ClockMinutes(time: string): Option<int>
  {
    var parts := Split(time, {':'});
    var hours := NumberOf(parts[0]);
    var minutes := if |parts| > 1 then NumberOf(parts[1]) else None;
    if hours.Some? && minutes.Some? then Some(hours.value * 60 + minutes.value) else None
  }

  /** The minute count of the clock time with hour digits `h` and minute digits `m`. */
  function ClockValue(h: string, m: string): int
    requires IsDigits(h) && IsDigits(m)
  {
    DigitsValue(h) * 60 + DigitsValue(m)
  }

  /** An "H:M" time of digit strings reads as H * 60 + M minutes. */
  lemma ClockMinutesOfDigits(h: string, m: string)
    requires IsDigits(h) && IsDigits(m)
    ensures ClockMinutes(h + ":" + m) == Some(ClockValue(h, m))
  {
    assert NoneOf(h, {':'}) && NoneOf(m, {':'});
    SplitPair(h, ':', m, {':'});
    ClockMinutesOfPieces(h + [':'] + m, h, m);
  }

  lemma ClockMinutesOfPieces(time: string, h: string, m: string)
    requires IsDigits(h) && IsDigits(m)
    requires Split(time, {':'}) == [h, m]
    ensures ClockMinutes(time) == Some(ClockValue(h, m))
  {
  }

  /** A time without a colon has no minutes, which JavaScript reads as `NaN`. */
  lemma ClockMinutesWithoutColon(time: string)
    requires NoneOf(time, {':'})
    ensures ClockMinutes(time) == None
  {
    SplitNone(time, {':'});
  }

  /** `calculateDuration`: end minus start in minutes, not checked for sign. */
  function Duration(startTime: string, endTime: string): Option<int>
  {
    var start := ClockMinutes(startTime);
    var end := ClockMinutes(endTime);
    if start.Some? && end.Some? then Some(end.value - start.value) else None
  }

  /** The duration of a slot between two "H:M" times is the difference of their minute counts,
      whichever is later. */
  lemma DurationOfDigits(h1: string, m1: string, h2: string, m2: string)
    requires IsDigits(h1) && IsDigits(m1) && IsDigits(h2) && IsDigits(m2)
    ensures Duration(h1 + ":" + m1, h2 + ":" + m2) == Some(ClockValue(h2, m2) - ClockValue(h1, m1))
  {
    ClockMinutesOfDigits(h1, m1);
    ClockMinutesOfDigits(h2, m2);
  }

  /** Line 36: `high` above 0.7, `medium` above 0.4, `low` otherwise. */
  function Bucket(urgency: real): Level
  {
    if urgency > 0.7 then High else if urgency > 0.4 then Medium else Low
  }

  /** In days before the exam: under 9 is `high`, 9 to 17 is `medium`, 18 or more is `low`. */
  lemma BucketOfDays(days: int)
    ensures Bucket(Urgency(days)) == High <==> days < 9
    ensures Bucket(Urgency(days)) == Medium <==> 9 <= days < 18
    ensures Bucket(Urgency(days)) == Low <==> days >= 18
  {
  }

  /** `subject.type || 'revision'`. */
  function EffectiveKind(kind: string): string
  {
    if kind == "" then "revision" else kind
  }

  const DescribedKinds: set<string> := {"revision", "exercices", "redaction", "retapage"}

  /** The text around the subject name in the description of each kind of session. */
  function Template(kind: string): (string, string)
  {
    if kind == "revision" then ("Révision intensive ", " - Focus sur les points clés")
    else if kind == "exercices" then ("Exercices pratiques ", " - Entraînement ciblé")
    else if kind == "redaction" then ("Rédaction ", " - Préparation écrite")
    else if kind == "retapage" then ("Retapage cours ", " - Consolidation")
    else ("Session ", "")
  }

  lemma IncludesMiddle(a: string, b: string, c: string)
    ensures Includes(a + b + c, b)
  {
    assert (a + b + c)[|a|..|a| + |b|] == b;
    assert OccursAt(a + b + c, b, |a|);
  }

  /** `generateDescription`: the subject's name inside the template of its kind. */
  function Describe(kind: string, name: string): string
  {
    var (before, after) := Template(EffectiveKind(kind));
    before + name + after
  }

  /** Every description names the subject; a kind without a template gives "Session {name}". */
  lemma DescribeNamesSubject(kind: string, name: string)
    ensures Includes(Describe(kind, name), name)
    ensures EffectiveKind(kind) !in DescribedKinds ==> Describe(kind, name) == "Session " + name
  {
    var (before, after) := Template(EffectiveKind(kind));
    IncludesMiddle(before, name, after);
  }

  /** The first three characters of each template differ, so a description tells
      which template made it. */
  lemma DescriptionRevealsKind(kind1: string, kind2: string, name: string)
    requires Describe(kind1, name) == Describe(kind2, name)
    ensures EffectiveKind(kind1) == EffectiveKind(kind2)
            || (EffectiveKind(kind1) !in DescribedKinds && EffectiveKind(kind2) !in DescribedKinds)
  {
    var k1, k2 := EffectiveKind(kind1), EffectiveKind(kind2);
    var d := Describe(kind1, name);
    DescriptionStart(k1, name);
    DescriptionStart(k2, name);
    assert d[..3] == TemplateStart(k1) == TemplateStart(k2);
  }

  function TemplateStart(kind: string): string
  {
    if kind == "revision" then "Rév"
    else if kind == "exercices" then "Exe"
    else if kind == "redaction" then "Réd"
    else if kind == "retapage" then "Ret"
    else "Ses"
  }

  lemma DescriptionStart(kind: string, name: string)
    ensures |Template(kind).0| >= 3
    ensures (Template(kind).0 + name + Template(kind).1)[..3] == TemplateStart(kind)
  {
    var (before, after) := Template(kind);
    assert (before + name + after)[..3] == before[..3];
    if kind == "revision" {
      assert before[..3] == "Rév";
    } else if kind == "exercices" {
      assert before[..3] == "Exe";
    } else if kind == "redaction" {
      assert before[..3] == "Réd";
    } else if kind == "retapage" {
      assert before[..3] == "Ret";
    } else {
      assert before[..3] == "Ses";
    }
  }

  function MakeSession(index: nat, p: Prioritized, slot: TimeSlot, clock: Clock): GeneratedSession
  {
    GeneratedSession(
      "session_" + NatToString(index),
      p.subject.id,
      p.subject.name,
      DayOffset(slot.dayOfWeek, clock.weekday, clock.hour),
      slot.startTime,
      slot.endTime,
      Duration(slot.startTime, slot.endTime),
      EffectiveKind(p.subject.kind),
      Bucket(p.urgencyScore),
      Describe(p.subject.kind, p.subject.name))
  }

  /** What session number `index`, made from `slot` and the ranked subject `p`, holds. */
  predicate SessionFrom(s: GeneratedSession, index: nat, p: Prioritized, slot: TimeSlot, clock: Clock)
  {
    && s.id == "session_" + NatToString(index)
    && s.subjectId == p.subject.id
    && s.subjectName == p.subject.name
    && s.date == DayOffset(slot.dayOfWeek, clock.weekday, clock.hour)
    && s.startTime == slot.startTime
    && s.endTime == slot.endTime
    && s.duration == Duration(slot.startTime, slot.endTime)
    && s.kind == EffectiveKind(p.subject.kind)
    && s.priority == Bucket(p.urgencyScore)
    && s.description == Describe(p.subject.kind, p.subject.name)
  }

  /**
   * The sessions `generateOptimalPlanning` returns: one per slot while ranked
   * subjects last, the i-th slot paired with the i-th ranked subject. The
   * preferences are not consulted.
   */
  function Plan(request: PlanningRequest, clock: Clock): (r: seq<GeneratedSession>)
    ensures |r| == MinNat(|request.availableSlots|, |request.subjects|)
  {
    var ranked := Rank(request.subjects, clock.daysUntil);
    Pairing(ranked, request.availableSlots, clock, MinNat(|request.availableSlots|, |ranked|))
  }

  /** Session `i` is made from slot `i` and the `i`-th ranked subject. */
  lemma PlanSession(request: PlanningRequest, clock: Clock, i: nat)
    requires i < |Plan(request, clock)|
    ensures SessionFrom(Plan(request, clock)[i], i, Rank(request.subjects, clock.daysUntil)[i], request.availableSlots[i], clock)
  {
  }

  /** The first `n` slots paired with the first `n` ranked subjects, index by index. */
  function Pairing(ranked: seq<Prioritized>, slots: seq<TimeSlot>, clock: Clock, n: nat): seq<GeneratedSession>
    requires n <= |slots| && n <= |ranked|
  {
    seq(n, i requires 0 <= i < n => MakeSession(i, ranked[i], slots[i], clock))
  }

  /** Lines 2-45: walk the slots in order and push a session for each slot that
      has a ranked subject of the same index. */
  method GenerateOptimalPlanning(request: PlanningRequest, clock: Clock) returns (sessions: seq<GeneratedSession>)
    ensures sessions == Plan(request, clock)
  {
    var prioritizedSubjects := Rank(request.subjects, clock.daysUntil);
    var slots := request.availableSlots;
    sessions := [];
    var index := 0;
    while index < |slots|
      invariant 0 <= index <= |slots|
      invariant sessions == Pairing(prioritizedSubjects, slots, clock, MinNat(index, |prioritizedSubjects|))
    {
      if index < |prioritizedSubjects| {
        SmallRemainder(index, |prioritizedSubjects|);
        var subject := prioritizedSubjects[index % |prioritizedSubjects|];
        PairingStep(prioritizedSubjects, slots, clock, index);
        sessions := sessions + [MakeSession(index, subject, slots[index], clock)];
      } else {
        assert MinNat(index + 1, |prioritizedSubjects|) == MinNat(index, |prioritizedSubjects|);
      }
      index := index + 1;
    }
  }

  /** Pairing one more slot appends one session. */
  lemma PairingStep(ranked: seq<Prioritized>, slots: seq<TimeSlot>, clock: Clock, n: nat)
    requires n < |slots| && n < |ranked|
    ensures Pairing(ranked, slots, clock, n + 1)
         == Pairing(ranked, slots, clock, n) + [MakeSession(n, ranked[n], slots[n], clock)]
  {
    SnocOfPointwise(Pairing(ranked, slots, clock, n + 1), Pairing(ranked, slots, clock, n), MakeSession(n, ranked[n], slots[n], clock));
  }

  lemma SnocOfPointwise<T>(a: seq<T>, p: seq<T>, x: T)
    requires |a| == |p| + 1 && a[|p|] == x
    requires forall i :: 0 <= i < |p| ==> a[i] == p[i]
    ensures a == p + [x]
  {
  }

  /** Session identifiers are pairwise distinct. */
  lemma PlanIdsDistinct(request: PlanningRequest, clock: Clock, i: nat, j: nat)
    requires i < j < |Plan(request, clock)|
    ensures Plan(request, clock)[i].id != Plan(request, clock)[j].id
  {
    PlanSession(request, clock, i);
    PlanSession(request, clock, j);
    var p := "session_";
    var a := NatToString(i);
    var b := NatToString(j);
    assert (p + a)[|p|..] == a;
    assert (p + b)[|p|..] == b;
    NatToStringInjective(i, j);
  }

  /** The subject ids of the sessions, in order. */
  function SessionSubjectIds(sessions: seq<GeneratedSession>): seq<string>
  {
    seq(|sessions|, i requires 0 <= i < |sessions| => sessions[i].subjectId)
  }

  /**
   * No subject is scheduled more often than it occurs in the request: the
   * assignment never cycles back through the ranking.
   */
  lemma PlanUsesEachSubjectAtMostOnce(request: PlanningRequest, clock: Clock)
    ensures multiset(SessionSubjectIds(Plan(request, clock))) <= multiset(SubjectIds(request.subjects))
  {
    var ranked := Rank(request.subjects, clock.daysUntil);
    var ids := Image(SubjectIdOf, ranked);
    PlanSubjectIds(request, clock);
    MultisetOfPrefix(ids, |Plan(request, clock)|);
  }

  lemma MultisetOfPrefix(s: seq<string>, n: nat)
    requires n <= |s|
    ensures multiset(s[..n]) <= multiset(s)
  {
    assert s == s[..n] + s[n..];
  }

  /** The sessions' subjects are the first ranked subjects, in ranking order. */
  lemma PlanSubjectIds(request: PlanningRequest, clock: Clock)
    ensures var ids := Image(SubjectIdOf, Rank(request.subjects, clock.daysUntil));
      SessionSubjectIds(Plan(request, clock)) == ids[..|Plan(request, clock)|]
  {
    var ranked := Rank(request.subjects, clock.daysUntil);
    var plan := Plan(request, clock);
    var ids := Image(SubjectIdOf, ranked);
    var planIds := SessionSubjectIds(plan);
    forall k | 0 <= k < |plan|
      ensures planIds[k] == ids[k]
    {
      assert plan[k] == MakeSession(k, ranked[k], request.availableSlots[k], clock);
      MakeSessionSubject(k, ranked[k], request.availableSlots[k], clock);
    }
    PrefixOfPointwise(planIds, ids);
  }

  lemma MakeSessionSubject(index: nat, p: Prioritized, slot: TimeSlot, clock: Clock)
    ensures MakeSession(index, p, slot, clock).subjectId == p.subject.id
  {
  }

  lemma PrefixOfPointwise<T>(a: seq<T>, b: seq<T>)
    requires |a| <= |b|
    requires forall k :: 0 <= k < |a| ==> a[k] == b[k]
    ensures a == b[..|a|]
  {
  }

  /** With distinct subject ids in the request, the sessions' subjects are distinct too. */
  lemma PlanSubjectsDistinct(request: PlanningRequest, clock: Clock, i: nat, j: nat)
    requires forall a, b :: 0 <= a < b < |request.subjects| ==> request.subjects[a].id != request.subjects[b].id
    requires i < j < |Plan(request, clock)|
    ensures Plan(request, clock)[i].subjectId != Plan(request, clock)[j].subjectId
  {
    var plan := Plan(request, clock);
    var planIds := SessionSubjectIds(plan);
    var ids := SubjectIds(request.subjects);
    PlanUsesEachSubjectAtMostOnce(request, clock);
    DistinctInSubMultiset(planIds, ids, i, j);
  }

  /** A sequence whose multiset is within that of a repetition-free one has no repetition. */
  lemma DistinctInSubMultiset(s: seq<string>, t: seq<string>, i: nat, j: nat)
    requires multiset(s) <= multiset(t)
    requires forall a, b :: 0 <= a < b < |t| ==> t[a] != t[b]
    requires i < j < |s|
    ensures s[i] != s[j]
  {
    if s[i] == s[j] {
      CountOfRepeated(s, i, j);
      CountOfDistinct(t, s[i]);
      assert false;
    }
  }

  lemma {:induction false} CountOfRepeated(s: seq<string>, i: nat, j: nat)
    requires i < j < |s| && s[i] == s[j]
    ensures multiset(s)[s[i]] >= 2
  {
    assert s == s[..i] + [s[i]] + s[i + 1..j] + [s[j]] + s[j + 1..];
  }

  lemma {:induction false} CountOfDistinct(s: seq<string>, x: string)
    requires forall a, b :: 0 <= a < b < |s| ==> s[a] != s[b]
    ensures multiset(s)[x] <= 1
    decreases |s|
  {
    if s != [] {
      assert s == [s[0]] + s[1..];
      CountOfDistinct(s[1..], x);
      if s[0] == x {
        assert x !in s[1..];
      }
    }
  }

  // Proof helpers: small facts about arithmetic that the proofs above
  // call to keep heavy terms from unfolding. They state nothing about the program.

  /** Under the guard the round-robin index `index % n` is `index` itself. */
  lemma SmallRemainder(a: nat, b: nat)
    requires a < b
    ensures a % b == a
  {
  }
}
