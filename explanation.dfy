/**
 * `generatePlanningExplanation`: the chat message that presents a plan. The
 * sessions are grouped by date, the dates taken in the order in which they
 * first occur (the keys of the grouping object are ISO date strings, which
 * JavaScript enumerates in insertion order); each date gets a header line
 * followed by one line per session of that date, in the sessions' order, and
 * a blank line. The message ends with the tips: the total work and the number
 * of distinct subjects, then three fixed remarks.
 *
 * The message is modelled as a sequence of lines; the French weekday name of a
 * header and the one-decimal rendering of the total are left to the renderer.
 */
module Explanation {
  import opened Wrappers
  import opened PlanningTypes

  datatype Marker = Fire | Warning | Books

  datatype Line =
    | Intro
    | DayHeader(day: int)
    | SessionLine(marker: Marker, startTime: string, endTime: string, description: string)
    | Blank
    | TipsHeader
    | Totals(totalMinutes: Option<int>, subjectCount: nat)
    | Tip(text: string)
    | Closing

  const PrioritizedTip := "J'ai priorisé les matières avec examens proches"
  const SlotsTip := "Sessions adaptées à tes créneaux disponibles"
  const VarietyTip := "Alternance des types de travail pour varier"

  /** 🔥 for a high-priority session, ⚠️ for a medium one, 📚 otherwise. */
  function MarkerOf(priority: Level): Marker
  {
    if priority == High then Fire else if priority == Medium then Warning else Books
  }

  function LineOf(s: GeneratedSession): Line
  {
    SessionLine(MarkerOf(s.priority), s.startTime, s.endTime, s.description)
  }

  predicate HasDate(s: seq<GeneratedSession>, d: int)
  {
    exists p :: 0 <= p < |s| && s[p].date == d
  }

  lemma HasDateOfSnoc(s: seq<GeneratedSession>, d: int)
    requires s != []
    ensures HasDate(s, d) <==> HasDate(s[..|s| - 1], d) || s[|s| - 1].date == d
  {
    var init := s[..|s| - 1];
    if HasDate(init, d) {
      var p :| 0 <= p < |init| && init[p].date == d;
      assert s[p].date == d;
    }
    if HasDate(s, d) && s[|s| - 1].date != d {
      var p :| 0 <= p < |s| && s[p].date == d;
      assert init[p].date == d;
    }
  }

  /** The distinct dates of `s`, in the order in which they first occur. */
  function DateKeys(s: seq<GeneratedSession>): (keys: seq<int>)
    ensures forall i, j :: 0 <= i < j < |keys| ==> keys[i] != keys[j]
    ensures forall d :: d in keys <==> HasDate(s, d)
    ensures |keys| <= |s|
  {
    if s == [] then
      []
    else
      var init := DateKeys(s[..|s| - 1]);
      var d := s[|s| - 1].date;
      forall e
        ensures HasDate(s, e) <==> HasDate(s[..|s| - 1], e) || d == e
      {
        HasDateOfSnoc(s, e);
      }
      if d in init then init else init + [d]
  }

  /** The position of the first session of date `d`. */
  function FirstIndex(s: seq<GeneratedSession>, d: int): (r: nat)
    requires HasDate(s, d)
    ensures r < |s| && s[r].date == d
    ensures forall q :: 0 <= q < r ==> s[q].date != d
  {
    if s[0].date == d then
      0
    else
      var p :| 0 <= p < |s| && s[p].date == d;
      assert s[1..][p - 1].date == d;
      1 + FirstIndex(s[1..], d)
  }

  lemma FirstIndexOfPrefix(s: seq<GeneratedSession>, d: int)
    requires s != [] && HasDate(s[..|s| - 1], d)
    ensures HasDate(s, d) && FirstIndex(s, d) == FirstIndex(s[..|s| - 1], d)
  {
    var init := s[..|s| - 1];
    var p := FirstIndex(init, d);
    assert s[p].date == d;
    var q := FirstIndex(s, d);
    assert forall k :: 0 <= k < |init| ==> init[k] == s[k];
    assert !(p < q);
  }

  /** Dates are listed in the order of their first occurrence in `s`. */
  lemma {:induction false} DateKeysFirstSeen(s: seq<GeneratedSession>)
    ensures forall i, j :: 0 <= i < j < |DateKeys(s)| ==>
      FirstIndex(s, DateKeys(s)[i]) < FirstIndex(s, DateKeys(s)[j])
    decreases |s|
  {
    if s != [] {
      var init := s[..|s| - 1];
      var keys0 := DateKeys(init);
      var keys := DateKeys(s);
      DateKeysFirstSeen(init);
      forall i | 0 <= i < |keys0|
        ensures FirstIndex(s, keys0[i]) == FirstIndex(init, keys0[i])
      {
        FirstIndexOfPrefix(s, keys0[i]);
      }
      if keys != keys0 {
        var d := s[|s| - 1].date;
        assert keys == keys0 + [d];
        assert !HasDate(init, d);
        assert FirstIndex(s, d) == |s| - 1;
      }
    }
  }

  /** The sessions of date `d`, in their order in `s`. */
  function Group(s: seq<GeneratedSession>, d: int): (g: seq<GeneratedSession>)
    ensures forall i :: 0 <= i < |g| ==> g[i].date == d && g[i] in s
    ensures !HasDate(s, d) ==> g == []
  {
    if s == [] then
      []
    else
      var init := s[..|s| - 1];
      var last := s[|s| - 1];
      var g0 := Group(init, d);
      HasDateOfSnoc(s, d);
      assert forall i :: 0 <= i < |g0| ==> g0[i] in s by {
        forall i | 0 <= i < |g0|
          ensures g0[i] in s
        {
          var p :| 0 <= p < |init| && init[p] == g0[i];
          assert s[p] == g0[i];
        }
      }
      g0 + (if last.date == d then [last] else [])
  }

  /** A single session forms its own date's group and no other. */
  lemma GroupOfSingleton(x: GeneratedSession, d: int)
    ensures Group([x], d) == if x.date == d then [x] else []
  {
    assert [x][..0] == [];
  }

  /**
   * Grouping distributes over concatenation: with `GroupOfSingleton`, a day's group
   * holds every session of that date, each once, in the sessions' order.
   */
  lemma {:induction false} GroupOfConcat(a: seq<GeneratedSession>, b: seq<GeneratedSession>, d: int)
    ensures Group(a + b, d) == Group(a, d) + Group(b, d)
    decreases |b|
  {
    if b == [] {
      assert a + b == a;
    } else {
      var init := b[..|b| - 1];
      var last := b[|b| - 1];
      var tail := if last.date == d then [last] else [];
      GroupOfConcat(a, init, d);
      assert (a + b)[..|a + b| - 1] == a + init;
      assert (a + b)[|a + b| - 1] == last;
      assert Group(a + b, d) == Group(a, d) + Group(init, d) + tail;
      assert Group(b, d) == Group(init, d) + tail;
    }
  }

  /** The groups of `keys`, one after the other. */
  function Regroup(keys: seq<int>, s: seq<GeneratedSession>): seq<GeneratedSession>
  {
    if keys == [] then [] else Regroup(keys[..|keys| - 1], s) + Group(s, keys[|keys| - 1])
  }

  lemma {:induction false} RegroupOfSnoc(keys: seq<int>, s: seq<GeneratedSession>, x: GeneratedSession)
    requires forall i, j :: 0 <= i < j < |keys| ==> keys[i] != keys[j]
    ensures multiset(Regroup(keys, s + [x]))
         == multiset(Regroup(keys, s)) + (if x.date in keys then multiset{x} else multiset{})
    decreases |keys|
  {
    if keys != [] {
      var ks := keys[..|keys| - 1];
      var k := keys[|keys| - 1];
      var sx := s + [x];
      RegroupOfSnoc(ks, s, x);
      assert sx[..|sx| - 1] == s && sx[|sx| - 1] == x;
      var extra := if x.date == k then [x] else [];
      var before, after := Regroup(ks, s), Regroup(ks, sx);
      var g, gx := Group(s, k), Group(sx, k);
      assert gx == g + extra;
      var mine := if x.date in ks then multiset{x} else multiset{};
      assert multiset(after) == multiset(before) + mine;
      assert multiset(Regroup(keys, sx)) == multiset(after) + multiset(gx);
      assert multiset(Regroup(keys, s)) == multiset(before) + multiset(g);
      assert multiset(gx) == multiset(g) + multiset(extra);
      SnocOfLast(keys);
      assert x.date == k ==> x.date !in ks;
    }
  }

  /** Grouping loses no session and adds none. */
  lemma {:induction false} RegroupPermutes(s: seq<GeneratedSession>)
    ensures multiset(Regroup(DateKeys(s), s)) == multiset(s)
    decreases |s|
  {
    if s != [] {
      var init := s[..|s| - 1];
      var x := s[|s| - 1];
      assert s == init + [x];
      var keys0 := DateKeys(init);
      RegroupPermutes(init);
      RegroupOfSnoc(keys0, init, x);
      if x.date in keys0 {
        assert DateKeys(s) == keys0;
      } else {
        RegroupOfNewKey(keys0, init, x);
      }
      assert multiset(s) == multiset(init) + multiset{x};
    }
  }

  /** A date first seen in the last session adds a group holding just that session. */
  lemma RegroupOfNewKey(keys0: seq<int>, init: seq<GeneratedSession>, x: GeneratedSession)
    requires keys0 == DateKeys(init) && x.date !in keys0
    ensures DateKeys(init + [x]) == keys0 + [x.date]
    ensures multiset(Regroup(DateKeys(init + [x]), init + [x]))
         == multiset(Regroup(keys0, init + [x])) + multiset{x}
  {
    var s := init + [x];
    assert s[..|s| - 1] == init;
    var keys := keys0 + [x.date];
    assert keys[..|keys| - 1] == keys0;
    assert !HasDate(init, x.date);
    assert Group(init, x.date) == [];
    assert Group(s, x.date) == [x];
  }

  /** One line per session of the group. */
  function SessionLines(g: seq<GeneratedSession>): seq<Line>
  {
    seq(|g|, i requires 0 <= i < |g| => LineOf(g[i]))
  }

  function Section(d: int, g: seq<GeneratedSession>): seq<Line>
  {
    [DayHeader(d)] + SessionLines(g) + [Blank]
  }

  /** The day sections of the dates `keys`. */
  function Body(keys: seq<int>, s: seq<GeneratedSession>): seq<Line>
  {
    if keys == [] then [] else Body(keys[..|keys| - 1], s) + Section(keys[|keys| - 1], Group(s, keys[|keys| - 1]))
  }

  /** `sessions.reduce((sum, s) => sum + s.duration, 0)`: `None` as soon as one duration is `NaN`. */
  function TotalMinutes(s: seq<GeneratedSession>): (r: Option<int>)
    ensures r.Some? <==> forall i :: 0 <= i < |s| ==> s[i].duration.Some?
  {
    if s == [] then
      Some(0)
    else
      var t := TotalMinutes(s[..|s| - 1]);
      var last := s[|s| - 1].duration;
      if t.Some? && last.Some? then Some(t.value + last.value) else None
  }

  /** The total of two runs of sessions is the sum of their totals. */
  lemma {:induction false} TotalMinutesOfConcat(a: seq<GeneratedSession>, b: seq<GeneratedSession>)
    ensures TotalMinutes(a + b)
         == if TotalMinutes(a).Some? && TotalMinutes(b).Some? then Some(TotalMinutes(a).value + TotalMinutes(b).value) else None
    decreases |b|
  {
    if b == [] {
      assert a + b == a;
    } else {
      var init := b[..|b| - 1];
      TotalMinutesOfConcat(a, init);
      assert (a + b)[..|a + b| - 1] == a + init;
      assert (a + b)[|a + b| - 1] == b[|b| - 1];
    }
  }

  predicate HasSubject(s: seq<GeneratedSession>, id: string)
  {
    exists p :: 0 <= p < |s| && s[p].subjectId == id
  }

  /** `new Set(sessions.map(s => s.subjectId))`. */
  function SubjectIdSet(s: seq<GeneratedSession>): (r: set<string>)
    ensures forall id :: id in r <==> HasSubject(s, id)
    ensures |r| <= |s|
  {
    if s == [] then
      {}
    else
      var init := s[..|s| - 1];
      var last := s[|s| - 1];
      forall id
        ensures HasSubject(s, id) <==> HasSubject(init, id) || last.subjectId == id
      {
        if HasSubject(init, id) {
          var p :| 0 <= p < |init| && init[p].subjectId == id;
          assert s[p].subjectId == id;
        }
        if HasSubject(s, id) && last.subjectId != id {
          var p :| 0 <= p < |s| && s[p].subjectId == id;
          assert init[p].subjectId == id;
        }
      }
      SubjectIdSet(init) + {last.subjectId}
  }

  function SubjectCount(s: seq<GeneratedSession>): nat
  {
    |SubjectIdSet(s)|
  }

  /** Sessions of pairwise distinct subjects count one subject each. */
  lemma {:induction false} SubjectCountOfDistinct(s: seq<GeneratedSession>)
    requires forall i, j :: 0 <= i < j < |s| ==> s[i].subjectId != s[j].subjectId
    ensures SubjectCount(s) == |s|
    decreases |s|
  {
    if s != [] {
      var init := s[..|s| - 1];
      var last := s[|s| - 1];
      SubjectCountOfDistinct(init);
      assert !HasSubject(init, last.subjectId);
      assert SubjectIdSet(s) == SubjectIdSet(init) + {last.subjectId};
    }
  }

  /** Lines 114-119: the tips, with the total work and the number of subjects. */
  function Advice(totalMinutes: Option<int>, subjectCount: nat): seq<Line>
  {
    [TipsHeader, Totals(totalMinutes, subjectCount), Tip(PrioritizedTip), Tip(SlotsTip), Tip(VarietyTip), Closing]
  }

  /** The explanation of the plan `s`, line by line. */
  function Explanation(s: seq<GeneratedSession>): seq<Line>
  {
    [Intro] + Body(DateKeys(s), s) + Advice(TotalMinutes(s), SubjectCount(s))
  }

  /** The dates of the header lines, in order. */
  function HeaderDays(lines: seq<Line>): seq<int>
  {
    if lines == [] then []
    else HeaderDays(lines[..|lines| - 1]) + (if lines[|lines| - 1].DayHeader? then [lines[|lines| - 1].day] else [])
  }

  /** The session lines, in order. */
  function SessionLinesIn(lines: seq<Line>): seq<Line>
  {
    if lines == [] then []
    else SessionLinesIn(lines[..|lines| - 1]) + (if lines[|lines| - 1].SessionLine? then [lines[|lines| - 1]] else [])
  }

  lemma {:induction false} FiltersOfConcat(a: seq<Line>, b: seq<Line>)
    ensures HeaderDays(a + b) == HeaderDays(a) + HeaderDays(b)
    ensures SessionLinesIn(a + b) == SessionLinesIn(a) + SessionLinesIn(b)
    decreases |b|
  {
    var ab := a + b;
    if b == [] {
      assert ab == a;
    } else {
      var b0 := b[..|b| - 1];
      var last := b[|b| - 1];
      assert ab[..|ab| - 1] == a + b0;
      assert ab[|ab| - 1] == last;
      FiltersOfConcat(a, b0);
      var h := if last.DayHeader? then [last.day] else [];
      var l := if last.SessionLine? then [last] else [];
      assert HeaderDays(ab) == HeaderDays(a + b0) + h;
      assert HeaderDays(b) == HeaderDays(b0) + h;
      assert SessionLinesIn(ab) == SessionLinesIn(a + b0) + l;
      assert SessionLinesIn(b) == SessionLinesIn(b0) + l;
    }
  }

  lemma FiltersOfLine(x: Line)
    ensures HeaderDays([x]) == (if x.DayHeader? then [x.day] else [])
    ensures SessionLinesIn([x]) == (if x.SessionLine? then [x] else [])
  {
    assert [x][..0] == [];
  }

  lemma {:induction false} FiltersOfSessionLines(g: seq<GeneratedSession>)
    ensures HeaderDays(SessionLines(g)) == []
    ensures SessionLinesIn(SessionLines(g)) == SessionLines(g)
    decreases |g|
  {
    if g != [] {
      var g0 := g[..|g| - 1];
      assert SessionLines(g)[..|g| - 1] == SessionLines(g0);
      FiltersOfSessionLines(g0);
    }
  }

  lemma FiltersOfSection(k: int, g: seq<GeneratedSession>)
    ensures HeaderDays(Section(k, g)) == [k]
    ensures SessionLinesIn(Section(k, g)) == SessionLines(g)
  {
    var head := [DayHeader(k)];
    var lines := SessionLines(g);
    var mid := head + lines;
    FiltersOfSessionLines(g);
    FiltersOfLine(DayHeader(k));
    FiltersOfLine(Blank);
    FiltersOfConcat(head, lines);
    FiltersOfConcat(mid, [Blank]);
    assert [k] + [] == [k] && [] + lines == lines && lines + [] == lines;
  }

  lemma SessionLinesOfConcat(a: seq<GeneratedSession>, b: seq<GeneratedSession>)
    ensures SessionLines(a + b) == SessionLines(a) + SessionLines(b)
  {
  }

  lemma {:induction false} FiltersOfBody(keys: seq<int>, s: seq<GeneratedSession>)
    ensures HeaderDays(Body(keys, s)) == keys
    ensures SessionLinesIn(Body(keys, s)) == SessionLines(Regroup(keys, s))
    decreases |keys|
  {
    if keys != [] {
      var ks := keys[..|keys| - 1];
      var k := keys[|keys| - 1];
      var g := Group(s, k);
      assert Body(keys, s) == Body(ks, s) + Section(k, g);
      assert Regroup(keys, s) == Regroup(ks, s) + g;
      FiltersOfBody(ks, s);
      FiltersOfSection(k, g);
      FiltersOfConcat(Body(ks, s), Section(k, g));
      SessionLinesOfConcat(Regroup(ks, s), g);
      assert keys == ks + [k];
    }
  }

  /** Lines that are neither headers nor session lines add nothing to either filter. */
  lemma {:induction false} FiltersOfUnmarked(lines: seq<Line>)
    requires forall i :: 0 <= i < |lines| ==> !lines[i].DayHeader? && !lines[i].SessionLine?
    ensures HeaderDays(lines) == [] && SessionLinesIn(lines) == []
    decreases |lines|
  {
    if lines != [] {
      FiltersOfUnmarked(lines[..|lines| - 1]);
    }
  }

  lemma FiltersOfAdvice(totalMinutes: Option<int>, subjectCount: nat)
    ensures HeaderDays(Advice(totalMinutes, subjectCount)) == []
    ensures SessionLinesIn(Advice(totalMinutes, subjectCount)) == []
  {
    FiltersOfUnmarked(Advice(totalMinutes, subjectCount));
  }

  /**
   * One header per distinct date, in first-seen order, and the session lines
   * are those of the sessions regrouped by date: as many as there are sessions.
   */
  lemma ExplanationStructure(s: seq<GeneratedSession>)
    ensures HeaderDays(Explanation(s)) == DateKeys(s)
    ensures SessionLinesIn(Explanation(s)) == SessionLines(Regroup(DateKeys(s), s))
    ensures |SessionLinesIn(Explanation(s))| == |s|
  {
    var keys := DateKeys(s);
    var body := Body(keys, s);
    var advice := Advice(TotalMinutes(s), SubjectCount(s));
    var head := [Intro] + body;
    assert Explanation(s) == head + advice;
    FiltersOfBody(keys, s);
    FiltersOfLine(Intro);
    FiltersOfAdvice(TotalMinutes(s), SubjectCount(s));
    FiltersOfConcat([Intro], body);
    FiltersOfConcat(head, advice);
    assert [] + keys == keys && keys + [] == keys;
    var sessionLines := SessionLines(Regroup(keys, s));
    assert [] + sessionLines == sessionLines && sessionLines + [] == sessionLines;
    RegroupPermutes(s);
    var regrouped := Regroup(keys, s);
    assert |regrouped| == |multiset(regrouped)| == |multiset(s)| == |s|;
  }

  /**
   * Lines 86-122: group the sessions into a dictionary keyed by date, then emit
   * the header and session lines of each date, then the tips. The subjects are
   * passed along but never read.
   */
  method ComposeExplanation(sessions: seq<GeneratedSession>, subjects: seq<Subject>) returns (lines: seq<Line>)
    ensures lines == Explanation(sessions)
  {
    var totalMinutes := TotalMinutes(sessions);
    var subjectCount := SubjectCount(sessions);
    var dates, sessionsByDay := GroupByDate(sessions);
    lines := AppendDays([Intro], dates, sessionsByDay, sessions);
    ExplanationOfParts(sessions, dates, totalMinutes, subjectCount);
    AppendAdvice(lines, totalMinutes, subjectCount);
    lines := lines + [TipsHeader];
    lines := lines + [Totals(totalMinutes, subjectCount)];
    lines := lines + [Tip(PrioritizedTip), Tip(SlotsTip), Tip(VarietyTip)];
    lines := lines + [Closing];
  }

  /** Lines 102-111: the sections of the dates in `dates`, each group read from `sessionsByDay`. */
  method AppendDays(lines0: seq<Line>, dates: seq<int>, sessionsByDay: map<int, seq<GeneratedSession>>, sessions: seq<GeneratedSession>)
    returns (lines: seq<Line>)
    requires forall d :: d in dates ==> d in sessionsByDay && sessionsByDay[d] == Group(sessions, d)
    ensures lines == lines0 + Body(dates, sessions)
  {
    lines := lines0;
    var j := 0;
    while j < |dates|
      invariant 0 <= j <= |dates|
      invariant lines == lines0 + Body(dates[..j], sessions)
    {
      var date := dates[j];
      lines := AppendDay(lines, date, sessionsByDay[date]);
      BodyStep(dates, j, sessions);
      AppendAssociatesSeq(lines0, Body(dates[..j], sessions), Section(date, Group(sessions, date)));
      j := j + 1;
    }
    assert dates[..j] == dates;
  }

  /** Lines 103-110: the header of one date, a line per session of that date, and a blank line. */
  method AppendDay(lines0: seq<Line>, date: int, daySessions: seq<GeneratedSession>) returns (lines: seq<Line>)
    ensures lines == lines0 + Section(date, daySessions)
  {
    lines := lines0 + [DayHeader(date)];
    var k := 0;
    while k < |daySessions|
      invariant 0 <= k <= |daySessions|
      invariant lines == lines0 + ([DayHeader(date)] + SessionLines(daySessions[..k]))
    {
      SessionLinesStep(daySessions, k);
      AppendAssociates(lines0, [DayHeader(date)] + SessionLines(daySessions[..k]), LineOf(daySessions[k]));
      lines := lines + [LineOf(daySessions[k])];
      k := k + 1;
    }
    assert daySessions[..k] == daySessions;
    AppendAssociates(lines0, [DayHeader(date)] + SessionLines(daySessions), Blank);
    lines := lines + [Blank];
  }

  lemma ExplanationOfParts(s: seq<GeneratedSession>, keys: seq<int>, totalMinutes: Option<int>, subjectCount: nat)
    requires keys == DateKeys(s) && totalMinutes == TotalMinutes(s) && subjectCount == SubjectCount(s)
    ensures Explanation(s) == [Intro] + Body(keys, s) + Advice(totalMinutes, subjectCount)
  {
  }

  lemma AppendAdvice(prefix: seq<Line>, totalMinutes: Option<int>, subjectCount: nat)
    ensures prefix + [TipsHeader] + [Totals(totalMinutes, subjectCount)] + [Tip(PrioritizedTip), Tip(SlotsTip), Tip(VarietyTip)] + [Closing]
         == prefix + Advice(totalMinutes, subjectCount)
  {
  }

  /** `dates` are the distinct dates of `s` in first-seen order and `byDay` maps each
      of them to its sessions. */
  ghost predicate GroupsOf(s: seq<GeneratedSession>, dates: seq<int>, byDay: map<int, seq<GeneratedSession>>)
  {
    && dates == DateKeys(s)
    && (forall d :: d in byDay <==> d in dates)
    && (forall d :: d in byDay ==> byDay[d] == Group(s, d))
  }

  /** Lines 93-99: `sessionsByDay`, with its keys in insertion order. */
  method GroupByDate(sessions: seq<GeneratedSession>) returns (dates: seq<int>, sessionsByDay: map<int, seq<GeneratedSession>>)
    ensures dates == DateKeys(sessions)
    ensures forall d :: d in sessionsByDay <==> d in dates
    ensures forall d :: d in sessionsByDay ==> sessionsByDay[d] == Group(sessions, d)
  {
    dates := [];
    sessionsByDay := map[];
    var i := 0;
    while i < |sessions|
      invariant 0 <= i <= |sessions|
      invariant GroupsOf(sessions[..i], dates, sessionsByDay)
    {
      dates, sessionsByDay := AddToGroup(sessions, i, dates, sessionsByDay);
      i := i + 1;
    }
    assert sessions[..i] == sessions;
  }

  /** One pass of the loop: creates the group of a date not seen before, then appends
      the session to its group. */
  method AddToGroup(sessions: seq<GeneratedSession>, i: nat, dates0: seq<int>, byDay0: map<int, seq<GeneratedSession>>)
    returns (dates: seq<int>, byDay: map<int, seq<GeneratedSession>>)
    requires i < |sessions| && GroupsOf(sessions[..i], dates0, byDay0)
    ensures GroupsOf(sessions[..i + 1], dates, byDay)
  {
    var session := sessions[i];
    dates, byDay := dates0, byDay0;
    if session.date !in byDay {
      byDay := byDay[session.date := []];
      dates := dates + [session.date];
    }
    byDay := byDay[session.date := byDay[session.date] + [session]];
    AddedToGroup(sessions, i, dates0, byDay0);
  }

  /** The new keys and groups once `sessions[i]` is added to its date's group. */
  function AddedKeys(dates: seq<int>, d: int): seq<int>
  {
    if d in dates then dates else dates + [d]
  }

  function Added(byDay: map<int, seq<GeneratedSession>>, x: GeneratedSession): map<int, seq<GeneratedSession>>
  {
    byDay[x.date := (if x.date in byDay then byDay[x.date] else []) + [x]]
  }

  lemma AddedToGroup(sessions: seq<GeneratedSession>, i: nat, dates0: seq<int>, byDay0: map<int, seq<GeneratedSession>>)
    requires i < |sessions| && GroupsOf(sessions[..i], dates0, byDay0)
    ensures GroupsOf(sessions[..i + 1], AddedKeys(dates0, sessions[i].date), Added(byDay0, sessions[i]))
  {
    AddedDateKeys(sessions, i);
    AddedDomain(dates0, byDay0, sessions[i]);
    GroupStep(sessions, i);
    AddedGroups(sessions, i, byDay0);
  }

  lemma AddedDateKeys(sessions: seq<GeneratedSession>, i: nat)
    requires i < |sessions|
    ensures DateKeys(sessions[..i + 1]) == AddedKeys(DateKeys(sessions[..i]), sessions[i].date)
  {
    assert sessions[..i + 1][..i] == sessions[..i];
  }

  lemma AddedDomain(dates0: seq<int>, byDay0: map<int, seq<GeneratedSession>>, x: GeneratedSession)
    requires forall d :: d in byDay0 <==> d in dates0
    ensures forall d :: d in Added(byDay0, x) <==> d in AddedKeys(dates0, x.date)
  {
  }

  lemma AddedGroups(sessions: seq<GeneratedSession>, i: nat, byDay0: map<int, seq<GeneratedSession>>)
    requires i < |sessions|
    requires forall d :: d in byDay0 ==> byDay0[d] == Group(sessions[..i], d)
    requires sessions[i].date !in byDay0 ==> Group(sessions[..i], sessions[i].date) == []
    ensures forall e :: e in Added(byDay0, sessions[i]) ==> Added(byDay0, sessions[i])[e] == Group(sessions[..i + 1], e)
  {
    var byDay := Added(byDay0, sessions[i]);
    var d := sessions[i].date;
    GroupStep(sessions, i);
    forall e | e in byDay
      ensures byDay[e] == Group(sessions[..i + 1], e)
    {
      if e != d {
        assert byDay[e] == byDay0[e];
      }
    }
  }

  /** What one more session does to the date keys and the groups. */
  lemma GroupStep(sessions: seq<GeneratedSession>, i: nat)
    requires i < |sessions|
    ensures var d := sessions[i].date;
      && DateKeys(sessions[..i + 1]) == (if d in DateKeys(sessions[..i]) then DateKeys(sessions[..i]) else DateKeys(sessions[..i]) + [d])
      && Group(sessions[..i + 1], d) == Group(sessions[..i], d) + [sessions[i]]
      && (d !in DateKeys(sessions[..i]) ==> Group(sessions[..i], d) == [])
      && forall e :: e != d ==> Group(sessions[..i + 1], e) == Group(sessions[..i], e)
  {
    assert sessions[..i + 1][..i] == sessions[..i];
  }

  lemma SessionLinesStep(g: seq<GeneratedSession>, k: nat)
    requires k < |g|
    ensures SessionLines(g[..k + 1]) == SessionLines(g[..k]) + [LineOf(g[k])]
  {
  }

  lemma BodyStep(keys: seq<int>, j: nat, s: seq<GeneratedSession>)
    requires j < |keys|
    ensures Body(keys[..j + 1], s) == Body(keys[..j], s) + Section(keys[j], Group(s, keys[j]))
  {
    assert keys[..j + 1][..j] == keys[..j];
  }

  // Proof helpers: small facts about sequences that the proofs above
  // call to keep heavy terms from unfolding. They state nothing about the program.

  lemma SnocOfLast(keys: seq<int>)
    requires keys != []
    ensures keys == keys[..|keys| - 1] + [keys[|keys| - 1]]
  {
  }

  lemma AppendAssociatesSeq(a: seq<Line>, b: seq<Line>, c: seq<Line>)
    ensures a + b + c == a + (b + c)
  {
  }

  lemma AppendAssociates(a: seq<Line>, b: seq<Line>, x: Line)
    ensures a + b + [x] == a + (b + [x])
  {
  }
}
