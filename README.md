# Study planner: scheduler and planning assistant

This project is a Dafny model of the two algorithmic parts of a student study-planning app.

1. **The scheduler** (`src/utils/planningAlgorithm.ts`):
   - It scores each subject by how close its exam is and by its coefficient, and sorts the subjects by that score (highest first, ties in input order).
   - It pairs the first slot with the best subject, the second slot with the next, and so on, and stops when either list runs out.
   - Each pairing becomes a session. A session has an id `session_i`, a day offset from today, the slot's times and a duration in minutes. It also has a type (`revision` when the subject has none), an urgency bucket (`high`, `medium` or `low`) and a description taken from a four-entry template table.
   - It writes the explanation message. The sessions are grouped by date, with the dates in the order they first appear. Each date gets a header and one line per session, marked 🔥, ⚠️ or 📚. The message ends with tips that give the total time and the number of distinct subjects.
2. **The planning assistant** (`src/config/openai.ts`):
   - A module-level session record moves through `idle → collecting_subjects → collecting_schedule → ready`.
   - `resetPlanningSession` puts the record back to its initial state.
   - Any message that does not advance the conversation gets a scripted "demo" reply: the text of the first keyword the message contains, or a default text. A fixed tip is appended to every demo reply.
   - Two parsers turn chat messages into lists. `parseSubjectsFromMessage` finds subjects by common-subject word prefixes, falls back to comma- and newline-separated names, and finally to a default subject. `parseScheduleFromMessage` makes one slot per (named weekday, time range) pair and falls back to three default slots.

## Modules

| file | module | models |
|---|---|---|
| `wrappers.dfy` | `Wrappers` | `Option`: JavaScript's `NaN` and absent fields |
| `strings.dfy` | `Strings` | the JavaScript string operations used: `includes`, `toLowerCase`, `trim`, `split`, `padStart`, number formatting and parsing |
| `planning_types.dfy` | `PlanningTypes` | the records of `src/types/planning.ts` |
| `ranking.dfy` | `Ranking` | urgency score, priority and the stable sort |
| `planning.dfy` | `PlanningAlgorithm` | day offset, durations, buckets, descriptions, and the slot loop `GenerateOptimalPlanning` |
| `explanation.dfy` | `Explanation` | grouping by date, the explanation as a sequence of lines, and the imperative composer |
| `parsers.dfy` | `MessageParsing` | the subject parser and the schedule parser, each as a specification function plus the loop method |
| `assistant.dfy` | `Assistant` | keyword detection, demo replies, the step function `Next`, and the `PlanningSession` class |

**Injected inputs.** Four things the source reads from the environment are inputs to the model:

- **Clock.** `PlanningAlgorithm.Clock` holds today's weekday (0..6) and hour (0..23). It also holds `daysUntil`, which gives the whole number of days from now to an exam date string.
- **Default exam dates.** `examDateFor(i)` stands for `getDefaultExamDate(i)`.
- **Regular expressions.** They are not modelled:
  - the subject parser's three patterns reach it as one boolean, "some pattern matched";
  - the time pattern's matches (`matchAll`) reach the schedule parser as a sequence of `(startHour, endHour)` digit strings.
- **Session date.** A session's `date` is the day offset from today (0..7), not the ISO string that `toISOString` produces from it.

**Imperative parts.** These keep their loops or fields:

- `generateOptimalPlanning`'s `forEach` is `GenerateOptimalPlanning`.
- The explanation composer's grouping loop and string appends are `GroupByDate`, `AddToGroup`, `ComposeExplanation`, `AppendDays` and `AppendDay`.
- The parsers' `forEach` loops are `CollectWordSubjects`, `CollectCommaSubjects`, `ParseSchedule` and `AppendDaySlots`.
- The demo-reply `for`/`break` loop is `FindResponse`.
- The `planningSession` record is the class `PlanningSession`, with `Reset` and `SendMessage`.

Each method is proved equal to a specification function, and the properties are proved about those functions.

**Behaviour that follows the code.** These are points where the code differs from what its comments or intent suggest:

- Only `min(|slots|, |subjects|)` sessions are made. The guard on line 24 means the `% length` on line 25 never wraps, so no subject is used twice (`PlanUsesEachSubjectAtMostOnce`).
- The request's preferences are never read.
- A slot's `dayOfWeek` 7 (Sunday, as the schedule parser numbers it) lands on weekday 0 through `% 7`.
- The schedule parser attaches every time range in the message to every weekday the message names. It does not look only at the hours after that day's name. Slots come in weekday order, not message order.
- When one of the subject patterns matches, the word path is skipped. The comma path then takes whole comma-separated pieces as names; the captured groups are never used.
- Duration is not validated: it can be zero, negative, or `NaN` (`None`) for a time without a colon or with non-digit parts.

## Model

| member | source | states |
|---|---|---|
| Ranking.Urgency | src/utils/planningAlgorithm.ts:13 | the urgency lies in [0.1, 1]; it is 1 when the exam is due, 0.1 from 27 days on, and (30 − d)/30 in between |
| Ranking.Coefficient | src/utils/planningAlgorithm.ts:18 | no contract of its own: `subject.coefficient || 1`; used by `Prioritize` and stated through `Rank` |
| Ranking.Prioritize | src/utils/planningAlgorithm.ts:7-19 | no contract of its own: the `map` callback; each entry's scores are stated by `Rank` |
| Ranking.UrgencyNonIncreasing | src/utils/planningAlgorithm.ts:13 | a later exam never gets a higher urgency |
| Ranking.SortByPriority | src/utils/planningAlgorithm.ts:20 | the sorted list is non-increasing in priority and a permutation of its input |
| Ranking.SortIsStable | src/utils/planningAlgorithm.ts:20 | for every priority value, the entries with that priority keep their input order |
| Ranking.SortPermutesImage | src/utils/planningAlgorithm.ts:20 | sorting permutes any projection of the entries, such as their subjects or ids |
| Ranking.Rank | src/utils/planningAlgorithm.ts:7-20 | the ranking has one entry per subject; it is sorted by decreasing `urgency*0.7 + (coefficient or 1)*0.3`; its subjects and ids are a permutation of the input; each entry carries its own subject's score |
| Ranking.RankIsStable | src/utils/planningAlgorithm.ts:7-20 | subjects with equal priority appear in the ranking in their input order |
| PlanningAlgorithm.JsRemainder | src/utils/planningAlgorithm.ts:50 | JavaScript `%`: `a == b * q + r` for the quotient truncated toward zero, with `r` in [0, b) for a non-negative dividend and in (−b, 0] for a negative one |
| PlanningAlgorithm.DayOffset | src/utils/planningAlgorithm.ts:47-59 | no contract of its own: `getNextDate` as a day offset from the clock; stated by `DayOffsetLands` |
| PlanningAlgorithm.DayOffsetLands | src/utils/planningAlgorithm.ts:47-56 | the offset is in 0..7; today plus the offset falls on weekday `dayOfWeek % 7`; it is 0 exactly when that is today before 18:00 and 7 exactly when it is today from 18:00; no smaller positive offset reaches that weekday |
| PlanningAlgorithm.ClockMinutes | src/utils/planningAlgorithm.ts:67-70 | no contract of its own: `timeToMinutes`; stated by `ClockMinutesOfDigits`, `ClockMinutesOfPieces` and `ClockMinutesWithoutColon` |
| PlanningAlgorithm.ClockMinutesOfDigits | src/utils/planningAlgorithm.ts:67-70 | `"H:M"` with digit parts is H*60 + M minutes |
| PlanningAlgorithm.ClockMinutesOfPieces | src/utils/planningAlgorithm.ts:67-70 | any time string that splits on `:` into two digit strings is worth their hours*60 + minutes |
| PlanningAlgorithm.ClockMinutesWithoutColon | src/utils/planningAlgorithm.ts:67-70 | a time without `:` has no minute count (`NaN`) |
| PlanningAlgorithm.Duration | src/utils/planningAlgorithm.ts:61-65 | no contract of its own: `calculateDuration`; stated by `DurationOfDigits` and `MessageParsing.RangeSlotDuration` |
| PlanningAlgorithm.DurationOfDigits | src/utils/planningAlgorithm.ts:61-65 | the duration is end minus start, with no validation, so it can be zero or negative |
| PlanningAlgorithm.Bucket | src/utils/planningAlgorithm.ts:36 | no contract of its own: the priority level of an urgency score; stated by `BucketOfDays` |
| PlanningAlgorithm.BucketOfDays | src/utils/planningAlgorithm.ts:36 | in days before the exam: `high` exactly under 9, `medium` exactly from 9 to 17, `low` exactly from 18 on |
| PlanningAlgorithm.EffectiveKind | src/utils/planningAlgorithm.ts:35 | no contract of its own: `subject.type || 'revision'`; stated through `DescriptionRevealsKind` |
| PlanningAlgorithm.Describe | src/utils/planningAlgorithm.ts:72-83 | no contract of its own: `generateDescription`; stated by `DescribeNamesSubject`, `DescriptionRevealsKind` and `DescriptionStart` |
| PlanningAlgorithm.DescribeNamesSubject | src/utils/planningAlgorithm.ts:72-83 | every description contains the subject's name; a type outside the four templates gives `Session {name}` |
| PlanningAlgorithm.DescriptionRevealsKind | src/utils/planningAlgorithm.ts:72-83 | two subjects with the same name get the same description only when they have the same effective type, or when neither type has a template |
| PlanningAlgorithm.DescriptionStart | src/utils/planningAlgorithm.ts:72-83 | the first three characters of a description identify its template |
| PlanningAlgorithm.Plan | src/utils/planningAlgorithm.ts:23-25 | there are exactly min(\|slots\|, \|subjects\|) sessions, so an empty subject list gives none |
| PlanningAlgorithm.MakeSession | src/utils/planningAlgorithm.ts:27-38 | no contract of its own: the session object built for one slot; stated by `PlanSession` |
| PlanningAlgorithm.PlanSession | src/utils/planningAlgorithm.ts:23-38 | session i comes from slot i and ranked subject i: its id, subject, day offset, times, duration, effective type, bucket and description |
| PlanningAlgorithm.GenerateOptimalPlanning | src/utils/planningAlgorithm.ts:2-45 | the loop over the slots returns exactly the plan `Plan` |
| PlanningAlgorithm.PairingStep | src/utils/planningAlgorithm.ts:40 | each step of the loop appends the next pairing |
| PlanningAlgorithm.PlanIdsDistinct | src/utils/planningAlgorithm.ts:28 | session ids are pairwise distinct |
| PlanningAlgorithm.PlanUsesEachSubjectAtMostOnce | src/utils/planningAlgorithm.ts:24-25 | the multiset of scheduled subject ids is contained in the multiset of the request's ids |
| PlanningAlgorithm.PlanSubjectIds | src/utils/planningAlgorithm.ts:24-29 | the sessions' subject ids are a prefix of the ranked ids |
| PlanningAlgorithm.PlanSubjectsDistinct | src/utils/planningAlgorithm.ts:24-29 | when the request's subject ids are distinct, so are the sessions' |
| Explanation.DateKeys | src/utils/planningAlgorithm.ts:93-99 | the grouping keys are pairwise distinct and are exactly the dates that occur |
| Explanation.DateKeysFirstSeen | src/utils/planningAlgorithm.ts:93-102 | the dates are listed in order of their first occurrence, not chronologically |
| Explanation.Group | src/utils/planningAlgorithm.ts:93-99 | a day's group holds only sessions of that date, and is empty for a date that does not occur |
| Explanation.GroupOfSingleton | src/utils/planningAlgorithm.ts:93-99 | one session forms its date's group and belongs to no other |
| Explanation.GroupOfConcat | src/utils/planningAlgorithm.ts:93-99 | grouping distributes over concatenation, so a group keeps every session of its date in input order |
| Explanation.RegroupPermutes | src/utils/planningAlgorithm.ts:93-111 | the groups, taken in key order, hold each session exactly once |
| Explanation.GroupByDate | src/utils/planningAlgorithm.ts:93-99 | the loop's key order is the first-seen order, its dictionary has exactly those keys, and each value is that date's group in session order |
| Explanation.AddToGroup | src/utils/planningAlgorithm.ts:94-99 | one step of the grouping keeps that description true for one more session |
| Explanation.TotalMinutes | src/utils/planningAlgorithm.ts:87 | the total is a number exactly when every duration is (otherwise `NaN`) |
| Explanation.TotalMinutesOfConcat | src/utils/planningAlgorithm.ts:87 | the total of two runs of sessions is the sum of their totals |
| Explanation.SubjectIdSet | src/utils/planningAlgorithm.ts:88 | the set holds exactly the subject ids that occur, and has at most one id per session |
| Explanation.SubjectCountOfDistinct | src/utils/planningAlgorithm.ts:88 | with pairwise distinct subjects, the subject count is the number of sessions |
| Explanation.FiltersOfBody | src/utils/planningAlgorithm.ts:102-111 | the day sections contain one header per key, in key order, and the session lines of the groups in that order |
| Explanation.Explanation | src/utils/planningAlgorithm.ts:86-122 | no contract of its own: `generatePlanningExplanation` as a sequence of lines; stated by `ExplanationStructure` and `FiltersOfBody` |
| Explanation.ExplanationStructure | src/utils/planningAlgorithm.ts:86-121 | the explanation has one header per distinct date in first-seen order and one session line per session, grouped by date |
| Explanation.ComposeExplanation | src/utils/planningAlgorithm.ts:86-122 | the imperative composer builds exactly `Explanation(sessions)` |
| Explanation.AppendDays | src/utils/planningAlgorithm.ts:102-111 | the loop over the dates appends exactly the day sections |
| Explanation.AppendDay | src/utils/planningAlgorithm.ts:103-110 | the loop for one date appends its header, its session lines and a blank line |
| MessageParsing.Numbered | src/config/openai.ts:155-167 | at most one subject per candidate; the k-th has id `subject_k` and the fixed fields of an extracted subject |
| MessageParsing.NumberedSound | src/config/openai.ts:155-167 | the k-th subject comes from a kept candidate, with that candidate's exam date |
| MessageParsing.NumberedComplete | src/config/openai.ts:155-167 | every kept candidate is listed, with its own exam date |
| MessageParsing.KeptIndices | src/config/openai.ts:155-167 | the positions of the kept candidates, strictly increasing, with every kept position present |
| MessageParsing.NumberedInOrder | src/config/openai.ts:155-167 | there is one subject per kept candidate, and the k-th subject is read off the k-th kept candidate in message order |
| MessageParsing.WordSubjectsSound | src/config/openai.ts:152-167 | each word-path subject is a common-subject word of the message, capitalised, with the exam date of its word position |
| MessageParsing.WordSubjectsComplete | src/config/openai.ts:152-167 | every common-subject word of the message is listed |
| MessageParsing.LongerThanTwoSound | src/config/openai.ts:172 | the filter keeps only pieces of the input |
| MessageParsing.LongerThanTwoComplete | src/config/openai.ts:172 | the filter keeps every piece longer than two characters |
| MessageParsing.NamesOfPiecesSound | src/config/openai.ts:172 | each comma-path name is a trimmed piece longer than two characters |
| MessageParsing.NamesOfPiecesComplete | src/config/openai.ts:172 | every trimmed piece longer than two characters is a name |
| MessageParsing.ParseSubjects | src/config/openai.ts:140-195 | the parser returns exactly `SubjectsOfMessage` |
| MessageParsing.CollectWordSubjects | src/config/openai.ts:155-167 | the word loop returns exactly the word-path subjects |
| MessageParsing.AddWordSubject | src/config/openai.ts:156-166 | one word adds one numbered subject when it names a common subject, and nothing otherwise |
| MessageParsing.CommaSubjectsNumbered | src/config/openai.ts:173-183 | there is one comma-path subject per name, the k-th with id `subject_k`, coefficient 1, type `revision`, 8 hours and no progress |
| MessageParsing.CollectCommaSubjects | src/config/openai.ts:173-183 | the comma loop returns exactly the comma-path subjects |
| MessageParsing.SubjectsOfMessage | src/config/openai.ts:140-194 | no contract of its own: `parseSubjectsFromMessage`; stated by `SubjectsOfMessageShape`, `WordPathWins`, `PatternUsesCommaPath` and `ParsedIdsDistinct` |
| MessageParsing.SubjectsOfMessageShape | src/config/openai.ts:150-194 | the result is never empty; it is the default subject exactly when both paths find nothing; otherwise subject k has id `subject_k` and the extracted fields |
| MessageParsing.SubjectIdInjective | src/config/openai.ts:158 | different positions give different subject ids |
| MessageParsing.ParsedIdsDistinct | src/config/openai.ts:155-194 | the parsed subjects have pairwise distinct ids |
| MessageParsing.WordPathWins | src/config/openai.ts:151-168 | with no pattern matched and one common-subject word, the word path decides the result |
| MessageParsing.PatternUsesCommaPath | src/config/openai.ts:151-194 | when a pattern matched, the result is the comma path, or the default subject when that path finds no names |
| MessageParsing.ParseSchedule | src/config/openai.ts:197-230 | the parser returns exactly `ScheduleOfMessage` |
| MessageParsing.AppendDaySlots | src/config/openai.ts:208-216 | the inner loop appends exactly the day's slots |
| MessageParsing.DaySlotAt | src/config/openai.ts:208-216 | the day's j-th slot is the one built from the j-th time range |
| MessageParsing.SlotsCount | src/config/openai.ts:202-218 | there are (number of named days) × (number of ranges) slots |
| MessageParsing.SlotsSound | src/config/openai.ts:202-218 | each slot is for a named day, numbered from 1, and made from one of the ranges |
| MessageParsing.SlotsOrdered | src/config/openai.ts:202-218 | slots come in weekday order |
| MessageParsing.SlotsComplete | src/config/openai.ts:202-218 | every (named day, range) pair has its slot |
| MessageParsing.NamedDaySlotsSound | src/config/openai.ts:199-218 | on a message: the day is in 1..7, its French name occurs in the lower-cased message, the slot comes from one of the ranges, and the days are in order |
| MessageParsing.NamedDaySlotsComplete | src/config/openai.ts:199-218 | on a message: every range is attached to every weekday the message names |
| MessageParsing.SlotIdLength | src/config/openai.ts:210 | a parsed slot id is longer than each default id |
| MessageParsing.ScheduleOfMessage | src/config/openai.ts:197-229 | no contract of its own: `parseScheduleFromMessage`; stated by `ScheduleShape`, `NamedDaySlotsSound` and `NamedDaySlotsComplete` |
| MessageParsing.ScheduleShape | src/config/openai.ts:197-229 | the result is the three default slots exactly when no day is named or no range matched; otherwise it is the day slots, (days × ranges) of them |
| MessageParsing.RangeSlotDuration | src/config/openai.ts:212-213 | a parsed slot lasts (end hour − start hour) × 60 minutes |
| Strings.NatToStringInjective | src/utils/planningAlgorithm.ts:28 | different numbers print differently |
| Strings.Includes | src/config/openai.ts:37 | `includes` holds exactly when the text occurs at some position |
| Strings.Capitalize | src/config/openai.ts:159 | capitalising changes only the first character, to upper case |
| Strings.TrimIsSlice | src/config/openai.ts:172 | `trim` removes exactly a leading and a trailing run of white space |
| Strings.JoinSplit | src/utils/planningAlgorithm.ts:68 | joining the pieces of a split on the same separator gives back the string |
| Strings.SplitInterleave | src/config/openai.ts:172 | for any separator set, the pieces of a split and the separators between them rebuild the string |
| Strings.SplitPair | src/utils/planningAlgorithm.ts:68 | `"a:b"` splits into `[a, b]` |
| Strings.Words | src/config/openai.ts:153 | `split(/\s+/)`: no piece contains white space, and only the first and last pieces can be empty |
| Strings.WordsInterleave | src/config/openai.ts:153 | the pieces of `split(/\s+/)` and the non-empty white-space runs between them rebuild the string |
| Strings.PadStart2 | src/config/openai.ts:212-213 | padding gives at least two characters and keeps the number value of a digit string |
| Strings.PadStart2Suffix | src/config/openai.ts:212-213 | the padded text ends with the original text |
| Assistant.IsPlanningRequest | src/config/openai.ts:35-38 | no contract of its own: keyword detection; stated by `PlanningRequestIgnoresCase` and `StartsOnRequest` |
| Assistant.PlanningRequestIgnoresCase | src/config/openai.ts:35-38 | two messages that differ only in letter case are both planning requests or neither, which follows from their lower-cased forms being equal; a message and its upper-cased form agree as well, which needs `LowerOfUpper` on each character |
| Assistant.FirstMatch | src/config/openai.ts:126-131 | the answer is the first key, in listed order, that occurs in the lower-cased message; none only when no key occurs |
| Assistant.FirstMatchUnique | src/config/openai.ts:126-131 | a key that matches with no earlier key matching is the one chosen |
| Assistant.FindResponse | src/config/openai.ts:124-131 | the `for`/`break` loop returns exactly the first match |
| Assistant.DemoMessage | src/config/openai.ts:111-136 | no contract of its own: the demo reply; stated by `DemoTextFirstMatch` and `DemoTextDefault` |
| Assistant.Text | src/config/openai.ts:47-136 | no contract of its own: the text of each reply template |
| Assistant.DemoTextFirstMatch | src/config/openai.ts:114-135 | the demo text is the first matching key's response plus the tip, whatever later keys also match |
| Assistant.DemoTextDefault | src/config/openai.ts:124-135 | with no key matching, the demo text is the default response plus the tip |
| Assistant.Next | src/config/openai.ts:33-136 | no contract of its own: one call of `sendMessageToAI` on the session; stated by `NextStep`, `StartsOnRequest`, `CollectsSubjects`, `CollectsSchedule` and `ReadyIsFinal` |
| Assistant.NextStep | src/config/openai.ts:33-136 | from a consistent session: `isActive` still holds exactly when the step is not idle; the reply succeeds; the step advances by at most one; the reply names the new step exactly when it moves; otherwise the session is unchanged and the reply is the demo reply |
| Assistant.StartsOnRequest | src/config/openai.ts:40-59 | an inactive session becomes active and collecting subjects on a planning request, keeping its subjects and slots |
| Assistant.CollectsSubjects | src/config/openai.ts:63-83 | while collecting subjects, any message is parsed as subjects, which are stored, and the step becomes collecting the schedule |
| Assistant.CollectsSchedule | src/config/openai.ts:86-108 | while collecting the schedule, any message is parsed as slots, which are stored; the step becomes ready and the reply carries exactly the stored subjects and the new slots |
| Assistant.ReadyIsFinal | src/config/openai.ts:40-136 | in `ready`, every message, planning keywords included, gets the demo reply and changes nothing |
| Assistant.IdleUntilAsked | src/config/openai.ts:40-136 | before a planning request, the initial session only chats |
| Assistant.Conversation | src/config/openai.ts:33-109 | a planning request, then any two messages, lead to `ready`, with the parsed subjects and slots handed over |
| Assistant.ParsedPlanSubjectsDistinct | src/config/openai.ts:104-107 | a plan built from the collected subjects never schedules a subject twice |
| Assistant.PlanningSession.State | src/config/openai.ts:19-21 | no contract of its own: `getPlanningSession()`, the session record as a value; the constructor, `Reset` and `SendMessage` contracts are stated through it |
| Assistant.PlanningSession.constructor | src/config/openai.ts:11-17 | the module starts inactive, idle, with no subjects or slots |
| Assistant.PlanningSession.Reset | src/config/openai.ts:23-31 | `resetPlanningSession` restores exactly the initial state |
| Assistant.PlanningSession.SendMessage | src/config/openai.ts:33-136 | the reply and the new state are exactly those of the step function `Next` on the old state |

## Left out

- Date arithmetic is not modelled: `new Date`, `getTime`, `Math.ceil` of milliseconds, `setDate`, `toISOString` and the clock-dependent `getDefaultExamDate`. The clock and `examDateFor` are inputs, and a session's date is a day offset. The UTC shift of `toISOString` is therefore not modelled.
- `toFixed(1)` and `toLocaleDateString('fr-FR', …)` are not modelled. The explanation is a sequence of `Line` values: a header carries its day offset and the totals line carries the minute total, not formatted text.
- Floating point is not modelled. Scores are Dafny `real`s, so rounding in `urgency*0.7 + c*0.3`, and therefore near-ties in the sort, are not modelled.
- Malformed exam dates are not modelled. In the source, `new Date` of a malformed string makes `daysUntilExam` NaN (src/utils/planningAlgorithm.ts:8-10). Then `urgencyScore` and `priority` are NaN (lines 13 and 18), the bucket is `low` (line 36), and the comparator on line 20 returns NaN, which leaves the sort order to the engine. In the model `daysUntil` returns an integer. Every caller passes well-formed dates: `getDefaultExamDate` (src/config/openai.ts:232-236), the default subject (line 189) and PlanningScreen.tsx (src/screens/planning/PlanningScreen.tsx:19-20).
- Regular-expression matching (`test` on the `/gi` subject patterns, `matchAll` on the time pattern) is not modelled: matches are inputs. The two splits are modelled (`Words`, `Split`), with `\s` as JavaScript's white-space set.
- `Number()` of strings with white space, signs, decimals or exponents is not modelled: only digit strings, including the empty one as 0, are numbers.
- Case mapping covers the ASCII letters and the Latin-1 letters that have a Latin-1 partner; lengths count characters, not UTF-16 code units.
- Strings.UpperChar: upper-casing leaves ß, µ and ÿ unchanged. JavaScript's `toUpperCase` turns them into "SS", U+039C and U+0178, so `Capitalize` differs from `charAt(0).toUpperCase() + slice(1)` on a word that starts with one of them. Their upper-case forms lie outside Latin-1, and ß's is two letters, so the model keeps upper-casing one character to one Latin-1 character.
- The OpenAI client, the `await setTimeout` delays and the promise wrapper are left out, since they do not affect the result. So are the unused `conversationHistory` parameter and the `userData` field, which is only ever reset.
- `getPlanningSession` returns the live object, which callers could alias and mutate. `PlanningSession.State` returns a copy.
- Reply texts are `Message` values, and `Text` renders each one as its template string.
- PlanningAlgorithm.DayOffsetLands: stated only for non-negative `dayOfWeek` (the parsers produce 1..7). For negative values `DayOffset` still computes JavaScript's negative remainder.
- The source reads the clock afresh for every subject (`new Date()` at src/utils/planningAlgorithm.ts:9) and in every `getNextDate` call (line 48). The model reads one clock for the whole call, so a call that spans midnight or an hour boundary, where the source's readings disagree, is not modelled.
- PlanningAlgorithm.DescribeNamesSubject: JavaScript's `descriptions[type]` also finds inherited object properties, so a type such as `constructor` or `toString` gives a function rather than `Session {name}`. The model treats every type outside the four templates as unknown.
- The user-interface, navigation, authentication, database and configuration files are not part of this model.
