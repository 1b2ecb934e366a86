/**
 * The records the scheduler and the chat layer exchange. The subject's `type`
 * field is called `kind` here (`type` is a Dafny keyword); a missing or empty
 * type is the empty string and a missing or zero coefficient is `0.0`, the two
 * values JavaScript's `||` treats as absent.
 */
module PlanningTypes {
  import opened Wrappers

  datatype Subject = Subject(
    id: string,
    name: string,
    coefficient: real,
    examDate: string,
    estimatedHours: int,
    currentProgress: int,
    kind: string)

  /** A weekly slot; `dayOfWeek` is 1 (Monday) to 7 (Sunday) when the chat parser builds it. */
  datatype TimeSlot = TimeSlot(
    id: string,
    dayOfWeek: int,
    startTime: string,
    endTime: string,
    available: bool)

  datatype Level = High | Medium | Low

  /**
   * A scheduled session. `date` is the calendar day of the session counted in
   * days from today; `duration` is `None` where JavaScript computes `NaN`.
   */
  datatype GeneratedSession = GeneratedSession(
    id: string,
    subjectId: string,
    subjectName: string,
    date: int,
    startTime: string,
    endTime: string,
    duration: Option<int>,
    kind: string,
    priority: Level,
    description: string)

  datatype StudyTime = Morning | Afternoon | Evening | Flexible

  /** Collected from the user and carried along, but never read by the scheduler. */
  datatype Preferences = Preferences(
    preferredStudyTime: StudyTime,
    maxSessionDuration: int,
    breakBetweenSessions: int,
    weekendStudy: bool)

  datatype PlanningRequest = PlanningRequest(
    subjects: seq<Subject>,
    availableSlots: seq<TimeSlot>,
    preferences: Preferences)
}
