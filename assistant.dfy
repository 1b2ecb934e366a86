/**
 * The chat assistant of `src/config/openai.ts` in demo mode: a three-step
 * conversation that collects subjects, then free slots, then hands both to the
 * scheduler; every other message gets a canned reply chosen by keyword.
 *
 * The module-level `planningSession` object is a `PlanningSession` instance whose
 * `SendMessage` is `sendMessageToAI`; the pure function `Next` states what one
 * message does to the session and what it answers. What the parsers learn from
 * regular expressions arrives with each message as `MessageFacts`; the exam dates
 * the subject parser derives from today are `examDateFor`.
 */
module Assistant {
  import opened Wrappers
  import opened Strings
  import opened PlanningTypes
  import opened MessageParsing
  import Ranking
  import PlanningAlgorithm

  // ---------------------------------------------------------------------------
  // Planning requests
  // ---------------------------------------------------------------------------

  const PlanningKeywords: seq<string> := ["planning", "planifier", "révision", "examens", "organiser", "programme"]

  /** `keywords.some(keyword => lower.includes(keyword))`. */
  predicate IncludesSome(lower: string, keywords: seq<string>)
  {
    keywords != [] && (Includes(lower, keywords[0]) || IncludesSome(lower, keywords[1..]))
  }

  /** A message asks for a plan when its lower-cased text contains one of the keywords. */
  predicate IsPlanningRequest(message: string)
  {
    IncludesSome(Lower(message), PlanningKeywords)
  }

  /**
   * Whether the message mentions a keyword does not depend on its letter case:
   * two messages that differ only in the case of their letters are both requests or neither.
   */
  lemma PlanningRequestIgnoresCase(message: string, other: string)
    requires |other| == |message|
    requires forall i :: 0 <= i < |message| ==> LowerChar(other[i]) == LowerChar(message[i])
    ensures IsPlanningRequest(other) == IsPlanningRequest(message)
    ensures IsPlanningRequest(Upper(message)) == IsPlanningRequest(message)
  {
    assert Lower(other) == Lower(message);
    forall i | 0 <= i < |message|
      ensures LowerChar(Upper(message)[i]) == LowerChar(message[i])
    {
      LowerOfUpper(message[i]);
    }
    assert Lower(Upper(message)) == Lower(message);
  }

  // ---------------------------------------------------------------------------
  // Session state and replies
  // ---------------------------------------------------------------------------

  datatype Step = Idle | CollectingSubjects | CollectingSchedule | Ready

  /** The position of a step in the conversation. */
  function StepNumber(step: Step): nat
  {
    match step
    case Idle => 0
    case CollectingSubjects => 1
    case CollectingSchedule => 2
    case Ready => 3
  }

  /** The fields of `planningSession` the assistant reads and writes. */
  datatype Session = Session(isActive: bool, step: Step, subjects: seq<Subject>, availableSlots: seq<TimeSlot>)
  {
    /** The session is active exactly when the conversation has left `Idle`. */
    predicate Consistent()
    {
      isActive <==> step != Idle
    }
  }

  const InitialSession: Session := Session(false, Idle, [], [])

  datatype PlanningData = PlanningData(subjects: seq<Subject>, availableSlots: seq<TimeSlot>)

  /** The replies the assistant writes; `Text` spells each one out. */
  datatype Message =
    | Started
    | SubjectsNoted(subjects: seq<Subject>)
    | PlanReady(subjectCount: nat, slotCount: nat)
    | Demo(response: Option<nat>)

  /** The object `sendMessageToAI` resolves to; absent fields are `None`. */
  datatype Reply = Reply(success: bool, message: Message, planningStep: Option<Step>, planningData: Option<PlanningData>)

  /** What the regular expressions find in one message: whether a subject-with-date
      pattern matches, and the hour ranges the time pattern captures. */
  datatype MessageFacts = MessageFacts(subjectPatternMatched: bool, timeRanges: seq<TimeRange>)

  /** `• ${s.name} (examen ${s.examDate})`. */
  function Bullet(s: Subject): string
  {
    "• " + s.name + " (examen " + s.examDate + ")"
  }

  function Bullets(subjects: seq<Subject>): seq<string>
  {
    seq(|subjects|, i requires 0 <= i < |subjects| => Bullet(subjects[i]))
  }

  // ---------------------------------------------------------------------------
  // Demo replies
  // ---------------------------------------------------------------------------

  /** The keys of the canned replies, in the order the lookup tries them. */
  const DemoKeys: seq<string> := ["procrastination", "quick_session", "motivation", "Test bouton", "bonjour", "aide"]

  /** The canned replies, key by key. */
  const DemoTexts: seq<string> := [
    "Je comprends ! 😊 La procrastination touche 95% des étudiants. Veux-tu qu'on commence par une micro-session de 5 minutes ? C'est plus facile que de se lancer dans 2h d'études !",
    "⚡ Excellent choix ! 5 minutes c'est le temps parfait pour se remettre en route. Choisis une matière et on démarre un mini-exercice !",
    "💪 Tu sais quoi ? Le fait que tu demandes de l'aide montre déjà ta motivation ! Quel est ton objectif principal cette semaine ?",
    "🚀 Super ! Le chat fonctionne parfaitement ! Tu peux maintenant me poser tes vraies questions d'étudiant.",
    "👋 Salut ! Je suis ton assistant personnel pour t'aider dans tes études. Comment puis-je t'accompagner aujourd'hui ?",
    "🎯 Je peux t'aider avec plein de choses ! Planifier tes révisions, te motiver, créer des sessions express... Dis-moi ce qui te préoccupe !"]

  const DefaultResponse: string := "🤔 Intéressant ! Peux-tu me donner plus de détails ? Je suis là pour t'aider avec tes études !"

  const PlanningTip: string := "\n\n💡 Tu peux me demander de planifier tes révisions quand tu veux !"

  /** A key matches when the lower-cased message contains the lower-cased key. */
  predicate KeyMatches(lower: string, key: string)
  {
    Includes(lower, Lower(key))
  }

  /** The first key, from position `from` on, that matches. */
  function FirstMatch(lower: string, keys: seq<string>, from: nat): (r: Option<nat>)
    requires from <= |keys|
    ensures r.Some? ==>
      && from <= r.value < |keys|
      && KeyMatches(lower, keys[r.value])
      && forall k :: from <= k < r.value ==> !KeyMatches(lower, keys[k])
    ensures r.None? ==> forall k :: from <= k < |keys| ==> !KeyMatches(lower, keys[k])
    decreases |keys| - from
  {
    if from == |keys| then
      None
    else if KeyMatches(lower, keys[from]) then
      Some(from)
    else
      FirstMatch(lower, keys, from + 1)
  }

  /** The first match is the one position that matches with no match before it. */
  lemma FirstMatchUnique(lower: string, keys: seq<string>, i: nat)
    requires i < |keys| && KeyMatches(lower, keys[i])
    requires forall k :: 0 <= k < i ==> !KeyMatches(lower, keys[k])
    ensures FirstMatch(lower, keys, 0) == Some(i)
  {
  }

  /** The demo lookup: the first key the message contains picks the reply. */
  method FindResponse(message: string) returns (found: Option<nat>)
    ensures found == FirstMatch(Lower(message), DemoKeys, 0)
  {
    var lower := Lower(message);
    found := None;
    var i := 0;
    while i < |DemoKeys|
      invariant 0 <= i <= |DemoKeys|
      invariant FirstMatch(lower, DemoKeys, 0) == FirstMatch(lower, DemoKeys, i)
    {
      if Includes(lower, Lower(DemoKeys[i])) {
        found := Some(i);
        break;
      }
      i := i + 1;
    }
  }

  /** The text of each reply. */
  function Text(m: Message): string
  {
    match m
    case Started =>
      "🎯 Parfait ! Je vais créer ton planning personnalisé !\n\n📚 **Étape 1/3 : Tes matières**\n\n"
      + "Dis-moi quelles matières tu étudies et quand sont tes examens.\n\n"
      + "*Format : \"Mathématiques examen 20 janvier, Histoire examen 25 janvier\"*\n\n"
      + "Ou liste-les une par une ! 😊"
    case SubjectsNoted(subjects) =>
      "✅ Super ! J'ai noté " + NatToString(|subjects|) + " matières :\n"
      + Join(Bullets(subjects), '\n')
      + "\n\n⏰ **Étape 2/3 : Tes créneaux libres**\n\n"
      + "Maintenant, dis-moi quand tu es disponible pour étudier.\n\n"
      + "*Exemple : \"Lundi 14h-16h, Mardi 9h-11h, Mercredi 18h-20h\"*"
    case PlanReady(subjectCount, slotCount) =>
      "🎉 Excellent ! J'ai tous les éléments :\n\n📚 **" + NatToString(subjectCount) + " matières** configurées\n"
      + "⏰ **" + NatToString(slotCount) + " créneaux** disponibles\n\n"
      + "🤖 **Génération de ton planning optimal en cours...**\n\n"
      + "*L'algorithme analyse tes priorités et optimise la répartition...*"
    case Demo(response) =>
      (if response.Some? && response.value < |DemoTexts| then DemoTexts[response.value] else DefaultResponse)
      + PlanningTip
  }

  /** The demo reply to a message. */
  function DemoMessage(message: string): Message
  {
    Demo(FirstMatch(Lower(message), DemoKeys, 0))
  }

  /** The demo reply is the first matching key's text, whatever later keys also match. */
  lemma DemoTextFirstMatch(message: string, i: nat)
    requires i < |DemoKeys| && KeyMatches(Lower(message), DemoKeys[i])
    requires forall k :: 0 <= k < i ==> !KeyMatches(Lower(message), DemoKeys[k])
    ensures Text(DemoMessage(message)) == DemoTexts[i] + PlanningTip
  {
    FirstMatchUnique(Lower(message), DemoKeys, i);
  }

  /** The default reply when no key matches. */
  lemma DemoTextDefault(message: string)
    requires forall k :: 0 <= k < |DemoKeys| ==> !KeyMatches(Lower(message), DemoKeys[k])
    ensures Text(DemoMessage(message)) == DefaultResponse + PlanningTip
  {
  }

  // ---------------------------------------------------------------------------
  // One message
  // ---------------------------------------------------------------------------

  /** What `sendMessageToAI` answers to `message` in session `s`, and the session after. */
  function Next(s: Session, message: string, facts: MessageFacts, examDateFor: int -> string): (Reply, Session)
  {
    if IsPlanningRequest(message) && !s.isActive then
      (Reply(true, Started, Some(CollectingSubjects), None),
       s.(isActive := true, step := CollectingSubjects))
    else if s.isActive && s.step == CollectingSubjects then
      var subjects := SubjectsOfMessage(message, facts.subjectPatternMatched, examDateFor);
      (Reply(true, SubjectsNoted(subjects), Some(CollectingSchedule), None),
       s.(subjects := subjects, step := CollectingSchedule))
    else if s.isActive && s.step == CollectingSchedule then
      var slots := ScheduleOfMessage(message, facts.timeRanges);
      (Reply(true, PlanReady(|s.subjects|, |slots|), Some(Ready), Some(PlanningData(s.subjects, slots))),
       s.(availableSlots := slots, step := Ready))
    else
      (Reply(true, DemoMessage(message), None, None), s)
  }

  /**
   * From a consistent session, a message keeps the session consistent, moves the
   * conversation at most one step forward and never back, announces the new step
   * exactly when it moves, and otherwise answers with a demo reply and changes nothing.
   */
  lemma NextStep(s: Session, message: string, facts: MessageFacts, examDateFor: int -> string)
    requires s.Consistent()
    ensures var (reply, t) := Next(s, message, facts, examDateFor);
      && t.Consistent()
      && reply.success
      && StepNumber(s.step) <= StepNumber(t.step) <= StepNumber(s.step) + 1
      && (reply.planningStep.Some? <==> t.step != s.step)
      && (reply.planningStep.Some? ==> reply.planningStep.value == t.step)
      && (t.step == s.step ==> t == s && reply.message == DemoMessage(message))
  {
  }

  /** An inactive session starts on a planning request and keeps what it collected. */
  lemma StartsOnRequest(s: Session, message: string, facts: MessageFacts, examDateFor: int -> string)
    requires s.Consistent() && !s.isActive && IsPlanningRequest(message)
    ensures Next(s, message, facts, examDateFor)
         == (Reply(true, Started, Some(CollectingSubjects), None), Session(true, CollectingSubjects, s.subjects, s.availableSlots))
  {
  }

  /** While collecting subjects, any message is read as the subject list. */
  lemma CollectsSubjects(s: Session, message: string, facts: MessageFacts, examDateFor: int -> string)
    requires s.Consistent() && s.step == CollectingSubjects
    ensures var subjects := SubjectsOfMessage(message, facts.subjectPatternMatched, examDateFor);
      Next(s, message, facts, examDateFor)
        == (Reply(true, SubjectsNoted(subjects), Some(CollectingSchedule), None),
            Session(true, CollectingSchedule, subjects, s.availableSlots))
  {
  }

  /** While collecting the schedule, any message is read as the slot list, and the
      reply hands over the stored subjects with those slots. */
  lemma CollectsSchedule(s: Session, message: string, facts: MessageFacts, examDateFor: int -> string)
    requires s.Consistent() && s.step == CollectingSchedule
    ensures var slots := ScheduleOfMessage(message, facts.timeRanges);
      Next(s, message, facts, examDateFor)
        == (Reply(true, PlanReady(|s.subjects|, |slots|), Some(Ready), Some(PlanningData(s.subjects, slots))),
            Session(true, Ready, s.subjects, slots))
  {
  }

  /** Once the plan data has been handed over, every message gets a demo reply. */
  lemma ReadyIsFinal(s: Session, message: string, facts: MessageFacts, examDateFor: int -> string)
    requires s.Consistent() && s.step == Ready
    ensures Next(s, message, facts, examDateFor) == (Reply(true, DemoMessage(message), None, None), s)
  {
  }

  /** Before a planning request, the assistant only chats. */
  lemma IdleUntilAsked(message: string, facts: MessageFacts, examDateFor: int -> string)
    requires !IsPlanningRequest(message)
    ensures Next(InitialSession, message, facts, examDateFor) == (Reply(true, DemoMessage(message), None, None), InitialSession)
  {
  }

  /**
   * The full conversation: a planning request, then subjects, then slots. The second
   * and third messages are read as subjects and slots whatever they say, and the
   * third reply hands over exactly the subjects and slots parsed from them.
   */
  lemma Conversation(m1: string, m2: string, m3: string, f1: MessageFacts, f2: MessageFacts, f3: MessageFacts,
                     examDateFor: int -> string)
    requires IsPlanningRequest(m1)
    ensures var (r1, s1) := Next(InitialSession, m1, f1, examDateFor);
      var (r2, s2) := Next(s1, m2, f2, examDateFor);
      var (r3, s3) := Next(s2, m3, f3, examDateFor);
      var subjects := SubjectsOfMessage(m2, f2.subjectPatternMatched, examDateFor);
      var slots := ScheduleOfMessage(m3, f3.timeRanges);
      && r1 == Reply(true, Started, Some(CollectingSubjects), None)
      && r2 == Reply(true, SubjectsNoted(subjects), Some(CollectingSchedule), None)
      && r3 == Reply(true, PlanReady(|subjects|, |slots|), Some(Ready), Some(PlanningData(subjects, slots)))
      && s3 == Session(true, Ready, subjects, slots)
  {
  }

  /**
   * A plan built from the subjects of the conversation schedules each subject at
   * most once: the parsed subjects have distinct identifiers, and the scheduler
   * never pairs two slots with one subject.
   */
  lemma ParsedPlanSubjectsDistinct(message: string, patternMatched: bool, examDateFor: int -> string,
                                   slots: seq<TimeSlot>, preferences: Preferences, clock: PlanningAlgorithm.Clock,
                                   i: nat, j: nat)
    requires var request := PlanningRequest(SubjectsOfMessage(message, patternMatched, examDateFor), slots, preferences);
      i < j < |PlanningAlgorithm.Plan(request, clock)|
    ensures var request := PlanningRequest(SubjectsOfMessage(message, patternMatched, examDateFor), slots, preferences);
      PlanningAlgorithm.Plan(request, clock)[i].subjectId != PlanningAlgorithm.Plan(request, clock)[j].subjectId
  {
    var subjects := SubjectsOfMessage(message, patternMatched, examDateFor);
    var request := PlanningRequest(subjects, slots, preferences);
    forall a, b | 0 <= a < b < |subjects|
      ensures subjects[a].id != subjects[b].id
    {
      ParsedIdsDistinct(message, patternMatched, examDateFor, a, b);
    }
    PlanningAlgorithm.PlanSubjectsDistinct(request, clock, i, j);
  }

  // ---------------------------------------------------------------------------
  // The session object
  // ---------------------------------------------------------------------------

  /** The module-level `planningSession` object and the functions that use it. */
  class PlanningSession {
    var isActive: bool
    var step: Step
    var subjects: seq<Subject>
    var availableSlots: seq<TimeSlot>

    /** `getPlanningSession()`, as a value. */
    function State(): Session
      reads this
    {
      Session(isActive, step, subjects, availableSlots)
    }

    /** The object the module starts with. */
    constructor ()
      ensures State() == InitialSession
    {
      isActive := false;
      step := Idle;
      subjects := [];
      availableSlots := [];
    }

    /** `resetPlanningSession()`. */
    method Reset()
      modifies this
      ensures State() == InitialSession
    {
      isActive := false;
      step := Idle;
      subjects := [];
      availableSlots := [];
    }

    /** `sendMessageToAI(message)`. */
    method SendMessage(message: string, facts: MessageFacts, examDateFor: int -> string) returns (reply: Reply)
      modifies this
      ensures (reply, State()) == Next(old(State()), message, facts, examDateFor)
    {
      var isPlanningRequest := IsPlanningRequest(message);
      if isPlanningRequest && !isActive {
        isActive := true;
        step := CollectingSubjects;
        return Reply(true, Started, Some(CollectingSubjects), None);
      }
      if isActive && step == CollectingSubjects {
        var parsed := ParseSubjects(message, facts.subjectPatternMatched, examDateFor);
        subjects := parsed;
        step := CollectingSchedule;
        return Reply(true, SubjectsNoted(parsed), Some(CollectingSchedule), None);
      }
      if isActive && step == CollectingSchedule {
        var slots := ParseSchedule(message, facts.timeRanges);
        availableSlots := slots;
        step := Ready;
        return Reply(true, PlanReady(|subjects|, |slots|), Some(Ready), Some(PlanningData(subjects, availableSlots)));
      }
      var found := FindResponse(message);
      reply := Reply(true, Demo(found), None, None);
    }
  }
}
