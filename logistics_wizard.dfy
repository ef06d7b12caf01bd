/**
 * `LogisticsWizard`: the eight-step questionnaire that builds a trip's
 * logistics profile. Each answer records its value and moves forward, the
 * back handler and the top-bar back button walk the same way back, and
 * `finalizeProfile` turns the answers into a `LogisticsProfile`.
 */
module LogisticsWizard {
  import opened Wrappers
  import opened Text
  import opened Domain

  datatype WizardStep = INTRO | TICKETS_CHECK | ACQUIRE_TICKETS | DATE_ENTRY | COMMS_CHECK
                      | MOBILITY_STRATEGY | BASE_SECURE | CONFIRMATION

  /** The enum's `ordinal`, which the progress bar shows. */
  function Ordinal(s: WizardStep): (n: nat)
    ensures n < 8
  {
    match s
    case INTRO => 0
    case TICKETS_CHECK => 1
    case ACQUIRE_TICKETS => 2
    case DATE_ENTRY => 3
    case COMMS_CHECK => 4
    case MOBILITY_STRATEGY => 5
    case BASE_SECURE => 6
    case CONFIRMATION => 7
  }

  /** Distinct steps have distinct ordinals. */
  lemma OrdinalInjective(s: WizardStep, t: WizardStep)
    requires Ordinal(s) == Ordinal(t)
    ensures s == t
  {
  }

  /** The system back handler: `None` means the wizard is dismissed. */
  function BackStep(s: WizardStep): (r: Option<WizardStep>)
    ensures r.None? <==> s == INTRO
    ensures r.Some? ==> Ordinal(r.value) < Ordinal(s)
  {
    match s
    case INTRO => None
    case TICKETS_CHECK => Some(INTRO)
    case ACQUIRE_TICKETS => Some(TICKETS_CHECK)
    case DATE_ENTRY => Some(TICKETS_CHECK)
    case COMMS_CHECK => Some(DATE_ENTRY)
    case MOBILITY_STRATEGY => Some(COMMS_CHECK)
    case BASE_SECURE => Some(MOBILITY_STRATEGY)
    case CONFIRMATION => Some(BASE_SECURE)
  }

  /** The top-bar back button, written as the source's separate `if` and `when`. */
  function TopBarBack(s: WizardStep): Option<WizardStep> {
    if s == INTRO then None
    else
      match s
      case TICKETS_CHECK => Some(INTRO)
      case ACQUIRE_TICKETS => Some(TICKETS_CHECK)
      case DATE_ENTRY => Some(TICKETS_CHECK)
      case COMMS_CHECK => Some(DATE_ENTRY)
      case MOBILITY_STRATEGY => Some(COMMS_CHECK)
      case BASE_SECURE => Some(MOBILITY_STRATEGY)
      case CONFIRMATION => Some(BASE_SECURE)
      case _ => None
  }

  /** The top-bar button and the system back handler go to the same place from every step. */
  lemma TopBarMatchesBackHandler(s: WizardStep)
    ensures TopBarBack(s) == BackStep(s)
  {
  }

  /** A choice the user can make; each is offered on one step only. */
  datatype Answer =
    | Start
    | TicketsConfirmed | TicketsNegative
    | HaveDatesNow
    | DateSelected(date: int)
    | Online | Offline
    | Strategy(strategy: TransportStrategy)
    | BaseSecured | BaseUnsecured
    | Confirm

  /** The step whose screen offers `a`. */
  function OfferedOn(a: Answer): WizardStep {
    match a
    case Start => INTRO
    case TicketsConfirmed => TICKETS_CHECK
    case TicketsNegative => TICKETS_CHECK
    case HaveDatesNow => ACQUIRE_TICKETS
    case DateSelected(_) => DATE_ENTRY
    case Online => COMMS_CHECK
    case Offline => COMMS_CHECK
    case Strategy(_) => MOBILITY_STRATEGY
    case BaseSecured => BASE_SECURE
    case BaseUnsecured => BASE_SECURE
    case Confirm => CONFIRMATION
  }

  /** The step an answer leads to; confirming stays on the confirmation step. */
  function Target(a: Answer): WizardStep {
    match a
    case Start => TICKETS_CHECK
    case TicketsConfirmed => DATE_ENTRY
    case TicketsNegative => ACQUIRE_TICKETS
    case HaveDatesNow => DATE_ENTRY
    case DateSelected(_) => COMMS_CHECK
    case Online => MOBILITY_STRATEGY
    case Offline => MOBILITY_STRATEGY
    case Strategy(_) => BASE_SECURE
    case BaseSecured => CONFIRMATION
    case BaseUnsecured => CONFIRMATION
    case Confirm => CONFIRMATION
  }

  /** Every forward transition strictly increases the ordinal. */
  lemma ForwardIncreasesOrdinal(a: Answer)
    requires a != Confirm
    ensures Ordinal(Target(a)) > Ordinal(OfferedOn(a))
  {
  }

  /** The forward transitions out of the ticket question: confirmed tickets skip the acquisition step. */
  lemma TicketsBranches()
    ensures Target(TicketsConfirmed) == DATE_ENTRY && Target(TicketsNegative) == ACQUIRE_TICKETS
    ensures BackStep(Target(TicketsConfirmed)) == BackStep(Target(TicketsNegative)) == Some(TICKETS_CHECK)
  {
  }

  /** The accumulated answers. */
  datatype Answers = Answers(startDate: Option<int>, needsEsim: bool, transportStrategy: TransportStrategy, needsHotel: bool)

  const NO_ANSWERS := Answers(None, false, PASSENGER_URBAN, false)

  /** The value an answer records before advancing; the other answers only move. */
  function Recorded(answers: Answers, a: Answer): (r: Answers)
    ensures a.DateSelected? ==> r == answers.(startDate := Some(a.date))
    ensures a == Online || a == Offline ==> r == answers.(needsEsim := a == Offline)
    ensures a.Strategy? ==> r == answers.(transportStrategy := a.strategy)
    ensures a == BaseSecured || a == BaseUnsecured ==> r == answers.(needsHotel := a == BaseUnsecured)
    ensures !(a.DateSelected? || a == Online || a == Offline || a.Strategy? || a == BaseSecured || a == BaseUnsecured)
      ==> r == answers
  {
    match a
    case DateSelected(date) => answers.(startDate := Some(date))
    case Online => answers.(needsEsim := false)
    case Offline => answers.(needsEsim := true)
    case Strategy(t) => answers.(transportStrategy := t)
    case BaseSecured => answers.(needsHotel := false)
    case BaseUnsecured => answers.(needsHotel := true)
    case _ => answers
  }

  // ---------------------------------------------------------------------
  // finalizeProfile

  const DAY_MILLIS := 24 * 60 * 60 * 1000

  /** `legacyType`: the transport type each strategy maps to. */
  function LegacyType(t: TransportStrategy): (r: TransportType)
    ensures (r == RENTAL_4X4 || r == OWN_CAR) <==> (t == DRIVER_RENTAL || t == DRIVER_OWNER)
  {
    match t
    case PASSENGER_URBAN => TAXI
    case PASSENGER_BUDGET => PUBLIC_TRANSPORT
    case DRIVER_RENTAL => RENTAL_4X4
    case DRIVER_OWNER => OWN_CAR
  }

  /** Different strategies map to different transport types. */
  lemma LegacyTypeInjective(s: TransportStrategy, t: TransportStrategy)
    requires LegacyType(s) == LegacyType(t)
    ensures s == t
  {
  }

  /**
   * The end date as written: `(durationDays - 1) * 24 * 60 * 60` is `Int`
   * arithmetic, which wraps, and only the last factor `1000L` widens to `Long`.
   */
  function EndDateAsWritten(startDate: Option<int>, durationDays: int): Option<int>
    requires IsInt32(durationDays)
  {
    if startDate.Some? then
      var seconds := WrapInt32(WrapInt32(WrapInt32(WrapInt32(durationDays - 1) * 24) * 60) * 60);
      Some(startDate.value + seconds * 1000)
    else None
  }

  /** The end date: the first day plus `durationDays - 1` whole days, when a start date is set. */
  function EndDate(startDate: Option<int>, durationDays: int): (r: Option<int>)
    ensures r.Some? <==> startDate.Some?
    ensures r.Some? ==> r.value - startDate.value == (durationDays - 1) * DAY_MILLIS
  {
    if startDate.Some? then Some(startDate.value + (durationDays - 1) * DAY_MILLIS) else None
  }

  /** The two agree for every trip shorter than 24,857 days. */
  lemma EndDateAgreesOnRealisticDurations(startDate: Option<int>, durationDays: int)
    requires 0 <= durationDays <= 24856
    ensures EndDateAsWritten(startDate, durationDays) == EndDate(startDate, durationDays)
  {
    var d := durationDays - 1;
    assert IsInt32(d * 24) && IsInt32(d * 24 * 60) && IsInt32(d * 24 * 60 * 60);
  }

  /** A 24,857-day trip: the `Int` product wraps to a negative number and the end date precedes the start. */
  lemma EndDateOverflowExample()
    ensures EndDateAsWritten(Some(0), 24857).value < 0
    ensures EndDate(Some(0), 24857) == Some(24856 * DAY_MILLIS)
  {
    assert WrapInt32(24856) == 24856;
    assert WrapInt32(24856 * 24) == 596544;
    assert WrapInt32(596544 * 60) == 35792640;
    assert WrapInt32(35792640 * 60) == 2147558400 - 0x1_0000_0000;
  }

  /**
   * `finalizeProfile`'s `LogisticsProfile`: the answers, the vehicle to
   * acquire for a rental, the mapped transport type, and every other field at
   * its default.
   */
  function FinalProfile(answers: Answers, durationDays: int): (r: LogisticsProfile)
    ensures r.transportStrategy == answers.transportStrategy
    ensures r.vehicleStatus == TO_BE_ACQUIRED <==> answers.transportStrategy == DRIVER_RENTAL
    ensures r.transportType == LegacyType(answers.transportStrategy)
    ensures r.needsAccommodation == answers.needsHotel && r.needsEsim == answers.needsEsim
    ensures r.startDate == answers.startDate && r.endDate == EndDate(answers.startDate, durationDays)
    ensures r.entryPoint == r.exitPoint == AIRPORT_TBS && r.isByAir
    ensures !r.needsFlight && !r.needsTransport
  {
    var t := answers.transportStrategy;
    DEFAULT_PROFILE.(
      transportStrategy := t,
      vehicleStatus := if t == DRIVER_RENTAL then TO_BE_ACQUIRED else NONE,
      transportType := LegacyType(t),
      needsAccommodation := answers.needsHotel,
      needsEsim := answers.needsEsim,
      startDate := answers.startDate,
      endDate := EndDate(answers.startDate, durationDays))
  }

  /** Up to 24,856 days the profile's end date is the one the app's `Int` arithmetic gives. */
  lemma FinalProfileEndDateAsWritten(answers: Answers, durationDays: int)
    requires 0 <= durationDays <= 24856
    ensures FinalProfile(answers, durationDays).endDate == EndDateAsWritten(answers.startDate, durationDays)
  {
    EndDateAgreesOnRealisticDurations(answers.startDate, durationDays);
  }

  // ---------------------------------------------------------------------
  // Walking through the wizard

  /** Past the date step a start date is always set: the only way forward from it records one. */
  predicate DatedPastEntry(step: WizardStep, answers: Answers) {
    Ordinal(step) > Ordinal(DATE_ENTRY) ==> answers.startDate.Some?
  }

  /** One answer on `step`: applied when the screen offers it, ignored otherwise. */
  function Answered(step: WizardStep, answers: Answers, a: Answer): (WizardStep, Answers) {
    if OfferedOn(a) == step then (Target(a), Recorded(answers, a)) else (step, answers)
  }

  /** Answering keeps a start date set past the date step. */
  lemma AnswerKeepsDate(step: WizardStep, answers: Answers, a: Answer)
    requires DatedPastEntry(step, answers)
    ensures var (s, r) := Answered(step, answers, a); DatedPastEntry(s, r)
  {
  }

  /** Going back keeps a start date set past the date step. */
  lemma BackKeepsDate(step: WizardStep, answers: Answers)
    requires DatedPastEntry(step, answers) && step != INTRO
    ensures DatedPastEntry(BackStep(step).value, answers)
  {
  }

  /** A confirmed profile always carries both dates. */
  lemma ConfirmedProfileIsDated(answers: Answers, durationDays: int)
    requires DatedPastEntry(CONFIRMATION, answers)
    ensures FinalProfile(answers, durationDays).startDate.Some?
    ensures FinalProfile(answers, durationDays).endDate.Some?
  {
  }

  /** The answers of a straight run, in order, from the intro to the confirmation. */
  function Run(step: WizardStep, answers: Answers, run: seq<Answer>): (WizardStep, Answers)
    decreases |run|
  {
    if run == [] then (step, answers)
    else
      var (s, a) := Answered(step, answers, run[0]);
      Run(s, a, run[1..])
  }

  /**
   * A straight walk-through with tickets in hand reaches the confirmation
   * screen, and confirming there yields a profile with the date, the eSIM
   * need, the strategy and the lodging need just chosen.
   */
  lemma WalkThrough(date: int, offline: bool, t: TransportStrategy, unsecured: bool, durationDays: int)
    ensures var answers := [Start, TicketsConfirmed, DateSelected(date), if offline then Offline else Online,
                            Strategy(t), if unsecured then BaseUnsecured else BaseSecured];
      var (s, a) := Run(INTRO, NO_ANSWERS, answers);
      && s == CONFIRMATION
      && FinalProfile(a, durationDays).startDate == Some(date)
      && FinalProfile(a, durationDays).needsEsim == offline
      && FinalProfile(a, durationDays).transportStrategy == t
      && FinalProfile(a, durationDays).needsAccommodation == unsecured
  {
    WalkThroughRun(date, offline, t, unsecured);
  }

  /** The answers a straight walk-through leaves behind: exactly the four choices made. */
  lemma WalkThroughRun(date: int, offline: bool, t: TransportStrategy, unsecured: bool)
    ensures Run(INTRO, NO_ANSWERS, [Start, TicketsConfirmed, DateSelected(date), if offline then Offline else Online,
                                    Strategy(t), if unsecured then BaseUnsecured else BaseSecured])
            == (CONFIRMATION, Answers(Some(date), offline, t, unsecured))
  {
    var esim := if offline then Offline else Online;
    var hotel := if unsecured then BaseUnsecured else BaseSecured;
    var tail := [esim, Strategy(t), hotel];
    assert [Start, TicketsConfirmed, DateSelected(date), esim, Strategy(t), hotel]
        == [Start, TicketsConfirmed, DateSelected(date)] + tail;
    WalkThroughFirstHalf(date, tail);
    WalkThroughSecondHalf(date, offline, t, unsecured);
  }

  /** Start, tickets confirmed, date chosen: on the communications screen with the date recorded. */
  lemma WalkThroughFirstHalf(date: int, tail: seq<Answer>)
    ensures Run(INTRO, NO_ANSWERS, [Start, TicketsConfirmed, DateSelected(date)] + tail)
            == Run(COMMS_CHECK, NO_ANSWERS.(startDate := Some(date)), tail)
  {
    var r3 := tail;
    var r2 := [DateSelected(date)] + r3;
    var r1 := [TicketsConfirmed] + r2;
    assert [Start, TicketsConfirmed, DateSelected(date)] + tail == [Start] + r1;
    StraightAnswers(date, false, PASSENGER_URBAN, false);
    RunStep(INTRO, NO_ANSWERS, Start, r1, TICKETS_CHECK, NO_ANSWERS);
    RunStep(TICKETS_CHECK, NO_ANSWERS, TicketsConfirmed, r2, DATE_ENTRY, NO_ANSWERS);
    RunStep(DATE_ENTRY, NO_ANSWERS, DateSelected(date), r3, COMMS_CHECK, NO_ANSWERS.(startDate := Some(date)));
  }

  /** Then the eSIM answer, the strategy and the lodging answer lead to the confirmation screen. */
  lemma WalkThroughSecondHalf(date: int, offline: bool, t: TransportStrategy, unsecured: bool)
    ensures Run(COMMS_CHECK, NO_ANSWERS.(startDate := Some(date)),
                [if offline then Offline else Online, Strategy(t), if unsecured then BaseUnsecured else BaseSecured])
            == (CONFIRMATION, Answers(Some(date), offline, t, unsecured))
  {
    var esim := if offline then Offline else Online;
    var hotel := if unsecured then BaseUnsecured else BaseSecured;
    var a2 := NO_ANSWERS.(startDate := Some(date));
    var a3 := a2.(needsEsim := offline);
    var a4 := a3.(transportStrategy := t);
    var r5: seq<Answer> := [hotel];
    var r4 := [Strategy(t)] + r5;
    assert [esim, Strategy(t), hotel] == [esim] + r4;
    StraightAnswers(date, offline, t, unsecured);
    RunStep(COMMS_CHECK, a2, esim, r4, MOBILITY_STRATEGY, a3);
    RunStep(MOBILITY_STRATEGY, a3, Strategy(t), r5, BASE_SECURE, a4);
    RunStep(BASE_SECURE, a4, hotel, [], CONFIRMATION, Answers(Some(date), offline, t, unsecured));
  }

  /** Each screen of a straight walk-through takes its answer and moves to the next screen. */
  lemma StraightAnswers(date: int, offline: bool, t: TransportStrategy, unsecured: bool)
    ensures Answered(INTRO, NO_ANSWERS, Start) == (TICKETS_CHECK, NO_ANSWERS)
    ensures Answered(TICKETS_CHECK, NO_ANSWERS, TicketsConfirmed) == (DATE_ENTRY, NO_ANSWERS)
    ensures Answered(DATE_ENTRY, NO_ANSWERS, DateSelected(date)) == (COMMS_CHECK, NO_ANSWERS.(startDate := Some(date)))
    ensures var a2 := NO_ANSWERS.(startDate := Some(date));
      Answered(COMMS_CHECK, a2, if offline then Offline else Online) == (MOBILITY_STRATEGY, a2.(needsEsim := offline))
    ensures var a3 := Answers(Some(date), offline, PASSENGER_URBAN, false);
      Answered(MOBILITY_STRATEGY, a3, Strategy(t)) == (BASE_SECURE, a3.(transportStrategy := t))
    ensures Answered(BASE_SECURE, Answers(Some(date), offline, t, false), if unsecured then BaseUnsecured else BaseSecured)
            == (CONFIRMATION, Answers(Some(date), offline, t, unsecured))
  {
  }

  /** Running a list that starts with `a` is answering `a`, then running the rest. */
  lemma RunStep(step: WizardStep, answers: Answers, a: Answer, rest: seq<Answer>, next: WizardStep, after: Answers)
    requires Answered(step, answers, a) == (next, after)
    ensures Run(step, answers, [a] + rest) == Run(next, after, rest)
  {
    assert ([a] + rest)[0] == a && ([a] + rest)[1..] == rest;
  }

  // ---------------------------------------------------------------------
  // The composable's state

  class Wizard {
    const durationDays: int
    var currentStep: WizardStep
    var startDate: Option<int>
    var needsEsim: bool
    var transportStrategy: TransportStrategy
    var needsHotel: bool
    /** Whether `onDismiss` has been called. */
    var dismissed: bool
    /** The profiles handed to `onConfirm`, in order. */
    var confirmed: seq<LogisticsProfile>

    function CurrentAnswers(): Answers
      reads this
    {
      Answers(startDate, needsEsim, transportStrategy, needsHotel)
    }

    predicate Valid()
      reads this
    {
      DatedPastEntry(currentStep, CurrentAnswers())
    }

    constructor (durationDays: int)
      ensures Valid() && this.durationDays == durationDays
      ensures currentStep == INTRO && CurrentAnswers() == NO_ANSWERS
      ensures !dismissed && confirmed == []
    {
      this.durationDays := durationDays;
      currentStep := INTRO;
      startDate := None;
      needsEsim := false;
      transportStrategy := PASSENGER_URBAN;
      needsHotel := false;
      dismissed := false;
      confirmed := [];
    }

    /** `finalizeProfile`: hand the profile built from the answers to `onConfirm`. */
    method FinalizeProfile()
      modifies this
      ensures confirmed == old(confirmed) + [FinalProfile(old(CurrentAnswers()), durationDays)]
      ensures currentStep == old(currentStep) && CurrentAnswers() == old(CurrentAnswers())
      ensures dismissed == old(dismissed)
    {
      var endDate := if startDate.Some? then Some(startDate.value + (durationDays - 1) * DAY_MILLIS) else None;
      var legacyType := match transportStrategy
        case PASSENGER_URBAN => TAXI
        case PASSENGER_BUDGET => PUBLIC_TRANSPORT
        case DRIVER_RENTAL => RENTAL_4X4
        case DRIVER_OWNER => OWN_CAR;
      var profile := LogisticsProfile(
        transportStrategy,
        if transportStrategy == DRIVER_RENTAL then TO_BE_ACQUIRED else NONE,
        AIRPORT_TBS, AIRPORT_TBS, startDate, endDate, true,
        needsHotel, needsEsim, false, false, legacyType);
      confirmed := confirmed + [profile];
    }

    /** The back handler and the top-bar button: one step back, or dismiss on the intro. */
    method Back()
      requires Valid()
      modifies this
      ensures Valid()
      ensures old(currentStep) == INTRO ==> dismissed && currentStep == INTRO
      ensures old(currentStep) != INTRO ==> currentStep == BackStep(old(currentStep)).value && dismissed == old(dismissed)
      ensures CurrentAnswers() == old(CurrentAnswers()) && confirmed == old(confirmed)
    {
      if currentStep == INTRO {
        dismissed := true;
      } else {
        BackKeepsDate(currentStep, CurrentAnswers());
        currentStep := BackStep(currentStep).value;
      }
    }

    /** A choice on the current screen: record its value and advance; confirming finalizes. */
    method Choose(a: Answer)
      requires Valid()
      modifies this
      ensures Valid()
      ensures (currentStep, CurrentAnswers()) == Answered(old(currentStep), old(CurrentAnswers()), a)
      ensures confirmed == old(confirmed) +
        (if a == Confirm && old(currentStep) == CONFIRMATION then [FinalProfile(old(CurrentAnswers()), durationDays)] else [])
      ensures dismissed == old(dismissed)
    {
      if OfferedOn(a) != currentStep {
        return;
      }
      match a {
        case DateSelected(date) => startDate := Some(date);
        case Online => needsEsim := false;
        case Offline => needsEsim := true;
        case Strategy(t) => transportStrategy := t;
        case BaseSecured => needsHotel := false;
        case BaseUnsecured => needsHotel := true;
        case Confirm => FinalizeProfile();
        case _ =>
      }
      currentStep := Target(a);
    }

    /** "ROGUE MODE": start today as a passenger and finalize at once, from any step. */
    method RogueMode(now: int)
      requires Valid()
      modifies this
      ensures Valid()
      ensures startDate == Some(now) && transportStrategy == PASSENGER_URBAN
      ensures currentStep == old(currentStep) && needsEsim == old(needsEsim) && needsHotel == old(needsHotel)
      ensures confirmed == old(confirmed) + [FinalProfile(CurrentAnswers(), durationDays)]
      ensures dismissed == old(dismissed)
    {
      startDate := Some(now);
      transportStrategy := PASSENGER_URBAN;
      FinalizeProfile();
    }
  }
}
