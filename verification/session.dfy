/**
  The session-boundary tracker: a lifecycle observer that records when the
  app goes to the background and when it comes back, and counts a new session
  (once per tracker instance) when the app stayed away for at least ten whole
  minutes.

  The mutable tracker is modelled as an immutable `State` (three in-memory
  flags plus the persistent store) and a pure transition function `Step`.
  The wall clock is the `now` argument of each event; the observer callback
  is the `notified` field of the step's outcome; the store writes a step makes
  are listed, in order, in its `writes` field.
 */
module Session {
  import opened Prefs
  import opened TimeUnits

  /** The lifecycle events the tracker may be sent. */
  datatype Event = Create | Start | Resume | Pause | Stop | Destroy | Any

  /** Length of the background excursion, in whole minutes, that counts as a new session. */
  const SessionGapMinutes: int := 10

  /** The same threshold in milliseconds, the unit of the stored times. */
  const SessionGapMillis: int := SessionGapMinutes * MillisPerMinute

  /** The tracker's three flags and the persistent store it works on. */
  datatype State = State(
    comingFromBackground: bool,
    newSessionStarted: bool,
    sessionLogged: bool,
    prefs: Store)

  /** What one reaction produced: the next state, whether the observer was notified, the keys written in order. */
  datatype Outcome = Outcome(state: State, notified: bool, writes: seq<string>)

  /** A freshly constructed tracker: all flags false, over whatever the store holds. */
  function Init(prefs: Store): State
  {
    State(false, false, false, prefs)
  }

  /** A reaction that changes nothing, writes nothing and notifies nobody. */
  function NoOp(s: State): Outcome
  {
    Outcome(s, false, [])
  }

  /** The two states agree on all three flags. */
  predicate SameFlags(s: State, s': State)
  {
    s'.comingFromBackground == s.comingFromBackground
    && s'.newSessionStarted == s.newSessionStarted
    && s'.sessionLogged == s.sessionLogged
  }

  /**
    `calculateTimeDifference`: reads both times back from the store; if the gap
    truncated to whole minutes is at least ten, adds one to the stored count,
    marks the session logged and notifies the observer.
   */
  function CalculateTimeDifference(s: State): (o: Outcome)
    ensures var gap := BackgroundEndTime(s.prefs) - BackgroundStartTime(s.prefs);
      o.notified <==> gap >= SessionGapMillis
    ensures o.notified ==>
      && SessionsCount(o.state.prefs) == SessionsCount(s.prefs) + 1
      && o.state.sessionLogged
      && o.writes == [SessionCountKey]
    ensures !o.notified ==> o == NoOp(s)
    ensures o.state.comingFromBackground == s.comingFromBackground
    ensures o.state.newSessionStarted == s.newSessionStarted
    ensures BackgroundStartTime(o.state.prefs) == BackgroundStartTime(s.prefs)
    ensures BackgroundEndTime(o.state.prefs) == BackgroundEndTime(s.prefs)
  {
    var differenceInMillis := BackgroundEndTime(s.prefs) - BackgroundStartTime(s.prefs);
    var minutes := MillisToMinutes(differenceInMillis);
    MinutesAtLeastIff(differenceInMillis, SessionGapMinutes);
    if minutes >= SessionGapMinutes then
      var prefs := SetSessionsCount(s.prefs, SessionsCount(s.prefs) + 1);
      Outcome(s.(prefs := prefs, sessionLogged := true), true, [SessionCountKey])
    else
      NoOp(s)
  }

  /**
    `logBackgroundEventEnd` (run on ON_START): unless a session was already
    counted, and only when the app is coming back from the background, stores
    `now` as the end time, runs the gap check, and clears the background flag.
   */
  function LogBackgroundEventEnd(s: State, now: int): (o: Outcome)
    ensures s.sessionLogged || !s.comingFromBackground ==> o == NoOp(s)
    ensures !s.sessionLogged && s.comingFromBackground ==>
      && BackgroundEndTime(o.state.prefs) == now
      && BackgroundStartTime(o.state.prefs) == BackgroundStartTime(s.prefs)
      && !o.state.comingFromBackground
      && o.state.newSessionStarted == s.newSessionStarted
      && (o.notified <==> now - BackgroundStartTime(s.prefs) >= SessionGapMillis)
      && (o.notified ==> o.state.sessionLogged && SessionsCount(o.state.prefs) == SessionsCount(s.prefs) + 1)
      && (!o.notified ==> !o.state.sessionLogged && SessionsCount(o.state.prefs) == SessionsCount(s.prefs))
      && o.writes == [BackgroundEndTimeKey] + (if o.notified then [SessionCountKey] else [])
  {
    if !s.sessionLogged then
      if s.comingFromBackground then
        var ended := s.(prefs := SetBackgroundEndTime(s.prefs, now));
        var counted := CalculateTimeDifference(ended);
        Outcome(counted.state.(comingFromBackground := false), counted.notified,
                [BackgroundEndTimeKey] + counted.writes)
      else
        NoOp(s)
    else
      NoOp(s)
  }

  /**
    `logBackgroundEventStart` (run on ON_STOP): unless a session was already
    counted, stores `now` as the start time the first time it runs for this
    tracker, and marks the app as being in the background.
   */
  function LogBackgroundEventStart(s: State, now: int): (o: Outcome)
    ensures s.sessionLogged ==> o == NoOp(s)
    ensures !s.sessionLogged ==>
      && o.state.comingFromBackground
      && o.state.newSessionStarted
      && !o.state.sessionLogged
      && !o.notified
      && BackgroundStartTime(o.state.prefs) == (if s.newSessionStarted then BackgroundStartTime(s.prefs) else now)
      && BackgroundEndTime(o.state.prefs) == BackgroundEndTime(s.prefs)
      && SessionsCount(o.state.prefs) == SessionsCount(s.prefs)
      && o.writes == (if s.newSessionStarted then [] else [BackgroundStartTimeKey])
  {
    if !s.sessionLogged then
      var started :=
        if !s.newSessionStarted then
          s.(prefs := SetBackgroundStartTime(s.prefs, now), newSessionStarted := true)
        else
          s;
      Outcome(started.(comingFromBackground := true), false,
              if !s.newSessionStarted then [BackgroundStartTimeKey] else [])
    else
      NoOp(s)
  }

  /**
    `onStateChanged`: ON_START and ON_STOP run the two logging steps,
    ON_DESTROY clears the tracking times in the store, every other event is
    ignored.
   */
  function Step(s: State, e: Event, now: int): (o: Outcome)
    ensures e == Destroy ==>
      && SameFlags(s, o.state)
      && BackgroundStartTime(o.state.prefs) == 0
      && BackgroundEndTime(o.state.prefs) == 0
      && SessionsCount(o.state.prefs) == SessionsCount(s.prefs)
      && OthersUnchanged(s.prefs, o.state.prefs)
      && !o.notified
      && o.writes == [BackgroundEndTimeKey, BackgroundStartTimeKey]
    ensures e !in {Start, Stop, Destroy} ==> o == NoOp(s)
    ensures o.notified ==> e == Start && !s.sessionLogged && o.state.sessionLogged
    ensures s.sessionLogged ==> o.state.sessionLogged
    ensures SessionsCount(o.state.prefs) == SessionsCount(s.prefs) + (if o.notified then 1 else 0)
  {
    match e
    case Start => LogBackgroundEventEnd(s, now)
    case Stop => LogBackgroundEventStart(s, now)
    case Destroy =>
      Outcome(s.(prefs := ClearTrackingTimes(s.prefs)), false,
              [BackgroundEndTimeKey, BackgroundStartTimeKey])
    case _ => NoOp(s)
  }

  /** A store key that a step does not list among its writes keeps its presence and its value. */
  lemma StepWritesCoverStore(s: State, e: Event, now: int, k: string)
    requires k !in Step(s, e, now).writes
    ensures var p' := Step(s, e, now).state.prefs;
      (k in p' <==> k in s.prefs) && (k in s.prefs ==> p'[k] == s.prefs[k])
  {
  }
}
