/**
  Concrete event sequences for one tracker instance, each with the outcome the
  session rules fix for it.
 */
module SessionScenarios {
  import opened Prefs
  import opened Session
  import opened SessionRuns

  /** Fresh store, suspended at 0, resumed at 700000 ms: the count goes from 1 to 2, one notification. */
  lemma LongAbsenceCounts()
    ensures var t := Run(Init(Empty), [Input(Stop, 0), Input(Start, 700000)]);
      && SessionsCount(t.state.prefs) == 2
      && t.notifications == 1
      && t.state.sessionLogged
  {
  }

  /** Fresh store, suspended at 0, resumed at 100000 ms: nothing counted, back in the foreground. */
  lemma ShortAbsenceDoesNotCount()
    ensures var t := Run(Init(Empty), [Input(Stop, 0), Input(Start, 100000)]);
      && SessionsCount(t.state.prefs) == 1
      && t.notifications == 0
      && !t.state.comingFromBackground
      && t.state.newSessionStarted
      && !t.state.sessionLogged
  {
  }

  /** An absence of exactly ten minutes counts; one millisecond less does not. */
  lemma ThresholdIsExact(t0: int)
    ensures Run(Init(Empty), [Input(Stop, t0), Input(Start, t0 + 600000)]).notifications == 1
    ensures Run(Init(Empty), [Input(Stop, t0), Input(Start, t0 + 599999)]).notifications == 0
  {
    var stopped := Step(Init(Empty), Stop, t0).state;
    assert BackgroundStartTime(stopped.prefs) == t0;
    var long := [Input(Stop, t0), Input(Start, t0 + 600000)];
    assert long[1..] == [Input(Start, t0 + 600000)];
    assert Step(stopped, Start, t0 + 600000).notified;
    assert Run(Init(Empty), long).notifications == Run(stopped, long[1..]).notifications;
    var short := [Input(Stop, t0), Input(Start, t0 + 599999)];
    assert short[1..] == [Input(Start, t0 + 599999)];
    assert !Step(stopped, Start, t0 + 599999).notified;
    assert Run(Init(Empty), short).notifications == Run(stopped, short[1..]).notifications;
  }

  /** A start with no suspension before it in this instance changes nothing and writes nothing. */
  lemma BareStartIsNoOp(prefs: Store, now: int)
    ensures Run(Init(prefs), [Input(Start, now)]) == Trace(Init(prefs), 0, [])
  {
  }

  /** Two suspensions before a resume: the stored start time is the first one's. */
  lemma DoubleSuspendKeepsFirst(prefs: Store, t1: int, t2: int, t3: int)
    ensures BackgroundStartTime(Run(Init(prefs), [Input(Stop, t1), Input(Stop, t2), Input(Start, t3)]).state.prefs) == t1
  {
    var ins := [Input(Stop, t1), Input(Stop, t2), Input(Start, t3)];
    InitConsistent(prefs);
    FirstStopTimeKept(Init(prefs), ins, 0);
  }

  /**
    The absence is measured from the instance's first suspension, not from the
    latest one: a one-minute excursion followed by a one-minute excursion that
    ends ten minutes after the first stop counts as a session.
   */
  lemma AbsenceMeasuredFromFirstStop()
    ensures Run(Init(Empty), [Input(Stop, 0), Input(Start, 60000), Input(Stop, 540000), Input(Start, 600000)]).notifications == 1
  {
  }

  /** After ON_DESTROY both times read 0 and the count is what it was. */
  lemma DestroyClearsTimes(s: State, now: int)
    ensures var t := Run(s, [Input(Destroy, now)]);
      && BackgroundStartTime(t.state.prefs) == 0
      && BackgroundEndTime(t.state.prefs) == 0
      && SessionsCount(t.state.prefs) == SessionsCount(s.prefs)
  {
  }
}
