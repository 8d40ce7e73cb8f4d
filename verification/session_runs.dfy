/**
  Properties of one tracker instance over a whole sequence of lifecycle
  events: the session is counted and the observer notified at most once, the
  stored count never goes down, the background start time is written at most
  once and keeps the first suspension's time, and the flags follow the
  three-phase session state machine.
 */
module SessionRuns {
  import opened Prefs
  import opened Session

  /** One delivered lifecycle event together with the clock reading at that moment. */
  datatype Input = Input(event: Event, now: int)

  /** The result of feeding a sequence of events: final state, notifications sent, keys written in order. */
  datatype Trace = Trace(state: State, notifications: nat, writes: seq<string>)

  /** Feeds the events to the tracker one at a time, in delivery order. */
  function Run(s: State, ins: seq<Input>): Trace
    decreases |ins|
  {
    if |ins| == 0 then
      Trace(s, 0, [])
    else
      var o := Step(s, ins[0].event, ins[0].now);
      var t := Run(o.state, ins[1..]);
      Trace(t.state, (if o.notified then 1 else 0) + t.notifications, o.writes + t.writes)
  }

  /** No event of the sequence is ON_DESTROY (the tracker's owner stays alive). */
  predicate NoDestroy(ins: seq<Input>)
  {
    forall j :: 0 <= j < |ins| ==> ins[j].event != Destroy
  }

  /** Number of times `key` occurs in a list of writes. */
  function Occurrences(writes: seq<string>, key: string): nat
    decreases |writes|
  {
    if |writes| == 0 then 0
    else (if writes[0] == key then 1 else 0) + Occurrences(writes[1..], key)
  }

  lemma {:induction false} OccurrencesAppend(a: seq<string>, b: seq<string>, key: string)
    ensures Occurrences(a + b, key) == Occurrences(a, key) + Occurrences(b, key)
    decreases |a|
  {
    if |a| == 0 {
      assert a + b == b;
    } else {
      assert (a + b)[1..] == a[1..] + b;
      OccurrencesAppend(a[1..], b, key);
    }
  }

  /** Running two sequences back to back ends where running their concatenation does, with the notifications added up. */
  lemma {:induction false} RunAppend(s: State, a: seq<Input>, b: seq<Input>)
    ensures Run(s, a + b).state == Run(Run(s, a).state, b).state
    ensures Run(s, a + b).notifications == Run(s, a).notifications + Run(Run(s, a).state, b).notifications
    decreases |a|
  {
    if |a| == 0 {
      assert a + b == b;
    } else {
      var ab := a + b;
      assert ab[0] == a[0];
      assert ab[1..] == a[1..] + b;
      var o := Step(s, a[0].event, a[0].now);
      RunAppend(o.state, a[1..], b);
    }
  }

  /** Over a whole run, a store key that never appears among the writes keeps its presence and its value. */
  lemma {:induction false} RunWritesCoverStore(s: State, ins: seq<Input>, k: string)
    requires k !in Run(s, ins).writes
    ensures var p' := Run(s, ins).state.prefs;
      (k in p' <==> k in s.prefs) && (k in s.prefs ==> p'[k] == s.prefs[k])
    decreases |ins|
  {
    if |ins| > 0 {
      var o := Step(s, ins[0].event, ins[0].now);
      var t := Run(o.state, ins[1..]);
      assert Run(s, ins).writes == o.writes + t.writes;
      assert k !in o.writes && k !in t.writes;
      StepWritesCoverStore(s, ins[0].event, ins[0].now, k);
      RunWritesCoverStore(o.state, ins[1..], k);
    }
  }

  /**
    One tracker instance notifies the observer at most once, and not at all
    if it has already counted a session; it has counted a session at the end
    exactly when it had at the start or it notified along the way.
   */
  lemma {:induction false} RunNotifiesAtMostOnce(s: State, ins: seq<Input>)
    ensures Run(s, ins).notifications <= (if s.sessionLogged then 0 else 1)
    ensures Run(s, ins).state.sessionLogged <==> s.sessionLogged || Run(s, ins).notifications == 1
    decreases |ins|
  {
    if |ins| > 0 {
      var o := Step(s, ins[0].event, ins[0].now);
      RunNotifiesAtMostOnce(o.state, ins[1..]);
    }
  }

  /** The stored count grows by exactly the number of notifications sent: at most one. */
  lemma {:induction false} RunCountTracksNotifications(s: State, ins: seq<Input>)
    ensures SessionsCount(Run(s, ins).state.prefs) == SessionsCount(s.prefs) + Run(s, ins).notifications
    ensures SessionsCount(Run(s, ins).state.prefs) <= SessionsCount(s.prefs) + 1
    decreases |ins|
  {
    if |ins| > 0 {
      var o := Step(s, ins[0].event, ins[0].now);
      RunCountTracksNotifications(o.state, ins[1..]);
    }
    RunNotifiesAtMostOnce(s, ins);
  }

  /** The stored count never decreases: after any prefix it lies between the initial and the final count. */
  lemma CountNeverDecreases(s: State, ins: seq<Input>, k: nat)
    requires k <= |ins|
    ensures SessionsCount(s.prefs) <= SessionsCount(Run(s, ins[..k]).state.prefs)
    ensures SessionsCount(Run(s, ins[..k]).state.prefs) <= SessionsCount(Run(s, ins).state.prefs)
  {
    assert ins == ins[..k] + ins[k..];
    RunAppend(s, ins[..k], ins[k..]);
    RunCountTracksNotifications(s, ins[..k]);
    RunCountTracksNotifications(Run(s, ins[..k]).state, ins[k..]);
  }

  /**
    Once a session has been counted, nothing but ON_DESTROY has any effect:
    starts and stops change no flag, write nothing and notify nobody.
   */
  lemma {:induction false} CountedAbsorbs(s: State, ins: seq<Input>)
    requires s.sessionLogged
    requires NoDestroy(ins)
    ensures Run(s, ins) == Trace(s, 0, [])
    decreases |ins|
  {
    if |ins| > 0 {
      assert ins[0].event != Destroy;
      assert Step(s, ins[0].event, ins[0].now) == NoOp(s);
      CountedAbsorbs(s, ins[1..]);
    }
  }

  /**
    Without a destroy, the background start time is written at most once per
    tracker instance, and not at all once the first suspension has been
    recorded.
   */
  lemma {:induction false} StartTimeWrittenAtMostOnce(s: State, ins: seq<Input>)
    requires NoDestroy(ins)
    ensures Occurrences(Run(s, ins).writes, BackgroundStartTimeKey) <= (if s.newSessionStarted then 0 else 1)
    ensures s.newSessionStarted ==> Run(s, ins).state.newSessionStarted
    decreases |ins|
  {
    if |ins| > 0 {
      var o := Step(s, ins[0].event, ins[0].now);
      assert ins[0].event != Destroy;
      StartTimeWrittenAtMostOnce(o.state, ins[1..]);
      OccurrencesAppend(o.writes, Run(o.state, ins[1..]).writes, BackgroundStartTimeKey);
      if o.writes == [BackgroundStartTimeKey] {
        assert !s.newSessionStarted && o.state.newSessionStarted;
      } else {
        assert o.writes == [] || o.writes == [BackgroundEndTimeKey] || o.writes == [BackgroundEndTimeKey, SessionCountKey];
        assert Occurrences(o.writes, BackgroundStartTimeKey) == 0;
      }
    }
  }

  /** Once the start time has been recorded, later events other than ON_DESTROY leave it as it is. */
  lemma {:induction false} StartTimeStable(s: State, ins: seq<Input>)
    requires s.newSessionStarted
    requires NoDestroy(ins)
    ensures BackgroundStartTime(Run(s, ins).state.prefs) == BackgroundStartTime(s.prefs)
    decreases |ins|
  {
    if |ins| > 0 {
      assert ins[0].event != Destroy;
      var o := Step(s, ins[0].event, ins[0].now);
      StartTimeStable(o.state, ins[1..]);
    }
  }

  /** The flag relations every reachable tracker state satisfies. */
  predicate Consistent(s: State)
  {
    && (s.sessionLogged ==> s.newSessionStarted && !s.comingFromBackground)
    && (s.comingFromBackground ==> s.newSessionStarted)
  }

  lemma InitConsistent(prefs: Store)
    ensures Consistent(Init(prefs))
    ensures PhaseOf(Init(prefs)) == Foreground
  {
  }

  lemma StepKeepsConsistent(s: State, e: Event, now: int)
    requires Consistent(s)
    ensures Consistent(Step(s, e, now).state)
  {
  }

  lemma {:induction false} RunKeepsConsistent(s: State, ins: seq<Input>)
    requires Consistent(s)
    ensures Consistent(Run(s, ins).state)
    decreases |ins|
  {
    if |ins| > 0 {
      var o := Step(s, ins[0].event, ins[0].now);
      StepKeepsConsistent(s, ins[0].event, ins[0].now);
      RunKeepsConsistent(o.state, ins[1..]);
    }
  }

  /** Before any suspension is recorded, events other than ON_STOP and ON_DESTROY do nothing. */
  lemma {:induction false} QuietUntilFirstStop(s: State, ins: seq<Input>)
    requires Consistent(s) && !s.newSessionStarted
    requires forall j :: 0 <= j < |ins| ==> ins[j].event != Stop && ins[j].event != Destroy
    ensures Run(s, ins) == Trace(s, 0, [])
    decreases |ins|
  {
    if |ins| > 0 {
      assert ins[0].event != Stop && ins[0].event != Destroy;
      assert Step(s, ins[0].event, ins[0].now) == NoOp(s);
      QuietUntilFirstStop(s, ins[1..]);
    }
  }

  /**
    Repeated suspensions keep the first one's time: from a tracker that has
    recorded no suspension yet, with no destroy in between, the stored start
    time ends up as the clock reading of the first ON_STOP.
   */
  lemma {:induction false} FirstStopTimeKept(s: State, ins: seq<Input>, i: nat)
    requires Consistent(s) && !s.newSessionStarted
    requires NoDestroy(ins)
    requires i < |ins| && ins[i].event == Stop
    requires forall j :: 0 <= j < i ==> ins[j].event != Stop
    ensures BackgroundStartTime(Run(s, ins).state.prefs) == ins[i].now
    decreases i
  {
    var o := Step(s, ins[0].event, ins[0].now);
    assert Run(s, ins).state == Run(o.state, ins[1..]).state;
    assert forall j :: 0 <= j < |ins[1..]| ==> ins[1..][j] == ins[j + 1];
    if i == 0 {
      assert BackgroundStartTime(o.state.prefs) == ins[0].now && o.state.newSessionStarted;
      StartTimeStable(o.state, ins[1..]);
    } else {
      assert ins[0].event != Stop && ins[0].event != Destroy;
      assert o.state == s;
      FirstStopTimeKept(s, ins[1..], i - 1);
    }
  }

  /** The three phases of the session state machine. */
  datatype Phase = Foreground | BackgroundPending | Counted

  /** The phase a tracker state is in. */
  function PhaseOf(s: State): Phase
  {
    if s.sessionLogged then Counted
    else if s.comingFromBackground then BackgroundPending
    else Foreground
  }

  /**
    The state machine's transitions: a stop sends a not-yet-counted tracker to
    the background; a start brings it back, counting when the absence
    qualified; a counted tracker stays counted; other events change no phase.
   */
  function PhaseStep(p: Phase, e: Event, qualifies: bool): Phase
  {
    match e
    case Stop => if p == Counted then Counted else BackgroundPending
    case Start => if p == BackgroundPending then (if qualifies then Counted else Foreground) else p
    case _ => p
  }

  /**
    Every step of the tracker follows the phase machine, where an absence
    qualifies when `now` is at least ten minutes (`SessionGapMillis`) after the stored start time,
    and the observer is notified exactly on the BackgroundPending-to-Counted
    transition.
   */
  lemma StepFollowsPhases(s: State, e: Event, now: int)
    ensures var qualifies := now - BackgroundStartTime(s.prefs) >= SessionGapMillis;
      var o := Step(s, e, now);
      && PhaseOf(o.state) == PhaseStep(PhaseOf(s), e, qualifies)
      && (o.notified <==> PhaseOf(s) == BackgroundPending && PhaseOf(o.state) == Counted)
  {
  }
}
