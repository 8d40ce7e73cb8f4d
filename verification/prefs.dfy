/**
  The persistent counter store: a key-value store holding three scalar
  fields (the number of sessions counted so far and the two timestamps of the
  current background excursion), each read with a default when absent.

  The store is modelled as a synchronous in-memory map from key strings to
  integers; keys of other features may be present and are never touched.
 */
module Prefs {

  type Store = map<string, int>

  /** The three keys under which the fields are stored. */
  const SessionCountKey: string := "SESSION_COUNT"
  const BackgroundStartTimeKey: string := "BACKGROUND_START_TIME"
  const BackgroundEndTimeKey: string := "BACKGROUND_END_TIME"

  /** Defaults returned for a field that has never been written. */
  const DefaultSessionsCount: int := 1
  const DefaultTime: int := 0

  /** A store in which nothing has been written yet (first run). */
  const Empty: Store := map[]

  /** `getInt` / `getLong` with a default: the stored value, or `default` if the key is absent. */
  function Lookup(s: Store, key: string, default: int): int
  {
    if key in s then s[key] else default
  }

  function SessionsCount(s: Store): int
  {
    Lookup(s, SessionCountKey, DefaultSessionsCount)
  }

  function BackgroundStartTime(s: Store): int
  {
    Lookup(s, BackgroundStartTimeKey, DefaultTime)
  }

  function BackgroundEndTime(s: Store): int
  {
    Lookup(s, BackgroundEndTimeKey, DefaultTime)
  }

  /** True when the two stores agree on every key other than the three fields. */
  ghost predicate OthersUnchanged(s: Store, s': Store)
  {
    forall k :: k != SessionCountKey && k != BackgroundStartTimeKey && k != BackgroundEndTimeKey ==>
      Lookup(s', k, 0) == Lookup(s, k, 0) && (k in s' <==> k in s)
  }

  /** Setter of `sessionsCount`: reading it back gives `v`; the other fields keep their values. */
  function SetSessionsCount(s: Store, v: int): (s': Store)
    ensures SessionsCount(s') == v
    ensures BackgroundStartTime(s') == BackgroundStartTime(s)
    ensures BackgroundEndTime(s') == BackgroundEndTime(s)
    ensures OthersUnchanged(s, s')
  {
    s[SessionCountKey := v]
  }

  /** Setter of `backgroundStartTime`: reading it back gives `v`; the other fields keep their values. */
  function SetBackgroundStartTime(s: Store, v: int): (s': Store)
    ensures BackgroundStartTime(s') == v
    ensures SessionsCount(s') == SessionsCount(s)
    ensures BackgroundEndTime(s') == BackgroundEndTime(s)
    ensures OthersUnchanged(s, s')
  {
    s[BackgroundStartTimeKey := v]
  }

  /** Setter of `backgroundEndTime`: reading it back gives `v`; the other fields keep their values. */
  function SetBackgroundEndTime(s: Store, v: int): (s': Store)
    ensures BackgroundEndTime(s') == v
    ensures SessionsCount(s') == SessionsCount(s)
    ensures BackgroundStartTime(s') == BackgroundStartTime(s)
    ensures OthersUnchanged(s, s')
  {
    s[BackgroundEndTimeKey := v]
  }

  /** `clearTrackingTimes`: writes 0 to the end time, then 0 to the start time. */
  function ClearTrackingTimes(s: Store): (s': Store)
    ensures BackgroundStartTime(s') == 0 && BackgroundEndTime(s') == 0
    ensures SessionsCount(s') == SessionsCount(s)
    ensures OthersUnchanged(s, s')
  {
    SetBackgroundStartTime(SetBackgroundEndTime(s, 0), 0)
  }

  /** On a store nobody has written to, the count reads 1 and both times read 0. */
  lemma EmptyStoreDefaults()
    ensures SessionsCount(Empty) == 1
    ensures BackgroundStartTime(Empty) == 0
    ensures BackgroundEndTime(Empty) == 0
  {
  }

  /** Clearing twice is the same as clearing once. */
  lemma ClearTrackingTimesIdempotent(s: Store)
    ensures ClearTrackingTimes(ClearTrackingTimes(s)) == ClearTrackingTimes(s)
  {
  }
}
