/** The selection loop of `GetCurrentSession`: among the listed sessions,
    the most recent one that has started and has driver data. Whether a
    session has driver data (its drivers request succeeded, decoded and was
    non-empty) is an input oracle keyed by session key. */
module OpenF1Session {
  import opened Optional
  import opened OpenF1

  /** Not in the future, and with driver data. */
  predicate Eligible(s: Session, now: int, hasDrivers: int -> bool)
  {
    s.dateStart <= now && hasDrivers(s.sessionKey)
  }

  /** `k` is the session the loop settles on: eligible, starting no earlier
      than any eligible session, and strictly later than every eligible
      session listed before it (ties go to the earliest in the list). */
  predicate MostRecentAt(sessions: seq<Session>, now: int, hasDrivers: int -> bool, k: int)
  {
    && 0 <= k < |sessions|
    && Eligible(sessions[k], now, hasDrivers)
    && (forall j :: 0 <= j < |sessions| && Eligible(sessions[j], now, hasDrivers) ==>
          sessions[j].dateStart <= sessions[k].dateStart)
    && (forall j :: 0 <= j < k && Eligible(sessions[j], now, hasDrivers) ==>
          sessions[j].dateStart < sessions[k].dateStart)
  }

  /** The selection is determined: at most one index qualifies. */
  lemma MostRecentUnique(sessions: seq<Session>, now: int, hasDrivers: int -> bool, k1: int, k2: int)
    requires MostRecentAt(sessions, now, hasDrivers, k1)
    requires MostRecentAt(sessions, now, hasDrivers, k2)
    ensures k1 == k2
  {
  }

  /** The loop: skip future sessions and sessions without driver data, and
      take a session when none is held yet or it starts strictly after the
      one held. */
  method SelectMostRecent(sessions: seq<Session>, now: int, hasDrivers: int -> bool) returns (k: Option<nat>)
    ensures k.Some? ==> MostRecentAt(sessions, now, hasDrivers, k.value)
    ensures k.None? <==> forall i :: 0 <= i < |sessions| ==> !Eligible(sessions[i], now, hasDrivers)
  {
    k := None;
    for i := 0 to |sessions|
      invariant k.None? ==> forall j :: 0 <= j < i ==> !Eligible(sessions[j], now, hasDrivers)
      invariant k.Some? ==> k.value < i && Eligible(sessions[k.value], now, hasDrivers)
      invariant k.Some? ==> forall j :: 0 <= j < i && Eligible(sessions[j], now, hasDrivers) ==>
        sessions[j].dateStart <= sessions[k.value].dateStart
      invariant k.Some? ==> forall j :: 0 <= j < k.value && Eligible(sessions[j], now, hasDrivers) ==>
        sessions[j].dateStart < sessions[k.value].dateStart
    {
      var session := sessions[i];
      if session.dateStart > now {
        continue;
      }
      if !hasDrivers(session.sessionKey) {
        continue;
      }
      if k.None? || session.dateStart > sessions[k.value].dateStart {
        k := Some(i);
      }
    }
  }
}
