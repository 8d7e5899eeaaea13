/**
 * User-session tracking (Classes/UserSession/UserSessionService.swift).
 *
 * The pure queries of the service: the current session and its id. Dates
 * are whole milliseconds since 1970, and the session store is a sequence of
 * records.
 */
module UserSession {
  import opened Wrappers
  import Decimal

  /** A stored session row: when the session began and when it was last extended. */
  datatype SessionRecord = SessionRecord(startDate: int, endDate: int)

  /** The predicate of the fetch request: `endDate > now - sessionTimeoutSec`. */
  predicate IsCurrent(r: SessionRecord, now: int, sessionTimeoutSec: int)
    ensures IsCurrent(r, now, sessionTimeoutSec) <==> now - r.endDate < sessionTimeoutSec * 1000
  {
    r.endDate > now - sessionTimeoutSec * 1000
  }

  /**
   * `fetchCurrentSession`: among the records that satisfy the predicate, the
   * first one in ascending `startDate` order (fetch limit 1).
   */
  function FetchCurrentSession(records: seq<SessionRecord>, now: int, sessionTimeoutSec: int): (r: Option<SessionRecord>)
    ensures r.None? <==> forall i :: 0 <= i < |records| ==> !IsCurrent(records[i], now, sessionTimeoutSec)
    ensures r.Some? ==> r.value in records && IsCurrent(r.value, now, sessionTimeoutSec)
    ensures r.Some? ==> forall i :: 0 <= i < |records| && IsCurrent(records[i], now, sessionTimeoutSec) ==>
                          r.value.startDate <= records[i].startDate
  {
    if records == [] then None
    else
      var rest := FetchCurrentSession(records[1..], now, sessionTimeoutSec);
      assert forall i :: 1 <= i < |records| ==> records[i] == records[1..][i - 1];
      if !IsCurrent(records[0], now, sessionTimeoutSec) || (rest.Some? && rest.value.startDate < records[0].startDate)
      then rest
      else Some(records[0])
  }

  /** `fetchCurrentSessionStartDate`. */
  function FetchCurrentSessionStartDate(records: seq<SessionRecord>, now: int, sessionTimeoutSec: int): (r: Option<int>)
    ensures r.Some? <==> exists i :: 0 <= i < |records| && IsCurrent(records[i], now, sessionTimeoutSec)
    ensures r.Some? ==> exists i :: 0 <= i < |records| && IsCurrent(records[i], now, sessionTimeoutSec) && records[i].startDate == r.value
    ensures r.Some? ==> forall i :: 0 <= i < |records| && IsCurrent(records[i], now, sessionTimeoutSec) ==> r.value <= records[i].startDate
  {
    match FetchCurrentSession(records, now, sessionTimeoutSec)
    case None => None
    case Some(s) => Some(s.startDate)
  }

  /** The session id `"{pushRegId}_{startMillis}"`. */
  function SessionId(pushRegId: string, startMillis: int): (id: string)
    ensures |pushRegId| < |id| && id[..|pushRegId|] == pushRegId && id[|pushRegId|] == '_'
    ensures forall j :: |pushRegId| < j < |id| ==> id[j] != '_'
    ensures Decimal.ToInt(id[|pushRegId| + 1..]) == Some(startMillis)
  {
    var digits := Decimal.FromInt(startMillis);
    Decimal.RoundTrip(startMillis);
    var id := pushRegId + "_" + digits;
    assert id[|pushRegId| + 1..] == digits;
    assert forall j :: |pushRegId| < j < |id| ==> id[j] == digits[j - |pushRegId| - 1];
    id
  }

  /** The position of the last occurrence of `c` in `s`. */
  function LastIndexOf(s: string, c: char): (r: Option<nat>)
    ensures r.None? ==> forall j :: 0 <= j < |s| ==> s[j] != c
    ensures r.Some? ==> r.value < |s| && s[r.value] == c && forall j :: r.value < j < |s| ==> s[j] != c
  {
    if s == [] then None
    else if s[|s| - 1] == c then Some(|s| - 1)
    else LastIndexOf(s[..|s| - 1], c)
  }

  /** Splits a session id at its last `_` into the registration id and the start date. */
  function ParseSessionId(id: string): Option<(string, int)> {
    match LastIndexOf(id, '_')
    case None => None
    case Some(k) =>
      match Decimal.ToInt(id[k + 1..])
      case None => None
      case Some(n) => Some((id[..k], n))
  }

  /**
   * A session id determines its registration id and start date, even when
   * the registration id itself contains `_`.
   */
  lemma SessionIdRoundTrip(pushRegId: string, startMillis: int)
    ensures ParseSessionId(SessionId(pushRegId, startMillis)) == Some((pushRegId, startMillis))
  {
    var id := SessionId(pushRegId, startMillis);
    var k := |pushRegId|;
    assert LastIndexOf(id, '_') == Some(k);
  }

  /**
   * A text that parses as a session id is exactly the session id of what it
   * parses to: with `SessionIdRoundTrip`, parsing and `SessionId` are inverse.
   */
  lemma SessionIdUnique(id: string, pushRegId: string, startMillis: int)
    requires ParseSessionId(id) == Some((pushRegId, startMillis))
    ensures id == SessionId(pushRegId, startMillis)
  {
    var k := LastIndexOf(id, '_').value;
    Decimal.ToIntCanonical(id[k + 1..]);
    assert id == id[..k] + "_" + id[k + 1..];
  }

  /** `currentSessionId`. */
  function CurrentSessionId(pushRegId: Option<string>, records: seq<SessionRecord>, now: int, sessionTimeoutSec: int): (r: Option<string>)
    ensures r.Some? <==> pushRegId.Some? && FetchCurrentSession(records, now, sessionTimeoutSec).Some?
    ensures r.Some? ==> ParseSessionId(r.value) ==
                          Some((pushRegId.value, FetchCurrentSession(records, now, sessionTimeoutSec).value.startDate))
  {
    match (pushRegId, FetchCurrentSessionStartDate(records, now, sessionTimeoutSec))
    case (Some(reg), Some(start)) =>
      SessionIdRoundTrip(reg, start);
      Some(SessionId(reg, start))
    case _ => None
  }
}
