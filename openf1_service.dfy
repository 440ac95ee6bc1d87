/** The OpenF1 service object: its memo caches (drivers by query key, teams
    and races under "current", and the one current session) and the four
    operations that read and fill them. Everything the network, the JSON
    decoder and the clock would supply is an `Upstream` input; the ghost
    field `requests` records every GET the service issues, so that a cache
    hit can be seen to cost none. Locks, the request semaphore and the rate
    limiter's sleeping are not modelled: the caches are plain maps. */
module OpenF1Service {
  import opened Optional
  import opened Decimal
  import opened OpenF1
  import opened OpenF1Request
  import opened OpenF1Session

  /** Outcome of the plain GET of the sessions list. */
  datatype Fetched<T> = TransportFailed | Undecodable | Decoded(value: T)

  /** The world outside the service. */
  datatype Upstream = Upstream(
    now: int,
    sessions: Fetched<seq<Session>>,
    sessionHasDrivers: int -> bool,
    reply: (string, nat) -> Attempt,
    decodeDrivers: string -> Option<seq<Driver>>,
    decodeTeams: string -> Option<seq<Team>>,
    decodeRaces: string -> Option<seq<Race>>)

  const SessionsURL: string := BaseURL + "/sessions"

  /** The one key the teams and races caches use. */
  const CurrentKey: string := "current"

  function ProbeURL(sessionKey: int): string
  {
    BaseURL + "/drivers?session_key=" + IntToString(sessionKey)
  }

  function TeamsURL(sessionKey: int): string
  {
    BaseURL + "/teams?session_key=" + IntToString(sessionKey)
  }

  function RacesURL(sessionKey: int): string
  {
    BaseURL + "/races?session_key=" + IntToString(sessionKey)
  }

  /** The driver-data probes the selection loop sends: one per session that
      is not in the future, in list order. */
  ghost function Probes(sessions: seq<Session>, now: int): seq<string>
  {
    if sessions == [] then []
    else (if sessions[0].dateStart > now then [] else [ProbeURL(sessions[0].sessionKey)]) + Probes(sessions[1..], now)
  }

  /** The GETs `makeRequest` sends: one per attempt. */
  ghost function Attempts(url: string, waits: seq<nat>): seq<string>
  {
    seq(if |waits| < MaxRetries then |waits| + 1 else |waits|, _ => url)
  }

  /** What `GetCurrentSession` returns when nothing is cached yet. */
  ghost predicate SessionLookup(net: Upstream, r: Result<Session, Error>)
  {
    match net.sessions
    case TransportFailed => r == Err(SessionsFetchFailed)
    case Undecodable => r == Err(SessionsDecodeFailed)
    case Decoded(sessions) =>
      if sessions == [] then r == Err(NoSessionsFound)
      else if forall i :: 0 <= i < |sessions| ==> !Eligible(sessions[i], net.now, net.sessionHasDrivers) then
        r == Err(NoRecentSessionWithDrivers)
      else
        r.Ok? && exists k :: MostRecentAt(sessions, net.now, net.sessionHasDrivers, k) && r.value == sessions[k]
  }

  /** The lookup specification leaves no choice: one outcome per upstream. */
  lemma SessionLookupDeterministic(net: Upstream, r1: Result<Session, Error>, r2: Result<Session, Error>)
    requires SessionLookup(net, r1) && SessionLookup(net, r2)
    ensures r1 == r2
  {
    if net.sessions.Decoded? && r1.Ok? && r2.Ok? {
      var sessions := net.sessions.value;
      var k1 :| MostRecentAt(sessions, net.now, net.sessionHasDrivers, k1) && r1.value == sessions[k1];
      var k2 :| MostRecentAt(sessions, net.now, net.sessionHasDrivers, k2) && r2.value == sessions[k2];
      MostRecentUnique(sessions, net.now, net.sessionHasDrivers, k1, k2);
    }
  }

  /** The drivers fetch after a cache miss: the body is read in full, then
      decoded. */
  function DriversFetch(url: string, net: Upstream): Result<seq<Driver>, Error>
  {
    match Retry(url, net.reply)
    case Err(e) => Err(FetchFailed("drivers", e))
    case Ok(response) =>
      if response.body.None? then Err(ReadBodyFailed)
      else match net.decodeDrivers(response.body.value)
        case None => Err(DecodeFailed("drivers"))
        case Some(drivers) => Ok(drivers)
  }

  /** The teams and races fetches decode straight from the body, so a body
      that cannot be read fails as a decode error. */
  function StreamFetch<T>(outcome: Result<Response, Error>, decode: string -> Option<T>, resource: string): Result<T, Error>
  {
    match outcome
    case Err(e) => Err(FetchFailed(resource, e))
    case Ok(response) =>
      if response.body.Some? && decode(response.body.value).Some? then Ok(decode(response.body.value).value)
      else Err(DecodeFailed(resource))
  }

  class Service {
    var drivers: map<string, seq<Driver>>
    var teams: map<string, seq<Team>>
    var races: map<string, seq<Race>>
    var session: Option<Session>
    ghost var requests: seq<string>

    /** `NewOpenF1Service`: empty caches. */
    constructor ()
      ensures drivers == map[] && teams == map[] && races == map[] && session == None
      ensures requests == []
    {
      drivers, teams, races, session := map[], map[], map[], None;
      requests := [];
    }

    /** The cached session when there is one, without any request; otherwise
        the sessions list is fetched, the most recent eligible session is
        selected, and only a success is cached. */
    method GetCurrentSession(net: Upstream) returns (r: Result<Session, Error>)
      modifies this
      ensures drivers == old(drivers) && teams == old(teams) && races == old(races)
      ensures old(session).Some? ==> r == Ok(old(session).value) && session == old(session) && requests == old(requests)
      ensures old(session).None? ==> SessionLookup(net, r)
      ensures old(session).None? ==> session == (if r.Ok? then Some(r.value) else None)
      ensures old(session).None? ==> |requests| > |old(requests)|
    {
      if session.Some? {
        return Ok(session.value);
      }
      requests := requests + [SessionsURL];
      if net.sessions.TransportFailed? {
        return Err(SessionsFetchFailed);
      }
      if net.sessions.Undecodable? {
        return Err(SessionsDecodeFailed);
      }
      var sessions := net.sessions.value;
      if |sessions| == 0 {
        return Err(NoSessionsFound);
      }
      requests := requests + Probes(sessions, net.now);
      var k := SelectMostRecent(sessions, net.now, net.sessionHasDrivers);
      if k.None? {
        return Err(NoRecentSessionWithDrivers);
      }
      session := Some(sessions[k.value]);
      r := Ok(sessions[k.value]);
    }

    /** `GetDrivers`: a cache hit returns the stored list without a request.
        On a miss the session key defaults to the current session's; the
        query URL is built, fetched through the retry loop, read and decoded,
        and only a success is written to the cache under the query's key. */
    method GetDrivers(season: Option<int>, meetingKey: Option<int>, sessionKey: Option<int>, teamName: Option<string>, net: Upstream)
      returns (r: Result<seq<Driver>, Error>)
      modifies this
      ensures teams == old(teams) && races == old(races)
      ensures var key := DriversCacheKey(season, meetingKey, sessionKey, teamName);
        key in old(drivers) ==>
          r == Ok(old(drivers)[key]) && drivers == old(drivers) && session == old(session) && requests == old(requests)
      ensures var key := DriversCacheKey(season, meetingKey, sessionKey, teamName);
        key !in old(drivers) ==>
          && (r.Ok? ==> drivers == old(drivers)[key := r.value])
          && (r.Err? ==> drivers == old(drivers))
          && |requests| > |old(requests)|
      ensures DriversCacheKey(season, meetingKey, sessionKey, teamName) !in old(drivers) && sessionKey.Some? ==>
        session == old(session) && r == DriversFetch(DriversURL(season, meetingKey, sessionKey.value, teamName), net)
      ensures DriversCacheKey(season, meetingKey, sessionKey, teamName) !in old(drivers) && sessionKey.None? ==>
        && (old(session).Some? ==> session == old(session))
        && (old(session).None? && session.Some? ==> SessionLookup(net, Ok(session.value)))
        && (session.None? ==> r.Err? && r.error.CurrentSessionFailed? && SessionLookup(net, Err(r.error.cause)))
        && (session.Some? ==> r == DriversFetch(DriversURL(season, meetingKey, session.value.sessionKey, teamName), net))
    {
      var key := DriversCacheKey(season, meetingKey, sessionKey, teamName);
      if key in drivers {
        return Ok(drivers[key]);
      }
      var sk: int;
      if sessionKey.None? {
        var current := GetCurrentSession(net);
        if current.Err? {
          return Err(CurrentSessionFailed(current.error));
        }
        sk := current.value.sessionKey;
      } else {
        sk := sessionKey.value;
      }
      var url := BuildDriversURL(season, meetingKey, sk, teamName);
      var response, waits := MakeRequest(url, net.reply);
      requests := requests + Attempts(url, waits);
      if response.Err? {
        return Err(FetchFailed("drivers", response.error));
      }
      var body := response.value.body;
      if body.None? {
        return Err(ReadBodyFailed);
      }
      var decoded := net.decodeDrivers(body.value);
      if decoded.None? {
        return Err(DecodeFailed("drivers"));
      }
      drivers := drivers[key := decoded.value];
      r := Ok(decoded.value);
    }

    /** `GetTeams`: memoized under "current"; a miss looks up the current
        session and fetches that session's teams. */
    method GetTeams(net: Upstream) returns (r: Result<seq<Team>, Error>)
      modifies this
      ensures drivers == old(drivers) && races == old(races)
      ensures CurrentKey in old(teams) ==>
        r == Ok(old(teams)[CurrentKey]) && teams == old(teams) && session == old(session) && requests == old(requests)
      ensures CurrentKey !in old(teams) ==>
        && (r.Ok? ==> teams == old(teams)[CurrentKey := r.value])
        && (r.Err? ==> teams == old(teams))
        && (old(session).Some? ==> session == old(session))
        && (old(session).None? && session.Some? ==> SessionLookup(net, Ok(session.value)))
        && (session.None? ==> r.Err? && r.error.CurrentSessionFailed? && SessionLookup(net, Err(r.error.cause)))
        && (session.Some? ==> r == StreamFetch(Retry(TeamsURL(session.value.sessionKey), net.reply), net.decodeTeams, "teams"))
    {
      if CurrentKey in teams {
        return Ok(teams[CurrentKey]);
      }
      var current := GetCurrentSession(net);
      if current.Err? {
        return Err(CurrentSessionFailed(current.error));
      }
      var url := TeamsURL(current.value.sessionKey);
      var response, waits := MakeRequest(url, net.reply);
      requests := requests + Attempts(url, waits);
      if response.Err? {
        return Err(FetchFailed("teams", response.error));
      }
      var body := response.value.body;
      if body.None? || net.decodeTeams(body.value).None? {
        return Err(DecodeFailed("teams"));
      }
      var decoded := net.decodeTeams(body.value).value;
      teams := teams[CurrentKey := decoded];
      r := Ok(decoded);
    }

    /** `GetRaces`: as `GetTeams`, for the races of the current session. */
    method GetRaces(net: Upstream) returns (r: Result<seq<Race>, Error>)
      modifies this
      ensures drivers == old(drivers) && teams == old(teams)
      ensures CurrentKey in old(races) ==>
        r == Ok(old(races)[CurrentKey]) && races == old(races) && session == old(session) && requests == old(requests)
      ensures CurrentKey !in old(races) ==>
        && (r.Ok? ==> races == old(races)[CurrentKey := r.value])
        && (r.Err? ==> races == old(races))
        && (old(session).Some? ==> session == old(session))
        && (old(session).None? && session.Some? ==> SessionLookup(net, Ok(session.value)))
        && (session.None? ==> r.Err? && r.error.CurrentSessionFailed? && SessionLookup(net, Err(r.error.cause)))
        && (session.Some? ==> r == StreamFetch(Retry(RacesURL(session.value.sessionKey), net.reply), net.decodeRaces, "races"))
    {
      if CurrentKey in races {
        return Ok(races[CurrentKey]);
      }
      var current := GetCurrentSession(net);
      if current.Err? {
        return Err(CurrentSessionFailed(current.error));
      }
      var url := RacesURL(current.value.sessionKey);
      var response, waits := MakeRequest(url, net.reply);
      requests := requests + Attempts(url, waits);
      if response.Err? {
        return Err(FetchFailed("races", response.error));
      }
      var body := response.value.body;
      if body.None? || net.decodeRaces(body.value).None? {
        return Err(DecodeFailed("races"));
      }
      var decoded := net.decodeRaces(body.value).value;
      races := races[CurrentKey := decoded];
      r := Ok(decoded);
    }
  }
}
