/** The OpenF1 client of the backend: its records and constants, the
    nil-defaulting helpers, the season computation, the drivers cache key and
    the drivers query URL. The clock is replaced by explicit year, month and
    timestamp inputs; timestamps are whole numbers. */
module OpenF1 {
  import opened Optional
  import opened Decimal
  import Text

  const BaseURL: string := "https://api.openf1.org/v1"

  /** Seconds between rate-limited attempts (5 s in the source). */
  const RateLimitDelay: nat := 5

  /** Attempts `makeRequest` makes before giving up. */
  const MaxRetries: nat := 3

  /** A practice, qualifying or race session. */
  datatype Session = Session(
    sessionKey: int,
    meetingKey: int,
    sessionName: string,
    countryName: string,
    year: int,
    dateStart: int,
    dateEnd: int)

  datatype Driver = Driver(
    sessionKey: int,
    meetingKey: int,
    fullName: string,
    driverNumber: int,
    teamName: string,
    nameAcronym: string)

  datatype Team = Team(id: int, name: string)

  datatype Race = Race(id: int, name: string, circuit: string, date: string, round: int, status: string)

  /** The errors the service returns, with the wrapping the source adds. */
  datatype Error =
    | RequestFailed
    | MaxRetriesExceeded
    | SessionsFetchFailed
    | SessionsDecodeFailed
    | NoSessionsFound
    | NoRecentSessionWithDrivers
    | CurrentSessionFailed(cause: Error)
    | FetchFailed(resource: string, cause: Error)
    | ReadBodyFailed
    | DecodeFailed(resource: string)

  /** `getIntValue`: a nil pointer reads as 0. */
  function IntValue(p: Option<int>): int
  {
    if p.None? then 0 else p.value
  }

  /** `getStringValue`: a nil pointer reads as "". */
  function StringValue(p: Option<string>): string
  {
    if p.None? then "" else p.value
  }

  /** Defaulting keeps every present value and merges exactly one pair of
      distinct arguments: absent and zero. */
  lemma IntValueMerges(p: Option<int>, q: Option<int>)
    ensures p.Some? ==> IntValue(p) == p.value
    ensures IntValue(None) == 0
    ensures IntValue(p) == IntValue(q) <==> p == q || ((p == None || p == Some(0)) && (q == None || q == Some(0)))
  {
  }

  /** Defaulting keeps every present string and merges exactly absent and
      empty. */
  lemma StringValueMerges(p: Option<string>, q: Option<string>)
    ensures p.Some? ==> StringValue(p) == p.value
    ensures StringValue(None) == ""
    ensures StringValue(p) == StringValue(q) <==> p == q || ((p == None || p == Some("")) && (q == None || q == Some("")))
  {
  }

  type Month = m: int | 1 <= m <= 12 witness 1

  /** `GetCurrentSeason`, with today's year and month as inputs. */
  function CurrentSeason(year: int, month: Month): (season: int)
    ensures season == year || season == year - 1
  {
    if month < 3 then year - 1 else year
  }

  /** A season runs from March of its year to February of the next: the
      previous year's season exactly in January and February. */
  lemma SeasonSpan(season: int, year: int, month: Month)
    ensures CurrentSeason(year, month) == season <==>
      (year == season && month >= 3) || (year == season + 1 && month <= 2)
    ensures CurrentSeason(year, month) == year - 1 <==> month == 1 || month == 2
  {
  }

  /** As time moves forward the season never goes back. */
  lemma SeasonMonotone(year1: int, month1: Month, year2: int, month2: Month)
    requires year1 < year2 || (year1 == year2 && month1 <= month2)
    ensures CurrentSeason(year1, month1) <= CurrentSeason(year2, month2)
  {
  }

  /** A number's text followed by a dash and the rest of a key. */
  function Dashed(n: int, rest: string): string
  {
    IntToString(n) + "-" + rest
  }

  /** The drivers cache key `"<season>-<meeting>-<session>-<team>"`, absent
      arguments defaulted. */
  function DriversCacheKey(season: Option<int>, meetingKey: Option<int>, sessionKey: Option<int>, teamName: Option<string>): string
  {
    Dashed(IntValue(season), Dashed(IntValue(meetingKey), Dashed(IntValue(sessionKey), StringValue(teamName))))
  }

  lemma DashedInjective(n: int, rest: string, n': int, rest': string)
    requires Dashed(n, rest) == Dashed(n', rest')
    ensures n == n' && rest == rest'
  {
    IntTokenUnique(n, rest, n', rest', '-');
  }

  /** Two drivers queries share a cache entry exactly when their defaulted
      arguments agree: the key format itself never merges distinct values
      (negative numbers and dashes in team names included). */
  lemma CacheKeyInjective(
    season: Option<int>, meetingKey: Option<int>, sessionKey: Option<int>, teamName: Option<string>,
    season': Option<int>, meetingKey': Option<int>, sessionKey': Option<int>, teamName': Option<string>)
    ensures DriversCacheKey(season, meetingKey, sessionKey, teamName) == DriversCacheKey(season', meetingKey', sessionKey', teamName')
      <==> (IntValue(season) == IntValue(season') && IntValue(meetingKey) == IntValue(meetingKey')
            && IntValue(sessionKey) == IntValue(sessionKey') && StringValue(teamName) == StringValue(teamName'))
  {
    var a, b, c, t := IntValue(season), IntValue(meetingKey), IntValue(sessionKey), StringValue(teamName);
    var a', b', c', t' := IntValue(season'), IntValue(meetingKey'), IntValue(sessionKey'), StringValue(teamName');
    if DriversCacheKey(season, meetingKey, sessionKey, teamName) == DriversCacheKey(season', meetingKey', sessionKey', teamName') {
      DashedInjective(a, Dashed(b, Dashed(c, t)), a', Dashed(b', Dashed(c', t')));
      DashedInjective(b, Dashed(c, t), b', Dashed(c', t'));
      DashedInjective(c, t, c', t');
    }
  }

  const DriversEndpoint: string := BaseURL + "/drivers"

  /** The optional filters of a drivers query, present ones only, in the
      order season, meeting, team. */
  function QueryParams(season: Option<int>, meetingKey: Option<int>, teamName: Option<string>): seq<string>
  {
    SeasonParam(season) + MeetingParam(meetingKey) + TeamParam(teamName)
  }

  function SeasonParam(season: Option<int>): seq<string>
  {
    if season.Some? then ["season=" + IntToString(season.value)] else []
  }

  function MeetingParam(meetingKey: Option<int>): seq<string>
  {
    if meetingKey.Some? then ["meeting_key=" + IntToString(meetingKey.value)] else []
  }

  function TeamParam(teamName: Option<string>): seq<string>
  {
    if teamName.Some? then ["team_name=" + teamName.value] else []
  }

  /** The whole query string: the session key first, then the filters, all
      joined with '&'. */
  function DriversQuery(season: Option<int>, meetingKey: Option<int>, sessionKey: int, teamName: Option<string>): string
  {
    Text.Join(["session_key=" + IntToString(sessionKey)] + QueryParams(season, meetingKey, teamName), '&')
  }

  function DriversURL(season: Option<int>, meetingKey: Option<int>, sessionKey: int, teamName: Option<string>): string
  {
    DriversEndpoint + "?" + DriversQuery(season, meetingKey, sessionKey, teamName)
  }

  /** Joining a head to a list is the head, then '&' and the joined list
      unless the list is empty. */
  lemma JoinCons(head: string, tail: seq<string>, sep: char)
    ensures Text.Join([head] + tail, sep) == if tail == [] then head else head + [sep] + Text.Join(tail, sep)
  {
    assert ([head] + tail)[0] == head;
    assert ([head] + tail)[1..] == tail;
  }

  /** The URL building of `GetDrivers`: the base query with the session key,
      then the present filters appended one by one, joined onto the URL with
      '&' only when there is at least one. */
  method BuildDriversURL(season: Option<int>, meetingKey: Option<int>, sessionKey: int, teamName: Option<string>)
    returns (url: string)
    ensures url == DriversURL(season, meetingKey, sessionKey, teamName)
  {
    var head := "session_key=" + IntToString(sessionKey);
    url := DriversEndpoint + "?" + head;
    var params: seq<string> := [];
    if season.Some? {
      params := params + ["season=" + IntToString(season.value)];
    }
    assert params == SeasonParam(season);
    if meetingKey.Some? {
      params := params + ["meeting_key=" + IntToString(meetingKey.value)];
    }
    assert params == SeasonParam(season) + MeetingParam(meetingKey);
    if teamName.Some? {
      params := params + ["team_name=" + teamName.value];
    }
    assert params == QueryParams(season, meetingKey, teamName);
    JoinCons(head, params, '&');
    if |params| > 0 {
      url := url + "&" + Text.Join(params, '&');
      assert url == DriversEndpoint + "?" + (head + ['&'] + Text.Join(params, '&'));
    }
  }

  /** Without filters the query is exactly the session key: no trailing '&'. */
  lemma UnfilteredQuery(sessionKey: int)
    ensures DriversQuery(None, None, sessionKey, None) == "session_key=" + IntToString(sessionKey)
  {
    JoinCons("session_key=" + IntToString(sessionKey), [], '&');
  }

  /** Splitting the query on '&' gives back the session key parameter
      followed by exactly the present filters, in order; this needs a team
      name without '&', since the name is put into the URL unescaped. */
  lemma DriversQueryParts(season: Option<int>, meetingKey: Option<int>, sessionKey: int, teamName: Option<string>)
    requires teamName.Some? ==> '&' !in teamName.value
    ensures Text.Split(DriversQuery(season, meetingKey, sessionKey, teamName), '&')
      == ["session_key=" + IntToString(sessionKey)] + QueryParams(season, meetingKey, teamName)
  {
    var parts := ["session_key=" + IntToString(sessionKey)] + QueryParams(season, meetingKey, teamName);
    forall i | 0 <= i < |parts| ensures '&' !in parts[i] {
      NoAmpersand(parts[i], season, meetingKey, sessionKey, teamName, parts);
    }
    Text.SplitJoin(parts, '&');
  }

  lemma NoAmpersand(p: string, season: Option<int>, meetingKey: Option<int>, sessionKey: int, teamName: Option<string>, parts: seq<string>)
    requires teamName.Some? ==> '&' !in teamName.value
    requires parts == ["session_key=" + IntToString(sessionKey)] + QueryParams(season, meetingKey, teamName)
    requires p in parts
    ensures '&' !in p
  {
    if p == "session_key=" + IntToString(sessionKey) {
      PrefixedNumber("session_key=", sessionKey);
    } else if season.Some? && p == "season=" + IntToString(season.value) {
      PrefixedNumber("season=", season.value);
    } else if meetingKey.Some? && p == "meeting_key=" + IntToString(meetingKey.value) {
      PrefixedNumber("meeting_key=", meetingKey.value);
    } else {
      assert teamName.Some? && p == "team_name=" + teamName.value;
      assert '&' !in "team_name=";
    }
  }

  lemma PrefixedNumber(name: string, n: int)
    requires '&' !in name
    ensures '&' !in name + IntToString(n)
  {
    if '&' in IntToString(n) {
      IntToStringChars(n, '&');
    }
  }

  /** An explicit zero and an absent filter share one cache entry, although
      they ask the upstream API different questions: the query of the first
      carries `season=0`, that of the second does not. */
  lemma ZeroAndAbsentShareKey(sessionKey: int)
    ensures DriversCacheKey(Some(0), None, Some(sessionKey), None) == DriversCacheKey(None, None, Some(sessionKey), None)
    ensures DriversQuery(Some(0), None, sessionKey, None) != DriversQuery(None, None, sessionKey, None)
  {
    UnfilteredQuery(sessionKey);
    var head := "session_key=" + IntToString(sessionKey);
    JoinCons(head, ["season=0"], '&');
    assert |DriversQuery(Some(0), None, sessionKey, None)| > |head|;
  }
}
