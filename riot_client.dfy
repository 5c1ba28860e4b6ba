/** The RiotDataService client of the Riot API: request URLs, the match-count
    clamp, the 429/503 classification and the reading of each response body.
    The HTTP exchange itself is a reply value given to each operation. */
module RiotClient {
  import opened Common
  import opened Url
  import opened RiotData

  const DefaultTimeoutMs: int := 10000
  const MatchRegion: string := "asia"
  const UserAgent: string := "FIT.LOL/RiotDataService v1.0.3"

  /** `Number(s)` for an environment string: surrounding whitespace is
      ignored, the empty string is 0, an optionally signed decimal numeral is
      its value, anything else is NaN (None). */
  function EnvNumber(s: string): (r: Option<int>)
    ensures Trim(s) == "" ==> r == Some(0)
    ensures Trim(s) != "" && AllDigits(Trim(s)) ==> r == Some(DecimalValue(Trim(s)))
    ensures |Trim(s)| >= 2 && Trim(s)[0] == '-' && AllDigits(Trim(s)[1..]) ==> r == Some(-(DecimalValue(Trim(s)[1..]) as int))
    ensures |Trim(s)| >= 2 && Trim(s)[0] == '+' && AllDigits(Trim(s)[1..]) ==> r == Some(DecimalValue(Trim(s)[1..]))
    ensures r.None? <==> Trim(s) != "" && !AllDigits(Trim(s))
                         && !(|Trim(s)| >= 2 && (Trim(s)[0] == '-' || Trim(s)[0] == '+') && AllDigits(Trim(s)[1..]))
  {
    var t := Trim(s);
    if t == "" then Some(0)
    else if AllDigits(t) then Some(DecimalValue(t))
    else if t[0] == '-' && t[1..] != "" && AllDigits(t[1..]) then Some(-(DecimalValue(t[1..]) as int))
    else if t[0] == '+' && t[1..] != "" && AllDigits(t[1..]) then Some(DecimalValue(t[1..]))
    else None
  }

  /** `Number(process.env.RIOT_HTTP_TIMEOUT_MS || 10000)`; None is NaN. */
  function TimeoutFrom(env: Option<string>): (r: Option<int>)
    ensures !Present(env) ==> r == Some(DefaultTimeoutMs)
    ensures Present(env) && AllDigits(Trim(env.value)) && Trim(env.value) != "" ==> r == Some(DecimalValue(Trim(env.value)))
  {
    if Present(env) then EnvNumber(env.value) else Some(DefaultTimeoutMs)
  }

  class RiotClient {
    const apiKey: string
    const matchRegion: string
    const headers: map<string, string>
    const timeout: Option<int>

    /** `new RiotClient()`: the key from RIOT_API_KEY (empty when unset),
        the Riot headers, and the timeout from RIOT_HTTP_TIMEOUT_MS. */
    constructor (apiKeyEnv: Option<string>, timeoutEnv: Option<string>)
      ensures apiKey == (if Present(apiKeyEnv) then apiKeyEnv.value else "")
      ensures matchRegion == MatchRegion
      ensures "X-Riot-Token" in headers && headers["X-Riot-Token"] == apiKey
      ensures "User-Agent" in headers && headers["User-Agent"] == UserAgent
      ensures timeout == TimeoutFrom(timeoutEnv)
    {
      var key := if Present(apiKeyEnv) then apiKeyEnv.value else "";
      apiKey := key;
      matchRegion := MatchRegion;
      headers := map[
        "Accept-Language" := "ko-KR,ko;q=0.9,en-US;q=0.8,en;q=0.7",
        "Accept-Charset" := "application/x-www-form-urlencoded; charset=UTF-8",
        "Origin" := "https://developer.riotgames.com",
        "X-Riot-Token" := key,
        "User-Agent" := UserAgent];
      timeout := TimeoutFrom(timeoutEnv);
    }

    /** The URL the client sends a request to. */
    function UrlOf(req: Request): string {
      RequestUrl(matchRegion, req)
    }

    /** `getPuuidByRiotId`: `res.data?.puuid`, undefined rather than an error
        when the body has none; a failed request is classified and thrown. */
    function GetPuuidByRiotId(reply: Reply<string>): (r: Result<Option<string>, Error>)
      ensures reply.Success? ==> r == Success(reply.value)
      ensures reply.Failure? ==> r == Failure(Classify(reply.error))
    {
      var res := Settle(reply);
      if res.Success? then Success(res.value) else Failure(res.error)
    }

    /** `getMatchIdsByPuuid`: the listed ids, `[]` for an absent body. */
    function GetMatchIdsByPuuid(reply: Reply<seq<string>>): (r: Result<seq<string>, Error>)
      ensures reply.Success? ==> r == Success(reply.value.GetOr([]))
      ensures reply.Failure? ==> r == Failure(Classify(reply.error))
    {
      var res := Settle(reply);
      if res.Success? then Success(res.value.GetOr([])) else Failure(res.error)
    }

    /** `getMatchDetail`: the body as it came (possibly absent). */
    function GetMatchDetail(reply: Reply<Detail>): (r: Result<Option<Detail>, Error>)
      ensures reply.Success? ==> r == Success(reply.value)
      ensures reply.Failure? ==> r == Failure(Classify(reply.error))
    {
      var res := Settle(reply);
      if res.Success? then Success(res.value) else Failure(res.error)
    }
  }
}
