/** The settings read from the environment, the start-up check of the
    required ones, and the request URLs with their token check. */
module Config {
  import opened Common

  /** The six environment settings; each may be absent. */
  datatype Settings = Settings(
    haUrl: Option<string>,
    haToken: Option<string>,
    weatherEntity: Option<string>,
    calendarEntity: Option<string>,
    aiInstructions: Option<string>,
    aiEntityId: Option<string>)

  /** The start-up check: the URL, token, weather entity and calendar entity
      must all be set and non-empty; the AI settings are optional. */
  function CheckRequired(s: Settings): (r: Result<(), Error>)
    ensures r.Success? <==>
      Truthy(s.haUrl) && Truthy(s.haToken) && Truthy(s.weatherEntity) && Truthy(s.calendarEntity)
    ensures r.Failure? ==> r.error == RequiredUnset
  {
    if Truthy(s.haUrl) && Truthy(s.haToken) && Truthy(s.weatherEntity) && Truthy(s.calendarEntity)
    then Success(())
    else Failure(RequiredUnset)
  }

  /** The AI settings never decide whether the dashboard may start. */
  lemma AiSettingsOptional(s: Settings, instructions: Option<string>, entity: Option<string>)
    ensures CheckRequired(s.(aiInstructions := instructions, aiEntityId := entity)) == CheckRequired(s)
  {
  }

  /** `f"{HA_URL}/api/{endpoint}"`; an absent base prints as "None". */
  function ApiUrl(base: Option<string>, endpoint: string): (url: string)
    ensures |url| == |Shown(base)| + 5 + |endpoint|
    ensures url[|url| - |endpoint|..] == endpoint
  {
    Shown(base) + "/api/" + endpoint
  }

  /** The endpoint can be read back from the URL after the base and "/api/". */
  lemma EndpointRecoverable(base: Option<string>, endpoint: string)
    ensures |ApiUrl(base, endpoint)| == |Shown(base)| + 5 + |endpoint|
    ensures ApiUrl(base, endpoint)[..|Shown(base)| + 5] == Shown(base) + "/api/"
    ensures ApiUrl(base, endpoint)[|Shown(base)| + 5..] == endpoint
  {
  }

  /** Distinct endpoints on one base give distinct URLs. */
  lemma ApiUrlInjective(base: Option<string>, e1: string, e2: string)
    ensures ApiUrl(base, e1) == ApiUrl(base, e2) ==> e1 == e2
  {
    EndpointRecoverable(base, e1);
    EndpointRecoverable(base, e2);
  }

  /** The URL of a GET request, or the error raised when no token is set. */
  function GetRequest(s: Settings, endpoint: string): (r: Result<string, Error>)
    ensures r.Failure? <==> !Truthy(s.haToken)
    ensures r.Failure? ==> r.error == TokenUnset
    ensures r.Success? ==> r.value == ApiUrl(s.haUrl, endpoint)
  {
    if !Truthy(s.haToken) then Failure(TokenUnset) else Success(ApiUrl(s.haUrl, endpoint))
  }

  /** The URL of a POST request, with "?return_response" when a reply body is wanted. */
  function PostRequest(s: Settings, endpoint: string, returnResponse: bool): (r: Result<string, Error>)
    ensures r.Failure? <==> !Truthy(s.haToken)
    ensures r.Failure? ==> r.error == TokenUnset
    ensures r.Success? && !returnResponse ==> r.value == ApiUrl(s.haUrl, endpoint)
    ensures r.Success? && returnResponse ==> r.value == ApiUrl(s.haUrl, endpoint) + "?return_response"
  {
    if !Truthy(s.haToken) then Failure(TokenUnset)
    else
      var url := ApiUrl(s.haUrl, endpoint);
      Success(if returnResponse then url + "?return_response" else url)
  }

  /** A POST asking for its reply differs from the plain one only by the query suffix. */
  lemma PostExtendsGet(s: Settings, endpoint: string)
    ensures PostRequest(s, endpoint, false) == GetRequest(s, endpoint)
    ensures PostRequest(s, endpoint, true).Success? <==> GetRequest(s, endpoint).Success?
    ensures GetRequest(s, endpoint).Success? ==>
      PostRequest(s, endpoint, true).value == GetRequest(s, endpoint).value + "?return_response"
  {
  }

  /** What a call returns: the token error raised before any traffic, else the network's reply. */
  function Fetch<T>(request: Result<string, Error>, reply: Result<T, Error>): (r: Result<T, Error>)
    ensures request.Failure? ==> r == Failure(request.error)
    ensures request.Success? ==> r == reply
  {
    if request.Failure? then Failure(request.error) else reply
  }

  /** The AI block runs only when both its entity and its instructions are set. */
  predicate AiEnabled(s: Settings)
  {
    Truthy(s.aiEntityId) && Truthy(s.aiInstructions)
  }

  const AiTaskEndpoint: string := "services/ai_task/generate_data"

  /** `get_ai_task_data`: no request at all when the AI settings are incomplete,
      otherwise a POST to the AI task action asking for its reply. */
  function AiTaskRequest(s: Settings): (r: Option<Result<string, Error>>)
    ensures r.None? <==> !AiEnabled(s)
    ensures r.Some? ==> r.value.Failure? == !Truthy(s.haToken)
    ensures r.Some? && r.value.Success? ==>
      r.value.value == ApiUrl(s.haUrl, AiTaskEndpoint) + "?return_response"
  {
    if !Truthy(s.aiEntityId) || !Truthy(s.aiInstructions) then None
    else Some(PostRequest(s, AiTaskEndpoint, true))
  }
}
