/**
 * The HTTP entry point (`handler`). The request and response objects of the
 * hosting runtime are reduced to what the handler reads and writes: the
 * method, the decoded JSON body, the query parameters, and the response's
 * status code, headers and JSON payload (before serialisation).
 */
module Handler {
  import opened Wrappers
  import opened TranscriptFetch

  const MissingUrlMessage: string := "Missing YouTube URL parameter."
  const JsonContentType: string := "application/json"

  /**
   * What the handler reads from the request. `json` is `request.json` when it
   * is a JSON object (the members of interest as `UrlValue`s) and `None` when
   * the body decodes to nothing.
   */
  datatype Request = Request(httpMethod: string, json: Option<map<string, UrlValue>>, args: map<string, string>)

  /** The response object the runtime passes in; the handler sets its fields. */
  class Response {
    var statusCode: int
    var headers: map<string, string>
    var body: Body

    constructor ()
      ensures headers == map[]
    {
      statusCode, headers, body := 0, map[], Error("");
    }
  }

  /**
   * The `url` value the handler looks at: the JSON body's member for POST,
   * the query parameter otherwise; `None` when the key is missing.
   */
  function RequestUrl(request: Request): (url: Option<UrlValue>)
    ensures request.httpMethod == "POST" ==>
      url == (if request.json.Some? && "url" in request.json.value then Some(request.json.value["url"]) else None)
    ensures request.httpMethod != "POST" ==>
      url == (if "url" in request.args then Some(Text(request.args["url"])) else None)
  {
    if request.httpMethod == "POST" then
      match request.json
      case Some(data) => if "url" in data then Some(data["url"]) else None
      case None => None
    else if "url" in request.args then Some(Text(request.args["url"]))
    else None
  }

  /**
   * Python truthiness of the `url` value: present, and a non-empty string or a
   * truthy other value (`Proxy.NonEmpty` is the same test on string fields).
   */
  predicate UrlTruthy(url: Option<UrlValue>) {
    url.Some? &&
    match url.value
    case Text(s) => s != ""
    case NonText(truthy, _) => truthy
  }

  /** The reply and external calls of one request, with `dispatch` in `requests.request` on entry. */
  function Handled(request: Request, world: World, dispatch: RequestFunction): (o: Outcome)
    ensures o.reply.status in {200, 400, 404, 500}
    ensures !UrlTruthy(RequestUrl(request)) ==> o == Outcome(Reply(Error(MissingUrlMessage), 400), [])
  {
    var url := RequestUrl(request);
    if !UrlTruthy(url) then Outcome(Reply(Error(MissingUrlMessage), 400), [])
    else Fetch(url.value, None, world, dispatch)
  }

  /**
   * `handler`: short-circuits with 400 on a missing or empty URL, otherwise
   * copies the status and payload of `fetch_transcript` into the response;
   * the content type is JSON on both paths.
   */
  method Handle(request: Request, response: Response, world: World, requests: RequestsModule)
    returns (calls: seq<Call>)
    modifies response, requests
    ensures Outcome(Reply(response.body, response.statusCode), calls) == Handled(request, world, old(requests.request))
    ensures response.headers == old(response.headers)["Content-Type" := JsonContentType]
    ensures requests.request == old(requests.request)
  {
    var url: Option<UrlValue>;
    if request.httpMethod == "POST" {
      var data := request.json;
      url := if data.Some? && "url" in data.value then Some(data.value["url"]) else None;
    } else {
      url := if "url" in request.args then Some(Text(request.args["url"])) else None;
    }
    if !UrlTruthy(url) {
      response.statusCode := 400;
      response.headers := response.headers["Content-Type" := JsonContentType];
      response.body := Error(MissingUrlMessage);
      calls := [];
      return;
    }
    var reply;
    reply, calls := FetchTranscript(url.value, None, world, requests);
    response.statusCode := reply.status;
    response.headers := response.headers["Content-Type" := JsonContentType];
    response.body := reply.body;
  }

  /**
   * Status propagation: with a truthy URL the handler answers exactly what
   * `fetch_transcript` returns for it with the default languages.
   */
  lemma StatusPassesThrough(request: Request, world: World, dispatch: RequestFunction)
    requires UrlTruthy(RequestUrl(request))
    ensures Handled(request, world, dispatch) == Fetch(RequestUrl(request).value, None, world, dispatch)
  {
  }

  /**
   * The URL source follows the method: a POST ignores the query string, any
   * other method ignores the body.
   */
  lemma UrlSourceFollowsMethod(request: Request, json: Option<map<string, UrlValue>>, args: map<string, string>)
    ensures request.httpMethod == "POST" ==> RequestUrl(request) == RequestUrl(request.(args := args))
    ensures request.httpMethod != "POST" ==> RequestUrl(request) == RequestUrl(request.(json := json))
  {
  }

  /**
   * Status 400 has exactly two causes: a missing or falsy URL, or a URL
   * string with no video identifier.
   */
  lemma BadRequestCauses(request: Request, world: World, dispatch: RequestFunction)
    ensures var url := RequestUrl(request);
      Handled(request, world, dispatch).reply.status == 400 <==>
        !UrlTruthy(url) || (url.value.Text? && VideoId.GetVideoId(url.value.s).None?)
  {
    var url := RequestUrl(request);
    if UrlTruthy(url) && url.value.Text? {
      InvalidUrlConsultsNothing(url.value.s, None, world, dispatch);
    }
  }
}
