/**
 * Payout/Connection.php: the HTTP connection of the API client. It owns a
 * header map keyed by header name, the bearer token, and the raw response of
 * the last request; `handleResponse` turns the raw response into a result and
 * refreshes the token.
 *
 * cURL is outside the model: what one `curl_exec` produced is an `Exchange`
 * parameter, and the options a request sets are recorded in fields
 * (`sentHeaders` for CURLOPT_HTTPHEADER, `requestUrl` for CURLOPT_URL,
 * `postFields` for CURLOPT_POSTFIELDS).
 */
module Http {
  import opened Php

  const TypeJson := "application/json"

  /** One `curl_exec`: the text `curl_error` reports afterwards ('' when the
      transfer worked) and the response body as `json_decode` reads it (the
      empty or undecodable body is null). */
  datatype Exchange = Exchange(curlError: string, body: Value)

  /** The header line stored for a header. */
  function HeaderLine(name: string, value: string): string {
    name + ": " + value
  }

  /** `'Bearer ' . $token` */
  function Bearer(token: Value): string {
    "Bearer " + StrVal(token)
  }

  /** What `handleResponse` returns or throws after a transfer that left
      `curlError` and the decoded body `response`. */
  function Handled(curlError: string, response: Value): (r: Result<Value>)
    ensures curlError != "" ==> r == Err(Exception("Payout error: " + curlError))
    ensures curlError == "" && Get(response, "errors").Arr? ==> r == Err(ObjectToString)
    ensures curlError == "" && IsSet(Get(response, "errors")) && !Get(response, "errors").Arr? ==>
              r == Err(Exception("Payout error: " + StrVal(Get(response, "errors"))))
    ensures r.Ok? <==> curlError == "" && !IsSet(Get(response, "errors"))
    ensures r.Ok? ==> r.value == response
  {
    if curlError != "" then Err(Exception("Payout error: " + curlError))
    else if Get(response, "errors").Arr? then Err(ObjectToString)
    else if IsSet(Get(response, "errors")) then Err(Exception("Payout error: " + StrVal(Get(response, "errors"))))
    else Ok(response)
  }

  /** The stored token after `handleResponse`: replaced by a `token` the body
      carries, untouched when the handler throws first. */
  function TokenAfter(token: Value, curlError: string, response: Value): (t: Value)
    ensures Handled(curlError, response).Err? ==> t == token
    ensures Handled(curlError, response).Ok? && IsSet(Get(response, "token")) ==> t == Get(response, "token")
    ensures !IsSet(Get(response, "token")) ==> t == token
  {
    if curlError == "" && !IsSet(Get(response, "errors")) && IsSet(Get(response, "token"))
    then Get(response, "token") else token
  }

  /** `http_build_query` over string pairs, in order, each side URL-encoded. */
  function BuildQuery(urlencode: string -> string, pairs: seq<(string, string)>): string
  {
    if pairs == [] then ""
    else
      var first := urlencode(pairs[0].0) + "=" + urlencode(pairs[0].1);
      if |pairs| == 1 then first else first + "&" + BuildQuery(urlencode, pairs[1..])
  }

  /** The header map after `initializeRequest` adds the JSON headers. */
  function WithJsonHeaders(headers: map<string, string>): (h: map<string, string>)
    ensures h.Keys == headers.Keys + {"Content-Type", "Accept"}
    ensures h["Content-Type"] == HeaderLine("Content-Type", TypeJson)
    ensures h["Accept"] == HeaderLine("Accept", TypeJson)
    ensures forall k :: k in headers && k != "Content-Type" && k != "Accept" ==> h[k] == headers[k]
  {
    headers["Content-Type" := HeaderLine("Content-Type", TypeJson)]["Accept" := HeaderLine("Accept", TypeJson)]
  }

  /** The header map a `post` or `get` sends: the bearer header is added
      before the JSON headers. */
  function AuthorizedHeaders(headers: map<string, string>, token: Value): (h: map<string, string>)
    ensures "Authorization" in h && h["Authorization"] == HeaderLine("Authorization", Bearer(token))
    ensures h.Keys == headers.Keys + {"Authorization", "Content-Type", "Accept"}
    ensures h["Content-Type"] == HeaderLine("Content-Type", TypeJson) && h["Accept"] == HeaderLine("Accept", TypeJson)
    ensures forall k :: k in headers && k != "Authorization" && k != "Content-Type" && k != "Accept" ==> h[k] == headers[k]
  {
    WithJsonHeaders(headers["Authorization" := HeaderLine("Authorization", Bearer(token))])
  }

  class Connection {
    const baseUrl: string
    var headers: map<string, string>
    var token: Value
    /** The raw response of the current request, represented by its decoded
        form; the empty string '' is represented by null. */
    var response: Value
    var curlError: string
    var sentHeaders: map<string, string>
    var requestUrl: string
    var postFields: Option<Value>

    constructor (baseUrl: string)
      ensures this.baseUrl == baseUrl
      ensures headers == map[] && token == Null && response == Null && curlError == ""
      ensures sentHeaders == map[] && requestUrl == "" && postFields == None
    {
      this.baseUrl := baseUrl;
      headers := map[];
      token := Null;
      response := Null;
      curlError := "";
      sentHeaders := map[];
      requestUrl := "";
      postFields := None;
    }

    /** `addHeader($header, $value)` */
    method AddHeader(header: string, value: string)
      modifies this`headers
      ensures headers == old(headers)[header := HeaderLine(header, value)]
    {
      headers := headers[header := HeaderLine(header, value)];
    }

    /** `initializeRequest()` */
    method InitializeRequest()
      modifies this`response, this`headers, this`sentHeaders
      ensures response == Null
      ensures headers == WithJsonHeaders(old(headers))
      ensures sentHeaders == headers
    {
      response := Null;
      AddHeader("Content-Type", TypeJson);
      AddHeader("Accept", TypeJson);
      sentHeaders := headers;
    }

    /** `curl_exec`: records the transfer error and returns the body. */
    method Exec(reply: Exchange) returns (body: Value)
      modifies this`curlError
      ensures curlError == reply.curlError && body == reply.body
    {
      curlError := reply.curlError;
      body := reply.body;
    }

    /** `handleResponse()` */
    method HandleResponse() returns (r: Result<Value>)
      modifies this`token
      ensures r == Handled(curlError, response)
      ensures token == TokenAfter(old(token), curlError, response)
    {
      if curlError != "" {
        return Err(Exception("Payout error: " + curlError));
      }
      var decoded := response;
      if Php.Get(decoded, "errors").Arr? {
        return Err(ObjectToString);
      }
      if IsSet(Php.Get(decoded, "errors")) {
        return Err(Exception("Payout error: " + StrVal(Php.Get(decoded, "errors"))));
      }
      if IsSet(Php.Get(decoded, "token")) {
        token := Php.Get(decoded, "token");
      }
      r := Ok(decoded);
    }

    /** `authenticate($url, $client_id, $client_secret)` */
    method Authenticate(url: string, clientId: Value, clientSecret: Value, reply: Exchange) returns (r: Result<Value>)
      modifies this
      ensures headers == WithJsonHeaders(old(headers)) && sentHeaders == headers
      ensures requestUrl == baseUrl + url
      ensures postFields == Some(Arr(map["client_id" := clientId, "client_secret" := clientSecret]))
      ensures response == reply.body && curlError == reply.curlError
      ensures r == Handled(reply.curlError, reply.body)
      ensures token == TokenAfter(old(token), reply.curlError, reply.body)
    {
      InitializeRequest();
      var credentials := Arr(map["client_id" := clientId, "client_secret" := clientSecret]);
      requestUrl := baseUrl + url;
      postFields := Some(credentials);
      response := Exec(reply);
      r := HandleResponse();
    }

    /** `post($url, $body)`: the body is sent as given (JSON encoding is not
        modelled). */
    method Post(url: string, body: Value, reply: Exchange) returns (r: Result<Value>)
      modifies this
      ensures headers == AuthorizedHeaders(old(headers), old(token))
      ensures sentHeaders == headers
      ensures requestUrl == baseUrl + url && postFields == Some(body)
      ensures response == reply.body && curlError == reply.curlError
      ensures r == Handled(reply.curlError, reply.body)
      ensures token == TokenAfter(old(token), reply.curlError, reply.body)
    {
      Authorize();
      requestUrl := baseUrl + url;
      postFields := Some(body);
      response := Exec(reply);
      r := HandleResponse();
    }

    /** The start of `post` and `get`: the bearer header, then
        `initializeRequest`. */
    method Authorize()
      modifies this`headers, this`response, this`sentHeaders
      ensures headers == AuthorizedHeaders(old(headers), token)
      ensures sentHeaders == headers && response == Null
    {
      AddHeader("Authorization", Bearer(token));
      InitializeRequest();
    }

    /** The part of `get` before the transfer: `Authorize` and the URL with
        its query string. */
    method PrepareGet(url: string, query: Option<seq<(string, string)>>, urlencode: string -> string)
      modifies this`headers, this`response, this`sentHeaders, this`requestUrl
      ensures headers == AuthorizedHeaders(old(headers), token)
      ensures sentHeaders == headers && response == Null
      ensures requestUrl == baseUrl + url + (if query.Some? then "?" + BuildQuery(urlencode, query.value) else "")
    {
      Authorize();
      var target := url;
      if query.Some? {
        target := target + "?" + BuildQuery(urlencode, query.value);
      }
      requestUrl := baseUrl + target;
    }

    /** `get($url, $query)` as written: the result of `curl_exec` is not
        stored, so the handler decodes the '' left by `initializeRequest`.
        `query` is None when the argument is not an array. */
    method Get(url: string, query: Option<seq<(string, string)>>, urlencode: string -> string, reply: Exchange)
      returns (r: Result<Value>)
      modifies this
      ensures headers == AuthorizedHeaders(old(headers), old(token))
      ensures sentHeaders == headers
      ensures requestUrl == baseUrl + url + (if query.Some? then "?" + BuildQuery(urlencode, query.value) else "")
      ensures postFields == old(postFields)
      ensures response == Null && curlError == reply.curlError
      ensures r == Handled(reply.curlError, Null)
      ensures reply.curlError == "" ==> r == Ok(Null)
      ensures token == old(token)
    {
      PrepareGet(url, query, urlencode);
      var body := Exec(reply);
      r := HandleResponse();
    }

    /** `get` with the `curl_exec` result stored, as `post` does. */
    method GetCorrected(url: string, query: Option<seq<(string, string)>>, urlencode: string -> string, reply: Exchange)
      returns (r: Result<Value>)
      modifies this
      ensures headers == AuthorizedHeaders(old(headers), old(token))
      ensures sentHeaders == headers
      ensures requestUrl == baseUrl + url + (if query.Some? then "?" + BuildQuery(urlencode, query.value) else "")
      ensures postFields == old(postFields)
      ensures response == reply.body && curlError == reply.curlError
      ensures r == Handled(reply.curlError, reply.body)
      ensures token == TokenAfter(old(token), reply.curlError, reply.body)
    {
      PrepareGet(url, query, urlencode);
      response := Exec(reply);
      r := HandleResponse();
    }
  }

  /** A transport error wins over anything in the body, and a body with
      `errors` never changes the token, whatever `token` it also carries. */
  lemma ErrorsNeverRefreshToken(token: Value, curlError: string, body: Value, other: Value)
    requires curlError != "" || IsSet(Get(body, "errors"))
    ensures TokenAfter(token, curlError, body) == token
    ensures curlError != "" ==> Handled(curlError, body) == Handled(curlError, other)
  {
  }
}
