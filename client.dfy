/**
 * lib/Payout/Client.php: the API client. It merges its configuration over
 * defaults, opens (and authenticates) its connection lazily on first use,
 * signs checkout requests and verifies the signature of every checkout it
 * receives.
 *
 * The nonce (`generateNonce`, random bytes in base64) is a parameter, and so
 * is each HTTP exchange. JSON encoding of the request body is not modelled:
 * the connection records the payload value it was handed.
 */
module ApiClient {
  import opened Php
  import opened Signature
  import opened Http
  import Checkout

  const ApiUrl := "https://app.payout.one/api/v1/"
  const ApiUrlSandbox := "https://sandbox.payout.one/api/v1/"
  const InvalidSignature := "Payout error: Invalid signature in API response."

  const Defaults: map<string, Value> := map["client_id" := Str(""), "client_secret" := Str(""), "sandbox" := Bool(false)]

  /** `array_merge($defaults, $config)` for string keys: a key given in
      `config` wins, the defaults fill in the rest. */
  function MergeConfig(config: map<string, Value>): (r: map<string, Value>)
    ensures r.Keys == Defaults.Keys + config.Keys
    ensures forall k :: k in config ==> r[k] == config[k]
    ensures forall k :: k in Defaults && k !in config ==> r[k] == Defaults[k]
  {
    Defaults + config
  }

  /** `$this->config[$key]` */
  function Setting(config: map<string, Value>, key: string): Value {
    Get(Arr(config), key)
  }

  /** The API base URL the connection is opened with. */
  function BaseUrlFor(config: map<string, Value>): string {
    if Truthy(Setting(config, "sandbox")) then ApiUrlSandbox else ApiUrl
  }

  /** The production API is the default; a truthy `sandbox` setting, and only
      that, selects the sandbox. */
  lemma SandboxSelectsBaseUrl(config: map<string, Value>)
    ensures "sandbox" !in config ==> BaseUrlFor(MergeConfig(config)) == ApiUrl
    ensures "sandbox" in config ==>
              (BaseUrlFor(MergeConfig(config)) == ApiUrlSandbox <==> Truthy(config["sandbox"]))
  {
  }

  /** The fields a checkout request signs, in order; the secret comes last. */
  function RequestMessage(payload: Value, nonce: string, secret: Value): seq<Value> {
    [Get(payload, "amount"), Get(payload, "currency"), Get(payload, "external_id"), Str(nonce), secret]
  }

  /** The fields of a received checkout that its signature covers. */
  function ResponseMessage(response: Value): seq<Value> {
    [Get(response, "amount"), Get(response, "currency"), Get(response, "external_id"), Get(response, "nonce")]
  }

  /** The prepared checkout with its nonce and signature filled in. */
  function SignedPayload(sha256: string -> string, payload: Value, nonce: string, secret: Value): (p: Value)
    requires payload.Arr?
    ensures p.Arr? && p.fields.Keys == payload.fields.Keys + {"nonce", "signature"}
    ensures p.fields["nonce"] == Str(nonce)
    ensures p.fields["signature"] == Str(GetSignature(sha256, RequestMessage(payload, nonce, secret)))
    ensures forall k :: k in payload.fields && k != "nonce" && k != "signature" ==> p.fields[k] == payload.fields[k]
  {
    var withNonce := payload.fields["nonce" := Str(nonce)];
    Arr(withNonce["signature" := Str(GetSignature(sha256, RequestMessage(Arr(withNonce), nonce, secret)))])
  }

  /** The signature check `createCheckout` and `getCheckout` run on a
      response: a failure passes through, a response is returned only when
      its `signature` is the digest of its fields and the secret. `strcmp`
      refuses an array. */
  function Verified(sha256: string -> string, secret: Value, r: Result<Value>): (v: Result<Value>)
    ensures r.Err? ==> v == r
    ensures v.Ok? ==> v == r && !IsArray(Get(r.value, "signature"))
                      && StrVal(Get(r.value, "signature")) == GetSignature(sha256, ResponseMessage(r.value) + [secret])
    ensures r.Ok? && HasObject(ResponseMessage(r.value)) ==> v == Err(ObjectToString)
    ensures r.Ok? && !HasObject(ResponseMessage(r.value)) && !IsArray(Get(r.value, "signature"))
            && StrVal(Get(r.value, "signature")) != GetSignature(sha256, ResponseMessage(r.value) + [secret]) ==>
              v == Err(Exception(InvalidSignature))
  {
    if r.Err? then r
    else match CheckSignature(sha256, secret, ResponseMessage(r.value), Get(r.value, "signature"))
      case Err(e) => Err(e)
      case Ok(valid) => if valid then r else Err(Exception(InvalidSignature))
  }

  /** A response that echoes the amount, currency, external id, nonce and
      signature of the request it answers, none of them an object, passes
      verification. */
  lemma EchoVerifies(sha256: string -> string, secret: Value, payload: Value, nonce: string, response: Value)
    requires payload.Arr?
    requires Get(response, "amount") == Get(payload, "amount")
    requires Get(response, "currency") == Get(payload, "currency")
    requires Get(response, "external_id") == Get(payload, "external_id")
    requires Get(response, "nonce") == Str(nonce)
    requires Get(response, "signature") == SignedPayload(sha256, payload, nonce, secret).fields["signature"]
    requires !HasObject(ResponseMessage(response))
    ensures Verified(sha256, secret, Ok(response)) == Ok(response)
  {
    assert ResponseMessage(response) + [secret] == RequestMessage(payload, nonce, secret);
  }

  /** A transfer that worked and whose body carries no `errors`, scalar
      signed fields and a genuine signature is returned as received. */
  lemma AcceptsGenuineResponse(sha256: string -> string, secret: Value, body: Value)
    requires !IsSet(Get(body, "errors")) && !HasObject(ResponseMessage(body))
    requires Get(body, "signature") == Str(GetSignature(sha256, ResponseMessage(body) + [secret]))
    ensures Verified(sha256, secret, Handled("", body)) == Ok(body)
  {
  }

  /** The text that the as-written `getCheckout` verifies: every field of
      the null response is '', so only the secret is left. */
  lemma NullResponseText(secret: Value)
    ensures Message(ResponseMessage(Null) + [secret]) == "||||" + StrVal(secret)
  {
    var x := StrVal(secret);
    assert Strings(ResponseMessage(Null) + [secret]) == ["", "", "", "", x];
    calc {
      Implode(["", "", "", "", x]);
      "" + "|" + Implode(["", "", "", x]);
      "|" + ("" + "|" + Implode(["", "", x]));
      "||" + ("" + "|" + Implode(["", x]));
      "|||" + ("" + "|" + Implode([x]));
      "||||" + x;
    }
  }

  /** Since `get` hands back null, verifying it compares a digest with ''
      and fails whenever the digest is not empty, as a SHA-256 hex digest
      never is. */
  lemma {:induction false} NullResponseRejected(sha256: string -> string, secret: Value)
    requires sha256("||||" + StrVal(secret)) != ""
    ensures Verified(sha256, secret, Ok(Null)) == Err(Exception(InvalidSignature))
  {
    NullResponseText(secret);
  }

  /** What `createCheckout` returns on a client that has not connected yet:
      the validation failure, else the authentication failure, else the
      verified reply to the post. */
  function FreshCreateCheckout(config: map<string, Value>, sha256: string -> string, data: Value,
                               authReply: Exchange, reply: Exchange): Result<Value>
  {
    match Checkout.Create(data)
    case Err(e) => Err(e)
    case Ok(_) =>
      match Handled(authReply.curlError, authReply.body)
      case Err(e) => Err(e)
      case Ok(_) => Verified(sha256, Setting(config, "client_secret"), Handled(reply.curlError, reply.body))
  }

  /** The `Authorization` line among the headers a request sent. */
  function AuthorizationSent(headers: map<string, string>): string {
    if "Authorization" in headers then headers["Authorization"] else ""
  }

  class Client {
    const config: map<string, Value>
    /** What the authentication request returned. */
    var token: Value
    var connection: Connection?
    /** How many authentication requests this client has sent. */
    ghost var authentications: nat

    /** The connection, once opened, is opened on the configured base URL and
        was authenticated exactly once. */
    ghost predicate Valid()
      reads this
    {
      && (connection == null <==> authentications == 0)
      && authentications <= 1
      && (connection != null ==> connection.baseUrl == BaseUrlFor(config))
    }

    function Secret(): Value {
      Setting(config, "client_secret")
    }

    function Credentials(): Value {
      Arr(map["client_id" := Setting(config, "client_id"), "client_secret" := Secret()])
    }

    /** `new Client($config)`; the checks for the cURL and JSON extensions
        are outside the model. */
    constructor (userConfig: map<string, Value>)
      ensures config == MergeConfig(userConfig)
      ensures token == Null && connection == null && authentications == 0
      ensures Valid()
    {
      config := MergeConfig(userConfig);
      token := Null;
      connection := null;
      authentications := 0;
    }

    /** `connection()`: the first call opens the connection and
        authenticates; the connection is stored before authentication, so a
        failed authentication is not repeated. */
    method Connect(authReply: Exchange) returns (conn: Connection, failure: Option<Failure>)
      requires Valid()
      modifies this`connection, this`token, this`authentications
      ensures Valid() && connection == conn
      ensures old(connection) != null ==>
                conn == old(connection) && failure == None && token == old(token)
                && authentications == old(authentications)
      ensures old(connection) == null ==>
                && fresh(conn) && authentications == 1
                && conn.requestUrl == BaseUrlFor(config) + "authorize"
                && conn.postFields == Some(Credentials())
                && conn.token == TokenAfter(Null, authReply.curlError, authReply.body)
                && (Handled(authReply.curlError, authReply.body).Err? ==>
                      failure == Some(Handled(authReply.curlError, authReply.body).failure) && token == old(token))
                && (Handled(authReply.curlError, authReply.body).Ok? ==>
                      failure == None && token == authReply.body)
    {
      if connection != null {
        return connection, None;
      }
      conn := new Connection(BaseUrlFor(config));
      connection := conn;
      authentications := authentications + 1;
      var r := conn.Authenticate("authorize", Setting(config, "client_id"), Secret(), authReply);
      if r.Err? {
        return conn, Some(r.failure);
      }
      token := r.value;
      failure := None;
    }

    /** The token a request over the connection carries: the one the
        authentication that opens it obtains, or the current one. */
    ghost function TokenFor(authReply: Exchange): Value
      reads this, connection
    {
      if connection == null then TokenAfter(Null, authReply.curlError, authReply.body) else connection.token
    }

    /** The second half of `createCheckout`: sign the prepared checkout,
        post it over the connection and verify the reply. */
    method SendCheckout(prepared: Value, nonce: string, sha256: string -> string, authReply: Exchange, reply: Exchange)
      returns (r: Result<Value>)
      requires Valid() && prepared.Arr?
      modifies this`connection, this`token, this`authentications, connection
      ensures Valid() && connection != null
      ensures old(connection) == null && Handled(authReply.curlError, authReply.body).Err? ==>
                r == Handled(authReply.curlError, authReply.body)
      ensures old(connection) != null || Handled(authReply.curlError, authReply.body).Ok? ==>
                && connection.requestUrl == BaseUrlFor(config) + "checkouts"
                && connection.postFields == Some(SignedPayload(sha256, prepared, nonce, Secret()))
                && AuthorizationSent(connection.sentHeaders) == HeaderLine("Authorization", Bearer(old(TokenFor(authReply))))
                && connection.token == TokenAfter(old(TokenFor(authReply)), reply.curlError, reply.body)
                && r == Verified(sha256, Secret(), Handled(reply.curlError, reply.body))
    {
      var payload := SignedPayload(sha256, prepared, nonce, Secret());
      var conn, failure := Connect(authReply);
      if failure.Some? {
        return Err(failure.value);
      }
      var response := conn.Post("checkouts", payload, reply);
      r := Verified(sha256, Secret(), response);
    }

    /** `createCheckout($data)`: validate, sign, post, verify. Nothing is
        sent when validation fails. */
    method CreateCheckout(data: Value, nonce: string, sha256: string -> string, authReply: Exchange, reply: Exchange)
      returns (r: Result<Value>)
      requires Valid()
      modifies this`connection, this`token, this`authentications, connection
      ensures Valid()
      ensures old(connection) == null ==> r == FreshCreateCheckout(config, sha256, data, authReply, reply)
      ensures Checkout.Create(data).Err? ==>
                r == Checkout.Create(data) && connection == old(connection) && token == old(token)
      ensures Checkout.Create(data).Ok? && old(connection) == null && Handled(authReply.curlError, authReply.body).Err? ==>
                r == Handled(authReply.curlError, authReply.body) && connection != null
      ensures Checkout.Create(data).Ok? && (old(connection) != null || Handled(authReply.curlError, authReply.body).Ok?) ==>
                && connection != null
                && connection.requestUrl == BaseUrlFor(config) + "checkouts"
                && connection.postFields == Some(SignedPayload(sha256, Checkout.Create(data).value, nonce, Secret()))
                && AuthorizationSent(connection.sentHeaders) == HeaderLine("Authorization", Bearer(old(TokenFor(authReply))))
                && connection.token == TokenAfter(old(TokenFor(authReply)), reply.curlError, reply.body)
                && r == Verified(sha256, Secret(), Handled(reply.curlError, reply.body))
    {
      var prepared := Checkout.Create(data);
      if prepared.Err? {
        return prepared;
      }
      r := SendCheckout(prepared.value, nonce, sha256, authReply, reply);
    }

    /** `getCheckout($checkout_id)` as written: `get` never stores the
        reply, so a checkout comes back only if the digest of the secret
        alone is ''. */
    method GetCheckout(checkoutId: Value, sha256: string -> string, urlencode: string -> string,
                       authReply: Exchange, reply: Exchange)
      returns (r: Result<Value>)
      requires Valid()
      modifies this`connection, this`token, this`authentications, connection
      ensures Valid()
      ensures old(connection) == null && Handled(authReply.curlError, authReply.body).Err? ==>
                r == Handled(authReply.curlError, authReply.body)
      ensures old(connection) != null || Handled(authReply.curlError, authReply.body).Ok? ==>
                && connection != null
                && connection.requestUrl == BaseUrlFor(config) + "checkouts/" + StrVal(checkoutId)
                && r == Verified(sha256, Secret(), Handled(reply.curlError, Null))
      ensures r.Ok? ==> sha256("||||" + StrVal(Secret())) == ""
    {
      var conn, failure := Connect(authReply);
      if failure.Some? {
        return Err(failure.value);
      }
      var response := conn.Get("checkouts/" + StrVal(checkoutId), None, urlencode, reply);
      r := Verified(sha256, Secret(), response);
      NullResponseText(Secret());
    }

    /** `getCheckout` over a `get` that stores the reply: the checkout
        received is returned when its signature is genuine. */
    method GetCheckoutCorrected(checkoutId: Value, sha256: string -> string, urlencode: string -> string,
                                authReply: Exchange, reply: Exchange)
      returns (r: Result<Value>)
      requires Valid()
      modifies this`connection, this`token, this`authentications, connection
      ensures Valid()
      ensures old(connection) == null && Handled(authReply.curlError, authReply.body).Err? ==>
                r == Handled(authReply.curlError, authReply.body)
      ensures old(connection) != null || Handled(authReply.curlError, authReply.body).Ok? ==>
                && connection != null
                && connection.requestUrl == BaseUrlFor(config) + "checkouts/" + StrVal(checkoutId)
                && r == Verified(sha256, Secret(), Handled(reply.curlError, reply.body))
    {
      var conn, failure := Connect(authReply);
      if failure.Some? {
        return Err(failure.value);
      }
      var response := conn.GetCorrected("checkouts/" + StrVal(checkoutId), None, urlencode, reply);
      r := Verified(sha256, Secret(), response);
    }
  }
}
