/** The Visma Pay gateway client, `VismaPayClient`: the token request and the
    check of its answer, the payment-methods request, the payment URL, and
    the check of a callback's AUTHCODE. The client's two keys are set once at
    construction and never change, so the client is a value. HTTP is not
    modelled: `post` stands for the gateway, giving the parsed body of its
    answer to a payload. */
module VismaPay {
  import opened Base
  import opened PyText
  import opened Mac

  const API_VERSION := "w3.1"
  const BASE_URL := "https://www.vismapay.com/pbwapi"
  /** Everything of a payment URL before the token */
  const TOKEN_URL_PREFIX := BASE_URL + "/token/"

  /** `VismaPayClient(api_key, private_key)`; either key is None when its setting is unset */
  datatype Client = Client(apiKey: Option<string>, privateKey: Option<string>)

  /** A JSON value as `r.json()` yields it; JNull is Python's None */
  datatype Json = JNull | JBool(b: bool) | JInt(i: int) | JStr(s: string)

  /** The body of a gateway answer: a JSON object, other JSON, or not JSON at all */
  datatype Body = Object(fields: map<string, Json>) | OtherJson | NotJson

  /** `data.get(key)` on a decoded JSON object. `Base.Get` does not fit here:
      an absent key reads as JSON null, the same Python None a stored null
      gives, not as a separate "missing" case */
  function Field(fields: map<string, Json>, key: string): Json
  {
    if key in fields then fields[key] else JNull
  }

  /** Python's `v == 0`; `False == 0` holds in Python as well */
  predicate EqualsZero(v: Json)
  {
    v == JInt(0) || v == JBool(false)
  }

  /** `str(v)`, as `"{}".format(v)` writes a decoded JSON value */
  function Str(v: Json): string
  {
    match v
    case JNull => "None"
    case JBool(b) => if b then "True" else "False"
    case JInt(i) => IntToString(i)
    case JStr(s) => s
  }

  /** `generate_authcode(input)`: raises on a None key or a None input */
  function GenerateAuthcode(client: Client, hmac: Hmac, input: Option<string>): (r: Result<string>)
    ensures r.Returns? <==> client.privateKey.Some? && input.Some?
    ensures r.Raises? ==> r.error == Fault
    ensures r.Returns? ==> |r.value| == 64 && forall i :: 0 <= i < 64 ==> IsUpperHex(r.value[i])
    ensures r.Returns? ==> r.value == Authcode(hmac, client.privateKey.value, input.value)
  {
    if client.privateKey.None? || input.None? then Raises(Fault)
    else Returns(Authcode(hmac, client.privateKey.value, input.value))
  }

  datatype PaymentMethod = PaymentMethod(kind: string, returnUrl: string, notifyUrl: string)

  /** The JSON body of the token request, one field per key */
  datatype TokenPayload = TokenPayload(
    version: string,
    apiKey: string,
    orderNumber: string,
    amount: int,
    currency: string,
    email: Option<string>,
    paymentMethod: PaymentMethod,
    authcode: string)

  /** The JSON body of the payment-methods request */
  datatype MethodsPayload = MethodsPayload(version: string, apiKey: string, currency: string, authcode: string)

  /** The payload `get_token` posts to `/auth_payment` */
  function TokenRequest(client: Client, hmac: Hmac, orderNumber: string, amount: int,
                        email: Option<string>, callbackUrl: string): (r: Result<TokenPayload>)
    ensures r.Returns? <==> client.apiKey.Some? && client.privateKey.Some?
    ensures r.Raises? ==> r.error == Fault
    ensures r.Returns? ==>
      && r.value.authcode == Authcode(hmac, client.privateKey.value, client.apiKey.value + "|" + orderNumber)
      && r.value.version == "w3.1"
      && r.value.apiKey == client.apiKey.value
      && r.value.orderNumber == orderNumber
      && r.value.amount == amount
      && r.value.currency == "EUR"
      && r.value.email == email
      && r.value.paymentMethod == PaymentMethod("e-payment", callbackUrl, callbackUrl)
  {
    if client.apiKey.None? then
      Raises(Fault)  // "|".join with a None part raises TypeError
    else
      var authcodeInput := Join('|', [client.apiKey.value, orderNumber]);
      JoinTwo('|', client.apiKey.value, orderNumber);
      match GenerateAuthcode(client, hmac, Some(authcodeInput))
      case Raises(e) => Raises(e)
      case Returns(authcode) =>
        Returns(TokenPayload(API_VERSION, client.apiKey.value, orderNumber, amount, "EUR", email,
                             PaymentMethod("e-payment", callbackUrl, callbackUrl), authcode))
  }

  /** The gateway accepted a token request: a JSON object whose `result` is 0 */
  function TokenAccepted(answer: Body): (r: bool)
    ensures r <==> answer.Object? && "result" in answer.fields
                   && answer.fields["result"] in {JInt(0), JBool(false)}
  {
    answer.Object? && EqualsZero(Field(answer.fields, "result"))
  }

  /** `get_token`: posts the token request and returns the answer's `token`
      field, which is None when the field is absent, as nothing checks it */
  function GetToken(client: Client, hmac: Hmac, orderNumber: string, amount: int, email: Option<string>,
                    callbackUrl: string, post: TokenPayload -> Body): (r: Result<Json>)
    ensures var sent := TokenRequest(client, hmac, orderNumber, amount, email, callbackUrl);
      && (r.Returns? <==> sent.Returns? && TokenAccepted(post(sent.value)))
      && (r.Returns? ==> r.value == Field(post(sent.value).fields, "token"))
      && (r == Raises(TokenRequestFailed) <==>
            sent.Returns? && post(sent.value).Object? && !EqualsZero(Field(post(sent.value).fields, "result")))
  {
    match TokenRequest(client, hmac, orderNumber, amount, email, callbackUrl)
    case Raises(e) => Raises(e)
    case Returns(payload) =>
      match post(payload)
      case Object(fields) =>
        if !EqualsZero(Field(fields, "result")) then Raises(TokenRequestFailed)
        else Returns(Field(fields, "token"))
      case OtherJson => Raises(Fault)  // `.get` on a list or a scalar raises AttributeError
      case NotJson => Raises(Fault)    // `r.json()` raises on a body that is not JSON
  }

  /** The payload `get_payment_methods` posts to `/merchant_payment_methods`:
      its authcode covers the api key alone */
  function MethodsRequest(client: Client, hmac: Hmac): (r: Result<MethodsPayload>)
    ensures r.Returns? <==> client.apiKey.Some? && client.privateKey.Some?
    ensures r.Returns? ==>
      r.value == MethodsPayload("2", client.apiKey.value, "EUR", Authcode(hmac, client.privateKey.value, client.apiKey.value))
  {
    match GenerateAuthcode(client, hmac, client.apiKey)
    case Raises(e) => Raises(e)
    case Returns(authcode) => Returns(MethodsPayload("2", client.apiKey.value, "EUR", authcode))
  }

  /** `get_payment_methods`: the decoded answer, returned without any check of
      its result code */
  function GetPaymentMethods(client: Client, hmac: Hmac, post: MethodsPayload -> Body): (r: Result<Body>)
    ensures var sent := MethodsRequest(client, hmac);
      && (r.Returns? <==> sent.Returns? && post(sent.value) != NotJson)
      && (r.Returns? ==> r.value == post(sent.value))
  {
    match MethodsRequest(client, hmac)
    case Raises(e) => Raises(e)
    case Returns(payload) =>
      var answer := post(payload);
      if answer.NotJson? then Raises(Fault) else Returns(answer)
  }

  /** `payment_url(token)`: the token URL, from which the token can be read back */
  function PaymentUrl(token: string): (r: string)
    ensures |r| == |TOKEN_URL_PREFIX| + |token|
    ensures r[..|TOKEN_URL_PREFIX|] == "https://www.vismapay.com/pbwapi/token/"
    ensures r[|TOKEN_URL_PREFIX|..] == token
  {
    BASE_URL + "/token/" + token
  }

  /** The fields a callback may carry beyond RETURN_CODE and ORDER_NUMBER:
      the value when present, nothing when absent */
  function OptionalField(v: Option<string>): seq<string>
  {
    if v.Some? then [v.value] else []
  }

  /** The message a callback's AUTHCODE authenticates: RETURN_CODE and
      ORDER_NUMBER, then SETTLED and INCIDENT_ID each only if present, joined
      with '|'. None when RETURN_CODE or ORDER_NUMBER is missing, where the
      join raises. */
  function CallbackMessage(query: map<string, string>): (r: Option<string>)
    ensures r.Some? <==> "RETURN_CODE" in query && "ORDER_NUMBER" in query
  {
    if "RETURN_CODE" !in query || "ORDER_NUMBER" !in query then None
    else
      var parts := [query["RETURN_CODE"], query["ORDER_NUMBER"]]
        + OptionalField(Get(query, "SETTLED")) + OptionalField(Get(query, "INCIDENT_ID"));
      Some(Join('|', parts))
  }

  /** The callback carries the authcode of its own message under `key` */
  predicate Authentic(query: map<string, string>, key: string, hmac: Hmac)
  {
    var message := CallbackMessage(query);
    message.Some? && Get(query, "AUTHCODE") == Some(Authcode(hmac, key, message.value))
  }

  /** `validate_callback_request`: builds the message part by part and
      compares the supplied AUTHCODE with the one computed from it. It raises,
      rather than answering false, when RETURN_CODE or ORDER_NUMBER is missing
      or the private key is None. */
  method ValidateCallbackRequest(client: Client, query: map<string, string>, hmac: Hmac) returns (r: Result<bool>)
    ensures r.Returns? <==> "RETURN_CODE" in query && "ORDER_NUMBER" in query && client.privateKey.Some?
    ensures r.Raises? ==> r.error == Fault
    ensures r.Returns? ==> (r.value <==> Authentic(query, client.privateKey.value, hmac))
  {
    var returnCode := Get(query, "RETURN_CODE");
    var orderNumber := Get(query, "ORDER_NUMBER");
    var settled := Get(query, "SETTLED");
    var incidentId := Get(query, "INCIDENT_ID");
    var authcode := Get(query, "AUTHCODE");

    if returnCode.None? || orderNumber.None? {
      return Raises(Fault);  // "|".join with a None part raises TypeError
    }
    var authcodeParts := [returnCode.value, orderNumber.value];
    if settled.Some? {
      authcodeParts := authcodeParts + [settled.value];
    }
    if incidentId.Some? {
      authcodeParts := authcodeParts + [incidentId.value];
    }
    assert authcodeParts == [returnCode.value, orderNumber.value] + OptionalField(settled) + OptionalField(incidentId);
    var authcodeInput := Join('|', authcodeParts);
    assert CallbackMessage(query) == Some(authcodeInput);
    var expected := GenerateAuthcode(client, hmac, Some(authcodeInput));
    if expected.Raises? {
      return Raises(expected.error);
    }
    if authcode != Some(expected.value) {
      return Returns(false);
    }
    return Returns(true);
  }

  /** The message laid out field by field: a missing SETTLED or INCIDENT_ID is
      left out together with its separator, never replaced by "" */
  lemma CallbackMessageLayout(query: map<string, string>)
    requires "RETURN_CODE" in query && "ORDER_NUMBER" in query
    ensures CallbackMessage(query) == Some(
      query["RETURN_CODE"] + "|" + query["ORDER_NUMBER"]
      + (if "SETTLED" in query then "|" + query["SETTLED"] else "")
      + (if "INCIDENT_ID" in query then "|" + query["INCIDENT_ID"] else ""))
  {
    var returnCode, orderNumber := query["RETURN_CODE"], query["ORDER_NUMBER"];
    var head := [returnCode, orderNumber];
    JoinTwo('|', returnCode, orderNumber);
    var upToSettled := head + OptionalField(Get(query, "SETTLED"));
    assert Join('|', upToSettled)
        == returnCode + "|" + orderNumber + (if "SETTLED" in query then "|" + query["SETTLED"] else "") by {
      if "SETTLED" in query {
        JoinAppend('|', head, query["SETTLED"]);
        assert Join('|', upToSettled) == (returnCode + "|" + orderNumber) + "|" + query["SETTLED"];
        assert Join('|', upToSettled) == returnCode + "|" + orderNumber + ("|" + query["SETTLED"]);
      } else {
        assert upToSettled == head;
      }
    }
    var settledText := if "SETTLED" in query then "|" + query["SETTLED"] else "";
    var parts := upToSettled + OptionalField(Get(query, "INCIDENT_ID"));
    if "INCIDENT_ID" in query {
      JoinAppend('|', upToSettled, query["INCIDENT_ID"]);
      assert Join('|', parts) == (returnCode + "|" + orderNumber + settledText) + "|" + query["INCIDENT_ID"];
      assert Join('|', parts) == returnCode + "|" + orderNumber + settledText + ("|" + query["INCIDENT_ID"]);
    } else {
      assert parts == upToSettled;
      assert Join('|', parts) == returnCode + "|" + orderNumber + settledText + "";
    }
    assert CallbackMessage(query) == Some(Join('|', parts));
  }

  /** Without SETTLED the incident id takes the third place of the message */
  lemma IncidentWithoutSettled(query: map<string, string>)
    requires "RETURN_CODE" in query && "ORDER_NUMBER" in query
    requires "SETTLED" !in query && "INCIDENT_ID" in query
    ensures CallbackMessage(query) == Some(query["RETURN_CODE"] + "|" + query["ORDER_NUMBER"] + "|" + query["INCIDENT_ID"])
  {
    CallbackMessageLayout(query);
    var head := query["RETURN_CODE"] + "|" + query["ORDER_NUMBER"];
    assert head + "" + ("|" + query["INCIDENT_ID"]) == head + "|" + query["INCIDENT_ID"];
  }

  /** A consequence of omitting absent fields: a callback whose SETTLED value
      is moved into INCIDENT_ID has the same message, so one authcode
      authenticates both */
  lemma SettledAndIncidentShareAuthcode(returnCode: string, orderNumber: string, value: string,
                                        authcode: string, key: string, hmac: Hmac)
    ensures var withSettled := map["RETURN_CODE" := returnCode, "ORDER_NUMBER" := orderNumber,
                                   "SETTLED" := value, "AUTHCODE" := authcode];
            var withIncident := map["RETURN_CODE" := returnCode, "ORDER_NUMBER" := orderNumber,
                                    "INCIDENT_ID" := value, "AUTHCODE" := authcode];
            && CallbackMessage(withSettled) == CallbackMessage(withIncident)
            && (Authentic(withSettled, key, hmac) <==> Authentic(withIncident, key, hmac))
  {
    var withSettled := map["RETURN_CODE" := returnCode, "ORDER_NUMBER" := orderNumber,
                           "SETTLED" := value, "AUTHCODE" := authcode];
    var withIncident := map["RETURN_CODE" := returnCode, "ORDER_NUMBER" := orderNumber,
                            "INCIDENT_ID" := value, "AUTHCODE" := authcode];
    assert "INCIDENT_ID" !in withSettled && "SETTLED" !in withIncident;
    assert Get(withSettled, "AUTHCODE") == Get(withIncident, "AUTHCODE");
    CallbackMessageLayout(withSettled);
    CallbackMessageLayout(withIncident);
    var head := returnCode + "|" + orderNumber;
    assert CallbackMessage(withSettled) == Some(head + ("|" + value) + "");
    assert CallbackMessage(withIncident) == Some(head + "" + ("|" + value));
    assert head + ("|" + value) + "" == head + "" + ("|" + value);
    assert CallbackMessage(withSettled) == CallbackMessage(withIncident);
  }

  /** An AUTHCODE holding a lower-case letter never authenticates a callback */
  lemma LowerCaseAuthcodeRejected(query: map<string, string>, key: string, hmac: Hmac, i: nat)
    requires "AUTHCODE" in query && i < |query["AUTHCODE"]| && 'a' <= query["AUTHCODE"][i] <= 'z'
    ensures !Authentic(query, key, hmac)
  {
  }

  /** The authcode of a token request changes with the order number: a fresh
      order number per attempt gives a fresh request whenever the digests of
      the two messages differ */
  lemma TokenAuthcodeFollowsDigest(client: Client, hmac: Hmac, n1: string, n2: string, amount: int,
                                   email: Option<string>, callbackUrl: string)
    requires client.apiKey.Some? && client.privateKey.Some?
    ensures var p1 := TokenRequest(client, hmac, n1, amount, email, callbackUrl).value;
            var p2 := TokenRequest(client, hmac, n2, amount, email, callbackUrl).value;
            var key, api := client.privateKey.value, client.apiKey.value;
            p1.authcode == p2.authcode <==> hmac(key, api + "|" + n1) == hmac(key, api + "|" + n2)
  {
    var key, api := client.privateKey.value, client.apiKey.value;
    SpellingInjective(hmac(key, api + "|" + n1), hmac(key, api + "|" + n2));
  }

  /** Two tokens give the same payment URL only if they are the same token */
  lemma PaymentUrlInjective(t1: string, t2: string)
    ensures PaymentUrl(t1) == PaymentUrl(t2) <==> t1 == t2
  {
    if PaymentUrl(t1) == PaymentUrl(t2) {
      assert t1 == PaymentUrl(t1)[|TOKEN_URL_PREFIX|..];
    }
  }
}
