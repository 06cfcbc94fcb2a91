/** The payment provider, `VismaPayProvider`: it holds a client built from the
    event's credentials and starts a payment by requesting a token for a
    fresh order number and answering with the gateway's payment URL. */
module Payment {
  import opened Base
  import opened Mac
  import opened VismaPay
  import opened Helpers

  const IDENTIFIER := "visma_pay"
  const VERBOSE_NAME := "Visma Pay"

  /** The provider; its one field, the client, is set at construction */
  datatype Provider = Provider(client: Client)

  /** `VismaPayProvider(event)`: raises when `get_credentials` gave False,
      since `False.get` raises AttributeError */
  function NewProvider(testmode: bool, settings: Settings): (r: Result<Provider>)
    ensures r.Returns? <==> settings.Loaded?
    ensures r.Raises? ==> r.error == Fault
    ensures r.Returns? ==>
      r.value.client == Client(Get(settings.values, ApiKeySetting(testmode)), Get(settings.values, PrivateKeySetting(testmode)))
  {
    match GetCredentials(testmode, settings)
    case None => Raises(Fault)
    case Some(credentials) => Returns(Provider(ClientFromCredentials(credentials)))
  }

  /** `payment_is_valid_session(request)`: every session is accepted */
  function PaymentIsValidSession<Request>(request: Request): (r: bool)
    ensures r
  {
    true
  }

  /** Python's `int(x)`: the integer part, truncated toward zero */
  function Truncate(x: real): (r: int)
    ensures 0.0 <= x ==> 0 <= r && r as real <= x < r as real + 1.0
    ensures x < 0.0 ==> r <= 0 && r as real - 1.0 < x <= r as real
  {
    if x >= 0.0 then x.Floor else -((-x).Floor)
  }

  /** `int(payment.amount * 100)`: the amount in cents */
  function MinorUnits(amount: real): (r: int)
    ensures 0.0 <= amount ==> 0 <= r && r as real <= amount * 100.0 < r as real + 1.0
    ensures amount < 0.0 ==> r <= 0 && r as real - 1.0 < amount * 100.0 <= r as real
  {
    Truncate(amount * 100.0)
  }

  /** `"{}_{}".format(order.code, suffix)` */
  function OrderNumber(orderCode: string, suffix: string): (r: string)
    ensures |r| == |orderCode| + 1 + |suffix|
    ensures r[..|orderCode|] == orderCode && r[|orderCode|] == '_' && r[|orderCode| + 1..] == suffix
  {
    orderCode + "_" + suffix
  }

  /** The token request `execute_payment` makes: the order number is the order
      code, '_' and the random suffix; the amount is in cents; the order's
      email; the callback URL is the one for this payment and organizer */
  function PaymentRequest(provider: Provider, hmac: Hmac, orderCode: string, email: Option<string>, amount: real,
                          paymentId: int, organizerId: int, callbackUrl: (int, int) -> string,
                          suffix: string): (r: Result<TokenPayload>)
    ensures r.Returns? <==> provider.client.apiKey.Some? && provider.client.privateKey.Some?
    ensures r.Returns? ==>
      && r.value.orderNumber == orderCode + "_" + suffix
      && r.value.amount == MinorUnits(amount)
      && r.value.email == email
      && r.value.paymentMethod.returnUrl == callbackUrl(paymentId, organizerId)
      && r.value.paymentMethod.notifyUrl == callbackUrl(paymentId, organizerId)
      && r.value.authcode == Authcode(hmac, provider.client.privateKey.value,
                                      provider.client.apiKey.value + "|" + orderCode + "_" + suffix)
  {
    var key := provider.client.apiKey;
    assert key.Some? ==> key.value + "|" + OrderNumber(orderCode, suffix) == key.value + "|" + orderCode + "_" + suffix;
    TokenRequest(provider.client, hmac, OrderNumber(orderCode, suffix), MinorUnits(amount), email,
                 callbackUrl(paymentId, organizerId))
  }

  /** `execute_payment`, with the token requested through `get_token`: the
      payment URL of whatever the gateway put in `token`, "None" included */
  function ExecutePayment(provider: Provider, hmac: Hmac, orderCode: string, email: Option<string>, amount: real,
                          paymentId: int, organizerId: int, callbackUrl: (int, int) -> string,
                          suffix: string, post: TokenPayload -> Body): (r: Result<string>)
    ensures var sent := PaymentRequest(provider, hmac, orderCode, email, amount, paymentId, organizerId,
                                       callbackUrl, suffix);
      && (r.Returns? <==> sent.Returns? && TokenAccepted(post(sent.value)))
      && (r.Returns? ==> r.value == PaymentUrl(Str(Field(post(sent.value).fields, "token"))))
      && (r == Raises(TokenRequestFailed) <==> sent.Returns? && post(sent.value).Object? && !TokenAccepted(post(sent.value)))
  {
    var callback := callbackUrl(paymentId, organizerId);
    var orderNumber := OrderNumber(orderCode, suffix);
    match GetToken(provider.client, hmac, orderNumber, MinorUnits(amount), email, callback, post)
    case Raises(e) => Raises(e)
    case Returns(token) => Returns(PaymentUrl(Str(token)))
  }

  /** `execute_payment` as written: it calls `self.client.get_payment_token`,
      which `VismaPayClient` does not define, so the attribute lookup raises
      AttributeError before any request is made */
  function ExecutePaymentAsWritten(provider: Provider, hmac: Hmac, orderCode: string, email: Option<string>,
                                   amount: real, paymentId: int, organizerId: int,
                                   callbackUrl: (int, int) -> string, suffix: string,
                                   post: TokenPayload -> Body): (r: Result<string>)
    ensures r.Raises?
  {
    Raises(Fault)
  }

  /** Where the gateway accepts the request and hands out a token, the
      corrected code returns that token's payment URL while the code as
      written raises: no payment can be started */
  lemma GetPaymentTokenIsUndefined(provider: Provider, hmac: Hmac, orderCode: string, email: Option<string>,
                                   amount: real, paymentId: int, organizerId: int,
                                   callbackUrl: (int, int) -> string, suffix: string, post: TokenPayload -> Body)
    requires provider.client.apiKey.Some? && provider.client.privateKey.Some?
    requires var sent := PaymentRequest(provider, hmac, orderCode, email, amount, paymentId, organizerId,
                                        callbackUrl, suffix).value;
      TokenAccepted(post(sent)) && "token" in post(sent).fields
    ensures var sent := PaymentRequest(provider, hmac, orderCode, email, amount, paymentId, organizerId,
                                       callbackUrl, suffix).value;
      ExecutePayment(provider, hmac, orderCode, email, amount, paymentId, organizerId, callbackUrl, suffix, post)
      == Returns(PaymentUrl(Str(post(sent).fields["token"])))
    ensures ExecutePaymentAsWritten(provider, hmac, orderCode, email, amount, paymentId, organizerId, callbackUrl,
                                    suffix, post).Raises?
  {
    var sent := PaymentRequest(provider, hmac, orderCode, email, amount, paymentId, organizerId, callbackUrl, suffix);
    assert sent.Returns?;
  }

  /** A gateway that accepts the request but sends no token yields the URL
      ending in "/token/None": nothing checks for the missing token */
  lemma MissingTokenGivesNoneUrl(provider: Provider, hmac: Hmac, orderCode: string, email: Option<string>,
                                 amount: real, paymentId: int, organizerId: int,
                                 callbackUrl: (int, int) -> string, suffix: string, post: TokenPayload -> Body)
    requires provider.client.apiKey.Some? && provider.client.privateKey.Some?
    requires var sent := PaymentRequest(provider, hmac, orderCode, email, amount, paymentId, organizerId,
                                        callbackUrl, suffix).value;
      TokenAccepted(post(sent)) && "token" !in post(sent).fields
    ensures ExecutePayment(provider, hmac, orderCode, email, amount, paymentId, organizerId, callbackUrl, suffix, post)
            == Returns("https://www.vismapay.com/pbwapi/token/None")
  {
    var sent := PaymentRequest(provider, hmac, orderCode, email, amount, paymentId, organizerId, callbackUrl, suffix);
    assert sent.Returns?;
    assert PaymentUrl("None") == "https://www.vismapay.com/pbwapi/token/None";
  }

  /** Amounts with at most two decimals convert to cents exactly */
  lemma TwoDecimalAmountIsExact(cents: int)
    ensures MinorUnits(cents as real / 100.0) == cents
  {
    assert (cents as real / 100.0) * 100.0 == cents as real;
  }

  /** A ticket at 12.50 EUR is 1250 cents */
  lemma TwelveFiftyIsCents()
    ensures MinorUnits(12.50) == 1250
  {
    TwoDecimalAmountIsExact(1250);
    assert 1250 as real / 100.0 == 12.50;
  }

  /** Amounts finer than a cent are cut toward zero, never rounded */
  lemma SubCentAmountsTruncate()
    ensures MinorUnits(12.509) == 1250
    ensures MinorUnits(-12.509) == -1250
  {
  }

  /** The constant properties of the provider */
  lemma ProviderConstants<Request>(request: Request)
    ensures IDENTIFIER == "visma_pay" && VERBOSE_NAME == "Visma Pay"
    ensures PaymentIsValidSession(request)
  {
  }
}
