/** The callback handler, `visma_pay_callback`: it reads the gateway's query
    parameters, resolves the payment named in the URL, checks the callback's
    authcode with the event's credentials and cross-checks the order code in
    ORDER_NUMBER against the payment's order, confirms the payment when the
    gateway reports it settled, and redirects to the order page.

    pretix's records are modelled as a small ledger: orders whose stored
    status `confirm` sets to paid, payments pointing at their order, and a
    store resolving organizer and payment ids. */
module Views {
  import opened Base
  import opened PyText
  import opened Mac
  import opened VismaPay
  import opened Helpers
  import Payment

  datatype OrderStatus = Pending | Paid | Expired | Canceled

  datatype Event = Event(testmode: bool)

  /** An order as stored by pretix */
  class Order {
    const code: string
    const secret: string
    const event: Event
    var status: OrderStatus
    /** How many times `confirm` was called for this order */
    ghost var confirmCalls: nat

    constructor (code: string, secret: string, event: Event, status: OrderStatus)
      ensures this.code == code && this.secret == secret && this.event == event
      ensures this.status == status && confirmCalls == 0
    {
      this.code := code;
      this.secret := secret;
      this.event := event;
      this.status := status;
      confirmCalls := 0;
    }
  }

  /** A payment of an order, within one organizer */
  class OrderPayment {
    const organizerId: int
    const order: Order

    constructor (organizerId: int, order: Order)
      ensures this.organizerId == organizerId && this.order == order
    {
      this.organizerId := organizerId;
      this.order := order;
    }

    /** pretix's `payment.confirm()`: the order is stored as paid. Any guard
        against a second confirmation is pretix's own. */
    method Confirm()
      modifies order
      ensures order.status == Paid
      ensures order.confirmCalls == old(order.confirmCalls) + 1
    {
      order.status := Paid;
      order.confirmCalls := order.confirmCalls + 1;
    }
  }

  /** The organizers and payments the lookups of the handler can find */
  class Store {
    const organizers: set<int>
    const payments: map<int, OrderPayment>

    constructor (organizers: set<int>, payments: map<int, OrderPayment>)
      ensures this.organizers == organizers && this.payments == payments
    {
      this.organizers := organizers;
      this.payments := payments;
    }
  }

  /** `Organizer.objects.get(id=organizerId)`, then, within that organizer's
      scope, `OrderPayment.objects.get(id=paymentId)` */
  function Lookup(store: Store, organizerId: int, paymentId: int): Option<OrderPayment>
  {
    if organizerId in store.organizers && paymentId in store.payments
       && store.payments[paymentId].organizerId == organizerId
    then Some(store.payments[paymentId])
    else None
  }

  /** The one order a callback for `paymentId` may change */
  function Touched(store: Store, paymentId: int): set<Order>
  {
    if paymentId in store.payments then {store.payments[paymentId].order} else {}
  }

  /** `order_number.split("_")[0]`: the order code is the text before the
      first '_', or all of ORDER_NUMBER when it has none */
  function OrderCodeOf(orderNumber: string): (r: string)
    ensures r <= orderNumber && '_' !in r
    ensures r == orderNumber || orderNumber[|r|] == '_'
  {
    FirstField(orderNumber, '_')
  }

  /** What the handler needs of the resolved payment: its order's code and
      its event's test-mode flag */
  datatype Target = Target(code: string, testmode: bool)

  function TargetOf(payment: Option<OrderPayment>): Option<Target>
  {
    if payment.Some? then Some(Target(payment.value.order.code, payment.value.order.event.testmode)) else None
  }

  /** The gateway reports the payment as made and settled */
  function Settles(query: map<string, string>): (r: bool)
    ensures r <==> "RETURN_CODE" in query && query["RETURN_CODE"] == "0"
                   && "SETTLED" in query && query["SETTLED"] == "1"
  {
    Get(query, "RETURN_CODE") == Some("0") && Get(query, "SETTLED") == Some("1")
  }

  /** The private key the handler's client holds for an event */
  function PrivateKeyFor(testmode: bool, settings: Settings): Option<string>
  {
    if settings.Loaded? then Get(settings.values, PrivateKeySetting(testmode)) else None
  }

  /** The verdict of the handler on a callback for the payment `target`
      resolves to, before any change: it raises, or it goes on to the
      redirect, confirming first when the result is true. The callback is
      accepted exactly when its authcode is right for the event's private key
      and its order code is the order's; it confirms exactly when it is also
      settled. A rejection of a well-formed callback does not tell which of
      the two checks failed. */
  function Decide(query: map<string, string>, target: Option<Target>, settings: Settings, hmac: Hmac): (r: Result<bool>)
    ensures "ORDER_NUMBER" !in query ==> r == Raises(Fault)
    ensures "ORDER_NUMBER" in query && target.None? ==> r == Raises(RecordMissing)
    ensures r.Returns? <==>
      && "ORDER_NUMBER" in query && target.Some?
      && PrivateKeyFor(target.value.testmode, settings).Some?
      && Authentic(query, PrivateKeyFor(target.value.testmode, settings).value, hmac)
      && OrderCodeOf(query["ORDER_NUMBER"]) == target.value.code
    ensures r.Returns? ==> (r.value <==> Get(query, "RETURN_CODE") == Some("0") && Get(query, "SETTLED") == Some("1"))
    ensures (r.Raises? && target.Some? && "RETURN_CODE" in query && "ORDER_NUMBER" in query
             && PrivateKeyFor(target.value.testmode, settings).Some?) ==> r == Raises(InvalidRequest)
  {
    if "ORDER_NUMBER" !in query then Raises(Fault)  // None.split raises AttributeError
    else if target.None? then Raises(RecordMissing)
    else
      match GetCredentials(target.value.testmode, settings)
      case None => Raises(Fault)  // False.get raises AttributeError
      case Some(credentials) =>
        var client := ClientFromCredentials(credentials);
        if "RETURN_CODE" !in query || client.privateKey.None? then Raises(Fault)
        else if !Authentic(query, client.privateKey.value, hmac) then Raises(InvalidRequest)
        else if target.value.code != OrderCodeOf(query["ORDER_NUMBER"]) then Raises(InvalidRequest)
        else Returns(Settles(query))
  }

  datatype Response = Redirect(url: string)

  /** `visma_pay_callback`: `orderPage` stands for `eventreverse` of the
      order page of an order code and secret. The handler raises without
      changing anything, or confirms exactly when `Decide` says so and
      redirects to the order page, flagged paid exactly when the order's
      stored status, read after the confirmation, is paid. */
  method VismaPayCallback(query: map<string, string>, organizerId: int, paymentId: int, store: Store,
                          settings: Settings, hmac: Hmac, orderPage: (string, string) -> string)
    returns (r: Result<Response>)
    modifies Touched(store, paymentId)
    ensures var verdict := Decide(query, TargetOf(Lookup(store, organizerId, paymentId)), settings, hmac);
      && (verdict.Raises? ==> r == Raises(verdict.error) && unchanged(Touched(store, paymentId)))
      && (verdict.Returns? ==>
            var order := store.payments[paymentId].order;
            && order.confirmCalls == old(order.confirmCalls) + (if verdict.value then 1 else 0)
            && order.status == (if verdict.value then Paid else old(order.status))
            && r == Returns(Redirect(orderPage(order.code, order.secret) + (if order.status == Paid then "?paid=yes" else ""))))
  {
    var returnCode := Get(query, "RETURN_CODE");
    var settled := Get(query, "SETTLED");
    var orderNumber := Get(query, "ORDER_NUMBER");
    if orderNumber.None? {
      return Raises(Fault);  // None.split raises AttributeError
    }
    var orderCode := OrderCodeOf(orderNumber.value);

    var payment := Lookup(store, organizerId, paymentId);
    if payment.None? {
      return Raises(RecordMissing);
    }
    var order := payment.value.order;
    var credentials := GetCredentials(order.event.testmode, settings);
    if credentials.None? {
      return Raises(Fault);  // False.get raises AttributeError
    }
    var client := ClientFromCredentials(credentials.value);
    var valid := ValidateCallbackRequest(client, query, hmac);
    if valid.Raises? {
      return Raises(valid.error);
    }
    if !valid.value {
      return Raises(InvalidRequest);
    }
    if order.code != orderCode {
      return Raises(InvalidRequest);
    }

    if returnCode == Some("0") && settled == Some("1") {
      payment.value.Confirm();
      // order.refresh_from_db(): the model's order is the stored record itself
    }
    var redirectUrl := orderPage(order.code, order.secret) + (if order.status == Paid then "?paid=yes" else "");
    return Returns(Redirect(redirectUrl));
  }

  /** The order number a payment is started with leads back to its order:
      the code cross-check accepts it whatever the random suffix holds */
  lemma {:induction false} OrderNumberRoundTrip(orderCode: string, suffix: string)
    requires '_' !in orderCode
    ensures OrderCodeOf(Payment.OrderNumber(orderCode, suffix)) == orderCode
  {
    SplitAtFirstSeparator(orderCode, suffix, '_');
    assert Payment.OrderNumber(orderCode, suffix) == orderCode + ['_'] + suffix;
  }

  /** The authcode is checked before the order code: a callback whose
      authcode is wrong gets the same answer whichever order it names */
  lemma MacCheckedFirst(query: map<string, string>, code1: string, code2: string, testmode: bool,
                        settings: Settings, hmac: Hmac)
    requires "ORDER_NUMBER" in query && "RETURN_CODE" in query
    requires PrivateKeyFor(testmode, settings).Some?
    requires !Authentic(query, PrivateKeyFor(testmode, settings).value, hmac)
    ensures Decide(query, Some(Target(code1, testmode)), settings, hmac) == Raises(InvalidRequest)
    ensures Decide(query, Some(Target(code2, testmode)), settings, hmac) == Raises(InvalidRequest)
  {
  }

  /** A genuine callback replayed against another payment, whose order has
      another code, is rejected */
  lemma ReplayAgainstOtherOrderRejected(query: map<string, string>, target: Target, settings: Settings, hmac: Hmac)
    requires "ORDER_NUMBER" in query && "RETURN_CODE" in query
    requires PrivateKeyFor(target.testmode, settings).Some?
    requires OrderCodeOf(query["ORDER_NUMBER"]) != target.code
    ensures Decide(query, Some(target), settings, hmac) == Raises(InvalidRequest)
  {
  }

  /** A settled callback for order Q1W2 (RETURN_CODE 0, SETTLED 1, ORDER_NUMBER
      Q1W2_abc) with the right authcode over "0|Q1W2_abc|1" is accepted and
      confirms */
  lemma SettledCallbackConfirms(key: string, hmac: Hmac, testmode: bool, settings: Settings)
    requires PrivateKeyFor(testmode, settings) == Some(key)
    ensures var query := map["RETURN_CODE" := "0", "SETTLED" := "1", "ORDER_NUMBER" := "Q1W2_abc",
                             "AUTHCODE" := Authcode(hmac, key, "0|Q1W2_abc|1")];
            Decide(query, Some(Target("Q1W2", testmode)), settings, hmac) == Returns(true)
  {
    var query := map["RETURN_CODE" := "0", "SETTLED" := "1", "ORDER_NUMBER" := "Q1W2_abc",
                     "AUTHCODE" := Authcode(hmac, key, "0|Q1W2_abc|1")];
    assert "INCIDENT_ID" !in query;
    CallbackMessageLayout(query);
    assert "0" + "|" + "Q1W2_abc" + ("|" + "1") + "" == "0|Q1W2_abc|1";
    assert CallbackMessage(query) == Some("0|Q1W2_abc|1");
    assert Authentic(query, key, hmac);
    OrderNumberRoundTrip("Q1W2", "abc");
    assert Payment.OrderNumber("Q1W2", "abc") == "Q1W2_abc";
  }

  /** The same callback with an authcode that differs from the right one,
      by one character or more, is rejected as an invalid request */
  lemma TamperedCallbackRejected(key: string, hmac: Hmac, testmode: bool, settings: Settings, authcode: string)
    requires PrivateKeyFor(testmode, settings) == Some(key)
    requires authcode != Authcode(hmac, key, "0|Q1W2_abc|1")
    ensures var query := map["RETURN_CODE" := "0", "SETTLED" := "1", "ORDER_NUMBER" := "Q1W2_abc",
                             "AUTHCODE" := authcode];
            Decide(query, Some(Target("Q1W2", testmode)), settings, hmac) == Raises(InvalidRequest)
  {
    var query := map["RETURN_CODE" := "0", "SETTLED" := "1", "ORDER_NUMBER" := "Q1W2_abc", "AUTHCODE" := authcode];
    assert "INCIDENT_ID" !in query;
    CallbackMessageLayout(query);
    assert "0" + "|" + "Q1W2_abc" + ("|" + "1") + "" == "0|Q1W2_abc|1";
    assert CallbackMessage(query) == Some("0|Q1W2_abc|1");
  }

  /** Not yet settled: a right authcode over "0|Q1W2_abc|0" is accepted but
      does not confirm */
  lemma UnsettledCallbackDoesNotConfirm(key: string, hmac: Hmac, testmode: bool, settings: Settings)
    requires PrivateKeyFor(testmode, settings) == Some(key)
    ensures var query := map["RETURN_CODE" := "0", "SETTLED" := "0", "ORDER_NUMBER" := "Q1W2_abc",
                             "AUTHCODE" := Authcode(hmac, key, "0|Q1W2_abc|0")];
            Decide(query, Some(Target("Q1W2", testmode)), settings, hmac) == Returns(false)
  {
    var query := map["RETURN_CODE" := "0", "SETTLED" := "0", "ORDER_NUMBER" := "Q1W2_abc",
                     "AUTHCODE" := Authcode(hmac, key, "0|Q1W2_abc|0")];
    assert "INCIDENT_ID" !in query;
    CallbackMessageLayout(query);
    assert "0" + "|" + "Q1W2_abc" + ("|" + "0") + "" == "0|Q1W2_abc|0";
    assert CallbackMessage(query) == Some("0|Q1W2_abc|0");
    assert Authentic(query, key, hmac);
    OrderNumberRoundTrip("Q1W2", "abc");
    assert Payment.OrderNumber("Q1W2", "abc") == "Q1W2_abc";
  }

  /** Nothing guards against a second delivery: the same settled callback
      handled twice confirms twice, and both times redirects flagged paid */
  method DeliveredTwice(query: map<string, string>, organizerId: int, paymentId: int, store: Store,
                        settings: Settings, hmac: Hmac, orderPage: (string, string) -> string)
    returns (first: Result<Response>, second: Result<Response>)
    requires Decide(query, TargetOf(Lookup(store, organizerId, paymentId)), settings, hmac) == Returns(true)
    modifies Touched(store, paymentId)
    ensures var order := store.payments[paymentId].order;
      && order.confirmCalls == old(order.confirmCalls) + 2
      && first == second == Returns(Redirect(orderPage(order.code, order.secret) + "?paid=yes"))
  {
    first := VismaPayCallback(query, organizerId, paymentId, store, settings, hmac, orderPage);
    second := VismaPayCallback(query, organizerId, paymentId, store, settings, hmac, orderPage);
  }

  /** An accepted callback that does not settle leaves an already paid order
      alone and still redirects flagged paid */
  method UnsettledOnPaidOrder(query: map<string, string>, organizerId: int, paymentId: int, store: Store,
                              settings: Settings, hmac: Hmac, orderPage: (string, string) -> string)
    returns (r: Result<Response>)
    requires Decide(query, TargetOf(Lookup(store, organizerId, paymentId)), settings, hmac) == Returns(false)
    requires store.payments[paymentId].order.status == Paid
    modifies Touched(store, paymentId)
    ensures var order := store.payments[paymentId].order;
      && order.confirmCalls == old(order.confirmCalls) && order.status == Paid
      && r == Returns(Redirect(orderPage(order.code, order.secret) + "?paid=yes"))
  {
    r := VismaPayCallback(query, organizerId, paymentId, store, settings, hmac, orderPage);
  }
}
