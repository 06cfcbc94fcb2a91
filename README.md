# pretix-visma-pay in Dafny

A model of the Visma Pay payment plugin for pretix, with proofs about it. The
plugin does two things. It starts a payment: it asks the Visma Pay gateway for
a payment token and sends the buyer to the gateway's payment URL. It also
handles the gateway's callback: it checks the callback's authentication code
(AUTHCODE) and confirms the order's payment when the gateway reports it
settled. An AUTHCODE is the HMAC-SHA256 of a `|`-joined message under the
merchant's private key (RFC 2104 section 2, with SHA-256 from FIPS 180-4
section 6.2), written as upper-case hexadecimal.

Modules, one per source file plus three shared ones:

- `Base` (base.dfy): Python's None as `Option`. A call that returns or raises
  is a `Result`. The model keeps the kind of exception but not its message.
- `PyText` (pytext.dfy): `str.join`, `str.split`, `str.upper` and `str(int)`.
  It proves that join and split are inverses.
- `Mac` (mac.dfy): `hexdigest().upper()` over a digest. HMAC-SHA256 itself is
  a parameter `hmac`, any function from key and message to 32 bytes.
- `VismaPay` (visma_pay.dfy): `VismaPayClient`. The client holds two keys that
  never change, so it is a value. HTTP is a parameter `post`, which gives the
  decoded answer the gateway sends back for a payload.
- `Helpers` (helpers.dfy): `get_credentials`. The global settings are either
  a map of stored values or a store whose reads raise.
- `Payment` (payment.dfy): `VismaPayProvider`. It builds its
  client and starts payments.
- `Views` (views.dfy): `visma_pay_callback`, written as a method over a small
  ledger of classes:
  - `Order` holds the stored status and a ghost count of `confirm` calls.
  - `OrderPayment.Confirm` stores the order as paid.
  - `Store` resolves organizer and payment ids.

  The pure function `Decide` gives the handler's verdict. The method is proved
  to follow it.

The model follows the code in these places, which one might expect to behave
otherwise:

- `validate_callback_request` raises (TypeError) when RETURN_CODE or
  ORDER_NUMBER is missing. It does not answer false.
- A missing ORDER_NUMBER makes the handler raise before any lookup.
- A missing organizer or payment is an uncaught DoesNotExist. It is not a
  not-found answer.
- `get_token` returns None when an accepted answer has no `token`. It does not
  raise. The payment URL then ends in `/token/None`.
- `execute_payment` calls a client method that does not exist (see Findings).

## Model

| member | source | states |
|---|---|---|
| `Mac.Authcode` | pretix_visma_pay/visma_pay.py:91-99 | the authcode is 64 characters, all upper-case hex digits, with no lower-case letter |
| `Mac.HexDigest` | pretix_visma_pay/visma_pay.py:97 | `hexdigest()` writes two lower-case hex digits per byte |
| `Mac.SpellingInjective` | pretix_visma_pay/visma_pay.py:97-98 | two digests have the same upper-case hex spelling iff they are equal, so comparing authcodes compares digests |
| `PyText.Join` | pretix_visma_pay/visma_pay.py:77 | `sep.join(parts)`: with two parts or more the separator follows the first part; `SplitJoin` and `JoinSplit` prove it inverse to `split` |
| `PyText.Upper` | pretix_visma_pay/visma_pay.py:98 | `upper()` keeps the length and upper-cases each character on its own; only ASCII lower-case letters change |
| `PyText.Split` | pretix_visma_pay/views.py:19 | `split` returns at least one piece, and no piece contains the separator |
| `PyText.FirstField` | pretix_visma_pay/views.py:19 | `split(sep)[0]` is the longest prefix without the separator: all of the string, or the text before the first separator |
| `PyText.SplitAtFirstSeparator` | pretix_visma_pay/views.py:19 | splitting `a + sep + b`, where `a` has no separator, gives `a` followed by the pieces of `b` |
| `PyText.SplitJoin` | pretix_visma_pay/visma_pay.py:77 | splitting a joined list gives the list back when no part contains the separator |
| `PyText.JoinSplit` | pretix_visma_pay/visma_pay.py:77 | joining the pieces of a split gives the string back |
| `PyText.JoinAppend` | pretix_visma_pay/visma_pay.py:70-77 | appending a part to the list extends the joined text by the separator and that part |
| `VismaPay.GenerateAuthcode` | pretix_visma_pay/visma_pay.py:83-99 | raises iff the private key or the input is None; otherwise returns the 64-character upper-hex HMAC of the input under the private key |
| `VismaPay.TokenRequest` | pretix_visma_pay/visma_pay.py:16-31 | raises iff a key is None; the payload has authcode = HMAC of `api_key + "\|" + order_number`, version "w3.1", currency "EUR", type "e-payment", and return_url = notify_url = callback_url; the other fields are passed through |
| `VismaPay.TokenAccepted` | pretix_visma_pay/visma_pay.py:36 | the answer is accepted iff it is a JSON object holding `result` equal to 0 in Python (0 or false); a missing `result` (None) is not accepted |
| `VismaPay.GetToken` | pretix_visma_pay/visma_pay.py:16-43 | returns iff the request is built and the answer is an object whose `result` equals 0 in Python (0 or false); then returns its `token`, None when absent; a non-zero result raises the token-request failure |
| `VismaPay.MethodsRequest` | pretix_visma_pay/visma_pay.py:45-51 | the payment-methods payload has version "2", currency "EUR" and the authcode of the api key alone; raises iff a key is None |
| `VismaPay.GetPaymentMethods` | pretix_visma_pay/visma_pay.py:45-58 | returns the gateway's decoded answer unchanged, whatever its result code; raises only when the payload cannot be built or the answer is not JSON |
| `VismaPay.PaymentUrl` | pretix_visma_pay/visma_pay.py:60-61 | the URL is `BASE_URL + "/token/"` followed by the token, and the token can be read back from it |
| `VismaPay.PaymentUrlInjective` | pretix_visma_pay/visma_pay.py:60-61 | two tokens give the same URL iff they are equal |
| `VismaPay.CallbackMessage` | pretix_visma_pay/visma_pay.py:63-77 | the message exists (the join does not raise) iff RETURN_CODE and ORDER_NUMBER are both present |
| `VismaPay.CallbackMessageLayout` | pretix_visma_pay/visma_pay.py:70-77 | the message is `RETURN_CODE\|ORDER_NUMBER`, then `\|SETTLED` only if SETTLED is present, then `\|INCIDENT_ID` only if INCIDENT_ID is present |
| `VismaPay.IncidentWithoutSettled` | pretix_visma_pay/visma_pay.py:70-77 | with SETTLED absent and INCIDENT_ID present, the message is `return_code\|order_number\|incident_id` |
| `VismaPay.SettledAndIncidentShareAuthcode` | pretix_visma_pay/visma_pay.py:70-78 | a callback with SETTLED = v and one with INCIDENT_ID = v instead have the same message, so one authcode authenticates both |
| `VismaPay.ValidateCallbackRequest` | pretix_visma_pay/visma_pay.py:63-81 | raises iff RETURN_CODE or ORDER_NUMBER is missing or the private key is None; otherwise true iff AUTHCODE equals the authcode of the message |
| `VismaPay.LowerCaseAuthcodeRejected` | pretix_visma_pay/visma_pay.py:78 | an AUTHCODE containing a lower-case letter never validates |
| `VismaPay.TokenAuthcodeFollowsDigest` | pretix_visma_pay/visma_pay.py:17 | two token requests carry the same authcode iff the HMAC digests of their `api_key\|order_number` messages are equal |
| `Helpers.GetCredentials` | pretix_visma_pay/helpers.py:7-27 | returns False (None) iff reading the settings raises; otherwise a dict with exactly the keys api_key and private_key, read from the test setting names in test mode and from the live names otherwise |
| `Helpers.KeysFromOneMode` | pretix_visma_pay/helpers.py:10-19 | the client gets both keys from the test settings or both from the live settings, never one of each |
| `Helpers.CredentialSettingsRegistered` | pretix_visma_pay/signals.py:27-60 | both setting names read are among the four names spelt at signals.py:32-53, and they differ from each other |
| `Helpers.ClientFromCredentials` | pretix_visma_pay/payment.py:27-29 | the client takes each key from the credentials dict, and None when the entry is missing, as `credentials.get` does |
| `Payment.NewProvider` | pretix_visma_pay/payment.py:23-29 | the provider's client holds the api key and private key stored under the event's mode's setting names; raises iff `get_credentials` gave False |
| `Payment.Truncate` | pretix_visma_pay/payment.py:50 | `int(x)` truncates toward zero: the result lies within 1 of x, between 0 and x |
| `Payment.MinorUnits` | pretix_visma_pay/payment.py:50 | `int(amount * 100)`: the amount in cents cut toward zero, within one cent of it; exact for whole cents (`TwoDecimalAmountIsExact`, `SubCentAmountsTruncate`) |
| `Payment.OrderNumber` | pretix_visma_pay/payment.py:47 | the order number is the order code, then '_', then the suffix; `Views.OrderNumberRoundTrip` reads the code back from it |
| `Payment.PaymentIsValidSession` | pretix_visma_pay/payment.py:67-68 | every session is valid |
| `Payment.TwoDecimalAmountIsExact` | pretix_visma_pay/payment.py:50 | an amount with at most two decimals converts to exactly its number of cents |
| `Payment.TwelveFiftyIsCents` | pretix_visma_pay/payment.py:50 | 12.50 converts to 1250 |
| `Payment.SubCentAmountsTruncate` | pretix_visma_pay/payment.py:50 | fractions of a cent are cut toward zero: 12.509 gives 1250 and -12.509 gives -1250 |
| `Payment.PaymentRequest` | pretix_visma_pay/payment.py:36-53 | the token request has order number `order.code + "_" + suffix`, the amount in cents, the order's email, the callback URL for this payment and organizer as return and notify URL, and the matching authcode |
| `Payment.ExecutePayment` | pretix_visma_pay/payment.py:36-55 | returns a URL iff the request is built and the gateway accepts it; the URL is the payment URL of `str(token)`; a rejecting answer raises the token-request failure |
| `Payment.ExecutePaymentAsWritten` | pretix_visma_pay/payment.py:48 | as written, `execute_payment` always raises |
| `Payment.GetPaymentTokenIsUndefined` | pretix_visma_pay/payment.py:48-53 | with both keys set and any gateway answer that accepts the request and carries a token, the intended code returns that token's payment URL while the code as written raises |
| `Payment.MissingTokenGivesNoneUrl` | pretix_visma_pay/payment.py:55 | every accepting answer without a token yields the URL ending in "/token/None" |
| `Payment.ProviderConstants` | pretix_visma_pay/payment.py:57-86 | the identifier is "visma_pay", the verbose name is "Visma Pay", and every session is valid |
| `Views.OrderCodeOf` | pretix_visma_pay/views.py:19 | the order code is the text of ORDER_NUMBER before its first '_', or all of it when it has no '_' |
| `Views.OrderNumberRoundTrip` | pretix_visma_pay/payment.py:47 | for an order code without '_', the order number `code_suffix` gives the code back, whatever the suffix contains |
| `Views.Settles` | pretix_visma_pay/views.py:45 | the callback settles iff RETURN_CODE is present and "0" and SETTLED is present and "1" |
| `Views.Decide` | pretix_visma_pay/views.py:35-45 | a missing ORDER_NUMBER raises first; then a missing payment raises; the callback is accepted iff its AUTHCODE is right for the event's private key and its order code is the order's; once accepted, it confirms iff RETURN_CODE is "0" and SETTLED is "1"; a rejected well-formed callback gets "Invalid request" in both cases |
| `Views.OrderPayment.Confirm` | pretix_visma_pay/views.py:46-47 | confirming stores the order as paid and counts one more confirm call |
| `Views.VismaPayCallback` | pretix_visma_pay/views.py:15-58 | on a rejection the handler raises and the order is unchanged; otherwise it calls confirm iff the verdict says so, and redirects to the order page of code and secret with `?paid=yes` iff the status re-read afterwards is paid |
| `Views.MacCheckedFirst` | pretix_visma_pay/views.py:39-43 | a callback with a wrong authcode gets "Invalid request" whatever order code the payment has |
| `Views.ReplayAgainstOtherOrderRejected` | pretix_visma_pay/views.py:42-43 | a callback whose order code is not the resolved order's is rejected, even with a correct authcode |
| `Views.SettledCallbackConfirms` | pretix_visma_pay/views.py:39-47 | order Q1W2 with RETURN_CODE 0, SETTLED 1, ORDER_NUMBER Q1W2_abc and the right authcode is accepted and confirms |
| `Views.TamperedCallbackRejected` | pretix_visma_pay/views.py:39-40 | the same callback with any other AUTHCODE is rejected as an invalid request |
| `Views.UnsettledCallbackDoesNotConfirm` | pretix_visma_pay/views.py:45-47 | with SETTLED 0 and the right authcode, the callback is accepted and does not confirm |
| `Views.DeliveredTwice` | pretix_visma_pay/views.py:45-54 | the same settled callback handled twice calls confirm twice, and both redirects carry `?paid=yes` |
| `Views.UnsettledOnPaidOrder` | pretix_visma_pay/views.py:45-54 | an accepted callback that does not settle leaves a paid order unchanged and still redirects with `?paid=yes` |

## Findings

| source | as written | input that shows it | evidently intended | confidence | as-written member | corrected member |
|---|---|---|---|---|---|---|
| pretix_visma_pay/payment.py:48 | `execute_payment` calls `self.client.get_payment_token`. `VismaPayClient` defines only `get_token` (visma_pay.py:16), so the call raises AttributeError | any payment with both keys configured: the gateway is never asked, and no payment URL is returned | call `get_token` with the same arguments and return the payment URL of its token | high; not executed | `Payment.ExecutePaymentAsWritten`, shown by `Payment.GetPaymentTokenIsUndefined` | `Payment.ExecutePayment` |

## Left out

- HMAC-SHA256 and UTF-8 encoding: `hmac` is an arbitrary function from key and message to a 32-byte digest. Nothing beyond its digest length is assumed about it. Determinism holds because it is a function.
- HTTP: the two `requests.post` calls are the parameter `post`. Transport errors and timeouts are not modelled. For `get_token`, a body that is not JSON, or not a JSON object, raises. `get_payment_methods` raises only on a body that is not JSON.
- JSON floats, arrays and objects as values of `result` or `token` are not modelled. Only null, booleans, integers and strings are.
- The text of exception messages, including the result code, errors and URL of a failed token request, and all logging.
- Django and pretix services are parameters or small stand-ins:
  - `reverse` with `build_absolute_uri` is the parameter `callbackUrl`.
  - `eventreverse` is `orderPage`.
  - `redirect` is the `Redirect` response.
  - The ORM lookups and `scope` are `Views.Lookup`.
  - `refresh_from_db` reads the same stored order again.
  - The `Order.DoesNotExist` re-raise is folded into the `RecordMissing` kind.
- Views.OrderPayment.Confirm: stores the order as paid unconditionally. pretix's own checks inside `confirm` (quotas, partial payment, its handling of an already confirmed payment) are not modelled.
- `GlobalSettingsObject()` (helpers.py:8, outside the `try`) is taken not to raise.
- The None defaults of `get_token`'s parameters (visma_pay.py:16) are not modelled: `VismaPay.GetToken` takes a string order number and callback URL and an integer amount. Its only caller, payment.py:48-53, passes all four arguments.
- `token_urlsafe(16)` is the parameter `suffix`. Its alphabet and length are not modelled, so the round trip holds for any suffix.
- `payment.amount` is an exact `real`, not a Python `Decimal`.
- `str.upper` is modelled for ASCII letters only. It is applied only to hexadecimal text.
- `request.GET` is a map from names to single values; repeated query parameters are not modelled.
- Rendering and UI text (`checkout_confirm_render`, `payment_control_render`, `payment_form_render`, `public_name`, `test_mode_message`) are not modelled. Neither are plugin registration (signals.py, apart from the setting names), app config (apps.py) and URL routing (urls.py).
- Concurrent delivery of callbacks is not modelled: each handler call runs alone.
