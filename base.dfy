/** Vocabulary shared by every module: Python's value-or-None, the outcome of
    a call that either returns or raises, and `dict.get`. */
module Base {

  /** A value that may be Python's None */
  datatype Option<+T> = None | Some(value: T)

  /** What escapes from the plugin's code when it raises. The source raises
      bare exceptions; the model keeps only which step raised. */
  datatype Error =
    | InvalidRequest      // PaymentException("Invalid request") in the callback handler
    | RecordMissing       // DoesNotExist from the organizer or payment lookup
    | TokenRequestFailed  // the gateway answered a token request with a result other than 0
    | Fault               // TypeError or AttributeError on a None, or a body that is not a JSON object

  /** A call that returns `value` or raises `error` */
  datatype Result<+T> = Returns(value: T) | Raises(error: Error)

  /** `m.get(k)`: the value under `k`, or None when `k` is absent */
  function Get<K, V>(m: map<K, V>, k: K): Option<V>
  {
    if k in m then Some(m[k]) else None
  }
}
