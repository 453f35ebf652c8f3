/**
 * A model of fp-try: a result type with a `Success` and a `Failure` variant,
 * the normaliser that turns any caught value into an `Error`, and `Try`,
 * which runs a zero-argument function and classifies how it concluded.
 *
 * The host runtime is represented by values: a caught value is a `Thrown`,
 * what the function returned is a `Value` (tagged by whether it is a
 * `Promise` instance), and a promise is represented by how it settles.
 * `JSON.stringify` is a parameter of the model, not a definition in it.
 */
module FpTry {

  /** An `Error` object: the name of its class and its message. */
  datatype Error = Error(name: string, message: string)

  /**
   * The result of `Try`: exactly one of the two flags `success` and
   * `failure` is set, and the data or the error is carried alongside.
   */
  datatype Result<T> = Success(data: T) | Failure(error: Error)
  {
    const success: bool := Success?
    const failure: bool := Failure?
  }

  /** Every result has exactly one of its two flags set. */
  lemma FlagsComplementary<T>(r: Result<T>)
    ensures r.success != r.failure
    ensures r.success <==> r.Success?
  {
  }

  /**
   * A caught value, classified as the normaliser sees it: an `Error`
   * instance, a primitive string, or any other value.
   */
  datatype Thrown<V> = IsError(e: Error) | IsString(s: string) | Other(v: V)

  /**
   * What `JSON.stringify` gives back: a text, or `undefined` (as it does
   * for `undefined`, a function or a symbol).
   */
  datatype Stringified = Text(text: string) | Undefined

  /**
   * What a call of the user's function returned. Only a `Promise` instance
   * is awaited; any other object, even one with a `then` method, is a
   * plain return value to `Try`.
   */
  datatype Value<T, V> =
    | Plain(data: T)
    | Thenable(calls: Settlement<T, V>)
    | Promise(settles: Settlement<T, V>)

  /** How a promise or a thenable settles: fulfilled with a value, or rejected. */
  datatype Settlement<T, V> = Fulfils(value: Value<T, V>) | Rejects(reason: Thrown<V>)

  /**
   * The settled outcome seen by a `then` callback: promises and thenables
   * are adopted, so a fulfilled value is never one of them.
   */
  datatype Settled<T, V> = Fulfilled(data: T) | Rejected(reason: Thrown<V>)

  /** How a call of the user's function concluded. */
  datatype Outcome<T, V> = Returned(value: Value<T, V>) | Threw(thrown: Thrown<V>)

  /**
   * What `Try` hands back: a result at once, or a promise that settles
   * with a result (whose data has been awaited).
   */
  datatype Answer<T, V> = Sync(now: Result<Value<T, V>>) | Async(later: Result<T>)

  /** `Success(data)`: wraps the data verbatim. */
  function SuccessOf<T>(data: T): (r: Result<T>)
    ensures r.success && !r.failure
    ensures r.data == data
  {
    Success(data)
  }

  /** `new Error(m)`: a plain `Error`; an `undefined` message becomes empty. */
  function NewError(m: Stringified): (e: Error)
    ensures e.name == "Error"
    ensures m.Text? ==> e.message == m.text
    ensures m.Undefined? ==> e.message == ""
  {
    match m
    case Text(s) => Error("Error", s)
    case Undefined => Error("Error", "")
  }

  /** The `error` field that `Failure(x)` stores for a caught value `x`. */
  function Normalise<V>(x: Thrown<V>, stringify: V -> Stringified): (e: Error)
    ensures x.IsError? ==> e == x.e
    ensures !x.IsError? ==> e.name == "Error"
    ensures x.IsString? ==> e.message == x.s
    ensures x.Other? && stringify(x.v).Text? ==> e.message == stringify(x.v).text
    ensures x.Other? && stringify(x.v).Undefined? ==> e.message == ""
  {
    match x
    case IsError(err) => err
    case IsString(s) => NewError(Text(s))
    case Other(v) => NewError(stringify(v))
  }

  /** `Failure(x)`: a failed result carrying the normalised error. */
  function FailureOf<T, V>(x: Thrown<V>, stringify: V -> Stringified): (r: Result<T>)
    ensures !r.success && r.failure
    ensures r.error == Normalise(x, stringify)
  {
    Failure(Normalise(x, stringify))
  }

  /** An `Error` is kept as it is, so normalising twice is normalising once. */
  lemma NormaliseIdempotent<T, V>(x: Thrown<V>, stringify: V -> Stringified)
    ensures FailureOf<T, V>(IsError(FailureOf<T, V>(x, stringify).error), stringify)
         == FailureOf<T, V>(x, stringify)
  {
  }

  /**
   * Adoption: the outcome a promise or a thenable finally settles with,
   * following fulfilment with another promise or thenable to its end.
   */
  function Awaited<T, V>(v: Value<T, V>): (r: Settled<T, V>)
    ensures v.Plain? ==> r == Fulfilled(v.data)
    ensures v.Thenable? ==> r == Adopt(v.calls)
    ensures v.Promise? ==> r == Adopt(v.settles)
  {
    match v
    case Plain(d) => Fulfilled(d)
    case Thenable(s) => Adopt(s)
    case Promise(s) => Adopt(s)
  }

  /** The settled outcome of a settlement, after adopting its value. */
  function Adopt<T, V>(s: Settlement<T, V>): (r: Settled<T, V>)
    ensures s.Fulfils? ==> r == Awaited(s.value)
    ensures s.Rejects? ==> r == Rejected(s.reason)
  {
    match s
    case Fulfils(w) => Awaited(w)
    case Rejects(x) => Rejected(x)
  }

  /** `v` inside `n` promises, each fulfilled with the one inside it. */
  function Layers<T, V>(n: nat, v: Value<T, V>): Value<T, V>
  {
    if n == 0 then v else Promise(Fulfils(Layers(n - 1, v)))
  }

  /** However deeply a value is nested in fulfilled promises, it is awaited to the same outcome. */
  lemma {:induction false} AwaitedThroughLayers<T, V>(n: nat, v: Value<T, V>)
    ensures Awaited(Layers(n, v)) == Awaited(v)
    ensures n > 0 ==> Layers(n, v).Promise?
  {
    if n > 0 {
      AwaitedThroughLayers(n - 1, v);
    }
  }

  /** The `then(Success, Failure)` step: a settled outcome becomes a result. */
  function Classify<T, V>(s: Settled<T, V>, stringify: V -> Stringified): (r: Result<T>)
    ensures s.Fulfilled? <==> r.success
    ensures s.Fulfilled? ==> r.data == s.data
    ensures s.Rejected? ==> r.error == Normalise(s.reason, stringify)
  {
    match s
    case Fulfilled(d) => SuccessOf(d)
    case Rejected(x) => FailureOf(x, stringify)
  }

  /**
   * `Try(fn)`, given how the call of `fn` concluded: a `Promise` instance
   * is deferred, anything else is answered at once.
   */
  function Try<T, V>(o: Outcome<T, V>, stringify: V -> Stringified): (a: Answer<T, V>)
    ensures a.Async? <==> o.Returned? && o.value.Promise?
    ensures a.Sync? ==> (a.now.success <==> o.Returned?)
  {
    match o
    case Threw(x) => Sync(FailureOf(x, stringify))
    case Returned(Promise(s)) => Async(Classify(Adopt(s), stringify))
    case Returned(v) => Sync(SuccessOf(v))
  }

  /** A returned value that is not a `Promise` instance (a thenable included) is a success at once. */
  lemma TryReturnsSync<T, V>(v: Value<T, V>, stringify: V -> Stringified)
    requires !v.Promise?
    ensures Try(Returned(v), stringify) == Sync(Success(v))
  {
  }

  /** A synchronous throw is caught and answered at once with the normalised error. */
  lemma TryCatchesThrow<T, V>(x: Thrown<V>, stringify: V -> Stringified)
    ensures var a := Try<T, V>(Threw(x), stringify);
      a.Sync? && a.now.failure && a.now.error == Normalise(x, stringify)
    ensures x.IsError? ==> Try<T, V>(Threw(x), stringify).now.error == x.e
  {
  }

  /**
   * A returned promise is answered later: fulfilment (after adoption) with
   * `d` gives `Success(d)`, rejection with `x` gives the normalised `Failure(x)`.
   */
  lemma TryDefersPromise<T, V>(s: Settlement<T, V>, stringify: V -> Stringified)
    ensures Try(Returned(Promise(s)), stringify).Async?
    ensures s.Fulfils? && s.value.Plain? ==>
      Try(Returned(Promise(s)), stringify).later == Success(s.value.data)
    ensures s.Rejects? ==>
      Try(Returned(Promise(s)), stringify).later == Failure(Normalise(s.reason, stringify))
    ensures Awaited(Promise(s)).Fulfilled? <==> Try(Returned(Promise(s)), stringify).later.success
  {
    if s.Fulfils? && s.value.Plain? {
      assert Adopt(s) == Awaited(s.value) == Fulfilled(s.value.data);
    }
  }

  /** A promise fulfilled with another promise is adopted: the answer is that of the inner value. */
  lemma TryAdoptsNestedPromises<T, V>(n: nat, v: Value<T, V>, stringify: V -> Stringified)
    requires n > 0
    ensures Try(Returned(Layers(n, v)), stringify) == Async(Classify(Awaited(v), stringify))
  {
    AwaitedThroughLayers(n, v);
    AwaitedThroughLayers(n - 1, v);
  }

  /** What calling `async () => body` concludes with, when the body itself concludes with `o`. */
  function AsyncBody<T, V>(o: Outcome<T, V>): (r: Outcome<T, V>)
    ensures r.Returned? && r.value.Promise?
    ensures o.Returned? ==> r.value.settles == Fulfils(o.value)
    ensures o.Threw? ==> r.value.settles == Rejects(o.thrown)
  {
    match o
    case Returned(v) => Returned(Promise(Fulfils(v)))
    case Threw(x) => Returned(Promise(Rejects(x)))
  }

  /**
   * Making the function `async` changes only when the answer arrives, not
   * what it is, as long as the body does not return a promise or a thenable.
   */
  lemma AsyncBodyAgrees<T, V>(o: Outcome<T, V>, stringify: V -> Stringified)
    requires o.Returned? ==> o.value.Plain?
    ensures Try(o, stringify).Sync? && Try(AsyncBody(o), stringify).Async?
    ensures Try(o, stringify).now.success == Try(AsyncBody(o), stringify).later.success
    ensures Try(o, stringify).now.success ==>
      Try(o, stringify).now.data == Plain(Try(AsyncBody(o), stringify).later.data)
    ensures Try(o, stringify).now.failure ==>
      Try(o, stringify).now.error == Try(AsyncBody(o), stringify).later.error
  {
    match o
    case Returned(v) =>
      assert Adopt(Fulfils(v)) == Awaited(v) == Fulfilled(v.data);
    case Threw(x) =>
  }
}
