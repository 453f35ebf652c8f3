# fp-try, modelled in Dafny

fp-try turns exception-based control flow into a value. `Success(data)` and
`Failure(error)` build the two variants of a result. Each variant carries the
complementary flags `success` and `failure`. `Failure` normalises whatever was
caught into an `Error`:

- an `Error` instance is kept as it is;
- a string becomes `new Error(s)`;
- anything else becomes `new Error(JSON.stringify(x))`.

`Try(fn)` runs `fn`. A synchronous throw or a plain return is answered at once.
A returned `Promise` instance is answered by a promise of the result.

The model is one module, `FpTry` in `fp_try.dfy`. It is pure, like the source:

- A caught value is a `Thrown<V>`: `IsError(e)`, `IsString(s)` or `Other(v)`.
- `JSON.stringify` is a parameter `stringify: V -> Stringified`. It gives back a
  text or `undefined`. `new Error(undefined)` has the empty message.
- What `fn` returned is a `Value<T, V>`: `Plain(d)`, `Thenable(s)` (an object
  with a `then` method that is not a `Promise`) or `Promise(s)`. Here `s` is how
  it settles: `Fulfils(value)` or `Rejects(reason)`.
- How the call of `fn` concluded is an `Outcome`: `Returned(v)` or `Threw(x)`.
- `Try` answers `Sync(result)` or `Async(result)`. This tag stands in for the
  conditional return type of the overload at `mod.ts:31-35`.
- `Awaited` follows promise adoption: a promise fulfilled with another promise
  or thenable settles as that one does. So the data of an asynchronous `Success`
  is never itself a promise, as the source's `Awaited<T>` says.

## Model

| member | source | states |
|---|---|---|
| FpTry.FlagsComplementary | mod.ts:1-2 | every result, whichever variant, has exactly one of `success`/`failure` true, and `success` holds exactly for the `Success` variant |
| FpTry.SuccessOf | mod.ts:8-10 | `success` is true, `failure` is false and `data` is the argument unchanged |
| FpTry.NewError | mod.ts:21 | `new Error(m)` gives an error named `Error` whose message is the text `m`, or the empty message when `m` is `undefined` (which `JSON.stringify` returns for `undefined`, functions and symbols) |
| FpTry.Normalise | mod.ts:17-22 | an `Error` is returned as the same error; a string `s` gives a plain `Error` with message `s`; any other value gives a plain `Error` whose message is its `JSON.stringify` text, or empty when that is `undefined` |
| FpTry.FailureOf | mod.ts:16-23 | whatever the input, `success` is false, `failure` is true, and `error` is the normalised error |
| FpTry.NormaliseIdempotent | mod.ts:17 | an error that was already normalised is not wrapped again: building `Failure` of a failure's error gives the same failure |
| FpTry.Awaited | mod.ts:45 | the host's adoption, which decides what `then` passes to `Success`: a plain value is fulfilled as itself, and a promise or thenable settles as its own settlement is adopted |
| FpTry.Adopt | mod.ts:45 | a fulfilment value is followed further (it may itself be a promise or thenable); a rejection reason is passed on unchanged and not followed |
| FpTry.AwaitedThroughLayers | mod.ts:42-45 | a value nested in any number of fulfilled promises settles exactly as the value itself does; with one or more layers the result is a promise |
| FpTry.Classify | mod.ts:45 | `then(Success, Failure)`: a fulfilment with `d` gives a success whose data is `d`; a rejection gives a failure with the normalised reason; the result is a success exactly when the outcome is a fulfilment |
| FpTry.Try | mod.ts:42-51 | the answer is asynchronous exactly when `fn` returned a `Promise` instance; a synchronous result is a success exactly when `fn` returned |
| FpTry.TryReturnsSync | mod.ts:44-47 | a returned value that is not a `Promise` instance, a thenable included, gives `Success(value)` at once |
| FpTry.TryCatchesThrow | mod.ts:43-50 | a synchronous throw is caught and answered at once with a failure carrying the normalised error; a thrown `Error` is kept as the same error |
| FpTry.TryDefersPromise | mod.ts:45 | a returned promise is answered later; fulfilment with `d` gives `Success(d)`; rejection with `x` gives `Failure` with `x` normalised; the later result is a success exactly when the promise is fulfilled after adoption |
| FpTry.TryAdoptsNestedPromises | mod.ts:45 | a promise fulfilled with promises nested to any depth is answered as the innermost value settles |
| FpTry.AsyncBody | mod.ts:42-45 | a caller-side helper with no code of its own in the source: `async () => body` returns a promise, fulfilled with what the body returned or rejected with what it threw |
| FpTry.AsyncBodyAgrees | mod.ts:42-51 | making `fn` `async` changes only when the answer arrives, not what it is, when its body does not return a promise or thenable: same flag, same data, same error |

## Left out

- Promise scheduling is not modelled. This covers the event loop, the order in
  which completions are delivered, and the time during which `Try`'s promise is
  pending. Only the settled outcome is modelled.
- A promise that never settles is left out. Every `Settlement` in the model
  settles.
- A thenable whose `then` method calls both callbacks, calls neither, or throws
  is left out. A thenable is adopted like a promise that settles once.
- `JSON.stringify` is a parameter, not a definition. Its throw on cyclic
  structures or `BigInt` values is left out. In the source that throw would
  escape `Try` from the `catch` block, or reject `Try`'s promise from the
  rejection handler. The code has no placeholder message for such input, and
  the model does not invent one.
- `instanceof Error` and `instanceof Promise` are constructor tags on `Thrown`
  and `Value`, not runtime reflection. Boxed `String` objects are `Other`
  values, because `typeof` is not `"string"` for them.
- Error stacks are not modelled, and neither is object identity beyond equality
  of the error value.
- The TypeScript conditional return type (`mod.ts:31-35`) has no runtime
  behaviour. The `Sync`/`Async` tag of the answer stands in for it.
