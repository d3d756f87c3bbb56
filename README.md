# winston-asynchandler, modelled in Dafny

The library gives Express applications three conventions:

- `ApiResponse` is the success envelope. Its `success` is `statusCode < 400`. Its `data` is kept only when a non-null payload was given.
- `ApiError` is the structured error. It has a default message, a default empty `errors` list and `success: false`. Its stack trace is serialised only outside production.
- `asyncHandler` wraps a route handler. When the handler fails, the wrapper logs one error record. It then either hands the error to `next` (headers already sent) or writes one JSON error response.

The model has five modules, one file each:

- `Wrappers` (`wrappers.dfy`): `Option`.
- `Js` (`js.dfy`): the JavaScript values the code handles. A plain object is an ordered list of own properties. Reading an absent property gives `undefined`. Assigning a property replaces it where it stands or appends it. `Truthy` and `Or` give the semantics of `if (x)` and `x || y`. The lemmas about `Put` and `Get` are what both `toJSON` methods rely on when they add `data` or `stack` to a fresh object.
- `Responses` (`responses.dfy`): class `ApiResponse`. Its constructor assigns the fields. `ToJSON` is a function of the fields, so it cannot change the instance and two calls give equal objects.
- `Errors` (`errors.dfy`): class `ApiError`. The environment check `process.env.NODE_ENV !== "production"` becomes the parameter `isProduction` of `ToJSON`. The trace that `Error.captureStackTrace` would capture becomes the opaque constructor parameter `capturedTrace`. `AsErrorObject` is how a `catch` block sees a thrown instance.
- `Handler` (`handler.dfy`): `asyncHandler`.
  - The constructor of class `AsyncHandler` is the call `asyncHandler(fn, options)`.
  - `Invoke` is the returned middleware. It takes the settled outcome of `fn(req, res, next)` as an argument.
  - The logger, the Express response and `next` are small recording classes: `Logger`, `Response`, `Next`.
  - `React` is the pure specification of the calls the middleware makes, in order. `Invoke` is proved to append exactly `React`'s records, forwards and writes to those three objects.

JavaScript's default parameters apply only to `undefined`. So an omitted `data` is passed to the `ApiResponse` constructor as `Undefined`. An omitted `message`, `errors` or `stack` is passed to the `ApiError` constructor as `None`.

`ApiError` sets `statusCode` but never `status`, while the wrapper reads `err.status || 500`. A thrown `ApiError` is therefore logged and answered with 500, whatever its `statusCode`. One might expect a thrown `ApiError(404, "Not found")` to be answered with 404. The code reads `err.status`, so it answers 500. The model keeps this behaviour of the code (`Handler.ApiErrorAnswers500`, `Handler.NotFoundScenario`).

One might expect a `data` property that is present but holds `undefined` to be serialised. The code (src/ApiResponse.js:25) omits any `data` that reads `undefined`, and `ApiResponse.ToJSON` does the same. Nothing in the model assigns fields after construction, so such a property never arises here.

## Model

| member | source | states |
|---|---|---|
| `Js.PutKeys` | src/ApiResponse.js:25-27 | Assigning to a key that the object already has keeps the key order. Assigning to a new key appends it last. |
| `Js.PutGet` | src/ApiError.js:36-38 | After `obj[k] = v`, reading `k` gives `v` and every other key reads as before. |
| `Js.GetAbsent` | src/asynchandler.js:22 | Reading a property the object does not have gives `undefined`. |
| `Responses.ApiResponse.constructor` | src/ApiResponse.js:8-16 | `statusCode` and `message` are stored as given. `success` holds iff `statusCode < 400`. `data` is stored iff the argument is neither omitted nor `null`, so falsy payloads such as `0`, `""` and `false` are kept. |
| `Responses.ApiResponse.ToJSON` | src/ApiResponse.js:18-30 | The keys are exactly `statusCode, message, success`, followed by `data` iff the instance has data. The keys are distinct. `statusCode` and `message` equal the fields. `success` equals `statusCode < 400`. `data` equals the stored payload. The result is a function of the fields, so the instance is unchanged. |
| `Responses.SerialisationExamples` | src/ApiResponse.js:8-30 | `(200, "OK", {id:1})` serialises to the four-key object with `data`. `(201, "Created")` serialises to the three-key object with no `data` key. |
| `Errors.ApiError.constructor` | src/ApiError.js:9-27 | `message` defaults to "Something went wrong" and `errors` defaults to `[]`. `success` is false. A non-empty supplied stack is kept verbatim. An empty or omitted one is replaced by the captured trace. |
| `Errors.ApiError.ToJSON` | src/ApiError.js:28-41 | The keys are exactly `statusCode, message, errors, success`, followed by `stack` iff not in production. The keys are distinct. `statusCode`, `message`, `errors` (same order) and `stack` equal the fields. `success` is `false`. |
| `Errors.ApiError.AsErrorObject` | src/ApiError.js:15-26 | A thrown instance carries its own message, stack and `statusCode`. It has no `status` property. |
| `Handler.ResolveStatus` | src/asynchandler.js:27 | The status is `err.status` when truthy and 500 otherwise, so a missing, `null` or `0` status gives 500. The status is always truthy. |
| `Handler.DefaultBody` | src/asynchandler.js:30-33 | The body has exactly the keys `status, message`. `status` is "error". `message` is the error's message, or "Internal Server Error" when that message is empty. |
| `Handler.LogMessage` | src/asynchandler.js:20 | The record text is `[` + method + `] `, then the original URL, then ` - ` + the error's message. |
| `Handler.LogMeta` | src/asynchandler.js:20-23 | The metadata has exactly the keys `stack, status`. `stack` is the error's stack and `status` is the resolved status. |
| `Handler.React` | src/asynchandler.js:16-37 | A completed handler causes no call at all. A failure causes exactly two calls. The first is one error record with the message and metadata above. The second is `next(err)` iff headers were sent, and otherwise exactly one write. The write's status equals the logged status. Its body is `formatError(err, req)` when a formatter is given, and the default body when none is. |
| `Handler.AsyncHandler.constructor` | src/asynchandler.js:12-14 | The logger is `options.logger` when given and the shared logger otherwise. The formatter is `options.formatError`. |
| `Handler.AsyncHandler.Invoke` | src/asynchandler.js:16-37 | The middleware appends to the chosen logger, to `next` and to the response exactly the records, forwards and writes `React` prescribes, and nothing else. Headers end up sent iff they were sent before or the handler failed. |
| `Handler.Logger.Error` | src/asynchandler.js:20-23 | `logger.error(message, meta)` appends one record. |
| `Handler.Next.Call` | src/asynchandler.js:25 | `next(err)` records exactly that error. |
| `Handler.Response.StatusJson` | src/asynchandler.js:35 | `res.status(s).json(b)` appends one write and commits the headers. |
| `Handler.ApiErrorAnswers500` | src/asynchandler.js:20-27 | For a thrown `ApiError`, the logged status is 500 and so is the status of any write, whatever the error's `statusCode`. |
| `Handler.NotFoundScenario` | src/asynchandler.js:16-37 | A thrown `ApiError(404, "Not found")` with default options produces one record with status 500. It produces one write with status 500 and body `{status: "error", message: "Not found"}`. |

## Left out

- src/logger.js is not part of this model. It is winston configuration plus a directory check at load time, both I/O and foreign-library calls. The logger appears only as a sink of `(message, meta)` records.
- winston-asynchandler.d.ts is not part of this model. It contains type declarations only.
- Real stack contents and `Error.captureStackTrace`: the captured trace is an opaque string parameter.
- Reading `process.env.NODE_ENV`: it is the parameter `isProduction`.
- `await`, promise scheduling, concurrent requests and the wrapped handler itself: `Invoke` receives the settled outcome. It also receives the response in the state the handler left it, including `headersSent`.
- How Express and `JSON.stringify` serialise a written body: not modelled. This includes calling `toJSON` on nested objects and dropping `undefined` members. A write is recorded as the status and body values passed to `res.status(...).json(...)`.
- Exceptions raised by `logger.error` or `formatError`, and thrown `null` or `undefined` (reading `err.message` then throws): the source does not handle these. `formatError` is a total function here.
- Thrown values whose `message` is not a string: not modelled, because `ErrorObject.message` is a string. For such a value the source logs the message's string form (`undefined` for a missing one), and the default body falls back to "Internal Server Error" when the message is falsy.
- JavaScript numbers are integers here. `NaN`, `-0` and fractional or non-numeric status codes are not modelled. `statusCode` is an `int` and `message` is a string, as the type declarations give them.
- Object identity: the `errors` array and the `data` payload are stored by reference in the source and as values here. Aliasing between them and the caller's objects is not captured.
- Assignments by callers to the public fields after construction: not modelled. `Valid` states what the constructors establish.
- Express's response object: only `headersSent` and the recorded writes are modelled; sending a body commits the headers, as Express does.
