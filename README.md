# Treblle Express middleware, modelled in Dafny

This project models the Express middleware of treblle.js (`src/libs/express.ts`).
`treblle(options)` resolves the API key and project ID: the option value is used when it is set, and the
environment variables `TREBLLE_API_KEY` / `TREBLLE_PROJECT_ID` when it is not. It then returns a
middleware that handles every request one of three ways:

- **Bypass, missing credentials.** Either credential is falsy (absent, or the empty string): call `next` and do nothing else.
- **Bypass, excluded method.** The request method appears in the upper-cased `excludeMethod` list: call `next` and do nothing else.
- **Capture.** Start a timer, replace `res.send` with a wrapper that forwards the body to the
  original `send` and keeps a string snapshot of it (`responseBody`, initially `"{}"`), listen for
  `finish`, then call `next`. On `finish` the listener builds one record: the merged request
  body and query, the parsed snapshot, both header sets, the URL, the user agent, the size and the
  status code. All four of the two bodies and the two header sets pass through `maskSensitiveData`.
  The record goes to `generatePayload`, and its result to `sendPayload`.
  The exclude check uses the request method as it is on entry (line 53), and the complete URL is
  fixed on entry (line 64). The record's method, body, query, headers, IP and protocol, and the
  response's status code and headers, are read when `finish` fires (lines 85-109).

Files and modules:

- `values.dfy`, module `Values`: JavaScript values (`Value`), `Option`/`Result`, truthiness,
  `??`, property lookup and ASCII `toUpperCase`.
- `gate.dfy`, module `Gate`: options, environment, credential resolution and warnings
  (`Setup`), and the per-request decision `Decide` (`Bypass(MissingCredentials)`,
  `Bypass(ExcludedMethod)` or `Capture(config)`).
- `payload.dfy`, module `Payload`: the request facts, the snapshot rule (`Snapshot`, `Replay`),
  the body/query merge, the complete URL, the record literal handed to `generatePayload`
  (`Assemble`, keeping the source's key `reponse`) and the steps a middleware call takes (`Steps`).
- `capture.dfy`, module `Capture`: the `IncomingRequest` and `Response` objects, the per-request `CaptureContext`
  class (field `responseBody`, ghost event trace, methods `Send` and `Finish`) and the middleware
  call `Handle`.

The functions defined in files outside this model are fields of `Payload.Externals`:
`JSON.stringify` (returns `None` where it would return undefined), `JSON.parse` (returns `None` where it
would throw) and `maskSensitiveData`.
Nothing is assumed about them beyond their types, except where a lemma's `requires` states an assumption.
The elapsed time from `getRequestDuration` is a parameter of `Finish`.
The environment variables are a parameter of `Setup`.
The request method is the field `verb`, because `method` is a Dafny keyword.

The `finish` listener calls `JSON.parse(responseBody)` with no `try` (src/libs/express.ts:89).
A non-empty text body such as `"hello"` makes it throw, so `Finish` returns
`Failure(ResponseBodyNotJson(...))` and dispatches nothing (`Payload.TextBodyAbortsFinish`).

## Model

| member | source | states |
|---|---|---|
| `Values.UpperChar` | src/libs/express.ts:50 | an ASCII lower-case letter becomes the upper-case letter 32 code points below it, so the result is never a lower-case letter; any other character is left unchanged |
| `Values.ToUpper` | src/libs/express.ts:50 | `toUpperCase` keeps the length and upper-cases each character in place |
| `Values.ToUpperIsUpper` | src/libs/express.ts:49-50 | an upper-cased method name holds no lower-case letter, and upper-casing it again changes nothing |
| `Gate.Setup` | src/libs/express.ts:17-30 | each credential is the option's value whenever the option is set (even to `""`), the environment's otherwise; a warning is collected for exactly each falsy credential, API key first |
| `Gate.Debug` | src/libs/express.ts:45 | debug mode is on exactly when the options exist and set `debug` to true |
| `Gate.MaskingKeys` | src/libs/express.ts:46 | the masking keys are the configured list, or empty when the options or the list are absent |
| `Gate.ExcludedMethods` | src/libs/express.ts:49-50 | the exclude list is the configured list with every entry upper-cased, position by position; no configured list gives the empty list |
| `Gate.Decide` | src/libs/express.ts:40-55 | bypass for missing credentials exactly when either credential is falsy; bypass for an excluded method exactly when both are present and the request method, as is, is in the upper-cased list; otherwise capture with the resolved credentials, `debug ?? false` and `maskingKeys ?? []` |
| `Gate.WarnedExactlyWhenDisabled` | src/libs/express.ts:17-42 | the middleware warned at creation if and only if it bypasses every request for missing credentials |
| `Gate.EmptyOptionShadowsEnv` | src/libs/express.ts:17-42 | an option credential set to `""` is not replaced by the environment value, and every request is bypassed |
| `Gate.UnsetOptionsFallBackToEnv` | src/libs/express.ts:17-55 | with neither credential option set, a request is bypassed exactly when an environment credential is falsy or its method is excluded |
| `Gate.LowerCaseMethodNeverExcluded` | src/libs/express.ts:49-53 | a request method containing a lower-case letter never matches the exclude list |
| `Gate.ConfiguredCaseIgnored` | src/libs/express.ts:49-55 | a configured method in any case excludes requests whose method is its upper-case form |
| `Gate.NoExcludeListCapturesAll` | src/libs/express.ts:49-55 | with both credentials present and no exclude list, every request is captured |
| `Payload.Snapshot` | src/libs/express.ts:74-78 | a falsy body is stored as `"{}"`, a truthy string as is, and any other truthy body as its `JSON.stringify` result, which may be undefined |
| `Payload.Replay` | src/libs/express.ts:61-78 | after several `send` calls only the last body decides the snapshot; with none the snapshot is unchanged |
| `Payload.SnapshotNeverEmpty` | src/libs/express.ts:74-78 | the snapshot is never empty for a string body (an empty string becomes `"{}"`), nor for any other body whose serialisation is non-empty |
| `Payload.ParsedText` | src/libs/express.ts:89 | the listener parses the snapshot, or `"{}"` when the snapshot is undefined |
| `Payload.ParsedSnapshotIsLastBody` | src/libs/express.ts:61-89 | for any sequence of `send` calls, the listener parses the empty object when there was no call, the last body was falsy or its serialisation undefined; the parse of the last body's text when it was a string; and the last body itself when it was any other value whose serialisation parses back |
| `Payload.Entries` | src/libs/express.ts:85-86 | a null or undefined body or query is the empty map, any other is its own entries |
| `Payload.MergeBody` | src/libs/express.ts:85-88 | the merged body has the keys of body and query; query values win on shared keys, body values stay on the others |
| `Payload.MergeWithAbsent` | src/libs/express.ts:85-88 | an absent body or query is the empty map, so the merge is the other side unchanged |
| `Payload.CompleteUrl` | src/libs/express.ts:64 | the URL is the protocol, then `://`, then the hostname, then the original URL, with the matching length |
| `Payload.HeaderOrEmpty` | src/libs/express.ts:102-108 | a header lookup defaults to `""` when the header is absent or null, and is the header's value otherwise; used for the user agent (line 102) and the size (line 108) |
| `Payload.Assemble` | src/libs/express.ts:84-112 | fails exactly when `JSON.parse` rejects the snapshot; otherwise the record carries the credentials, IP, URL, protocol, method, the masked merged body, masked headers and masked parsed response body, user agent, size, status code and load time, with `errors` empty |
| `Payload.TextBodyAbortsFinish` | src/libs/express.ts:74-89 | a non-empty text body that is not JSON is stored unchanged and makes the finish step fail |
| `Payload.Steps` | src/libs/express.ts:40-119 | every middleware call ends with exactly one call of `next`; timer, `send` replacement and `finish` listener appear exactly on the capture path |
| `Capture.IncomingRequest.constructor` | src/libs/express.ts:35-53 | a request object holds the request facts; the middleware reads them on entry (the method for the exclude check, and the complete URL) and again when the response finishes (the method, body, query, headers, IP and protocol for the record) |
| `Capture.Response.constructor` | src/libs/express.ts:106-109 | a response holds the status code and the lower-case header map that the listener reads at finish time |
| `Capture.CaptureContext.constructor` | src/libs/express.ts:58-64 | a new capture context has the snapshot `"{}"`, an empty trace and the complete URL of the request as it is on entry |
| `Capture.CaptureContext.Send` | src/libs/express.ts:70-81 | forwards the body to the original `send` exactly once, before storing the snapshot; the snapshot follows the three-way rule; returns the response itself; keeps the snapshot equal to the replay of all forwarded bodies |
| `Capture.CaptureContext.Finish` | src/libs/express.ts:84-116 | returns `Assemble` of the current snapshot, the complete URL fixed on entry, and the request facts and the response's status code and headers as they are at finish time; records one dispatch on success and none on failure; leaves the snapshot and forwarded bodies unchanged |
| `Capture.Handle` | src/libs/express.ts:35-120 | a request gets no capture context exactly when it is bypassed, decided on its method on entry; its steps are `Steps` of the decision; a captured request gets a fresh context with the resolved config, snapshot `"{}"` and no events |

## Left out

- `maskSensitiveData`, `generatePayload`, `getRequestDuration` and `sendPayload` live in files that are not part of this model. Masking and `JSON.stringify`/`JSON.parse` are function parameters. The record passed to `generatePayload` is the model's output. Delivery through `sendPayload` is a `Dispatched` event in the ghost trace.
- `process.hrtime` and the load time: clock reads with floating-point results, so the load time is a parameter of `Finish`.
- `console.warn`: the two warnings are returned as `Setup`'s `warnings` list. Nothing is printed.
- `process.env` reads: the environment values are passed in as `Gate.Env`.
- Express event registration and the reassignment of `res.send`: `Send` and `Finish` are explicit method calls on the context. Registration and reassignment appear only as `Steps`. The original `send` is opaque and recorded only as a `Forwarded` event, so its own effects are not modelled. Those effects include headers, Express's re-entrant call of `send` from `res.json`, and its return value, which the wrapper discards.
- The `debug` flag is resolved into `CaptureConfig` but only used by `sendPayload`, which is not modelled.
- `Values.ToUpper`: models `toUpperCase` on ASCII letters only; full Unicode case mapping (e.g. `ß` to `SS`) is not represented.
- `Payload.Request`: the body and the query are plain objects or absent. A string or array body, whose spread would add index keys, is not represented.
- `Values.Value`: numbers are reals, so NaN (falsy in JavaScript) and the infinities are not represented.
- A second `finish` event: the source has no guard, and the model allows `Finish` to run again. Express emits `finish` once per response.
- `Capture.CaptureContext.Send`: the forward to the original `send` is assumed to return normally. In the source a forward that throws, such as the "headers already sent" error of a second `send`, skips lines 74-80. The snapshot then keeps its old value and the exception reaches the caller. So the model's last-write-wins rule is about the last call, not the last call that returned.
- `Payload.Externals`: `JSON.stringify` never throws here, because a `Value` has no cycles and no BigInt.
- `Capture.Response`: header names are lower case by convention only. `res.get` is case-insensitive, and the model's exact lookup of `content-length` relies on that convention.
