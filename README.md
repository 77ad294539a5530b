# jooby: `Deferred` and `MediaTypeProvider`, modelled in Dafny

This project models two classes of the jooby web framework and proves what they do.

- `Deferred` is the deferred result used for asynchronous request
  processing. The transport attaches a `Handler` to it and runs its optional
  `Initializer`. Application code later produces a value on a thread of its
  choice, and `set`, `resolve`, `reject` or the block adapters
  (`resolve(block)`, `run(block)`) route that value to the handler.
- `MediaTypeProvider` finds the media type of a file extension, a path or
  a file. It reads the configuration entries `mime.<ext>` and falls back to
  `application/octet-stream` when an extension is not configured.

File `deferred.dfy` (module `Async`) models `Deferred` as a class:
- its `initializer`, `executor` and `callerThread` are fixed at construction;
- `handler` and its own `Result` state (a `Deferred` *is* a `Result`) are mutable;
- two ghost logs record it: every `handler.handle(result, exception)` call
  (`deliveries`) and every run of the initializer (`initializerRuns`).

Each settling method is stated against a pure specification function (`Resolution`,
`Rejection`, `Setting`, `BlockSettlement`), and those functions carry its properties.
The functions say exactly which pair `(result, exception)` is delivered and
what the deferred's own `Result` state becomes.

File `media_type_provider.dfy` (module `MediaTypes`) models the configuration
as a flat string map. `forExtension`, `forPath` and `forFile` are functions,
and `types()` is a method with a loop over the `mime` section. The model
proves that:
- `forPath` looks up exactly the extension `ExtensionOf(path)` that `forExtension` would;
- the substring in `forPath` is never out of bounds;
- `types()` agrees with `forExtension` on every extension.

Behaviour of the code a reader might not expect, which the model follows:
- No guard stops a second `resolve`/`reject`. Each call delivers again.
- A second `handler(...)` call simply replaces the handler.
- `reject(null)` delivers `(null, null)`.
- A path without a `'.'` is looked up whole (key `"mime." + path`); it does not go
  straight to the default.
- A block that *returns* a Throwable is resolved with it as payload, not rejected.
  Only `set` treats a Throwable value as a rejection.

Other behaviour of the code that the model reproduces:
- The two `Initializer0` constructors wrap the given reference in a lambda. The
  null check therefore sees the lambda and never fails, so a null `Initializer0` is
  accepted at construction. It surfaces as a NullPointerException when
  `handler(...)` runs the initializer (`Deferred.Handler` returns `npe`).

Inputs the model takes as parameters:
- The name of the current thread.
- The outcome of each application of a `CheckedFunction0` block (`Producer`: returns a value or throws).
- The absolute path of a `File`.
- `MediaType.valueOf`, an arbitrary function held by the provider.

Java's non-null checks (`requireNonNull` on the config, path, extension,
file, handler and `Initializer`) are the non-null parameter types of the
model. Every `resolve`/`reject` path dereferences the handler, so those methods
require that a handler is attached.

## Model

| member | source | states |
|---|---|---|
| `Async.Result.Set` | jooby/src/main/java/org/jooby/Deferred.java:258 | `super.set(v)` replaces the payload with `v` and keeps the status |
| `Async.Result.Clone` | jooby/src/main/java/org/jooby/Deferred.java:259 | the clone has the same status and payload as the deferred's Result state |
| `Async.Resolution` | jooby/src/main/java/org/jooby/Deferred.java:250-263 | resolve never delivers an exception. A result is delivered iff the value is non-null. A Result value is delivered unchanged and the deferred's state is left alone, and so is the state for null. Any other value becomes the deferred's payload under its prior status, and exactly that state is delivered |
| `Async.Rejection` | jooby/src/main/java/org/jooby/Deferred.java:271-273 | reject delivers no result and the cause exactly as given (possibly null), leaving the state alone |
| `Async.Setting` | jooby/src/main/java/org/jooby/Deferred.java:216-223 | a Throwable is exactly a rejection with it; any other value is exactly a resolution; an exception is delivered iff the value is a Throwable |
| `Async.BlockSettlement` | jooby/src/main/java/org/jooby/Deferred.java:301-307 | a returned value is exactly `resolve(value)`, a thrown cause exactly `reject(cause)`. The delivery never carries both a result and an exception, and carries an exception iff the block threw |
| `Async.SettleAgain` | jooby/src/main/java/org/jooby/Deferred.java:216-273 | with no guard against a second settlement, setting the same value again leaves the same state and repeats the same delivery |
| `Async.ReturnedThrowableResolves` | jooby/src/main/java/org/jooby/Deferred.java:301-307 | a block that returns a Throwable resolves with it as payload under the prior status; one that throws it rejects exactly as `set` of it would |
| `Async.Deferred.WithExecutor` | jooby/src/main/java/org/jooby/Deferred.java:198-202 | stores the executor name as given and the (non-null) initializer, and captures the caller thread's name; no handler, empty Result state, empty logs |
| `Async.Deferred.WithInitializer` | jooby/src/main/java/org/jooby/Deferred.java:188-190 | as above with no executor |
| `Async.Deferred.WithExecutor0` | jooby/src/main/java/org/jooby/Deferred.java:170-172 | stores the Initializer0 wrapped in an adapter, which accepts a null Initializer0; executor and caller thread as given |
| `Async.Deferred.WithInitializer0` | jooby/src/main/java/org/jooby/Deferred.java:179-181 | as above with no executor |
| `Async.Deferred.constructor` | jooby/src/main/java/org/jooby/Deferred.java:207-208 | initializer, executor, caller thread and handler are all absent |
| `Async.Deferred.Executor` | jooby/src/main/java/org/jooby/Deferred.java:231-233 | present exactly when the constructor got an executor name, and then that name |
| `Async.Deferred.CallerThread` | jooby/src/main/java/org/jooby/Deferred.java:240-242 | the name captured at construction (absent for the no-argument constructor); it is a `const`, so no later call changes it |
| `Async.Deferred.Handle` | jooby/src/main/java/org/jooby/Deferred.java:150-152 | one `handle(result, exception)` call appends exactly that pair, addressed to the attached handler, to the delivery log |
| `Async.Deferred.Set` | jooby/src/main/java/org/jooby/Deferred.java:216-223 | new state and exactly one new delivery as `Setting` says; returns this deferred; handler and initializer log untouched |
| `Async.Deferred.Resolve` | jooby/src/main/java/org/jooby/Deferred.java:250-263 | new state and exactly one new delivery `(result, null)` as `Resolution` says; requires an attached handler |
| `Async.Deferred.Reject` | jooby/src/main/java/org/jooby/Deferred.java:271-273 | exactly one new delivery `(null, cause)`; the state is unchanged; requires an attached handler |
| `Async.Deferred.Run` | jooby/src/main/java/org/jooby/Deferred.java:285-289 | the unit of work is bound to this deferred and this block (an identity; its result is not fixed here) |
| `Async.Deferred.ResolveBlock` | jooby/src/main/java/org/jooby/Deferred.java:301-307 | new state and exactly one new delivery as `BlockSettlement` says, so never both a resolution and a rejection |
| `Async.Execute` | jooby/src/main/java/org/jooby/Deferred.java:286-288 | each run applies the block afresh; given that application's outcome, the run has exactly the effect of `resolve(block)` on its deferred |
| `Async.Deferred.Handler` | jooby/src/main/java/org/jooby/Deferred.java:317-322 | stores the handler. It logs one run of the initializer with `(req, this)` iff an initializer is present. It signals a NullPointerException iff the initializer adapts a null Initializer0. It makes no delivery of its own: without an initializer, or when it fails, state and deliveries are unchanged; otherwise the delivery log only grows, by deliveries to the new handler made by the initializer |
| `MediaTypes.LastIndexOf` | jooby/src/main/java/org/jooby/MediaTypeProvider.java:100 | the index is -1 or a position holding the character, and no later position holds it; so `idx + 1` lies between 0 and the length of the path |
| `MediaTypes.TextAfterLastDot` | jooby/src/main/java/org/jooby/MediaTypeProvider.java:100-101 | for the index `lastIndexOf('.')` gives, `idx + 1` lies between 0 and the length of the path; nothing after it is a '.'; it is -1 iff the path has no '.' |
| `MediaTypes.ExtensionOf` | jooby/src/main/java/org/jooby/MediaTypeProvider.java:100-101 | the extension is a dot-free suffix of the path. It is the whole path iff the path has no '.', otherwise it is preceded by a '.'. A path ending in '.' gives the empty extension |
| `MediaTypes.ExtensionAfterLastDot` | jooby/src/main/java/org/jooby/MediaTypeProvider.java:100-101 | for any prefix, the extension of `prefix + "." + ext` with a dot-free `ext` is `ext` |
| `MediaTypes.Mime` | jooby/src/main/java/org/jooby/MediaTypeProvider.java:70 | the `mime` section holds `ext` iff the configuration holds `"mime." + ext`, with the same string |
| `MediaTypes.MediaTypeProvider.ForExtension` | jooby/src/main/java/org/jooby/MediaTypeProvider.java:115-122 | `valueOf` of the string configured under `"mime." + ext` when that key is present; octet-stream otherwise |
| `MediaTypes.MediaTypeProvider.ForPath` | jooby/src/main/java/org/jooby/MediaTypeProvider.java:97-106 | `valueOf` of the string configured under `"mime." + ExtensionOf(path)` when that key is present, octet-stream otherwise, for every path; the out-of-bounds fallback is proved dead |
| `MediaTypes.MediaTypeProvider.ForFile` | jooby/src/main/java/org/jooby/MediaTypeProvider.java:85-88 | the same lookup on the extension of the file's absolute path |
| `MediaTypes.ForPathIsForExtension` | jooby/src/main/java/org/jooby/MediaTypeProvider.java:97-122 | `forPath(p) == forExtension(ExtensionOf(p))` and `forFile(f) == forPath(absolutePath(f))` for every provider and path |
| `MediaTypes.MediaTypeProvider.Types` | jooby/src/main/java/org/jooby/MediaTypeProvider.java:69-76 | the keys are exactly the extensions `ext` for which `"mime." + ext` is configured, each mapped to `valueOf` of its string. Every key maps to what `forExtension` returns, and every extension outside the map gets octet-stream |

## Left out

- Threads: `Thread.currentThread()` is a constructor parameter. Cross-thread visibility and executor resolution are not modelled; the executor is only a name.
- Handler and Initializer bodies are opaque. An initializer run is recorded, but what it does (typically scheduling work that later settles the deferred) is not. An initializer that throws is not modelled, except for the null Initializer0 case.
- `Async.Deferred.Handler`: an initializer that settles the deferred synchronously is admitted only as unspecified deliveries to the new handler and an unspecified Result state. An initializer that re-arms the deferred with another handler is not modelled.
- `Async.Deferred.ResolveBlock`: a handler that throws inside `resolve(block.apply())` would be caught and followed by `reject(x)`, a second delivery. This is not modelled because handlers are assumed not to throw.
- Calling `resolve`/`reject` before a handler is attached raises a NullPointerException in the code. The model makes it a precondition instead. The code sets the payload before that dereference, and the model does not capture that partial update.
- `Result` is not part of this model. It is reduced to a status and a payload, and its headers are dropped. `Result.set` is taken to replace only the payload, `clone` to copy both, and `new Result()` to have no status and a null payload.
- `MediaType.valueOf` parsing, including the exception it raises on a malformed string, is not modelled; it is an arbitrary function.
- Typesafe Config semantics are not modelled: keys are flat strings, so `mime.tar.gz` is one key rather than a path.
- `MediaTypes.MediaTypeProvider.Types`: `getConfig("mime")` (MediaTypeProvider.java:70) raises `ConfigException.Missing` when the configuration has no `mime` section at all; the model returns the empty map there.
- `MediaTypes.MediaTypeProvider.ForExtension`: a key `"mime." + ext` that is not a valid Typesafe Config path raises `ConfigException.BadPath` in the source, which is not caught. The empty extension gives the key `"mime."`, and an extension with an empty segment (`"a..b"`) is another such case. The model returns octet-stream (or the configured string) there instead.
- `MediaTypes.MediaTypeProvider.ForPath`: a path ending in '.' has the empty extension, so `forPath("a.")` raises `ConfigException.BadPath` in the source; the model returns octet-stream. The same holds for `MediaTypes.MediaTypeProvider.ForFile`.
- `java.io.File` and absolute-path resolution: `forFile` takes the absolute path as a string.
- The null checks of `requireNonNull` are non-null parameter types; the NullPointerException path itself is not modelled.
- The reflection-based `ClientType` of the pac4j module is not part of this model.
