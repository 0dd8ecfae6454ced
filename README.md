# imqueue dd-trace integration — a Dafny model

`@imqueue/dd-trace` connects the `@imqueue/rpc` framework to Datadog's
dd-trace. This project models its decision logic and the in-place updates it
makes:

- the service-side `beforeCall` hook: choosing the parent of the `imq.response`
  span (the caller's carrier, or an open `redis.command` span), moving that redis
  span under the caller's span, and opening the response span;
- the client-side `beforeCall` hook: opening `imq.request` under the active
  span, writing its carrier into `req.metadata`, attaching and activating it;
- the `afterCall` hooks, the `toJSON` that keeps `span` out of the envelope,
  and `patch`/`unpatch`, which install and remove the hook pair in the
  framework's default options;
- manual tracing (`trace`/`traceEnd` over the process-wide `traces` table), the
  parent fallback `scope.active() || last truthy _spans entry`, and the
  `traced` decorator, which closes its `method.call` span exactly once however
  the method ends;
- the self-trace filter: `toSkip` with its agent-host pattern, `fixTraces`,
  which rewrites already-instrumented `dns`, `http`/`https` and `net` methods
  while keeping their `__original`/`__unwrap` chain, and the routing wrappers
  that send the tracer's own traffic to the untraced function.

The tracer is abstract. A span is a class (`Tracer.Span`) with a constant name
and id. Its trace id, parent id, tags and `finished` count can be changed. The
`_spans` table is a sequence of `Span?`, with `null` for a falsy entry.
dd-trace's `extract`/`inject`, the span ids it draws, and whether `finish()` or
`activate()` throws are all parameters. Library functions are values of the
datatype `SelfTrace.Fn`, which carries the shimmer properties `__wrapped`,
`__original` and `__unwrap`. Objects whose methods are replaced are instances
of `SelfTrace.JsObject`, holding a property map.

Modules: `Wrappers` (Option, Result), `Tracer`, `Envelope` (the request and the
parts shared by both hook pairs), `Hooks` (patch/unpatch), `Server`, `Client`,
`ManualTracing`, `Traced`, `SelfTrace` (`src/fixes/index.ts`), `Dns`, `Net`,
`Http` (`src/http.ts`) and `Fixes` (`fixDDTraces` and what the installed
wrappers do when called).

Three points where the code behaves differently from what a quick reading
suggests, and the model follows the code:

- `getRedisSpan`'s backward loop (src/server.ts:101-108) has no `break`, so it
  returns the `redis.command` span under the lowest key, not the most recent
  one (`Server.RedisSpan`).
- The service hook has no active-span fallback (src/server.ts:63-65): its
  parent is the extracted carrier or the redis span, nothing else.
- Both `patch` functions test `config.client === false` (src/server.ts:133),
  the service one included.

## Model

| member | source | states |
|---|---|---|
| Tracer.LiveKeys | index.ts:74 | `Object.keys(spans).filter(key => spans[key])`: ascending positions, exactly the truthy entries |
| Tracer.LastLive | index.ts:75 | `spans[keys[keys.length - 1]]` is null exactly when every entry is falsy |
| Tracer.LastLiveIsLatest | index.ts:74-75 | the entry under the last truthy key is the truthy entry followed only by falsy ones |
| Tracer.StartSpan | index.ts:77-80 | a fresh open span; `tags` only when given; with `childOf`, the parent's trace id and its span id as parent id; otherwise a root whose trace id is its own id |
| Envelope.Request.Serialized | src/server.ts:54-58 | after `toJSON` is installed the copy has no `span` and every other property unchanged; reading it changes nothing |
| Envelope.CallTags | src/server.ts:84-91 | exactly five tags: kind (`client` iff a client call), `service.method`, service, caller, `imq` |
| Envelope.AfterCall | src/server.ts:119-126 | the attached span is finished once with ids and tags kept; no span, no effect (the same code as src/client.ts:93-100) |
| Hooks.Patch | src/server.ts:132-147 | `client === false` changes nothing; otherwise both hooks are flagged and assigned over exactly the two hook keys |
| Hooks.Unpatch | src/server.ts:148-160 | each hook key is deleted iff it holds a flagged hook; all else stays |
| Hooks.PatchThenUnpatch | src/client.ts:106-134 | when `config.client` is not `false`, patch then unpatch removes both hook keys and restores every other option |
| Server.RedisIndexFrom | src/server.ts:101-108 | the first `redis.command` position at or after `lo`, or none |
| Server.RedisSpan | src/server.ts:95-111 | null iff no entry is a redis span; otherwise the redis span with no redis span before it |
| Server.RedisIndexSkipsFalsy | src/server.ts:97 | falsy entries never change which redis span is found |
| Server.GetRedisSpan | src/server.ts:95-111 | the backward loop over the truthy keys returns `RedisSpan`, the earliest redis span |
| Server.CandidateParent | src/server.ts:60-65 | extracted context when a carrier was sent, else the redis span, else nothing |
| Server.ReparentsIffCarrier | src/server.ts:63-76 | the rewrite guard holds iff a redis span exists and a carrier extracts to a context with a span id; never without a carrier |
| Server.FinalParent | src/server.ts:78-81 | the redis span after a rewrite whose `finish()` succeeded, otherwise the candidate parent |
| Server.BeforeCall | src/server.ts:50-93 | installs `toJSON`; rewrites the redis span's parent and trace ids exactly under the guard and finishes it unless `finish` throws; the new `imq.response` span has the call tags and is a child of the final parent or a root |
| Server.BeforeCallSplicesRedis | src/server.ts:68-92 | for a sent carrier and an open redis span, the chain caller → redis → response, all in the caller's trace |
| Client.OutgoingMetadata | src/client.ts:71-72 | existing metadata keeps its other fields; missing metadata is created empty; `clientSpan` is always the new carrier |
| Client.BeforeCall | src/client.ts:50-85 | `toJSON`; `imq.request` with the call tags, a child of the active span only (a root without one); metadata carries `inject` of the new span; the span is attached; it becomes active unless `activate` throws; the hook always resolves |
| Client.CarrierNamesClientSpan | src/client.ts:71-74 | given dd-trace's `extract(inject(c)) == c`, the carrier the client writes extracts to the client span's context, and the service hook's candidate parent is that context whatever redis span is open |
| ManualTracing.FallbackParent | index.ts:72-75 | the active span if any, else the last truthy `_spans` entry; null iff neither exists |
| ManualTracing.ChildOf | index.ts:78 | `childOf` is passed exactly when a parent was found |
| ManualTracing.StartedAsWritten | index.ts:66 | the guard `traces[name]` on a plain object: true for started names and for every inherited `Object.prototype` name |
| ManualTracing.InheritedNameRejected | index.ts:46-70 | `trace("toString")` on an empty table is refused as already started |
| ManualTracing.Registry.constructor | index.ts:46 | the table starts empty |
| ManualTracing.Registry.Trace | index.ts:65-81 | a started name: the TypeError message and the table unchanged; otherwise a new open span under `name`, with the given tags and the fallback parent, and every other entry kept (guard on started names only; see Findings) |
| ManualTracing.Registry.TraceEnd | index.ts:89-94 | a started span is finished once, with its ids and tags kept, and removed; an unknown name changes nothing (guard on started names only; see Findings) |
| ManualTracing.NoDoubleStartNoDoubleEnd | index.ts:65-94 | the second `trace` of a name returns the "already started" error; after two `traceEnd` calls the span is finished exactly once and the table is as before the first `trace` |
| Traced.MergeOptions | index.ts:129-131 | defaults to kind `server` with no tags; given keys override |
| Traced.TracedTags | index.ts:135-140 | kind, `Class.method` and `imq` unless overridden; `package.name` iff the package name is non-empty; every user tag wins; no other keys |
| Traced.HandleError | index.ts:175-180 | sets the error tag, finishes the span once, rethrows the same error |
| Traced.Settle | index.ts:149-163 | for a return, throw, resolve or reject: finished exactly once, error-tagged iff failed, the outcome passed through unchanged |
| Traced.TracedCall | index.ts:133-164 | a `method.call` span with the traced tags under the fallback parent, closed once; a missing method yields `undefined` |
| SelfTrace.AgentHostname | src/fixes/index.ts:16-17 | an unset variable reads as `"undefined"` |
| SelfTrace.Unescaped | src/fixes/index.ts:21-23 | a hostname read as a pattern, every `.` a wildcard |
| SelfTrace.AgentPattern | src/fixes/index.ts:21-23 | same length as the hostname; the first `.` literal, every later `.` a wildcard |
| SelfTrace.AgentHostIsSkipped | src/fixes/index.ts:74-76 | the agent hostname itself is skipped |
| SelfTrace.HostInTextIsSkipped | src/fixes/index.ts:74-76 | any text containing the agent hostname is skipped |
| SelfTrace.UnsetAgentHostSkipsUndefined | src/fixes/index.ts:16-17 | with the variable unset, `undefined` renders as a skipped host |
| SelfTrace.EmptyAgentHostSkipsAll | src/fixes/index.ts:21-23 | an empty hostname makes every host skipped |
| SelfTrace.LaterDotIsWildcard | src/fixes/index.ts:22 | a later dot of the hostname matches any single-code-unit character that is not a line terminator |
| SelfTrace.Origin | src/fixes/index.ts:64 | `method.__original || method` |
| SelfTrace.Replacement | src/fixes/index.ts:66-69 | the patcher's function with `__wrapped`, `__original` = chain bottom, and the old `__unwrap`; the bottom is unchanged |
| SelfTrace.FixProps | src/fixes/index.ts:57-70 | no property added or removed; unlisted and unwrapped ones untouched; wrapped ones keep their bottom and `__unwrap` |
| SelfTrace.FixPropsReplaces | src/fixes/index.ts:57-69 | a wrapped method listed once ends as exactly its replacement |
| SelfTrace.FixTwiceKeepsOriginal | src/fixes/index.ts:64-68 | on one object, a second rewrite leaves each `__original` where the first put it |
| SelfTrace.ApplyTargets | src/fixes/index.ts:54-71 | the outer loop leaves objects that are not targets unchanged |
| SelfTrace.ApplyTargetsKeepsKeys | src/fixes/index.ts:54-71 | over any target list, no object gains or loses a property |
| SelfTrace.ApplyTargetsLeavesUnlisted | src/fixes/index.ts:57-62 | over any target list, a property no target lists for its object, or one that is not wrapped, keeps its value |
| SelfTrace.ApplyTargetsKeepsOrigin | src/fixes/index.ts:64-69 | over any target list, a wrapped property stays wrapped and keeps its chain bottom and `__unwrap` |
| SelfTrace.ApplyTargetsSetsOriginal | src/fixes/index.ts:64-68 | over any target list, a listed wrapped property ends with its chain bottom as `__original` |
| SelfTrace.ApplyTwiceKeepsOriginal | src/fixes/index.ts:64-68 | running `fixTraces` twice over the same list leaves every listed wrapped method's `__original` where the first run put it |
| SelfTrace.ApplyTargetsLocal | src/fixes/index.ts:54-71 | a target object's outcome depends only on the target objects' starting properties |
| SelfTrace.FixTarget | src/fixes/index.ts:55-70 | the inner loop leaves the object with `FixProps` of its old properties |
| SelfTrace.FixTraces | src/fixes/index.ts:46-72 | no effect when self traces are enabled; otherwise each target object ends as `ApplyTargets` of the old properties |
| Dns.Targets | src/fixes/dns.ts:24-30 | the dns module with four names; the resolver prototype with two, only when it exists |
| Dns.TargetsAreAllRouted | src/fixes/dns.ts:24-30 | every targeted name is one the patcher wraps |
| Dns.RouteAsWritten | src/fixes/dns.ts:37-43 | `original` iff `toSkip(args[0])`, else the traced method; same args; `this` is the patch descriptor |
| Dns.Route | src/fixes/dns.ts:37-43 | the same choice of function and arguments on the wrapper's own `this` (corrected receiver) |
| Dns.ResolverCallLosesInstance | src/fixes/dns.ts:27-43 | as written, a routed resolver method runs on the descriptor `{object: Resolver.prototype, methodNames}`, not on its resolver; the corrected wrapper differs only in the receiver |
| Dns.Patcher | src/fixes/dns.ts:46-61 | the four names get the routing wrapper; any other name gets the method itself |
| Net.Targets | src/fixes/net.ts:25-28 | `net.get` and `net.request` |
| Net.Host | src/fixes/net.ts:36-41 | `port.host` for a plain-object first argument, else the second argument |
| Net.Route | src/fixes/net.ts:35-48 | `original` iff the host is truthy and skipped; same args; the wrapper's own `this` |
| Net.MissingHostIsTraced | src/fixes/net.ts:43 | a missing host is always traced, even when `"undefined"` would be skipped |
| Net.Patcher | src/fixes/net.ts:51-58 | the routing wrapper for every name |
| Http.Targets | src/http.ts:28-29 | `get` and `request` of `http`, then `https` |
| Http.Url | src/http.ts:55-60 | a string first argument; else truthy `hostname` or `host` of the options; `undefined`/`null` options throw, and only they |
| Http.Route | src/http.ts:54-67 | the TypeError passes through; otherwise `original` iff the url is skipped; same args |
| Http.FixTraces | src/http.ts:39-74 | no effect unless self traces are disabled; otherwise the `ApplyTargets` rewrite over `http` and `https` |
| Http.SkippedUrlIsUntraced | src/http.ts:62-63 | a skipped url goes to `original` with the same args |
| Http.UndefinedUrlSkippedWhenAgentUnset | src/http.ts:26-37 | with the agent host unset, a call with no url is not traced |
| Fixes.FixAll | src/fixes/index.ts:82-86 | the dns, http and net rewrites composed in order; objects outside all three untouched |
| Fixes.StepComposes | src/fixes/index.ts:82-86 | one `fixTraces` call inside the sequence acts on the running snapshot |
| Fixes.FixDDTraces | src/fixes/index.ts:82-86 | dns, then http, then net: the objects end as `FixAll` of their old properties, or unchanged when self traces are enabled |
| Fixes.ReplacedDnsMethodRoutes | src/fixes/dns.ts:37-57 | a rewritten dns method sends skipped hosts to the chain bottom and others to the method it replaced, with unchanged arguments (on the corrected receiver) |
| Fixes.ReplacedNetMethodRoutes | src/fixes/net.ts:35-57 | the same for net, for a truthy skipped host |
| Fixes.ReplacedHttpMethodRoutes | src/http.ts:54-71 | the same for http, with the TypeError of missing options |
| Fixes.RefixKeepsBypassTarget | src/fixes/index.ts:64 | re-fixing a fixed dns method keeps the same bypass target |

## Left out

- `src/redis.ts`: it names and opens `redis.command` spans through dd-trace's redis helpers, which are outside the model. The model takes such spans as entries of `_spans`.
- `src/fixes/http.ts` is not part of this model. `Fixes.FixDDTraces` takes the http step's targets and patcher as parameters. `src/http.ts`, a standalone version of the same step, is modelled in `Http`.
- dd-trace internals are parameters or abstract: the carrier wire format of `inject`/`extract`, span id generation, span storage, the keys of `_spans`, and `scope().activate`. The round trip `extract(inject(c)) == c` is assumed only as a requirement of `Client.CarrierNamesClientSpan`.
- Tracer.StartSpan: states what dd-trace is relied on to do (parent ids and trace inheritance); dd-trace's own code is not modelled.
- Client.BeforeCall: activation is one step. The event loop, promise scheduling and concurrent requests are not modelled.
- Traced.Settle: a thenable is taken as already settled, and the delay before `finish()` runs is not modelled. Results whose `then` is truthy but not callable, and thenables whose `then` does not return a promise, are not modelled. For these, `result.then(...)` or `.catch` throws a TypeError inside the `try`. The span is then error-tagged and finished, and the caller gets that TypeError. A thenable that later settles finishes the span a second time.
- Traced.TracedCall: a thrown error is a string; any other thrown value is not modelled.
- Server.BeforeCall: a `finish()` that throws leaves `finished` unchanged. What dd-trace does to a span whose `finish()` throws is not modelled.
- Environment and process input are inputs of `SelfTrace.Config`: the parsing of `DISABLE_DD_SELF_TRACES` (`+(x || 0) || 0`, including `NaN`) and of `DD_TRACE_AGENT_HOSTNAME`. The `package.json` read (index.ts:113-115) is the `pkgName` parameter.
- The `tracer.init` override and plugin registration (index.ts:26-36) install code at run time and are not modelled. The behaviour of the real `dns`, `http` and `net` calls is also left out.
- SelfTrace.ToSkip: only the patterns this code builds are modelled: literal characters and the `.` wildcard. Other regular-expression metacharacters in the hostname are read as literal characters.
- SelfTrace.CharMatches: strings are sequences of Unicode scalar values, while JavaScript strings and a regular expression without the `u` flag work on UTF-16 code units. A wildcard facing a character outside the Basic Multilingual Plane, which is two code units in JavaScript, is not modelled. The model lets one wildcard match such a character, where JavaScript's `.` matches only half of it.
- Client.OutgoingMetadata: `req.metadata` is a value. In the source an existing metadata object is kept and `clientSpan` is written into it in place (src/client.ts:71-72), so any other holder of that object also sees the new carrier. That sharing is not modelled.
- SelfTrace.JsString: numbers are integers. Floating-point formatting, `NaN` and symbols are not modelled.
- SelfTrace.Fn: function objects are values, so identity is lost. When the dns patcher returns `method` itself, the source sets the shimmer properties on that same object. The model produces an updated copy instead. No dns target reaches that branch.
- Net.Host and Http.Url: arguments are strings, integers, plain objects with optional `host`/`hostname`, callbacks, `null` and `undefined`. Getters, other property values and prototype lookups are not modelled.
- `traced` with a `symbol` method name: `String(methodName)` is modelled for string names only.

## Findings

| source | as written | input that shows it | evidently intended | confidence | as-written member | corrected member |
|---|---|---|---|---|---|---|
| src/fixes/dns.ts:37-43 | both branches of the wrapper call `apply(target, args)`, where `target` is the patch descriptor `{object, methodNames}` | with self traces disabled, `new dns.Resolver().resolve("example.com", cb)` runs `resolve` with the descriptor as `this` instead of the resolver instance | call the chosen function on the wrapper's own `this` | not executed | Dns.RouteAsWritten | Dns.Route |
| index.ts:46-70 | `traces` is a plain object `{}`, so `traces[name]` also finds inherited `Object.prototype` members | `trace("toString")` with no trace started throws "Trace with name toString has been already started!"; `traceEnd("toString")` then calls `finish` on a function that lacks it | only names started by `trace` count as started | not executed | ManualTracing.StartedAsWritten | ManualTracing.Registry.Trace |
