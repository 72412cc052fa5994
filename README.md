# dd-swagger-tracer, modelled in Dafny

This project models the core logic of `dd-swagger-tracer`, a small Go repository with two jobs.

1. **Tracing.** It starts a Datadog APM tracer and wraps HTTP handlers in a middleware that opens one span per request. Start-up chooses the agent host: the configured host, else the EC2 instance-metadata IP, else `127.0.0.1`. It then builds the agent address `host:port` and the tracer's start options, including one global tag per well-formed `key:value` span tag. It probes the agent at `http://<host:port>/debug/vars` and starts the tracer only when the probe answers 200. Each request's span records the service name, the request URI, the type `web`, the HTTP method and URL, an optional propagated parent, and finally the status code captured by a wrapping response writer.
2. **Connection details from SSM.** The example configuration loader lists the SSM parameters under `<prefix>/<target>/`. It fills an OAuth2 client-credentials record and a base URL by matching name suffixes, and it prefixes the caller's scopes in place.

Everything external enters the model as an input value:

- the metadata lookup is an `Option<string>`;
- the agent probe is a function from URL to a status or a transport error;
- the SSM client is a function from query path to a list of parameters or an error;
- `url.Parse` is a validity predicate;
- `tracer.Extract` is the request's `propagated` field;
- the wrapped handler is a function from request to the list of status codes it writes and whether it then panics.

Files and modules:

- `wrappers.dfy` (`Wrappers`): Option, Result, Outcome.
- `text.dfy` (`Text`): the Go library string operations the core relies on: `strings.HasSuffix`, `strings.Split` on one character, and decimal formatting (`strconv.Itoa`, `%d`). Each comes with its inverse or a reference definition.
- `tracer_config.dfy` (`TracerConfig`): the `DDStartTracerConfig` class and its fluent setters.
- `datadog.dfy` (`Datadog`): `discover`, `configure`, `verifyConnection`, and a `Tracer` class. `Tracer` holds the package globals: the service name, and whether and with which options the tracer was started.
- `middleware.dfy` (`Middleware`): the span record, `Handler`, `responseWriterWithStatus` and the request lifecycle `ServeHTTP`.
- `ssm_config.dfy` (`SsmConfig`): `Config`, `New`, `WithSsm`, `GetConnectionDetails`. The parameter loop is also a function `Run`, which the method is proved against. When the loop completes, `Run` equals `Summary`: each field gets the last value of its kind and the scope prefixes stack. `OrderIndependent` proves the outcome does not depend on order when each suffix occurs at most once.

Three behaviours of the code worth knowing:

- The response writer keeps the **last** status passed to `WriteHeader`, and every call is forwarded (tracing/datadog.go:209-212).
- Suffix classification is order-dependent when a suffix repeats: the later parameter wins. Even with unique suffixes, when a bad base URL aborts the call, the caller's scopes depend on whether the scope prefix came before it (`AbortedScopesDependOnOrder`).
- The metadata lookup fails only on transport or read errors. pkg/ecs/metadata.go returns the body for any HTTP status. Here the lookup is an input, so whatever it yields is used.

## Model

| member | source | states |
|---|---|---|
| Text.HasSuffixIff | example/config/config.go:87 | `HasSuffix(s, t)` holds exactly when `s` is some text followed by `t` |
| Text.SplitCount | tracing/datadog.go:62 | splitting on `:` gives one more part than there are colons |
| Text.JoinSplit | tracing/datadog.go:62 | gluing the parts of a split back together with the separator gives the original string |
| Text.SplitPair | tracing/datadog.go:62-64 | `k:v` with colon-free `k` and `v` splits into exactly `[k, v]` |
| Text.TwoPieces | tracing/datadog.go:62-63 | the split has two parts iff the tag has exactly one colon; the tag is then `part0 ++ ":" ++ part1`, and neither part holds a colon |
| Text.DecimalRoundTrip | tracing/datadog.go:185 | the decimal text of any integer, negative ones included, parses back to that integer |
| Text.DecimalHasNoColon | tracing/datadog.go:49 | the decimal port text holds no `:`, so the port is what follows the last colon of the address |
| TracerConfig.DDStartTracerConfig.constructor | tracing/config.go:4-10 | the zero value: empty host and service name, port 0, debug off, no tags |
| TracerConfig.DDStartTracerConfig.WithHost | tracing/config.go:12-15 | sets `Host` and returns the same receiver; the other four fields are unchanged |
| TracerConfig.DDStartTracerConfig.WithPort | tracing/config.go:17-20 | sets `Port` and returns the same receiver; the other four fields are unchanged |
| TracerConfig.DDStartTracerConfig.WithDebugMode | tracing/config.go:22-25 | sets `DebugMode` and returns the same receiver; the other four fields are unchanged |
| TracerConfig.DDStartTracerConfig.WithServiceName | tracing/config.go:27-30 | sets `ServiceName` and returns the same receiver; the other four fields are unchanged |
| TracerConfig.DDStartTracerConfig.WithTags | tracing/config.go:32-35 | sets `SpanTags` and returns the same receiver; the other four fields are unchanged |
| TracerConfig.ConfigureChained | tracing/config.go:12-35 | a chain of all five setters ends on the original object, which holds every value set |
| Datadog.Discover | tracing/datadog.go:73-83 | an explicit host is returned unchanged; the result is empty only when no host is configured and the lookup returned an empty body |
| Datadog.DiscoverCases | tracing/datadog.go:73-83 | the three cases: explicit host; else the metadata IP on success; else `"127.0.0.1"` |
| Datadog.DiscoverIgnoresLookup | tracing/datadog.go:74-75 | with a non-empty host, the lookup outcome has no influence |
| Datadog.AgentAddr | tracing/datadog.go:47-49 | the address is the host, then `:`, then the port's decimal text, which is everything after the last colon and parses back to the port |
| Datadog.AgentAddrExample | tracing/datadog_test.go:73-83 | host `localhost`, port 8126 gives `"localhost:8126"` |
| Datadog.GlobalTagsMatchWellFormed | tracing/datadog.go:59-66 | one global tag per tag with exactly one colon, in input order; each tag's key and value are colon-free and glue back into that tag |
| Datadog.GlobalTagsCount | tracing/datadog.go:61-66 | malformed tags are dropped: there are never more options than tags, and exactly as many iff every tag is well formed |
| Datadog.TagOptionOfPair | tracing/datadog.go:62-64 | the tag `k:v` (colon-free) yields exactly `WithGlobalTag(k, v)` |
| Datadog.ConfigureExample | tracing/datadog_test.go:73-90 | two well-formed tags such as `env:test` and `app:skeleton` give their two global tags in order, and both count as well formed, so `Configure` yields four options |
| Datadog.Configure | tracing/datadog.go:44-69 | the agent address is `discover(host) ++ ":" ++ decimal(port)`; the options are the address, then the debug flag, then the global tags, so 2 + the number of well-formed tags in all |
| Datadog.VerifyConnection | tracing/datadog.go:130-153 | ok iff the GET of `http://<hostPort>/debug/vars` returns status 200; every error names that URL, and a status error carries a status other than 200 |
| Datadog.VerifyConnectionCases | tracing/datadog.go:142-150 | a transport error gives `Unreachable`; a status other than 200 gives `UnexpectedStatus` with that code |
| Datadog.Tracer.constructor | tracing/datadog.go:24 | before any `Start`, the service name is `"default_service"` and no tracer is running |
| Datadog.Tracer.Start | tracing/datadog.go:102-122 | a non-empty service name replaces the global one even when the probe then fails; the tracer starts with the `configure` options iff the probe succeeds; otherwise the probe's error is returned and nothing is started |
| Datadog.Tracer.Stop | tracing/datadog.go:124-126 | the tracer stops; the service name is kept |
| Middleware.Handler | tracing/datadog.go:156-160 | the built middleware holds the service name current at build time, and the wrapped handler |
| Middleware.ResponseWriterWithStatus.constructor | tracing/datadog.go:203-207 | a new writer wraps the given writer and reports 200 |
| Middleware.ResponseWriterWithStatus.WriteHeader | tracing/datadog.go:209-212 | records `code` and forwards that code exactly once to the wrapped writer |
| Middleware.RequestSpanShape | tracing/datadog.go:158-178 | the new span has the captured service name, resource = request URI, type `web`, the method and URL tags, a parent iff extraction succeeded, and is not yet finished |
| Middleware.ServeHTTP | tracing/datadog.go:162-192 | on a normal return and on a panic alike, the span carries `http.status_code` = decimal of the last status written (200 if none) and is finished exactly once; the wrapped writer receives every status code; a panic is passed on |
| Middleware.ServiceNameReadOnce | tracing/datadog.go:158-160 | a middleware built before a later `Start` keeps the old service name for every request; each span depends only on its own request |
| Middleware.StatusTagExamples | tracing/datadog_test.go:146-157 | a handler writing 500 is tagged `"500"`; one writing nothing is tagged `"200"` |
| SsmConfig.Config.New | example/config/config.go:29-42 | an empty prefix becomes `"/" ++ Product ++ "/" ++ EnvironmentName ++ "/" ++ EnvironmentNumber`; a non-empty one is kept; no client is set |
| SsmConfig.Config.WithSsm | example/config/config.go:44-46 | sets the SSM client and nothing else |
| SsmConfig.Config.GetConnectionDetails | example/config/config.go:54-112 | with no client, a store error or an empty answer, the matching error, with scopes untouched; otherwise the result of the parameter loop `Run` on the parameters stored at `prefix ++ "/" ++ target ++ "/"`; on success the credentials share the caller's scopes array, on an abort by a bad base URL that array keeps the prefixes applied so far |
| SsmConfig.ParameterLoop | example/config/config.go:80-110 | the loop over the parameters ends exactly as `Run` from the caller's scopes says, and leaves the caller's array holding the scopes `Run` reached, on an abort as well |
| SsmConfig.PrefixScopes | example/config/config.go:97-99 | every scope, in place, gets the prefix put in front |
| SsmConfig.PrefixAll | example/config/config.go:97-99 | same number of scopes, each one `prefix ++ scope` |
| SsmConfig.SuffixesExclusive | example/config/config.go:85-107 | no name ends in two recognised suffixes, so the switch order does not matter: each kind means "ends in its suffix" |
| SsmConfig.DocumentedNames | example/config/config.go:48-53 | each documented name `<prefix>/<target>/...` is classified as its field |
| SsmConfig.RunCompletes | example/config/config.go:81-110 | the loop completes iff every base URL parses; it then gives each credential the last value of its suffix (unchanged if none), prefixes every scope with all scope-prefix values stacked (latest outermost), and sets the last base URL (nil if none) |
| SsmConfig.RunAborts | example/config/config.go:101-105 | an abort happens at the first base URL that does not parse, after every earlier parameter has taken effect |
| SsmConfig.UnrecognisedChangesNothing | example/config/config.go:85-107 | a parameter matching no suffix can be removed from any position without changing the outcome |
| SsmConfig.ScopeCountUnchanged | example/config/config.go:96-99 | the number of scopes never changes, whether the loop completes or aborts |
| SsmConfig.ScopePrefixTwice | example/config/config.go:96-99 | two scope-prefix parameters apply both prefixes, the later one outermost |
| SsmConfig.AbortedScopesDependOnOrder | example/config/config.go:96-105 | when a base URL fails to parse, a scope prefix placed before it has already rewritten the caller's scopes, and one placed after it has not |
| SsmConfig.OrderIndependent | example/config/config.go:83-108 | when each recognised suffix occurs at most once, any reordering of the parameters gives the same success/failure, the same result on success and the same rejected base URL on failure |

## Left out

- `WrapAWSSession` (tracing/datadog.go:40-42): a pure pass-through to the dd-trace AWS wrapper.
- `loadEnv`, `StartFromEnv` and the `env.Parse` call in `New`, with its error return: environment parsing and struct-tag defaults belong to the `caarlos0/env` library. `New` takes the environment's values as parameters.
- pkg/ecs/metadata.go is not part of this model: the lookup's outcome is an input of `Discover`.
- `client.Get` and the 1-second timeouts are not modelled; the probe's outcome for each URL is an input.
- The dd-trace library is not modelled: `tracer.Start`/`Stop`, `Extract`, `StartSpanFromContext`, `SetTag`, `Finish` and the option constructors become plain records. A span is built by applying the options in order. The span attached to the request's context, which the wrapped handler can read, is not modelled.
- The AWS SSM call and `url.Parse` are inputs: a store function and a validity predicate. A parameter with a nil name or value pointer is not modelled.
- `logrus` logging, example/client.go (an I/O-only `main`) and concurrency between requests. The middleware itself shares no mutable state between requests.
- The wrapped handler is observed only through its `WriteHeader` calls and whether it panics after them. Body writes, the panic value and any recovery by the server are not modelled.
- `Port` and status codes are Go `int` (64-bit). Here they are unbounded integers, and formatting is exact for every value.
- `WithTags` stores the caller's slice, which Go shares. Here `SpanTags` is a value, so later edits to that slice through another reference are not reflected.
