# Request-authority rewriting in the linkerd2 proxy's HTTP stack

A Dafny model of the two decorators in the proxy's HTTP stack that stamp a
destination authority (`host[:port]`) onto every request sent through a
service.

- **overwrite_authority** (`overwrite_authority.dfy`, module
  `OverwriteAuthority`). When a service is built for a target, an extractor
  is asked once for an optional authority. If there is one, every request
  through the service has its URI authority overwritten with it, for every
  HTTP version. The request also loses its `Host` header, so that the
  transport derives `Host` from the URI again (section 5.4 of RFC 7230).
- **normalize_uri** (`normalize_uri.dfy`, module `NormalizeUri`). When a
  service is built, the target itself answers whether its HTTP/1 requests
  must be sent in absolute form (section 5.3.2 of RFC 7230), and with which
  authority. If it names one, every request through the service has that
  authority set on its URI. A request reaching such a service must not be
  HTTP/2. Headers are left alone.

Both decorators have three stages:

1. A layer wraps an inner service constructor.
2. The constructor asks its capability for an `Option<Authority>` once per
   target. It then starts the inner construction and keeps both in a
   future. Polling the future passes "not ready" and errors through. On
   readiness, polling yields the wrapping service around the stored
   authority.
3. The service rewrites each request it is given and hands it to the inner
   service.

`http.dfy` (module `Http`) holds the shared values:

- requests: a version, a URI (an optional authority plus path and query),
  a header map and a body;
- the futures `Poll` type;
- a three-state view of an inner future: pending, resolved or failed;
- header removal.

`authority_rewrites.dfy` relates the two per-request rewrites.

How the source is represented:

- **Requests are values.** `call` takes the request by value: the request
  is moved in, changed in place, and moved on to the inner service. So the
  only place its changes can be seen is the request the inner service
  receives. `Service.Call` and `NormalizeUri.Call` apply the same steps to
  a local copy. Each of them returns exactly what the inner service's
  `call` returns for the rewritten request.
- **The futures are classes.** `MakeSvcFut` keeps its authority in a
  `const`, because `poll` clones it. `MakeFuture` keeps it in a `var`,
  because `poll` takes it (`Option::take`). So a second poll after
  readiness gives an overwrite service with the same authority, but a
  normalize service with none. `PollTwiceKeepsAuthority` and
  `PollTwiceLosesAuthority` state this difference.
- **Outside code becomes parameters.** The following become total function
  parameters:
  - the URI primitive `h1::set_authority`;
  - the capabilities `ExtractAuthority::extract` and
    `ShouldNormalizeUri::should_normalize_uri`;
  - the inner constructor's `make`, `call` and `poll_ready`;
  - the inner service's `call` and `poll_ready`.

  Nothing is assumed about `set_authority`. The two idempotence lemmas take
  its settling after one application as a hypothesis.
- **Authority and header values are opaque types** with equality only.
  Header names are a subset type with no upper-case ASCII letter, the
  `http` crate's stored spelling, with `Host == "host"`.

Three points where the model records what the code does:

- **The normalize future does not keep its authority.** `MakeFuture::poll`
  moves the captured authority out with `take()`. The service it yields
  holds the authority; the future is left with `None`.
- **`set_authority` is not assumed idempotent.** It is a parameter. The
  idempotence lemmas take its settling after one application as a
  hypothesis.
- **The HTTP/2 check is a precondition.** For HTTP/2 requests the code has
  only a `debug_assert!`. The model makes the check a precondition of
  `NormalizeUri.NormalizeUri.Call` and of `Normalize`. It says nothing about
  what release builds do.

## Model

| member | source | states |
|---|---|---|
| Http.RemoveHost | linkerd/proxy/http/src/overwrite_authority.rs:119 | removing `HOST` leaves no `host` entry, keeps every other name and keeps every other name's values exactly; a map with no empty value list stays so |
| Http.RemoveHostIdempotent | linkerd/proxy/http/src/overwrite_authority.rs:119 | removing `host` twice gives the same header map as removing it once |
| OverwriteAuthority.NewLayer | linkerd/proxy/http/src/overwrite_authority.rs:40-45 | `layer(extractor)` is a layer holding that extractor |
| OverwriteAuthority.Layer.Apply | linkerd/proxy/http/src/overwrite_authority.rs:53-58 | `Layer::layer` builds a `MakeSvc` with the layer's extractor and the given inner constructor |
| OverwriteAuthority.MakeSvc.PollReady | linkerd/proxy/http/src/overwrite_authority.rs:72-74 | the constructor's readiness is exactly the inner constructor's, errors included |
| OverwriteAuthority.MakeSvc.Call | linkerd/proxy/http/src/overwrite_authority.rs:76-80 | a fresh future holds `extract(extractor, t)` and the inner constructor's future for the same `t` |
| OverwriteAuthority.MakeSvcFut.constructor | linkerd/proxy/http/src/overwrite_authority.rs:79 | the future stores exactly the authority and inner future it is given |
| OverwriteAuthority.MakeSvcFut.Poll | linkerd/proxy/http/src/overwrite_authority.rs:90-97 | pending gives not-ready; failure gives that error unchanged; readiness gives a `Service` with the stored authority around the inner service; the future is not changed |
| OverwriteAuthority.PollTwiceKeepsAuthority | linkerd/proxy/http/src/overwrite_authority.rs:90-97 | two polls of a resolved future give the same service, carrying the stored authority both times (clone, not take) |
| OverwriteAuthority.Overwrite | linkerd/proxy/http/src/overwrite_authority.rs:114-122 | with no authority the request is unchanged; with `Some(a)` the URI is `set_authority(uri, a)`, no `host` header remains, every other header, the version and the body are unchanged, whatever the version |
| OverwriteAuthority.Service.PollReady | linkerd/proxy/http/src/overwrite_authority.rs:110-112 | the service's readiness is exactly the inner service's |
| OverwriteAuthority.Service.Call | linkerd/proxy/http/src/overwrite_authority.rs:114-124 | the result is the inner service's `call` on the overwritten request |
| OverwriteAuthority.Service.CallAll | linkerd/proxy/http/src/overwrite_authority.rs:114-124 | N successive calls through one service each return the inner `call` on the request overwritten with the one captured authority, that is on `Forwarded` of the requests |
| OverwriteAuthority.Forwarded | linkerd/proxy/http/src/overwrite_authority.rs:114-124 | a sequence of calls forwards exactly one request per request sent |
| OverwriteAuthority.ForwardedUsesCapturedAuthority | linkerd/proxy/http/src/overwrite_authority.rs:114-124 | every one of N requests through one service is rewritten with the one authority captured at construction |
| OverwriteAuthority.ForwardedWithoutAuthorityIsIdentity | linkerd/proxy/http/src/overwrite_authority.rs:114-123 | a service without an authority forwards every request exactly as received |
| OverwriteAuthority.OverwriteIdempotent | linkerd/proxy/http/src/overwrite_authority.rs:115-121 | overwriting twice equals overwriting once, given that `set_authority` settles on the URI |
| NormalizeUri.Layer | linkerd/proxy/http/src/normalize_uri.rs:28-30 | the layer wraps `inner` in a `MakeNormalizeUri` and holds nothing else |
| NormalizeUri.MakeNormalizeUri.Make | linkerd/proxy/http/src/normalize_uri.rs:41-47 | the made service's inner is `inner.make(target)` and its authority is `target.should_normalize_uri()` |
| NormalizeUri.MakeNormalizeUri.PollReady | linkerd/proxy/http/src/normalize_uri.rs:59-61 | the constructor's readiness is exactly the inner constructor's |
| NormalizeUri.MakeNormalizeUri.Call | linkerd/proxy/http/src/normalize_uri.rs:63-71 | a fresh future holds `target.should_normalize_uri()` and the inner constructor's future for the same target |
| NormalizeUri.MakeFuture.constructor | linkerd/proxy/http/src/normalize_uri.rs:67-70 | the future stores exactly the authority and inner future it is given |
| NormalizeUri.MakeFuture.Poll | linkerd/proxy/http/src/normalize_uri.rs:80-87 | pending and failure pass through and leave the stored authority alone; readiness gives a `NormalizeUri` with the stored authority and leaves `None` behind |
| NormalizeUri.PollTwiceLosesAuthority | linkerd/proxy/http/src/normalize_uri.rs:80-87 | after readiness a second poll gives a service with no authority (take, not clone) |
| NormalizeUri.Normalize | linkerd/proxy/http/src/normalize_uri.rs:104-111 | on a non-HTTP/2 request (when an authority is present): no authority leaves it unchanged; `Some(a)` makes the URI `set_authority(uri, a)`; headers (`host` included), version and body are unchanged |
| NormalizeUri.NormalizeUri.PollReady | linkerd/proxy/http/src/normalize_uri.rs:100-102 | the service's readiness is exactly the inner service's |
| NormalizeUri.NormalizeUri.Call | linkerd/proxy/http/src/normalize_uri.rs:104-114 | requires a non-HTTP/2 request when an authority is present; the result is the inner service's `call` on the normalized request |
| NormalizeUri.NormalizeUri.CallAll | linkerd/proxy/http/src/normalize_uri.rs:104-114 | N successive calls through one service (none HTTP/2 when an authority is held) each return the inner `call` on the request normalized with the one captured authority, that is on `Forwarded` of the requests |
| NormalizeUri.Forwarded | linkerd/proxy/http/src/normalize_uri.rs:104-114 | a sequence of calls forwards exactly one request per request sent |
| NormalizeUri.ForwardedUsesCapturedAuthority | linkerd/proxy/http/src/normalize_uri.rs:104-114 | every one of N requests through one service is rewritten with the one captured authority |
| NormalizeUri.MadeServiceUsesTargetAuthority | linkerd/proxy/http/src/normalize_uri.rs:41-47 | through a service made for `target`, every request is rewritten with what `target.should_normalize_uri()` answered at construction |
| NormalizeUri.NormalizeIdempotent | linkerd/proxy/http/src/normalize_uri.rs:105-111 | a normalized request stays admissible, and normalizing twice equals once, given that `set_authority` settles on the URI |
| AuthorityRewrites.OverwriteIsNormalizeWithoutHost | linkerd/proxy/http/src/overwrite_authority.rs:115-121 | on HTTP/1 requests the overwrite rewrite is the normalize rewrite followed by removing `host` |
| AuthorityRewrites.HostHeaderScenario | linkerd/proxy/http/src/overwrite_authority.rs:117-121 | for `/path?x=1` with a `Host` header: both rewrites set the same URI; normalize keeps `Host`, overwrite drops it |
| AuthorityRewrites.Http2Scenario | linkerd/proxy/http/src/normalize_uri.rs:106-109 | an HTTP/2 request is outside the normalize service's precondition once an authority is present, while overwrite rewrites it anyway |

## Left out

- `h1::set_authority` is not part of this model. It is a parameter, and
  nothing is assumed about it: not idempotence, and not that it keeps the
  path.
- Advancing the inner future is left out: the task wake-ups and the runtime
  that moves it from pending to resolved. The future is a snapshot of what
  its poll reports, and the model does not change it.
- The effect of `poll_ready` and `call` on the inner constructor's and the
  inner service's own state is left out: they are foreign code, and their
  results are parameters.
- `tracing` calls are left out: they have no behavioural effect.
- The value `HeaderMap::remove` returns is left out: it is only traced.
- The unused `ForceAbsForm` trait is left out.
- Release builds are left out: there the HTTP/2 `debug_assert!` is compiled
  out. The model keeps only the precondition.
- Parsing and validation of `Authority` and header values are left out.
- Header-name case folding is left out. The `HeaderName` type admits only
  names with no upper-case ASCII letter, the form the `http` crate stores.
- Header order across different names is left out. `http::HeaderMap`
  iterates in insertion order; the model's `map` has no order. Section
  3.2.2 of RFC 7230 makes that order insignificant, and nothing here
  depends on it.
- A completed inner future is taken to report the same resolved value if
  it is polled again. In Rust the value is moved out, and polling a
  futures 0.1 future after it has completed is outside its contract.
  `PollTwiceKeepsAuthority` and `PollTwiceLosesAuthority` rely on this
  snapshot for the inner service; what they show about the authority does
  not depend on it.
- Trait dispatch is left out (`ExtractAuthority`, `ShouldNormalizeUri`,
  `Make`, `layer::mk`, tower's `Layer` and `Service`). The model uses
  plain functions instead.
- "The capability is called exactly once per construction" is shown
  through structure, not counted: the services hold no capability, and the
  per-request lemmas tie every request to the single stored value.
- `Send`, `Sync` and `'static` bounds, and `Clone` and `Debug` derivations,
  are left out.
