/** The extract-on-construct decorator: when a service is built for a target,
    an extractor is asked once for the authority every request through that
    service must carry; each request then has its URI authority overwritten
    and its stale `Host` header removed. */
module OverwriteAuthority {
  import opened Http

  /** `Layer<E>`: the extractor that every wrapped constructor gets a copy of. */
  datatype Layer<X> = Layer(extractor: X) {

    /** `Layer::layer`: wraps the constructor `inner`. */
    function Apply<M>(inner: M): (m: MakeSvc<X, M>)
      ensures m.extractor == extractor
      ensures m.inner == inner
    {
      MakeSvc(extractor, inner)
    }
  }

  /** `layer(extractor)`. */
  function NewLayer<X>(extractor: X): (l: Layer<X>)
    ensures l.extractor == extractor
  {
    Layer(extractor)
  }

  /** `MakeSvc<E, M>`: a service constructor. `extract` stands for
      `ExtractAuthority::extract`, `innerCall` for the inner constructor's
      `call` and `innerPollReady` for its `poll_ready`. */
  datatype MakeSvc<X, M> = MakeSvc(extractor: X, inner: M) {

    /** The wrapper adds no readiness condition and no error of its own. */
    function PollReady<E>(innerPollReady: M -> Poll<(), E>): (r: Poll<(), E>)
      ensures r == innerPollReady(inner)
    {
      innerPollReady(inner)
    }

    /** Asks the extractor about `t` once, starts the inner construction for
        the same target, and keeps both in a new future. */
    method Call<T, S, E>(extract: (X, T) -> Option<Authority>,
                         innerCall: (M, T) -> FutureState<S, E>, t: T)
      returns (f: MakeSvcFut<S, E>)
      ensures fresh(f)
      ensures f.authority == extract(extractor, t)
      ensures f.inner == innerCall(inner, t)
    {
      var authority := extract(extractor, t);
      var pending := innerCall(inner, t);
      f := new MakeSvcFut(authority, pending);
    }
  }

  /** `MakeSvcFut<F>`: the pending construction. The captured authority is
      never written after construction: `poll` clones it into the service. */
  class MakeSvcFut<S, E> {
    const authority: Option<Authority>
    var inner: FutureState<S, E>

    constructor (authority: Option<Authority>, inner: FutureState<S, E>)
      ensures this.authority == authority && this.inner == inner
    {
      this.authority := authority;
      this.inner := inner;
    }

    /** Not ready and failure are passed through; on readiness the inner
        service is wrapped around the captured authority. Nothing in the
        future changes. */
    method Poll() returns (p: Poll<Service<S>, E>)
      ensures inner.Pending? ==> p == NotReady
      ensures inner.Failed? ==> p == Err(inner.error)
      ensures inner.Resolved? ==> p == Ready(Service(authority, inner.value))
    {
      match inner
      case Pending =>
        p := NotReady;
      case Failed(e) =>
        p := Err(e);
      case Resolved(s) =>
        p := Ready(Service(authority, s));
    }
  }

  /** Because the authority is cloned, polling a resolved future again gives
      a service with the same authority as the first time. */
  method PollTwiceKeepsAuthority<S, E>(f: MakeSvcFut<S, E>)
    returns (first: Poll<Service<S>, E>, second: Poll<Service<S>, E>)
    requires f.inner.Resolved?
    ensures first == second == Ready(Service(f.authority, f.inner.value))
  {
    first := f.Poll();
    second := f.Poll();
  }

  /** The request `Service::call` hands to its inner service, for the
      captured `authority`. */
  function Overwrite<B>(setAuthority: SetAuthority, authority: Option<Authority>,
                        req: Request<B>): (r: Request<B>)
    ensures authority.None? ==> r == req
    ensures authority.Some? ==> r.uri == setAuthority(req.uri, authority.value)
    ensures authority.Some? ==> Host !in r.headers
    ensures r.headers.Keys == if authority.Some? then req.headers.Keys - {Host} else req.headers.Keys
    ensures forall n :: n in r.headers ==> r.headers[n] == req.headers[n]
    ensures r.version == req.version && r.body == req.body
  {
    match authority
    case None => req
    case Some(a) => req.(uri := setAuthority(req.uri, a), headers := RemoveHost(req.headers))
  }

  /** `Service<S>`: the inner service and the authority captured when it was
      built. */
  datatype Service<S> = Service(authority: Option<Authority>, inner: S) {

    /** Readiness is exactly the inner service's. */
    function PollReady<E>(innerPollReady: S -> Poll<(), E>): (r: Poll<(), E>)
      ensures r == innerPollReady(inner)
    {
      innerPollReady(inner)
    }

    /** Rewrites the request it owns in place, for every HTTP version, and
        returns what the inner service's `call` returns for it. */
    method Call<B, F>(setAuthority: SetAuthority, innerCall: (S, Request<B>) -> F,
                      req: Request<B>)
      returns (fut: F)
      ensures fut == innerCall(inner, Overwrite(setAuthority, authority, req))
    {
      var r := req;
      if authority.Some? {
        r := r.(uri := setAuthority(r.uri, authority.value));
        r := r.(headers := RemoveHost(r.headers));
      }
      fut := innerCall(inner, r);
    }

    /** Sends `reqs`, in order, through `Call`: each call is given the one
        authority captured when the service was built, and the inner service
        receives exactly `Forwarded` of the requests. */
    method CallAll<B, F>(setAuthority: SetAuthority, innerCall: (S, Request<B>) -> F,
                         reqs: seq<Request<B>>)
      returns (futs: seq<F>)
      ensures |futs| == |reqs|
      ensures forall i :: 0 <= i < |reqs| ==>
        futs[i] == innerCall(inner, Overwrite(setAuthority, authority, reqs[i]))
      ensures forall i :: 0 <= i < |reqs| ==>
        futs[i] == innerCall(inner, Forwarded(this, setAuthority, reqs)[i])
    {
      futs := [];
      var k := 0;
      while k < |reqs|
        invariant 0 <= k <= |reqs| && |futs| == k
        invariant forall i :: 0 <= i < k ==>
          futs[i] == innerCall(inner, Overwrite(setAuthority, authority, reqs[i]))
      {
        var fut := Call(setAuthority, innerCall, reqs[k]);
        futs := futs + [fut];
        k := k + 1;
      }
      ForwardedUsesCapturedAuthority(this, setAuthority, reqs);
    }
  }

  /** The requests the inner service receives when `reqs` are sent, in order,
      through `svc`. */
  ghost function Forwarded<S, B>(svc: Service<S>, setAuthority: SetAuthority,
                                 reqs: seq<Request<B>>): (out: seq<Request<B>>)
    ensures |out| == |reqs|
  {
    if reqs == [] then []
    else [Overwrite(setAuthority, svc.authority, reqs[0])] + Forwarded(svc, setAuthority, reqs[1..])
  }

  /** However many requests go through one service, each is rewritten with
      the one authority captured when the service was built. */
  lemma {:induction false} ForwardedUsesCapturedAuthority<S, B>(
    svc: Service<S>, setAuthority: SetAuthority, reqs: seq<Request<B>>)
    ensures forall i :: 0 <= i < |reqs| ==>
      Forwarded(svc, setAuthority, reqs)[i] == Overwrite(setAuthority, svc.authority, reqs[i])
  {
    if reqs != [] {
      ForwardedUsesCapturedAuthority(svc, setAuthority, reqs[1..]);
      forall i | 0 <= i < |reqs|
        ensures Forwarded(svc, setAuthority, reqs)[i] == Overwrite(setAuthority, svc.authority, reqs[i])
      {
        if i > 0 {
          assert reqs[1..][i - 1] == reqs[i];
        }
      }
    }
  }

  /** A service built without an authority passes every request through
      exactly as received. */
  lemma ForwardedWithoutAuthorityIsIdentity<S, B>(
    svc: Service<S>, setAuthority: SetAuthority, reqs: seq<Request<B>>)
    requires svc.authority.None?
    ensures Forwarded(svc, setAuthority, reqs) == reqs
  {
    ForwardedUsesCapturedAuthority(svc, setAuthority, reqs);
  }

  /** Overwriting twice with the same authority gives the same request as
      overwriting once, provided `set_authority` itself settles after one
      application on this URI. */
  lemma OverwriteIdempotent<B>(setAuthority: SetAuthority, authority: Option<Authority>,
                               req: Request<B>)
    requires authority.Some? ==>
      setAuthority(setAuthority(req.uri, authority.value), authority.value)
        == setAuthority(req.uri, authority.value)
    ensures Overwrite(setAuthority, authority, Overwrite(setAuthority, authority, req))
         == Overwrite(setAuthority, authority, req)
  {
    if authority.Some? {
      RemoveHostIdempotent(req.headers);
    }
  }
}
