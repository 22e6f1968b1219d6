/** The normalize-on-construct decorator: when a service is built for a
    target, the target is asked once whether its HTTP/1 requests must be put
    in absolute form (section 5.3.2 of RFC 7230) and with which authority;
    each request through that service then has that authority set on its
    URI. Headers are left alone. */
module NormalizeUri {
  import opened Http

  /** `layer()` applied to `inner`: the layer holds nothing of its own. */
  function Layer<M>(inner: M): (m: MakeNormalizeUri<M>)
    ensures m.inner == inner
  {
    MakeNormalizeUri(inner)
  }

  /** `MakeNormalizeUri<N>`: a service constructor. `shouldNormalizeUri`
      stands for `ShouldNormalizeUri::should_normalize_uri`; `make`,
      `innerCall` and `innerPollReady` for the inner constructor's `make`,
      `call` and `poll_ready`. */
  datatype MakeNormalizeUri<M> = MakeNormalizeUri(inner: M) {

    /** The synchronous path (`Make::make`): asks the target once and builds
        the inner service for the same target. */
    function Make<T, S>(make: (M, T) -> S, shouldNormalizeUri: T -> Option<Authority>,
                        target: T): (svc: NormalizeUri<S>)
      ensures svc.inner == make(inner, target)
      ensures svc.authority == shouldNormalizeUri(target)
    {
      var authority := shouldNormalizeUri(target);
      NormalizeUri(make(inner, target), authority)
    }

    /** The wrapper adds no readiness condition and no error of its own. */
    function PollReady<E>(innerPollReady: M -> Poll<(), E>): (r: Poll<(), E>)
      ensures r == innerPollReady(inner)
    {
      innerPollReady(inner)
    }

    /** The asynchronous path (`Service::call`): asks the target once, starts
        the inner construction for it and keeps both in a new future. */
    method Call<T, S, E>(shouldNormalizeUri: T -> Option<Authority>,
                         innerCall: (M, T) -> FutureState<S, E>, target: T)
      returns (f: MakeFuture<S, E>)
      ensures fresh(f)
      ensures f.authority == shouldNormalizeUri(target)
      ensures f.inner == innerCall(inner, target)
    {
      var authority := shouldNormalizeUri(target);
      f := new MakeFuture(innerCall(inner, target), authority);
    }
  }

  /** `MakeFuture<F>`: the pending construction. Its authority is moved out
      (`Option::take`) into the service it yields. */
  class MakeFuture<S, E> {
    var inner: FutureState<S, E>
    var authority: Option<Authority>

    constructor (inner: FutureState<S, E>, authority: Option<Authority>)
      ensures this.inner == inner && this.authority == authority
    {
      this.inner := inner;
      this.authority := authority;
    }

    /** Not ready and failure are passed through and leave the future as it
        was; on readiness the inner service is wrapped around the authority,
        which the future no longer holds afterwards. */
    method Poll() returns (p: Poll<NormalizeUri<S>, E>)
      modifies this`authority
      ensures inner.Pending? ==> p == NotReady && authority == old(authority)
      ensures inner.Failed? ==> p == Err(inner.error) && authority == old(authority)
      ensures inner.Resolved? ==> p == Ready(NormalizeUri(inner.value, old(authority)))
      ensures inner.Resolved? ==> authority == None
    {
      match inner
      case Pending =>
        p := NotReady;
      case Failed(e) =>
        p := Err(e);
      case Resolved(s) =>
        var taken := authority;
        authority := None;
        p := Ready(NormalizeUri(s, taken));
    }
  }

  /** Because the authority is taken, polling a resolved future a second
      time gives a service with no authority at all. */
  method PollTwiceLosesAuthority<S, E>(f: MakeFuture<S, E>)
    returns (first: Poll<NormalizeUri<S>, E>, second: Poll<NormalizeUri<S>, E>)
    requires f.inner.Resolved?
    modifies f
    ensures f.inner == old(f.inner) && f.authority == None
    ensures first == Ready(NormalizeUri(f.inner.value, old(f.authority)))
    ensures second == Ready(NormalizeUri(f.inner.value, None))
  {
    first := f.Poll();
    second := f.Poll();
  }

  /** A request `NormalizeUri::call` may receive: with an authority
      captured, never an HTTP/2 one. */
  predicate Admissible<B>(authority: Option<Authority>, req: Request<B>)
  {
    authority.Some? ==> req.version != Http2
  }

  /** The request `NormalizeUri::call` hands to its inner service. */
  function Normalize<B>(setAuthority: SetAuthority, authority: Option<Authority>,
                        req: Request<B>): (r: Request<B>)
    requires Admissible(authority, req)
    ensures authority.None? ==> r == req
    ensures authority.Some? ==> r.uri == setAuthority(req.uri, authority.value)
    ensures r.headers == req.headers && r.version == req.version && r.body == req.body
  {
    match authority
    case None => req
    case Some(a) => req.(uri := setAuthority(req.uri, a))
  }

  /** `NormalizeUri<S>`: the inner service and the authority captured when
      it was built. */
  datatype NormalizeUri<S> = NormalizeUri(inner: S, authority: Option<Authority>) {

    /** Readiness is exactly the inner service's. */
    function PollReady<E>(innerPollReady: S -> Poll<(), E>): (r: Poll<(), E>)
      ensures r == innerPollReady(inner)
    {
      innerPollReady(inner)
    }

    /** Sets the captured authority on the URI of the request it owns, which
        must then not be HTTP/2, and returns what the inner service's `call`
        returns for it. */
    method Call<B, F>(setAuthority: SetAuthority, innerCall: (S, Request<B>) -> F,
                      req: Request<B>)
      returns (fut: F)
      requires Admissible(authority, req)
      ensures fut == innerCall(inner, Normalize(setAuthority, authority, req))
    {
      var r := req;
      if authority.Some? {
        r := r.(uri := setAuthority(r.uri, authority.value));
      }
      fut := innerCall(inner, r);
    }

    /** Sends `reqs`, in order, through `Call`: each call is given the one
        authority captured when the service was built, and the inner service
        receives exactly `Forwarded` of the requests. */
    method CallAll<B, F>(setAuthority: SetAuthority, innerCall: (S, Request<B>) -> F,
                         reqs: seq<Request<B>>)
      returns (futs: seq<F>)
      requires forall i :: 0 <= i < |reqs| ==> Admissible(authority, reqs[i])
      ensures |futs| == |reqs|
      ensures forall i :: 0 <= i < |reqs| ==>
        futs[i] == innerCall(inner, Normalize(setAuthority, authority, reqs[i]))
      ensures forall i :: 0 <= i < |reqs| ==>
        futs[i] == innerCall(inner, Forwarded(this, setAuthority, reqs)[i])
    {
      futs := [];
      var k := 0;
      while k < |reqs|
        invariant 0 <= k <= |reqs| && |futs| == k
        invariant forall i :: 0 <= i < k ==>
          futs[i] == innerCall(inner, Normalize(setAuthority, authority, reqs[i]))
      {
        var fut := Call(setAuthority, innerCall, reqs[k]);
        futs := futs + [fut];
        k := k + 1;
      }
      ForwardedUsesCapturedAuthority(this, setAuthority, reqs);
    }
  }

  /** The requests the inner service receives when `reqs` are sent, in order,
      through `svc`. */
  ghost function Forwarded<S, B>(svc: NormalizeUri<S>, setAuthority: SetAuthority,
                                 reqs: seq<Request<B>>): (out: seq<Request<B>>)
    requires forall i :: 0 <= i < |reqs| ==> Admissible(svc.authority, reqs[i])
    ensures |out| == |reqs|
  {
    if reqs == [] then []
    else [Normalize(setAuthority, svc.authority, reqs[0])] + Forwarded(svc, setAuthority, reqs[1..])
  }

  /** However many requests go through one service, each is rewritten with
      the one authority captured when the service was built. */
  lemma {:induction false} ForwardedUsesCapturedAuthority<S, B>(
    svc: NormalizeUri<S>, setAuthority: SetAuthority, reqs: seq<Request<B>>)
    requires forall i :: 0 <= i < |reqs| ==> Admissible(svc.authority, reqs[i])
    ensures forall i :: 0 <= i < |reqs| ==>
      Forwarded(svc, setAuthority, reqs)[i] == Normalize(setAuthority, svc.authority, reqs[i])
  {
    if reqs != [] {
      ForwardedUsesCapturedAuthority(svc, setAuthority, reqs[1..]);
      forall i | 0 <= i < |reqs|
        ensures Forwarded(svc, setAuthority, reqs)[i] == Normalize(setAuthority, svc.authority, reqs[i])
      {
        if i > 0 {
          assert reqs[1..][i - 1] == reqs[i];
        }
      }
    }
  }

  /** Through a service made synchronously for `target`, every request is
      rewritten with what the target answered at construction time, however
      many requests follow. */
  lemma MadeServiceUsesTargetAuthority<M, T, S, B>(
    m: MakeNormalizeUri<M>, make: (M, T) -> S, shouldNormalizeUri: T -> Option<Authority>,
    target: T, setAuthority: SetAuthority, reqs: seq<Request<B>>)
    requires forall i :: 0 <= i < |reqs| ==> Admissible(shouldNormalizeUri(target), reqs[i])
    ensures forall i :: 0 <= i < |reqs| ==>
      Forwarded(m.Make(make, shouldNormalizeUri, target), setAuthority, reqs)[i]
        == Normalize(setAuthority, shouldNormalizeUri(target), reqs[i])
  {
    ForwardedUsesCapturedAuthority(m.Make(make, shouldNormalizeUri, target), setAuthority, reqs);
  }

  /** Normalizing keeps the version, so a normalized request may be
      normalized again; doing so with the same authority gives the same
      request, provided `set_authority` itself settles after one application
      on this URI. */
  lemma NormalizeIdempotent<B>(setAuthority: SetAuthority, authority: Option<Authority>,
                               req: Request<B>)
    requires Admissible(authority, req)
    requires authority.Some? ==>
      setAuthority(setAuthority(req.uri, authority.value), authority.value)
        == setAuthority(req.uri, authority.value)
    ensures Admissible(authority, Normalize(setAuthority, authority, req))
    ensures Normalize(setAuthority, authority, Normalize(setAuthority, authority, req))
         == Normalize(setAuthority, authority, req)
  {
  }
}
