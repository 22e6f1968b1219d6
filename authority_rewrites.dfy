/** How the two decorators' per-request rewrites relate: they set the same
    URI, and differ only in what happens to `Host`. */
module AuthorityRewrites {
  import opened Http
  import OverwriteAuthority
  import NormalizeUri

  /** On any request the normalize decorator accepts, the overwrite
      decorator produces the normalized request with `Host` removed as
      well (and nothing else different). */
  lemma OverwriteIsNormalizeWithoutHost<B>(setAuthority: SetAuthority,
                                           authority: Option<Authority>, req: Request<B>)
    requires NormalizeUri.Admissible(authority, req)
    ensures OverwriteAuthority.Overwrite(setAuthority, authority, req)
         == var n := NormalizeUri.Normalize(setAuthority, authority, req);
            if authority.Some? then n.(headers := RemoveHost(n.headers)) else n
  {
  }

  /** An HTTP/1.1 origin-form request `/path?x=1` carrying `Host`, sent
      through services that captured `Some(a)`: both forward
      `set_authority(uri, a)`; the normalize decorator keeps `Host` as it
      was, the overwrite decorator drops it. */
  lemma HostHeaderScenario<B>(setAuthority: SetAuthority, a: Authority,
                              oldHost: HeaderValue, body: B)
    ensures var req := Request(Http11, Uri(None, "/path?x=1"), map[Host := [oldHost]], body);
            var n := NormalizeUri.Normalize(setAuthority, Some(a), req);
            var o := OverwriteAuthority.Overwrite(setAuthority, Some(a), req);
            && n.uri == o.uri == setAuthority(Uri(None, "/path?x=1"), a)
            && Host in n.headers && n.headers[Host] == [oldHost]
            && o.headers == map[]
  {
  }

  /** An HTTP/2 request is never admissible to a normalize service that
      captured an authority; the overwrite service takes it all the same. */
  lemma Http2Scenario<B>(setAuthority: SetAuthority, a: Authority, uri: Uri,
                         headers: Headers, body: B)
    ensures !NormalizeUri.Admissible(Some(a), Request(Http2, uri, headers, body))
    ensures OverwriteAuthority.Overwrite(setAuthority, Some(a), Request(Http2, uri, headers, body))
         == Request(Http2, setAuthority(uri, a), RemoveHost(headers), body)
  {
  }
}
