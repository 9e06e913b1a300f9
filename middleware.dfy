/** The Next.js middleware (middleware.ts): for request paths that start
    with "/embed", the response headers are rewritten so that any site may
    frame the page. Header names are case-insensitive; a header map is keyed
    by the lowercased name. */
module Middleware {
  import opened Wrappers
  import opened Text

  const EmbedPrefix: string := "/embed"
  const FrameOptions: string := "X-Frame-Options"
  const ContentSecurityPolicy: string := "Content-Security-Policy"
  const PermissionsPolicy: string := "Permissions-Policy"
  const FrameAncestorsAny: string := "frame-ancestors *"
  const CaptureAndFullscreen: string := "display-capture=*, fullscreen=*"

  /** The map keys of the three names. */
  const FrameOptionsKey: string := "x-frame-options"
  const ContentSecurityPolicyKey: string := "content-security-policy"
  const PermissionsPolicyKey: string := "permissions-policy"

  /** Lowercasing the three names gives their keys. */
  lemma {:induction false} RewrittenKeys()
    ensures Lower(FrameOptions) == FrameOptionsKey
    ensures Lower(ContentSecurityPolicy) == ContentSecurityPolicyKey
    ensures Lower(PermissionsPolicy) == PermissionsPolicyKey
  {
  }

  /** The header map after the rewrite, as a function of the path and the
      map before it. */
  function Rewrite(path: string, headers: map<string, string>): map<string, string> {
    if StartsWith(path, EmbedPrefix) then
      (headers - {FrameOptionsKey})[ContentSecurityPolicyKey := FrameAncestorsAny]
                                   [PermissionsPolicyKey := CaptureAndFullscreen]
    else headers
  }

  /** `headers.get(name)`. */
  function Lookup(headers: map<string, string>, name: string): Option<string> {
    var key := Lower(name);
    if key in headers then Some(headers[key]) else None
  }

  /** On an embed path, framing is no longer forbidden, any ancestor may
      frame the page, and display capture and fullscreen are allowed,
      whatever the headers were, in whatever case their names are written. */
  lemma EmbedHeaders(path: string, headers: map<string, string>)
    requires StartsWith(path, EmbedPrefix)
    ensures var after := Rewrite(path, headers);
            Lookup(after, FrameOptions) == None
            && Lookup(after, ContentSecurityPolicy) == Some(FrameAncestorsAny)
            && Lookup(after, PermissionsPolicy) == Some(CaptureAndFullscreen)
  {
    RewrittenKeys();
  }

  /** No header other than the three is added, removed or changed, and other
      paths leave the map as it was. */
  lemma OtherHeadersKept(path: string, headers: map<string, string>, key: string)
    requires key != FrameOptionsKey && key != ContentSecurityPolicyKey && key != PermissionsPolicyKey
    ensures var after := Rewrite(path, headers);
            (key in after <==> key in headers) && (key in after ==> after[key] == headers[key])
    ensures !StartsWith(path, EmbedPrefix) ==> Rewrite(path, headers) == headers
  {
  }

  /** The route matcher `/embed/:path*`: "/embed" itself or a path below it. */
  predicate MatcherAccepts(path: string) {
    path == EmbedPrefix || StartsWith(path, EmbedPrefix + "/")
  }

  /** Every path the matcher lets through passes the prefix test, but the
      prefix test alone also accepts paths like "/embedded". */
  lemma MatcherNarrowsPrefix(path: string)
    ensures MatcherAccepts(path) ==> StartsWith(path, EmbedPrefix)
    ensures StartsWith("/embedded", EmbedPrefix) && !MatcherAccepts("/embedded")
  {
    if StartsWith(path, EmbedPrefix + "/") {
      assert path[..|EmbedPrefix|] == (EmbedPrefix + "/")[..|EmbedPrefix|];
    }
    assert "/embedded"[..|EmbedPrefix|] == EmbedPrefix;
    assert "/embedded"[6] != ("/embed/")[6];
  }

  /** The response's `headers` object. */
  class Headers {
    var entries: map<string, string>

    constructor (entries: map<string, string>)
      ensures this.entries == entries
    {
      this.entries := entries;
    }

    method Delete(name: string)
      modifies this
      ensures entries == old(entries) - {Lower(name)}
    {
      entries := entries - {Lower(name)};
    }

    method Set(name: string, value: string)
      modifies this
      ensures entries == old(entries)[Lower(name) := value]
    {
      entries := entries[Lower(name) := value];
    }
  }

  /** `middleware(request)`, acting on the response's headers in place. */
  method Handle(path: string, headers: Headers)
    modifies headers
    ensures headers.entries == Rewrite(path, old(headers.entries))
  {
    if StartsWith(path, EmbedPrefix) {
      RewrittenKeys();
      headers.Delete(FrameOptions);
      headers.Set(ContentSecurityPolicy, FrameAncestorsAny);
      headers.Set(PermissionsPolicy, CaptureAndFullscreen);
    }
  }
}
