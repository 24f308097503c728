/** The blob locator (`getDownloadURL`): the registry blob URL of a digest,
    requested without following redirects, answered by the `location`
    header of the response. */
module Blob {
  import opened Basics
  import opened Strings
  import opened Http
  import opened Config
  import opened Sender

  /** Timeout of the blob request, in milliseconds. */
  const BlobTimeoutMs: nat := 10000

  /** A destructured segment interpolated into a template literal: missing
      segments print as `undefined`. */
  function Interpolated(parts: seq<string>, k: nat): string {
    if k < |parts| then parts[k] else "undefined"
  }

  /** A destructured segment in `[…].join('/')`: missing segments print empty. */
  function Joined(parts: seq<string>, k: nat): string {
    if k < |parts| then parts[k] else ""
  }

  /** `https://{server}/v2/{namespace}/{image}/blobs/{digest}` from the first
      three `/`-segments of the origin. */
  function BlobUrl(origin: string, digest: string): string {
    var parts := Split(origin, '/');
    "https://" + Interpolated(parts, 0) + "/v2/" + Interpolated(parts, 1) + "/" + Interpolated(parts, 2)
      + "/blobs/" + digest
  }

  /** The `repository` header: the first three segments joined by `/`. */
  function RepositoryHeader(origin: string): string {
    var parts := Split(origin, '/');
    Joined(parts, 0) + "/" + Joined(parts, 1) + "/" + Joined(parts, 2)
  }

  /** The options of the blob request. */
  function BlobOptions(origin: string): (opts: Options)
    ensures opts.headers == Some(map["repository" := RepositoryHeader(origin)])
    ensures opts.timeoutMs == Some(BlobTimeoutMs) && opts.followRedirect == Some(false)
  {
    Options(Some(map["repository" := RepositoryHeader(origin)]), Some(BlobTimeoutMs), Some(false))
  }

  /** What one lookup did: the `location` header of the final response (it
      may be absent) or the sender's error, the cached token afterwards, and
      the network calls made. */
  datatype Located = Located(location: Result<Option<string>, SendError>, token: string, calls: seq<Call>)

  /** A request for the blob: its URL, no redirects, the blob timeout and
      the `repository` header. */
  predicate BlobRequest(origin: string, digest: string, r: Request) {
    && r.url == BlobUrl(origin, digest)
    && !r.followRedirect
    && r.timeoutMs == BlobTimeoutMs
    && Header(r.headers, "repository") == Some(RepositoryHeader(origin))
  }

  /** `getDownloadURL(digest)` for `repo`, whose cached token is `repo.token`. */
  function Locate(merge: Merge, repo: Repository, digest: string, net: Script): (l: Located)
    ensures 1 <= |l.calls| <= 3 && l.calls[0].Attempt?
    ensures forall c | c in l.calls && c.Attempt? :: BlobRequest(repo.url, digest, c.request)
    ensures Header(l.calls[0].request.headers, Authorization)
      == if merge.Layered? && repo.token != "" then Some("Bearer " + repo.token) else None
    ensures l.location.Success? ==>
      var last := net.At(|l.calls| - 1);
      last.Delivered? && l.location.value == Header(last.response.headers, Location)
    ensures var run := Send(merge, repo.token, repo.secret, BlobUrl(repo.url, digest), BlobOptions(repo.url), net);
      && l.calls == run.calls && l.token == run.token
      && (l.location.Failure? <==> run.result.Failure?)
      && (l.location.Failure? ==> run.result == Failure(l.location.error))
  {
    var opts := BlobOptions(repo.url);
    var run := Send(merge, repo.token, repo.secret, BlobUrl(repo.url, digest), opts, net);
    LayeredSendsCachedToken(repo.token, BlobUrl(repo.url, digest), opts);
    AttemptsAreBlobRequests(merge, repo, digest, net);
    var location := match run.result
      case Success(resp) => Success(Header(resp.headers, Location))
      case Failure(e) => Failure(e);
    Located(location, run.token, run.calls)
  }

  /** Every attempt of a lookup, the first and the retry, is a blob request. */
  lemma AttemptsAreBlobRequests(merge: Merge, repo: Repository, digest: string, net: Script)
    ensures var run := Send(merge, repo.token, repo.secret, BlobUrl(repo.url, digest), BlobOptions(repo.url), net);
      forall c | c in run.calls && c.Attempt? :: BlobRequest(repo.url, digest, c.request)
  {
    var run := Send(merge, repo.token, repo.secret, BlobUrl(repo.url, digest), BlobOptions(repo.url), net);
    assert "repository" != Authorization;
    assert BlobRequest(repo.url, digest, run.calls[0].request);
    CallsAreBlobRequests(repo.url, digest, run.calls, run.token);
  }

  /** An attempt that is a blob request, possibly a token fetch, and
      possibly its retry: every attempt among them is a blob request. */
  lemma CallsAreBlobRequests(origin: string, digest: string, calls: seq<Call>, token: string)
    requires 1 <= |calls| <= 3 && calls[0].Attempt? && BlobRequest(origin, digest, calls[0].request)
    requires |calls| >= 2 ==> calls[1].TokenFetch?
    requires |calls| == 3 ==> calls[2] == Attempt(Retried(calls[0].request, token))
    ensures forall c | c in calls && c.Attempt? :: BlobRequest(origin, digest, c.request)
  {
    assert "repository" != Authorization;
    if |calls| == 1 {
      assert calls == [calls[0]];
    } else if |calls| == 2 {
      assert calls == [calls[0], calls[1]];
    } else {
      assert calls == [calls[0], calls[1], calls[2]];
    }
  }

  /** For an origin `server/namespace/image`, possibly followed by more
      segments, the blob URL and `repository` header use exactly those three. */
  lemma BlobUrlOfOrigin(server: string, namespace: string, image: string, more: string, digest: string)
    requires '/' !in server && '/' !in namespace && '/' !in image
    requires more == "" || more[0] == '/'
    ensures var origin := server + "/" + namespace + "/" + image + more;
      && BlobUrl(origin, digest) == "https://" + server + "/v2/" + namespace + "/" + image + "/blobs/" + digest
      && RepositoryHeader(origin) == server + "/" + namespace + "/" + image
  {
    var parts := OriginParts(server, namespace, image, more);
    assert Interpolated(parts, 0) == Joined(parts, 0) == server;
    assert Interpolated(parts, 1) == Joined(parts, 1) == namespace;
    assert Interpolated(parts, 2) == Joined(parts, 2) == image;
  }

  /** The first three `/`-segments of `server/namespace/image…`. */
  lemma OriginParts(server: string, namespace: string, image: string, more: string) returns (parts: seq<string>)
    requires '/' !in server && '/' !in namespace && '/' !in image
    requires more == "" || more[0] == '/'
    ensures parts == Split(server + "/" + namespace + "/" + image + more, '/')
    ensures |parts| >= 3 && parts[0] == server && parts[1] == namespace && parts[2] == image
  {
    var inner := namespace + ['/'] + (image + more);
    var q := server + "/";
    Assoc(namespace + "/", image, more);
    Assoc(q, namespace + "/" + image, more);
    Assoc(q, namespace + "/", image);
    Assoc(q, namespace, "/");
    SplitCons(server, '/', inner);
    SplitCons(namespace, '/', image + more);
    LastSegment(image, more);
    parts := Split(server + ['/'] + inner, '/');
    var tail := Split(inner, '/');
    assert parts == [server] + tail;
    assert tail == [namespace] + Split(image + more, '/');
    assert parts[1] == tail[0] && parts[2] == tail[1];
  }

  /** A segment followed by nothing or by a `/` is the first piece. */
  lemma LastSegment(image: string, more: string)
    requires '/' !in image
    requires more == "" || more[0] == '/'
    ensures Split(image + more, '/')[0] == image
  {
    if more == "" {
      assert image + more == image;
    } else {
      assert (image + more)[..|image|] == image;
      FindAt(image + more, '/', |image|);
    }
  }

  /** An origin without any `/` leaves namespace and image undefined. */
  lemma BlobUrlOfBareHost(host: string, digest: string)
    requires '/' !in host
    ensures BlobUrl(host, digest) == "https://" + host + "/v2/undefined/undefined/blobs/" + digest
    ensures RepositoryHeader(host) == host + "//"
  {
    var parts := Split(host, '/');
    assert parts == [host];
    assert Interpolated(parts, 0) == Joined(parts, 0) == host;
    assert Interpolated(parts, 1) == Interpolated(parts, 2) == "undefined";
    assert Joined(parts, 1) == Joined(parts, 2) == "";
    var p, u := "https://" + host, "undefined";
    assert "/v2/" + u + "/" + u + "/blobs/" == "/v2/undefined/undefined/blobs/";
    Assoc(p, "/v2/" + u + "/" + u, "/blobs/");
    Assoc(p, "/v2/" + u + "/", u);
    Assoc(p, "/v2/" + u, "/");
    Assoc(p, "/v2/", u);
  }

  /** The single-repository server sends its first blob request without the
      cached token, because its options carry headers of their own. */
  lemma AssignedBlobRequestIsAnonymous(repo: Repository, digest: string, net: Script)
    requires repo.token != ""
    ensures Header(Locate(Assigned, repo, digest, net).calls[0].request.headers, Authorization) == None
  {
  }

  /** The multi-repository server sends its first blob request with the
      cached token. */
  lemma LayeredBlobRequestCarriesToken(repo: Repository, digest: string, net: Script)
    requires repo.token != ""
    ensures Header(Locate(Layered, repo, digest, net).calls[0].request.headers, Authorization) == Some("Bearer " + repo.token)
  {
  }
}
