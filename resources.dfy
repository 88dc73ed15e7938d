/** The dataset's metadata endpoint (metadata.go): a resource URL is split
    into its base and its identifier, and the identifier is checked before
    the metadata view is fetched. */
module Resources {
  import opened Text
  import opened Outcomes

  /** The base URL (scheme://host) and the dataset identifier of a resource. */
  datatype Metadata = Metadata(baseurl: string, identifier: string)

  /** The parts of a resource URL that url.Parse yields and the client uses. */
  datatype ParsedUrl = ParsedUrl(scheme: string, host: string, path: string)

  /** The decoded metadata document; only its column list is modelled. */
  datatype Document<C> = Document(columns: seq<C>)

  /** What the transport returns for the metadata GET: the status code, the
      body text, and the outcome of decoding the body as JSON. */
  datatype HttpResponse<C> = HttpResponse(status: int, body: string, decoded: Result<Document<C>>)

  /** The outcome of a metadata fetch and the URL requested, if a request was made. */
  datatype Fetched<C> = Fetched(result: Result<Document<C>>, requested: Option<string>)

  /** A dataset identifier of the form xxxx-xxxx: nine characters with a dash at index 4. */
  predicate WellFormedId(id: string)
  {
    |id| == 9 && id[4] == '-'
  }

  /** metadata.url: the metadata view of the dataset, refused when the base is
      missing or the identifier is malformed. */
  function Url(m: Metadata): (r: Result<string>)
    ensures r.Failure? <==> m.baseurl == "" || !WellFormedId(m.identifier)
    ensures r.Failure? ==> r.error == BadResourceUrl
    ensures r.Success? ==> r.value == m.baseurl + "/views/" + m.identifier
  {
    if m.baseurl == "" || |m.identifier| != 9 || m.identifier[4] != '-' then Failure(BadResourceUrl)
    else Success(m.baseurl + "/views/" + m.identifier)
  }

  /** The last path segment after dropping one trailing slash. */
  function Identifier(path: string): (id: string)
    ensures '/' !in id
  {
    var pieces := Split(TrimSuffix(path, "/"), '/');
    assert '/' !in pieces[|pieces| - 1];
    LastSegment(TrimSuffix(path, "/"), '/')
  }

  /** newMetadata: the zero value when the URL did not parse; otherwise the
      scheme and host as the base and the path's last segment as the identifier. */
  function NewMetadata(parsed: Option<ParsedUrl>): (m: Metadata)
    ensures parsed.None? ==> m == Metadata("", "")
    ensures parsed.Some? ==> m.baseurl == parsed.value.scheme + "://" + parsed.value.host
    ensures '/' !in m.identifier
  {
    match parsed
    case None => Metadata("", "")
    case Some(u) => Metadata(u.scheme + "://" + u.host, Identifier(u.path))
  }

  /** The identifier is the segment after the last slash, with or without one trailing slash. */
  lemma IdentifierIsLastSegment(prefix: string, id: string)
    requires '/' !in id && id != ""
    ensures Identifier(prefix + "/" + id) == id
    ensures Identifier(prefix + "/" + id + "/") == id
  {
    var p := prefix + "/" + id;
    assert p == prefix + ['/'] + id;
    assert !HasSuffix(p, "/") by {
      assert p[|p| - 1] == id[|id| - 1];
    }
    assert (p + "/")[..|p + "/"| - 1] == p;
    LastSegmentAfter(prefix, id, '/');
  }

  /** One trailing slash on the path does not change the identifier. */
  lemma TrailingSlashTolerated(path: string)
    requires !HasSuffix(path, "/")
    ensures Identifier(path + "/") == Identifier(path)
  {
    assert (path + "/")[..|path + "/"| - 1] == path;
  }

  /** A resource URL that does not parse gives a metadata value whose view URL is refused. */
  lemma UnparsedUrlRefused()
    ensures Url(NewMetadata(None)) == Failure(BadResourceUrl)
  {
  }

  /** A resource whose identifier is well formed gets the view URL of that
      dataset, and the identifier can be read back from it. */
  lemma ViewUrlOfResource(scheme: string, host: string, prefix: string, id: string)
    requires WellFormedId(id) && '/' !in id
    ensures var m := NewMetadata(Some(ParsedUrl(scheme, host, prefix + "/" + id)));
      && Url(m) == Success(scheme + "://" + host + "/views/" + id)
      && LastSegment(Url(m).value, '/') == id
  {
    IdentifierIsLastSegment(prefix, id);
    var u := scheme + "://" + host + "/views/" + id;
    assert u == (scheme + "://" + host + "/views") + ['/'] + id;
    LastSegmentAfter(scheme + "://" + host + "/views", id, '/');
  }

  /** The two resource URLs of the source's constructor test, with and
      without a trailing slash, give the same base and identifier. */
  lemma ResourceExample(path: string)
    requires path == "/resource/y6p2-px98" || path == "/resource/y6p2-px98/"
    ensures NewMetadata(Some(ParsedUrl("https", "data.ct.gov", path)))
            == Metadata("https://data.ct.gov", "y6p2-px98")
  {
    ExampleIdentifier("/resource", "y6p2-px98", path);
    var m := NewMetadata(Some(ParsedUrl("https", "data.ct.gov", path)));
    assert m.identifier == Identifier(path);
    assert m.baseurl == "https://data.ct.gov";
  }

  lemma ExampleIdentifier(prefix: string, id: string, path: string)
    requires '/' !in id && id != ""
    requires path == prefix + "/" + id || path == prefix + "/" + id + "/"
    ensures Identifier(path) == id
  {
    IdentifierIsLastSegment(prefix, id);
  }

  /** metadata.do: a refused view URL fails before any request; a reply with
      status 400 or more is an error carrying the status and body; otherwise
      the decoded document. `response` is what the GET of the view URL returns. */
  function Do<C>(m: Metadata, response: Result<HttpResponse<C>>): (f: Fetched<C>)
    ensures f.requested.None? <==> Url(m).Failure?
    ensures f.requested.None? ==> f.result == Failure(BadResourceUrl)
    ensures f.requested.Some? ==> Url(m) == Success(f.requested.value)
    ensures f.result.Success? <==>
              f.requested.Some? && response.Success? && response.value.status < 400 && response.value.decoded.Success?
    ensures f.requested.Some? && response.Success? && response.value.status >= 400 ==>
              f.result == Failure(RemoteStatus(response.value.status, response.value.body))
    ensures f.result.Success? ==> f.result == response.value.decoded
  {
    match Url(m)
    case Failure(e) => Fetched(Failure(e), None)
    case Success(url) =>
      var result :=
        match response
        case Failure(e) => Failure(e)
        case Success(resp) =>
          if resp.status >= 400 then Failure(RemoteStatus(resp.status, resp.body))
          else resp.decoded;
      Fetched(result, Some(url))
  }

  /** metadata.GetColumns: the document's columns, or an empty list together with the error. */
  function GetColumns<C>(m: Metadata, response: Result<HttpResponse<C>>): (r: (seq<C>, Option<Error>))
    ensures r.1.Some? <==> Do(m, response).result.Failure?
    ensures r.1.Some? ==> r.0 == [] && r.1.value == Do(m, response).result.error
    ensures r.1.None? ==> r.0 == Do(m, response).result.value.columns
  {
    match Do(m, response).result
    case Failure(e) => ([], Some(e))
    case Success(doc) => (doc.columns, None)
  }
}
