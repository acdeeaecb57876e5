/** What the services see of HTTP: a response with a status and a body, the
    `fetch` oracle, and the host name that `new URL(u).hostname` reads off a
    URL. */
module Http {
  import opened Wrappers

  datatype Response = Response(status: nat, body: string)

  /** `response.ok`: a status in the range 200–299. */
  predicate IsOk(r: Response) { 200 <= r.status <= 299 }

  /** The network: the response to a request for a URL, or the message of
      the error the request was rejected with. */
  type Fetch = string -> Result<Response>

  const HttpsScheme: string := "https://"

  predicate HostDelimiter(c: char) { c == '/' || c == '?' || c == '#' }

  /** The characters of `s` up to the first delimiter. */
  function TakeHost(s: string): (h: string)
    ensures |h| <= |s| && h == s[..|h|]
    ensures forall i :: 0 <= i < |h| ==> !HostDelimiter(h[i])
    ensures |h| < |s| ==> HostDelimiter(s[|h|])
  {
    if s == [] || HostDelimiter(s[0]) then [] else [s[0]] + TakeHost(s[1..])
  }

  /** `new URL(url).hostname` for an `https:` URL; `None` stands for the
      `TypeError` that other strings raise. */
  function Hostname(url: string): Option<string> {
    if |url| >= |HttpsScheme| && url[..|HttpsScheme|] == HttpsScheme
    then Some(TakeHost(url[|HttpsScheme|..]))
    else None
  }

  /** The host of a URL is what stands between the scheme and the first
      delimiter, whatever follows. */
  lemma {:induction false} HostnameOf(host: string, delimiter: char, rest: string)
    requires forall i :: 0 <= i < |host| ==> !HostDelimiter(host[i])
    requires HostDelimiter(delimiter)
    ensures Hostname(HttpsScheme + host + [delimiter] + rest) == Some(host)
  {
    var url := HttpsScheme + host + [delimiter] + rest;
    assert url[..|HttpsScheme|] == HttpsScheme;
    assert url[|HttpsScheme|..] == host + [delimiter] + rest;
    TakeHostPrefix(host, delimiter, rest);
  }

  /** A host name free of the characters that end one. */
  predicate PlainHost(h: string) {
    forall i :: 0 <= i < |h| ==> !HostDelimiter(h[i])
  }

  /** A URL built on a prefix that names a host keeps that host, whatever
      is appended. */
  lemma PrefixKeepsHost(host: string, path: string, tail: string)
    requires PlainHost(host)
    ensures Hostname(HttpsScheme + host + "/" + path + tail) == Some(host)
  {
    assert HttpsScheme + host + "/" + path + tail == HttpsScheme + host + ['/'] + (path + tail);
    HostnameOf(host, '/', path + tail);
  }

  lemma {:induction false} TakeHostPrefix(host: string, delimiter: char, rest: string)
    requires forall i :: 0 <= i < |host| ==> !HostDelimiter(host[i])
    requires HostDelimiter(delimiter)
    ensures TakeHost(host + [delimiter] + rest) == host
  {
    if host != [] {
      assert (host + [delimiter] + rest)[1..] == host[1..] + [delimiter] + rest;
      TakeHostPrefix(host[1..], delimiter, rest);
    }
  }
}
