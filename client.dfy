/**
 * The API gateway client: it signs every request with an HMAC over the
 * `Date` header, tags it with the API version, and refuses an empty URI.
 * The transport (session, proxy, TLS, sending and reading the reply) is not
 * modelled; `Get` and `Post` end with the request exactly as it would be
 * sent. The clock is a parameter: the caller passes the `Date` value.
 */
module ApiClient {
  import opened Wrappers

  newtype byte = x: int | 0 <= x < 256

  /**
   * Library primitives, passed in because their internals are not part of
   * this model: HMAC-SHA-256 (RFC 2104 over FIPS 180-4), base64 with the
   * standard alphabet and padding (section 4 of RFC 4648), `url.QueryEscape`,
   * `url.Parse` success, `url.Values.Encode`, setting the raw query of a
   * URL and printing it, and `json.Marshal` of a request body.
   */
  datatype Env = Env(
    hmacSha256: (string, string) -> seq<byte>,  // (key, message) to MAC
    base64: seq<byte> -> string,
    queryEscape: string -> string,
    parses: string -> bool,
    encodeQuery: map<string, seq<string>> -> string,
    withQuery: (string, string) -> string,
    marshal: map<string, string> -> string)  // encoding/json Marshal of a string map

  datatype Error =
    | UnresolvedUri     // "Unable to resolve uri"
    | InvalidUrl(url: string)

  // Signature

  const SignaturePrefix: string := "Signature keyid=\""
  const SignatureMiddle: string := "\",algorithm=\"hmac-sha256\",signature=\""
  const SignatureSuffix: string := "\""

  /** The text the MAC is computed over: the date alone. */
  function SignedText(date: string): (r: string)
    ensures "date: " <= r && r[|"date: "|..] == date
  {
    "date: " + date
  }

  /** The escaped base64 MAC that goes between the last pair of quotes. */
  function SignatureValue(secretKey: string, date: string, env: Env): string {
    env.queryEscape(env.base64(env.hmacSha256(secretKey, SignedText(date))))
  }

  /** The `Authorization` value: empty when any input is missing. */
  function GenerateHMACSignature(keyId: string, secretKey: string, date: string, env: Env): (r: string)
    ensures r == "" <==> keyId == "" || secretKey == "" || date == ""
    ensures r != "" ==> SignaturePrefix + keyId <= r
  {
    if keyId == "" || secretKey == "" || date == "" then ""
    else SignaturePrefix + (keyId + (SignatureMiddle + (SignatureValue(secretKey, date, env) + SignatureSuffix)))
  }

  /**
   * Only the MAC of the date enters the header: two signings with the same
   * key id and the same MAC give the same header, whatever the secrets and
   * dates that produced it.
   */
  lemma SignatureOnlyThroughMac(keyId: string, secret1: string, date1: string, secret2: string, date2: string, env: Env)
    requires secret1 != "" && date1 != "" && secret2 != "" && date2 != ""
    requires env.hmacSha256(secret1, SignedText(date1)) == env.hmacSha256(secret2, SignedText(date2))
    ensures GenerateHMACSignature(keyId, secret1, date1, env) == GenerateHMACSignature(keyId, secret2, date2, env)
  {
  }

  /** Index of the first double quote in `s`, or |s| if there is none. */
  function QuoteIndex(s: string): (i: nat)
    ensures i <= |s| && '"' !in s[..i] && (i < |s| ==> s[i] == '"')
  {
    if s == [] then 0
    else if s[0] == '"' then 0
    else
      var j := QuoteIndex(s[1..]);
      assert s[..j + 1] == [s[0]] + s[1..][..j];
      j + 1
  }

  lemma QuoteIndexAppend(a: string, b: string)
    requires '"' !in a && b != [] && b[0] == '"'
    ensures QuoteIndex(a + b) == |a|
  {
    var i := QuoteIndex(a + b);
    assert (a + b)[|a|] == '"';
    assert (a + b)[..|a|] == a;
  }

  /**
   * A reader that inverts the generated `Authorization` text: the key id up
   * to the first quote, the fixed algorithm part, then the signature up to
   * the closing quote that ends the header. Only quote-free key ids and
   * signatures are read back; the gateway's own parser is not part of this
   * model.
   */
  function ParseSignature(h: string): (r: Option<(string, string)>)
    ensures r.Some? ==> '"' !in r.value.0 && '"' !in r.value.1
  {
    if SignaturePrefix <= h then ParseFields(h[|SignaturePrefix|..]) else None
  }

  /** The key id, the algorithm part and the quoted signature. */
  function ParseFields(rest: string): (r: Option<(string, string)>)
    ensures r.Some? ==> '"' !in r.value.0 && '"' !in r.value.1
  {
    var i := QuoteIndex(rest);
    if !(SignatureMiddle <= rest[i..]) then None
    else
      match ParseValue(rest[i + |SignatureMiddle|..])
      case None => None
      case Some(v) => Some((rest[..i], v))
  }

  /** The signature and the closing quote, which must end the header. */
  function ParseValue(tail: string): (r: Option<string>)
    ensures r.Some? ==> '"' !in r.value && tail == r.value + SignatureSuffix
  {
    var j := QuoteIndex(tail);
    if j + 1 != |tail| then None
    else
      assert tail == tail[..j] + [tail[j]];
      Some(tail[..j])
  }

  lemma ParseValueOf(e: string)
    requires '"' !in e
    ensures ParseValue(e + SignatureSuffix) == Some(e)
  {
    QuoteIndexAppend(e, SignatureSuffix);
    assert (e + SignatureSuffix)[..|e|] == e;
  }

  lemma DropPrefix(p: string, rest: string)
    ensures p <= p + rest && (p + rest)[|p|..] == rest
  {
  }

  lemma ParseFieldsOf(k: string, e: string)
    requires '"' !in k && '"' !in e
    ensures ParseFields(k + (SignatureMiddle + (e + SignatureSuffix))) == Some((k, e))
  {
    var rest := k + (SignatureMiddle + (e + SignatureSuffix));
    QuoteIndexAppend(k, SignatureMiddle + (e + SignatureSuffix));
    assert rest[|k|..] == SignatureMiddle + (e + SignatureSuffix);
    assert rest[..|k|] == k;
    assert rest[|k| + |SignatureMiddle|..] == e + SignatureSuffix;
    ParseValueOf(e);
  }

  /** The header can be read back into the key id and the escaped MAC that produced it. */
  lemma ParseGenerated(keyId: string, secretKey: string, date: string, env: Env)
    requires keyId != "" && secretKey != "" && date != ""
    requires '"' !in keyId && '"' !in SignatureValue(secretKey, date, env)
    ensures ParseSignature(GenerateHMACSignature(keyId, secretKey, date, env)) ==
              Some((keyId, SignatureValue(secretKey, date, env)))
  {
    var enc := SignatureValue(secretKey, date, env);
    var rest := keyId + (SignatureMiddle + (enc + SignatureSuffix));
    DropPrefix(SignaturePrefix, rest);
    ParseFieldsOf(keyId, enc);
  }

  /** Conversely, a header that reads back is the generated text for what it reads as. */
  lemma GeneratedFromParse(h: string)
    requires ParseSignature(h).Some?
    ensures var (k, e) := ParseSignature(h).value;
            h == SignaturePrefix + (k + (SignatureMiddle + (e + SignatureSuffix)))
  {
    var rest := h[|SignaturePrefix|..];
    FieldsShape(rest);
    assert h == SignaturePrefix + rest;
  }

  lemma FieldsShape(rest: string)
    requires ParseFields(rest).Some?
    ensures var (k, e) := ParseFields(rest).value;
            rest == k + (SignatureMiddle + (e + SignatureSuffix))
  {
    var i := QuoteIndex(rest);
    var tail := rest[i + |SignatureMiddle|..];
    PrefixRest(rest[i..], SignatureMiddle);
    assert rest[i..][|SignatureMiddle|..] == tail;
    Reassemble(rest, i, SignatureMiddle, tail, ParseValue(tail).value, SignatureSuffix);
  }

  lemma Reassemble(s: string, i: int, m: string, tail: string, e: string, suffix: string)
    requires 0 <= i <= |s| && s[i..] == m + tail && tail == e + suffix
    ensures s == s[..i] + (m + (e + suffix))
  {
    assert s == s[..i] + s[i..];
  }

  lemma PrefixRest(s: string, p: string)
    requires p <= s
    ensures s == p + s[|p|..]
  {
  }

  // Headers

  /** `http.Header`: each key holds its values in the order they were added. */
  type Header = map<string, seq<string>>

  function Values(h: Header, key: string): seq<string> {
    if key in h then h[key] else []
  }

  /** `Header.Add`: the value goes after the ones already there. */
  function AddValue(h: Header, key: string, value: string): (r: Header)
    ensures Values(r, key) == Values(h, key) + [value]
    ensures forall k :: k != key ==> Values(r, k) == Values(h, k)
    ensures r.Keys == h.Keys + {key}
  {
    h[key := Values(h, key) + [value]]
  }

  /** `Header.Get`: the first value, or empty. */
  function First(h: Header, key: string): (r: string)
    ensures Values(h, key) == [] ==> r == ""
    ensures Values(h, key) != [] ==> r == Values(h, key)[0]
  {
    var vs := Values(h, key);
    if vs == [] then "" else vs[0]
  }

  /**
   * The header after `SubmitRequest`: `Date` is always added, `Authorization`
   * only when there is a signature, which signs the first `Date` value, and
   * `X-Version` only when a version is given; no other key changes.
   */
  function SubmitHeaders(h: Header, keyId: string, secretKey: string, version: string, date: string, env: Env): (r: Header)
    ensures Values(r, "Date") == Values(h, "Date") + [date]
    ensures var sig := GenerateHMACSignature(keyId, secretKey, First(AddValue(h, "Date", date), "Date"), env);
            Values(r, "Authorization") == Values(h, "Authorization") + (if sig != "" then [sig] else [])
    ensures Values(r, "X-Version") == Values(h, "X-Version") + (if version != "" then [version] else [])
    ensures forall k :: k != "Date" && k != "Authorization" && k != "X-Version" ==> Values(r, k) == Values(h, k)
  {
    var h1 := AddValue(h, "Date", date);
    var sig := GenerateHMACSignature(keyId, secretKey, First(h1, "Date"), env);
    var h2 := if sig != "" then AddValue(h1, "Authorization", sig) else h1;
    if version != "" then AddValue(h2, "X-Version", version) else h2
  }

  /** On a request without a `Date` header the signature covers the date just added. */
  lemma SubmitSignsNewDate(h: Header, keyId: string, secretKey: string, version: string, date: string, env: Env)
    requires Values(h, "Date") == []
    ensures First(AddValue(h, "Date", date), "Date") == date
  {
  }

  /** An outgoing request; its header is filled in step by step. */
  class Request {
    const verb: string
    const url: string
    const body: string
    var header: Header

    /** `http.NewRequest`: a request with an empty header. */
    constructor(verb: string, url: string, body: string)
      ensures this.verb == verb && this.url == url && this.body == body
      ensures header == map[]
    {
      this.verb := verb;
      this.url := url;
      this.body := body;
      header := map[];
    }

    /** `req.Header.Add`. */
    method Add(key: string, value: string)
      modifies this
      ensures header == AddValue(old(header), key, value)
    {
      header := AddValue(header, key, value);
    }
  }

  /**
   * `url.Values` built from a request map, one value per key; Go visits the
   * map in no fixed order, so the loop takes the keys in any order.
   */
  method QueryParams(request: map<string, string>) returns (params: map<string, seq<string>>)
    ensures params.Keys == request.Keys
    ensures forall k :: k in params ==> params[k] == [request[k]]
  {
    params := map[];
    var todo := request.Keys;
    while todo != {}
      invariant todo <= request.Keys
      invariant params.Keys == request.Keys - todo
      invariant forall k :: k in params ==> params[k] == [request[k]]
      decreases |todo|
    {
      var k :| k in todo;
      params := params[k := Values(params, k) + [request[k]]];
      todo := todo - {k};
    }
  }

  class Client {
    const baseURL: string
    const secretKey: string
    const keyID: string
    const env: Env

    /** `New`; the timeout and transport settings only concern the session, which is not modelled. */
    constructor(baseUrl: string, keyId: string, secretKey: string, env: Env)
      ensures baseURL == baseUrl && keyID == keyId && this.secretKey == secretKey && this.env == env
    {
      baseURL := baseUrl;
      keyID := keyId;
      this.secretKey := secretKey;
      this.env := env;
    }

    /** Adds the date, signature and version headers, as the request is about to be sent. */
    method SubmitRequest(req: Request, version: string, date: string)
      modifies req
      ensures req.header == SubmitHeaders(old(req.header), keyID, secretKey, version, date, env)
    {
      req.Add("Date", date);
      var signature := GenerateHMACSignature(keyID, secretKey, First(req.header, "Date"), env);
      if signature != "" {
        req.Add("Authorization", signature);
      }
      if version != "" {
        req.Add("X-Version", version);
      }
    }

    /** A JSON POST to `baseURL + uri`. */
    method Post(uri: string, version: string, request: string, date: string) returns (r: Result<Request, Error>)
      ensures uri == "" ==> r == Failure(UnresolvedUri)
      ensures uri != "" && !env.parses(baseURL + uri) ==> r == Failure(InvalidUrl(baseURL + uri))
      ensures r.Success? <==> uri != "" && env.parses(baseURL + uri)
      ensures r.Success? ==> fresh(r.value) && r.value.verb == "POST" && r.value.url == baseURL + uri && r.value.body == request
      ensures r.Success? ==>
                r.value.header == SubmitHeaders(AddValue(map[], "Content-Type", "application/json"), keyID, secretKey, version, date, env)
    {
      if uri == "" {
        return Failure(UnresolvedUri);
      }
      var path := baseURL + uri;
      if !env.parses(path) {
        return Failure(InvalidUrl(path));
      }
      var req := new Request("POST", path, request);
      req.Add("Content-Type", "application/json");
      SubmitRequest(req, version, date);
      return Success(req);
    }

    /** A GET to `baseURL + uri` with the request map as its query string. */
    method Get(uri: string, version: string, request: map<string, string>, date: string) returns (r: Result<Request, Error>)
      ensures uri == "" ==> r == Failure(UnresolvedUri)
      ensures uri != "" && !env.parses(baseURL + uri) ==> r == Failure(InvalidUrl(baseURL + uri))
      ensures r.Success? <==> uri != "" && env.parses(baseURL + uri)
      ensures r.Success? ==> fresh(r.value) && r.value.verb == "GET" && r.value.body == ""
      ensures r.Success? ==>
                exists params :: Represents(params, request) && r.value.url == env.withQuery(baseURL + uri, env.encodeQuery(params))
      ensures r.Success? ==> r.value.header == SubmitHeaders(map[], keyID, secretKey, version, date, env)
    {
      if uri == "" {
        return Failure(UnresolvedUri);
      }
      var base := baseURL + uri;
      if !env.parses(base) {
        return Failure(InvalidUrl(base));
      }
      var params := QueryParams(request);
      var req := new Request("GET", env.withQuery(base, env.encodeQuery(params)), "");
      SubmitRequest(req, version, date);
      return Success(req);
    }
  }

  /** `params` holds each request entry as its key's only value. */
  ghost predicate Represents(params: map<string, seq<string>>, request: map<string, string>) {
    params.Keys == request.Keys && forall k :: k in params ==> params[k] == [request[k]]
  }

  /** Exactly one set of parameters represents a request map, so the query text is determined. */
  lemma QueryUnique(p1: map<string, seq<string>>, p2: map<string, seq<string>>, request: map<string, string>)
    requires Represents(p1, request) && Represents(p2, request)
    ensures p1 == p2
  {
  }

  /**
   * What a POST from a fresh request carries: the JSON content type, the
   * date, a signature over that date when the client has credentials, and
   * the version when one is given.
   */
  lemma PostHeaders(keyId: string, secretKey: string, version: string, date: string, env: Env)
    ensures var h := SubmitHeaders(AddValue(map[], "Content-Type", "application/json"), keyId, secretKey, version, date, env);
            var sig := GenerateHMACSignature(keyId, secretKey, date, env);
            Values(h, "Content-Type") == ["application/json"] &&
            Values(h, "Date") == [date] &&
            Values(h, "Authorization") == (if sig != "" then [sig] else []) &&
            Values(h, "X-Version") == (if version != "" then [version] else [])
  {
    var h0 := AddValue(map[], "Content-Type", "application/json");
    assert Values(h0, "Date") == [] && Values(h0, "Authorization") == [] && Values(h0, "X-Version") == [];
    SubmitSignsNewDate(h0, keyId, secretKey, version, date, env);
  }
}
