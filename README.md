# sf-apigw-v2 subscriber core, modelled in Dafny

The Go package `apigw` is a client for a telecom API gateway. It signs and
sends HTTP requests to the gateway. It keeps the subscriber record the
gateway returns as a parsed JSON document and reads fields from it. This
project models the logic behind that client:

- **Subscriber document** (`subscriber.go`, module `Subscribers`, file
  `subscriber.dfy`). A `Subscriber` class holds the gateway client, the
  normalised MSISDN and the parsed document (`data`). The getters are:
  - string and date getters;
  - `OfferId`;
  - the monetary getters, which turn cents into whole units with Go's
    truncating `/`;
  - `Balances` and `Services`, loops that build one record per array
    element.

  `Balance` and `BonusBalance` are imperative methods. When their key is
  absent, they scan the balance records and store the result back into the
  document. `Balance` stores the balance of the *first* entry with id 1 and
  stops there. `BonusBalance` adds up the entries with id 48, 69 or 110 using
  Go's wrapping 64-bit `+=`, and stores the total even when it is 0. Each
  method is proved against a function on documents (`BalanceMemo`,
  `BonusMemo`). Those functions are shown to do four things:
  - write only their own key;
  - be idempotent;
  - commute with each other;
  - leave a document unchanged when the key is already there.

  `Query`, `AddService` and `NewSubscriber` build the request through the
  client. The reply is passed in as a parameter.
- **MSISDN and timestamps** (`define.go`, module `Define`, file `define.dfy`,
  using `gotime.dfy`).
  - `NormalizeMDN` is modelled as a four-way prefix rewrite and proved
    idempotent.
  - `ToTime` and `ToDate` try a day-first layout, then an ISO layout, then
    fall back to the 1900-01-01 sentinel.
  - `time.Parse` is modelled for the layout elements these layouts use:
    - two-digit day, month, minute and second;
    - a one- or two-digit hour;
    - a four-digit year;
    - literal text in which a space matches any run of spaces;
    - an optional fraction after the seconds;
    - range and days-in-month checks.

  This gives a round trip (`Parse(layout, Format(layout, t)) == Some(t)`). It
  also shows that the two layouts never both accept a text, so the order in
  which they are tried is immaterial. In Go's layout language, the text
  `00:00:00` in `ToDate`'s layouts is literal. So `ToDate` accepts only
  midnight timestamps, and any other time of day reads as the sentinel. The
  model keeps this as written and proves it.
- **Signing and headers** (`client.go`, module `ApiClient`, file
  `client.dfy`).
  - `generateHMACSignature` is modelled as an empty-input guard followed by
    the exact `Authorization` text. The MAC input is the date alone.
  - When the key id and the escaped MAC contain no double quote, a reader
    that inverts that text recovers both. Conversely, any text the reader
    accepts is the header generated from what it reads. Go's
    `generateHMACSignature` accepts any key id, but a key id with a double
    quote is outside the read-back statement.
  - `SubmitRequest` adds its headers to a `Request` object in place. `Post`
    and `Get` apply the empty-URI and URL guards. `Get` builds the query
    parameters in a loop.

Supporting modules:
- `goint.dfy`: Go `int` arithmetic, namely 64-bit wrap-around and
  truncating division.
- `decimals.dfy`: decimal digit strings.
- `fastjson.dfy`: the JSON value and the fastjson accessors `Get`, `Exists`,
  `GetInt`, `GetStringBytes`, `GetArray` and `Set`.
- `wrappers.dfy`: `Option` and `Result`.

A nil document (after a failed parse, or before any query) is modelled as
`Null`. fastjson's accessors treat a nil value like `Null`, and `Set` on it
does nothing.

The aggregate balance is sometimes described as a sum over entries with
id 1. The code takes the first such entry and breaks out of the loop
(subscriber.go:233). The model follows the code, and
`MainIndexIgnoresLater` states that later id-1 entries are never looked at.

## Model

| member | source | states |
|---|---|---|
| GoInt.Wrap64 | subscriber.go:242-246 | Go's `int` on 64 bits: the result is in the int64 range, and it is the exact value whenever that fits |
| GoInt.WrapCongruent | subscriber.go:246 | the wrapped value differs from the exact one by a multiple of 2^64 |
| GoInt.WrapAdd | subscriber.go:243-248 | wrapping after every `+=` gives the same total as wrapping the exact sum once |
| GoInt.TruncDiv | subscriber.go:224 | Go's `/` by a positive divisor: the quotient is rounded toward zero for both signs of the dividend |
| Decimals.DecimalOfText | subscriber.go:231 | the decimal text of a natural number reads back as that number |
| FastJson.ParseIntText | subscriber.go:231 | what `fmt.Sprintf("%d", n)` writes, `GetInt` reads back as `n` for every int64 |
| FastJson.Get | subscriber.go:221 | an object member is found exactly when its key is present; only objects and arrays have members |
| FastJson.GetInt | subscriber.go:200-202 | an int64; 0 for an absent key; otherwise the integer stored there when it is one |
| FastJson.GetStringBytes | subscriber.go:88-90 | a non-empty result is the string stored under the key; otherwise "" |
| FastJson.GetArray | subscriber.go:270 | a non-empty result is the array stored under the key; otherwise empty |
| FastJson.Set | subscriber.go:231 | an object afterwards holds the value under the key; no other key changes; a non-object or nil document is left as it is |
| FastJson.SetsCommute | subscriber.go:231-249 | stores under two different keys can be done in either order |
| FastJson.GetIntStored | subscriber.go:231 | an integer stored with `MustParse("%d")` is what `GetInt` reads back |
| FastJson.IntValue | subscriber.go:231-249 | `fastjson.MustParse(fmt.Sprintf("%d", n))`: the number written in decimal; `ParseIntText` and `GetIntStored` state that `GetInt` reads `n` back |
| Define.ReplaceFirst | define.go:26 | `strings.Replace(s, pat, rep, 1)` on a string that starts with `pat` replaces that prefix |
| Define.NormalizeMDN | define.go:19-35 | "6288…" is kept; "+62…" becomes "62…"; "088…" becomes "6288…"; "88…" becomes "6288…"; anything else is kept |
| Define.PrefixesExclusive | define.go:20-30 | the four prefixes start with different characters, so at most one branch applies |
| Define.NormalizeMDNIdempotent | define.go:19-35 | normalising twice is the same as normalising once |
| Define.NormalizeMDNCountryCode | define.go:19-35 | every recognised form comes out starting with the country code 62 |
| Define.NormalizeMDNExamples | define.go:24-29 | "08812" becomes "628812", and "+6212" becomes "6212" |
| Define.ToTime | define.go:37-55 | never fails: the result is always a valid time |
| Define.ToDate | define.go:57-75 | never fails, and the result is always a midnight |
| Define.EmptyTimestampIsSentinel | define.go:40-42 | the replacement for an empty timestamp is the sentinel written in the day-first layout |
| Define.EmptyDateIsSentinel | define.go:60-62 | the same replacement is the sentinel written in the day-first date layout |
| Define.ToTimeEmpty | define.go:40-45 | `ToTime("")` is 1900-01-01 00:00:00 |
| Define.ToDateEmpty | define.go:60-65 | `ToDate("")` is 1900-01-01 00:00:00 |
| Define.ToTimeDayFirst | define.go:44-46 | a day-first timestamp with a whole second is read back exactly |
| Define.ToTimeIso | define.go:44-50 | an ISO timestamp is rejected by the day-first layout and read back exactly by the second one |
| Define.ToTimeFormsAgree | define.go:44-50 | the same instant written in either form reads as the same time |
| Define.LayoutsExclusive | define.go:44-50 | no text is accepted by both layouts, for the time and for the date layouts alike |
| Define.ToTimeNonDigit | define.go:44-54 | a text that does not start with a digit falls back to the sentinel in both functions |
| Define.ToDateRoundTrip | define.go:64-70 | a midnight written in either date form is read back exactly |
| Define.SkipMidnight | define.go:64 | the literal " 00:00:00" matches a printed clock exactly at midnight |
| Define.DateLayoutRejectsClock | define.go:64-68 | a date layout does not accept a timestamp whose time of day is not midnight |
| Define.ToDateRejectsDayFirstClock | define.go:64-72 | a day-first timestamp at any time other than midnight reads as the sentinel date |
| Define.ToDateRejectsIsoClock | define.go:68-72 | an ISO timestamp at any time other than midnight reads as the sentinel date |
| GoTime.Parse | define.go:44 | `time.Parse` for these layouts: a result is a valid time; a layout without a clock yields a midnight |
| GoTime.ParseFormat | define.go:44-48 | parsing what a well-formed layout prints gives the same time back |
| GoTime.FormatAppend | define.go:44-48 | printing a concatenated layout concatenates the printed parts |
| GoTime.RunAppend | define.go:64-68 | a front part of a layout consumes exactly what it printed, whatever follows |
| GoTime.YearFirst | define.go:48 | a layout that starts with the year accepts only text that starts with four digits |
| GoTime.DaySlashFirst | define.go:44 | a layout that starts with a day and a slash accepts only text with a slash at index 2 |
| ApiClient.GenerateHMACSignature | client.go:161-182 | "" exactly when the key id, the secret or the date is empty; otherwise the header starts with the key id part |
| ApiClient.SignedText | client.go:168 | the MAC input is "date: " followed by the date and nothing else |
| ApiClient.SignatureValue | client.go:171-176 | query-escaped base64 of HMAC-SHA-256 keyed with the secret over the signed text; `SignatureOnlyThroughMac` states that the header depends on the secret and date only through this MAC, and `ParseGenerated` that it reads back |
| ApiClient.SignatureOnlyThroughMac | client.go:168-181 | secrets and dates enter the header only through the MAC of "date: " + date |
| ApiClient.ParseGenerated | client.go:181 | for a key id and an escaped MAC without double quotes, the generated header reads back as that key id and MAC |
| ApiClient.GeneratedFromParse | client.go:181 | any header that reads back is exactly the text generated from what it reads as |
| ApiClient.AddValue | client.go:121-127 | `Header.Add` appends the value to that key's values and leaves every other key alone |
| ApiClient.First | client.go:122 | `Header.Get` is the first value of the key, or "" |
| ApiClient.SubmitHeaders | client.go:120-128 | `Date` is always added; `Authorization` is added only when the signature over the first `Date` value is not empty; `X-Version` only when a version is given; no other key changes |
| ApiClient.SubmitSignsNewDate | client.go:121-122 | on a request without a `Date` header, the signature covers the date just added |
| ApiClient.Request.constructor | client.go:79 | a new request carries its verb, URL and body, and an empty header |
| ApiClient.Request.Add | client.go:83 | the header gets the value appended under the key |
| ApiClient.QueryParams | client.go:101-105 | each request entry becomes its key's only query value, whatever order the map is visited in |
| ApiClient.QueryUnique | client.go:102-106 | only one parameter set represents a request map, so the query text is fixed |
| ApiClient.Client.constructor | client.go:25-39 | the client keeps the base URL, key id and secret it was given |
| ApiClient.Client.SubmitRequest | client.go:119-128 | the request's new header is `SubmitHeaders` of the old one |
| ApiClient.Client.Post | client.go:71-88 | an empty URI or an unparsable URL is an error and builds nothing; otherwise a fresh POST of the body with the JSON content type and the submitted headers |
| ApiClient.Client.Get | client.go:90-117 | an empty URI or an unparsable URL is an error and builds nothing; otherwise a fresh GET whose query holds the request map, with the submitted headers |
| ApiClient.PostHeaders | client.go:83-85 | a POST carries the JSON content type, the date, the signature when there are credentials, and the version when one is given |
| Subscribers.DateAt | subscriber.go:116-138 | a date field is always a valid time; a missing one, or one that does not start with a digit, is the 1900 sentinel |
| Subscribers.ToBalance | subscriber.go:271-278 | the integer fields are int64 values; a missing field reads as 0, "" or the sentinel |
| Subscribers.ToService | subscriber.go:287-292 | a missing field reads as "" or the sentinel |
| Subscribers.Records | subscriber.go:268-296 | one record per array element, in array order |
| Subscribers.NonObjectIsEmpty | subscriber.go:268-282 | a nil or non-object document has no balances, no services and neither stored balance |
| Subscribers.Units | subscriber.go:220-225 | 0 for an absent key; otherwise the stored cents over 100, rounded toward zero for either sign |
| Subscribers.MainIndex | subscriber.go:229-233 | the first entry with id 1, and none exactly when no entry has id 1 |
| Subscribers.MainIndexIgnoresLater | subscriber.go:229-233 | once a main entry is found, entries after it are never looked at |
| Subscribers.BalanceMemo | subscriber.go:227-236 | a present `balance` leaves the document unchanged; with no main entry it is unchanged too; otherwise the first main entry's balance is stored; no other key changes |
| Subscribers.BalanceCents | subscriber.go:227-237 | the cents `Balance` reads: the stored value, else the first main entry's balance, else 0 |
| Subscribers.BalanceMemoIdempotent | subscriber.go:227-238 | a second `Balance` changes nothing |
| Subscribers.BonusSumAppend | subscriber.go:243-248 | the bonus total splits over concatenation of the entry list |
| Subscribers.BonusSkipsOthers | subscriber.go:244-247 | an entry of any other account does not change the bonus total, wherever it stands |
| Subscribers.BonusMemo | subscriber.go:240-250 | a present `bonusPulsa` leaves the document unchanged; otherwise an object always gets the wrapped bonus total stored, even 0; no other key changes |
| Subscribers.BonusMemoIdempotent | subscriber.go:240-252 | a second `BonusBalance` changes nothing |
| Subscribers.MemosKeepOtherKeys | subscriber.go:227-252 | each memo keeps the balances array and the other memo's key |
| Subscribers.MemosCommute | subscriber.go:227-252 | calling `Balance` and `BonusBalance` in either order leaves the same document |
| Subscribers.TwoEntryDocument | subscriber.go:220-252 | with a main entry and a bonus entry, `Balance` stores the main amount, `BonusBalance` stores the bonus amount, and the credit limit reads in whole units |
| Subscribers.BonusStep | subscriber.go:244-247 | one wrapping `+=` keeps the running total equal to the wrapped exact sum |
| Subscribers.Subscriber.constructor | subscriber.go:34-37 | a subscriber keeps the client, normalises the number and starts with no document |
| Subscribers.Subscriber.Query | subscriber.go:44-58 | the GET carries `mdn` as its only query parameter and version v1.0; it succeeds exactly when the request is built and a reply arrives; the document is kept on a transport failure, becomes nil on a parse failure, and is the reply otherwise |
| Subscribers.Rejected | subscriber.go:81-83 | an empty transaction id is a failure, and a failure has either no transaction id or one as long as the "map[-nil:true]" placeholder; `AddService` reports an error exactly for these replies |
| Subscribers.Subscriber.AddService | subscriber.go:60-86 | the POST body is the marshalled `mdn` and `serviceCode`, with version v1.0; success is exactly a decoded reply whose transaction id is neither "" nor "map[-nil:true]" |
| Subscribers.Subscriber.OfferId | subscriber.go:200-202 | an int64, and 0 when `offerId` is absent |
| Subscribers.Subscriber.TotalCreditLimit | subscriber.go:220-225 | 0 when `totalCreditLimit` is absent; otherwise the stored cents over 100, rounded toward zero (bounds in `Units`) |
| Subscribers.Subscriber.RemainingCreditLimit | subscriber.go:254-259 | 0 when `remainingCreditLimit` is absent; otherwise the stored cents over 100, rounded toward zero |
| Subscribers.Subscriber.CurrentUsage | subscriber.go:261-266 | 0 when `currentUsage` is absent; otherwise the stored cents over 100, rounded toward zero |
| Subscribers.Subscriber.Balances | subscriber.go:268-282 | the loop's result is one record per `balances` element, in order |
| Subscribers.Subscriber.Services | subscriber.go:284-296 | the loop's result is one record per `services` element, in order |
| Subscribers.Subscriber.Balance | subscriber.go:227-238 | the new document is `BalanceMemo` of the old, and the result is its `balance` over 100, rounded toward zero |
| Subscribers.Subscriber.BonusBalance | subscriber.go:240-252 | the new document is `BonusMemo` of the old, and the result is its `bonusPulsa` over 100, rounded toward zero |
| Subscribers.NewSubscriber | subscriber.go:33-42 | a fresh subscriber for the normalised number; no error exactly when the query is built and answered; its document is the reply, or nil |

The string getters (`Status` … `CustomerGrade`) have no contract of their
own. Each is `GetStringBytes` of its key, whose contract is stated above.
The date getters read through `DateAt`, whose contract is stated above.

## Left out

- Network I/O is not modelled:
  - the HTTP session and `Session.Do`;
  - reading the response body;
  - the request and response dumps to standard output;
  - `SetTransport`, `SetProxy`, the TLS and proxy settings, and the client timeout.

  `Query`, `AddService` and `NewSubscriber` take the outcome of the exchange
  as a `Reply` parameter: no reply, a body that does not decode, or the
  decoded body. `Get` and `Post` return the prepared request instead of the
  response.
- `generateDateHeader` reads the wall clock and a time zone. The date is a
  parameter instead.
- Library primitives are fields of the `Env` value, with no internals:
  - HMAC-SHA-256 (RFC 2104 over FIPS 180-4);
  - base64 (section 4 of RFC 4648);
  - `url.QueryEscape`;
  - whether `url.Parse` accepts a URL;
  - `url.Values.Encode`;
  - setting a URL's query and printing the URL;
  - `json.Marshal`.

  The JSON text parsers (fastjson and `json.Unmarshal`) are not modelled. The
  document is the parsed `Value`, and the `AddService` reply is an
  `AddServiceMessage`.
- `http.Header` key canonicalisation is not modelled: the keys used here are
  already canonical.
- The JSON document is modelled as a map, not an ordered member list:
  - duplicate keys in a reply are not represented;
  - member order is not represented;
  - `Set` with an index key on an array (never done here) is not modelled.
- `time.Parse` is modelled only for the layout elements of the four layouts
  used here. Zones and other elements are not modelled.
- `json.Marshal` cannot fail on a string map, so its error path is not
  modelled.
- The balance and service records are values. The Go code returns
  `[]*SubscriberBalance` and `[]*SubscriberService`, which no caller here
  mutates.
- Concurrent use of one `Subscriber`, whose memoisation is unsynchronised,
  is not modelled. Calls are sequential.
- `Client.Get`: the error of the second `http.NewRequest`, on the printed
  URL (client.go:109-112), is not modelled. A URL that `url.Parse` accepted
  is assumed to parse again once its query is set and it is printed.
- Go's `int` is taken to be 64 bits wide (`Wrap64`, and `InInt64` in
  `GetInt`), as on the 64-bit platforms the gateway client runs on. On a
  32-bit platform the bonus total would wrap at 2^32 instead.
- `FastJson.GetInt` follows fastjson versions whose `GetInt` returns 0 for a
  number that is not an integer or does not fit. Older versions truncated a
  fractional number instead; the source pins no version.
- customer360.go is not part of this model.
