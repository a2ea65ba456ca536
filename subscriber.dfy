/**
 * A subscriber as the gateway reports it: the reply of the query endpoint,
 * kept as a parsed JSON document and read through getters. Two getters,
 * `Balance` and `BonusBalance`, derive their value from the `balances`
 * array the first time and store it back into the document, so that later
 * calls read the stored value.
 */
module Subscribers {
  import opened Wrappers
  import opened GoInt
  import opened GoTime
  import opened FastJson
  import opened Define
  import opened ApiClient

  datatype SubscriberBalance = SubscriberBalance(
    acctResId: int,
    acctResName: string,
    balType: int,
    balance: int,
    effectiveDate: Time,
    expiryDate: Time)

  datatype SubscriberService = SubscriberService(
    serviceCode: string,
    serviceName: string,
    effectiveDate: Time,
    expiryDate: Time)

  /**
   * What came back for a request that was sent: no reply (a transport
   * error), a body that does not decode, or the decoded body.
   */
  datatype Reply<T> = NoResponse | Malformed | Received(body: T)

  datatype SubscriberError =
    | RequestError(cause: Error)             // refused by `Get` or `Post`
    | TransportError
    | DecodeError
    | ServiceRejected(msg: AddServiceMessage)  // "Failure adding service: ..."

  const QueryUri: string := "/crm/subscriber/query"
  const BuyServiceUri: string := "/crm/service/buy"
  const ApiVersion: string := "v1.0"

  /** The document's arrays, and the keys the two derived balances are stored under. */
  const BalancesKey: string := "balances"
  const ServicesKey: string := "services"
  const BalanceKey: string := "balance"
  const BonusKey: string := "bonusPulsa"
  const CreditLimitKey: string := "totalCreditLimit"
  const RemainingCreditKey: string := "remainingCreditLimit"
  const UsageKey: string := "currentUsage"

  // Records read from the document

  /** A timestamp field read by `ToTime`: a missing or unreadable one is the 1900 sentinel. */
  function DateAt(v: Value, key: string): (t: Time)
    ensures Valid(t)
    ensures !Exists(v, key) ==> t == Sentinel
    ensures GetStringBytes(v, key) != "" && !IsDigit(GetStringBytes(v, key), 0) ==> t == Sentinel
  {
    var s := GetStringBytes(v, key);
    ToTimeEmpty();
    if s != "" && !IsDigit(s, 0) then ToTimeNonDigit(s); ToTime(s) else ToTime(s)
  }

  /** One entry of `balances`; a field that is missing reads as 0, "" or the 1900 sentinel. */
  function ToBalance(b: Value): (r: SubscriberBalance)
    ensures InInt64(r.acctResId) && InInt64(r.balType) && InInt64(r.balance)
    ensures !Exists(b, "acctResID") ==> r.acctResId == 0
    ensures !Exists(b, "acctResName") ==> r.acctResName == ""
    ensures !Exists(b, "balType") ==> r.balType == 0
    ensures !Exists(b, "balance") ==> r.balance == 0
    ensures !Exists(b, "effDate") ==> r.effectiveDate == Sentinel
    ensures !Exists(b, "expDate") ==> r.expiryDate == Sentinel
  {
    SubscriberBalance(
      GetInt(b, "acctResID"),
      GetStringBytes(b, "acctResName"),
      GetInt(b, "balType"),
      GetInt(b, "balance"),
      DateAt(b, "effDate"),
      DateAt(b, "expDate"))
  }

  /** One entry of `services`, with the same defaults. */
  function ToService(b: Value): (r: SubscriberService)
    ensures !Exists(b, "serviceCode") ==> r.serviceCode == ""
    ensures !Exists(b, "serviceName") ==> r.serviceName == ""
    ensures !Exists(b, "effDate") ==> r.effectiveDate == Sentinel
    ensures !Exists(b, "expDate") ==> r.expiryDate == Sentinel
  {
    SubscriberService(
      GetStringBytes(b, "serviceCode"),
      GetStringBytes(b, "serviceName"),
      DateAt(b, "effDate"),
      DateAt(b, "expDate"))
  }

  /** The records read from an array, appended one element at a time: one per element, in order. */
  function Records<T>(items: seq<Value>, read: Value -> T): (r: seq<T>)
    ensures |r| == |items|
    ensures forall i :: 0 <= i < |items| ==> r[i] == read(items[i])
  {
    if items == [] then []
    else
      var front := items[..|items| - 1];
      assert forall i :: 0 <= i < |front| ==> front[i] == items[i];
      Records(front, read) + [read(items[|items| - 1])]
  }

  function BalanceList(v: Value): seq<SubscriberBalance> {
    Records(GetArray(v, BalancesKey), ToBalance)
  }

  function ServiceList(v: Value): seq<SubscriberService> {
    Records(GetArray(v, ServicesKey), ToService)
  }

  /** Only an object has members: a nil or non-object document has no balances and no services. */
  lemma NonObjectIsEmpty(v: Value)
    requires !v.Object?
    ensures BalanceList(v) == [] && ServiceList(v) == []
    ensures !Exists(v, BalanceKey) && !Exists(v, BonusKey)
  {
    NotAnIndex(v, BalancesKey);
    NotAnIndex(v, ServicesKey);
    NotAnIndex(v, BalanceKey);
    NotAnIndex(v, BonusKey);
  }

  /** A key that starts with a letter names no array element. */
  lemma NotAnIndex(v: Value, key: string)
    requires !v.Object? && key != [] && 'a' <= key[0] <= 'z'
    ensures Get(v, key).None?
  {
  }

  // Whole units from cents

  /**
   * The monetary getters: 0 when the key is absent, otherwise the stored
   * cents in whole units, rounded toward zero as Go's `/` does.
   */
  function Units(v: Value, key: string): (r: int)
    ensures !Exists(v, key) ==> r == 0
    ensures Exists(v, key) && 0 <= GetInt(v, key) ==> 0 <= 100 * r <= GetInt(v, key) < 100 * r + 100
    ensures Exists(v, key) && GetInt(v, key) < 0 ==> 100 * r - 100 < GetInt(v, key) <= 100 * r <= 0
  {
    if !Exists(v, key) then 0 else TruncDiv(GetInt(v, key), 100)
  }

  // The main balance

  /** Index of the first entry of the main account (id 1), if any. */
  function MainIndex(bs: seq<SubscriberBalance>): (r: Option<nat>)
    ensures r.Some? ==> r.value < |bs| && bs[r.value].acctResId == 1
    ensures r.Some? ==> forall j :: 0 <= j < r.value ==> bs[j].acctResId != 1
    ensures r.None? <==> forall j :: 0 <= j < |bs| ==> bs[j].acctResId != 1
  {
    if bs == [] then None
    else if bs[0].acctResId == 1 then Some(0)
    else match MainIndex(bs[1..])
      case None => None
      case Some(i) => Some(i + 1)
  }

  /** The scan stops at the first main entry: whatever follows it is never looked at. */
  lemma MainIndexIgnoresLater(bs: seq<SubscriberBalance>, more: seq<SubscriberBalance>)
    requires MainIndex(bs).Some?
    ensures MainIndex(bs + more) == MainIndex(bs)
  {
    var i := MainIndex(bs).value;
    assert (bs + more)[i] == bs[i];
    assert forall j :: 0 <= j < i ==> (bs + more)[j] == bs[j];
  }

  /**
   * The document after `Balance`: if it has no `balance`, the balance of the
   * first main entry is stored there; with no main entry it stays as it is.
   */
  function BalanceMemo(v: Value): (r: Value)
    ensures Exists(v, BalanceKey) ==> r == v
    ensures MainIndex(BalanceList(v)).None? ==> r == v
    ensures forall k :: k != BalanceKey ==> Get(r, k) == Get(v, k)
    ensures !Exists(v, BalanceKey) && MainIndex(BalanceList(v)).Some? ==>
              GetInt(r, BalanceKey) == BalanceList(v)[MainIndex(BalanceList(v)).value].balance
  {
    if Exists(v, BalanceKey) then v
    else
      var bs := BalanceList(v);
      match MainIndex(bs)
      case None => v
      case Some(i) =>
        if !v.Object? then NonObjectIsEmpty(v); v
        else
          GetIntStored(v, BalanceKey, bs[i].balance);
          Set(v, BalanceKey, IntValue(bs[i].balance))
  }

  /** The value `Balance` reads back in cents: the stored one, else the first main entry's, else 0. */
  lemma BalanceCents(v: Value)
    ensures GetInt(BalanceMemo(v), BalanceKey) ==
              if Exists(v, BalanceKey) then GetInt(v, BalanceKey)
              else match MainIndex(BalanceList(v))
                   case None => 0
                   case Some(i) => BalanceList(v)[i].balance
  {
  }

  /** A second `Balance` finds the stored value and changes nothing. */
  lemma BalanceMemoIdempotent(v: Value)
    ensures BalanceMemo(BalanceMemo(v)) == BalanceMemo(v)
  {
    if !Exists(v, BalanceKey) && MainIndex(BalanceList(v)).Some? {
      if !v.Object? {
        NonObjectIsEmpty(v);
      }
      assert Exists(BalanceMemo(v), BalanceKey);
    }
  }

  // The bonus balance

  /** The bonus accounts. */
  predicate IsBonus(id: int) {
    id == 48 || id == 69 || id == 110
  }

  function BonusPart(b: SubscriberBalance): int {
    if IsBonus(b.acctResId) then b.balance else 0
  }

  /** The exact sum of the bonus entries' balances, added in list order. */
  function BonusSum(bs: seq<SubscriberBalance>): int {
    if bs == [] then 0 else BonusSum(bs[..|bs| - 1]) + BonusPart(bs[|bs| - 1])
  }

  /** The sum splits over concatenation. */
  lemma {:induction false} BonusSumAppend(a: seq<SubscriberBalance>, b: seq<SubscriberBalance>)
    ensures BonusSum(a + b) == BonusSum(a) + BonusSum(b)
    decreases |b|
  {
    if b == [] {
      assert a + b == a;
    } else {
      var b' := b[..|b| - 1];
      assert (a + b)[..|a + b| - 1] == a + b';
      assert (a + b)[|a + b| - 1] == b[|b| - 1];
      BonusSumAppend(a, b');
    }
  }

  /** An entry of any other account leaves the sum as it is, wherever it stands. */
  lemma BonusSkipsOthers(a: seq<SubscriberBalance>, x: SubscriberBalance, b: seq<SubscriberBalance>)
    requires !IsBonus(x.acctResId)
    ensures BonusSum(a + [x] + b) == BonusSum(a + b)
  {
    BonusSumAppend(a + [x], b);
    BonusSumAppend(a, [x]);
    BonusSumAppend(a, b);
    assert [x][..0] == [];
  }

  /**
   * The document after `BonusBalance`: if it has no `bonusPulsa`, the sum of
   * the bonus entries, wrapped as Go's `int` wraps, is stored there, even
   * when it is 0.
   */
  function BonusMemo(v: Value): (r: Value)
    ensures Exists(v, BonusKey) ==> r == v
    ensures v.Object? ==> Exists(r, BonusKey)
    ensures forall k :: k != BonusKey ==> Get(r, k) == Get(v, k)
    ensures !Exists(v, BonusKey) ==> GetInt(r, BonusKey) == Wrap64(BonusSum(BalanceList(v)))
  {
    if Exists(v, BonusKey) then v
    else if !v.Object? then NonObjectIsEmpty(v); v
    else
      var total := Wrap64(BonusSum(BalanceList(v)));
      GetIntStored(v, BonusKey, total);
      Set(v, BonusKey, IntValue(total))
  }

  /** A second `BonusBalance` finds the stored value and changes nothing. */
  lemma BonusMemoIdempotent(v: Value)
    ensures BonusMemo(BonusMemo(v)) == BonusMemo(v)
  {
  }

  /** `Balance` leaves the array and the bonus key alone, and `BonusBalance` the array and the balance key. */
  lemma MemosKeepOtherKeys(v: Value)
    ensures BalanceList(BalanceMemo(v)) == BalanceList(v) && Exists(BalanceMemo(v), BonusKey) == Exists(v, BonusKey)
    ensures BalanceList(BonusMemo(v)) == BalanceList(v) && Exists(BonusMemo(v), BalanceKey) == Exists(v, BalanceKey)
  {
    assert Get(BalanceMemo(v), BalancesKey) == Get(v, BalancesKey);
    assert Get(BonusMemo(v), BalancesKey) == Get(v, BalancesKey);
  }

  /** Each getter writes only its own key, so the order of the two calls does not matter. */
  lemma MemosCommute(v: Value)
    ensures BonusMemo(BalanceMemo(v)) == BalanceMemo(BonusMemo(v))
  {
    MemosKeepOtherKeys(v);
    if Exists(v, BalanceKey) || MainIndex(BalanceList(v)).None? {
    } else if !v.Object? {
      NonObjectIsEmpty(v);
    } else if !Exists(v, BonusKey) {
      BothStored(v);
    }
  }

  lemma BothStored(v: Value)
    requires v.Object? && !Exists(v, BalanceKey) && !Exists(v, BonusKey) && MainIndex(BalanceList(v)).Some?
    ensures BonusMemo(BalanceMemo(v)) == BalanceMemo(BonusMemo(v))
  {
    MemosKeepOtherKeys(v);
    var bal := IntValue(BalanceList(v)[MainIndex(BalanceList(v)).value].balance);
    var bonus := IntValue(Wrap64(BonusSum(BalanceList(v))));
    var v1 := Set(v, BalanceKey, bal);
    var v2 := Set(v, BonusKey, bonus);
    assert BalanceMemo(v) == v1;
    assert BonusMemo(v) == v2;
    assert BonusMemo(v1) == Set(v1, BonusKey, bonus);
    assert BalanceMemo(v2) == Set(v2, BalanceKey, bal);
    SetsCommute(v, BalanceKey, bal, BonusKey, bonus);
  }

  /**
   * A document whose balance list holds a main entry (id 1) and a bonus entry
   * (id 48), and which carries a credit limit: the main balance is the first
   * entry's, the bonus balance the second's, and the credit limit is read in
   * whole units.
   */
  lemma TwoEntryDocument(v: Value, main: Value, bonus: Value, m: int, b: int, c: int)
    requires InInt64(m) && InInt64(b) && InInt64(c)
    requires main == Entry(1, m) && bonus == Entry(48, b)
    requires v == Object(map[BalancesKey := Array([main, bonus]), CreditLimitKey := IntValue(c)])
    ensures GetInt(BalanceMemo(v), BalanceKey) == m
    ensures GetInt(BonusMemo(v), BonusKey) == b
    ensures Units(v, CreditLimitKey) == TruncDiv(c, 100)
  {
    TwoEntryList(v, main, bonus, c);
    TwoEntryKeys(v, Array([main, bonus]), c);
    var bs := BalanceList(v);
    EntryFields(main, 1, m);
    EntryFields(bonus, 48, b);
    MainFirst(bs);
    BonusSecond(bs);
  }

  lemma TwoEntryList(v: Value, main: Value, bonus: Value, c: int)
    requires v == Object(map[BalancesKey := Array([main, bonus]), CreditLimitKey := IntValue(c)])
    ensures BalanceList(v) == [ToBalance(main), ToBalance(bonus)]
  {
    assert GetArray(v, BalancesKey) == [main, bonus];
    RecordsOfTwo(main, bonus, ToBalance);
  }

  lemma TwoEntryKeys(v: Value, items: Value, c: int)
    requires InInt64(c)
    requires v == Object(map[BalancesKey := items, CreditLimitKey := IntValue(c)])
    ensures v.Object? && !Exists(v, BalanceKey) && !Exists(v, BonusKey)
    ensures Units(v, CreditLimitKey) == TruncDiv(c, 100)
  {
    ParseIntText(c);
  }

  lemma RecordsOfTwo<T>(x: Value, y: Value, read: Value -> T)
    ensures Records([x, y], read) == [read(x), read(y)]
  {
  }

  /** A balance entry holding only an id and an amount. */
  function Entry(id: int, bal: int): Value {
    Object(map["acctResID" := IntValue(id), "balance" := IntValue(bal)])
  }

  lemma EntryFields(e: Value, id: int, bal: int)
    requires InInt64(id) && InInt64(bal) && e == Entry(id, bal)
    ensures ToBalance(e).acctResId == id && ToBalance(e).balance == bal
  {
    ParseIntText(id);
    ParseIntText(bal);
  }

  lemma MainFirst(bs: seq<SubscriberBalance>)
    requires |bs| == 2 && bs[0].acctResId == 1
    ensures MainIndex(bs) == Some(0)
  {
  }

  lemma BonusSecond(bs: seq<SubscriberBalance>)
    requires |bs| == 2 && bs[0].acctResId == 1 && bs[1].acctResId == 48
    ensures BonusSum(bs) == bs[1].balance
  {
    var front := bs[..1];
    assert front[..0] == [] && front[0] == bs[0];
    assert BonusSum(front) == 0;
  }

  // The subscriber

  /** `AddService` fails when the gateway gives no transaction id. */
  predicate Rejected(msg: AddServiceMessage)
    ensures msg.transactionId == "" ==> Rejected(msg)
    ensures Rejected(msg) ==> |msg.transactionId| == 0 || |msg.transactionId| == |"map[-nil:true]"|
  {
    msg.transactionId == "" || msg.transactionId == "map[-nil:true]"
  }

  class Subscriber {
    const gw: Client
    const mdn: string
    var data: Value  // Null until a query succeeds, and after a reply that does not parse

    constructor(api: Client, mdn: string)
      ensures gw == api && this.mdn == NormalizeMDN(mdn) && data == Null
    {
      gw := api;
      this.mdn := NormalizeMDN(mdn);
      data := Null;
    }

    /**
     * Fetches the subscriber document. A refused request or a missing reply
     * leaves the document as it was; a reply that does not parse leaves none.
     */
    method Query(date: string, reply: Reply<Value>) returns (sent: Result<Request, Error>, err: Option<SubscriberError>)
      modifies this
      ensures sent.Success? <==> gw.env.parses(gw.baseURL + QueryUri)
      ensures sent.Success? ==> sent.value.verb == "GET"
      ensures sent.Success? ==>
                sent.value.url == gw.env.withQuery(gw.baseURL + QueryUri, gw.env.encodeQuery(map["mdn" := [mdn]]))
      ensures sent.Success? ==> sent.value.header == SubmitHeaders(map[], gw.keyID, gw.secretKey, ApiVersion, date, gw.env)
      ensures err.None? <==> sent.Success? && reply.Received?
      ensures data == (if sent.Failure? || reply.NoResponse? then old(data)
                       else if reply.Malformed? then Null
                       else reply.body)
    {
      sent := gw.Get(QueryUri, ApiVersion, map["mdn" := mdn], date);
      if sent.Failure? {
        return sent, Some(RequestError(sent.error));
      }
      ghost var params :| Represents(params, map["mdn" := mdn]) &&
        sent.value.url == gw.env.withQuery(gw.baseURL + QueryUri, gw.env.encodeQuery(params));
      assert params == map["mdn" := [mdn]];
      match reply
      case NoResponse =>
        err := Some(TransportError);
      case Malformed =>
        data := Null;
        err := Some(DecodeError);
      case Received(v) =>
        data := v;
        err := None;
    }

    /**
     * Buys a service for this subscriber. It succeeds exactly when the POST
     * is built, a reply decodes, and that reply carries a transaction id.
     */
    method AddService(serviceCode: string, date: string, reply: Reply<AddServiceMessage>)
      returns (sent: Result<Request, Error>, err: Option<SubscriberError>)
      ensures sent.Success? <==> gw.env.parses(gw.baseURL + BuyServiceUri)
      ensures sent.Success? ==> sent.value.verb == "POST" && sent.value.url == gw.baseURL + BuyServiceUri
      ensures sent.Success? ==> sent.value.body == gw.env.marshal(map["mdn" := mdn, "serviceCode" := serviceCode])
      ensures sent.Success? ==> Values(sent.value.header, "X-Version") == [ApiVersion]
      ensures err.None? <==> sent.Success? && reply.Received? && !Rejected(reply.body)
      ensures sent.Success? && reply.Received? && Rejected(reply.body) ==> err == Some(ServiceRejected(reply.body))
    {
      var body := gw.env.marshal(map["mdn" := mdn, "serviceCode" := serviceCode]);
      sent := gw.Post(BuyServiceUri, ApiVersion, body, date);
      if sent.Failure? {
        return sent, Some(RequestError(sent.error));
      }
      PostHeaders(gw.keyID, gw.secretKey, ApiVersion, date, gw.env);
      match reply
      case NoResponse =>
        err := Some(TransportError);
      case Malformed =>
        err := Some(DecodeError);
      case Received(msg) =>
        err := if Rejected(msg) then Some(ServiceRejected(msg)) else None;
    }

    // String getters: the string under the key, or "" when there is none

    function Status(): string reads this { GetStringBytes(data, "state") }
    function IMSI(): string reads this { GetStringBytes(data, "imsi") }
    function PUK1(): string reads this { GetStringBytes(data, "puk1") }
    function PUK2(): string reads this { GetStringBytes(data, "puk2") }
    function MarketingCategory(): string reads this { GetStringBytes(data, "marketingCategory") }
    function FraudLocked(): string reads this { GetStringBytes(data, "fraudLocked") }
    function AccountNumber(): string reads this { GetStringBytes(data, "acctNbr") }
    function SettlementMethod(): string reads this { GetStringBytes(data, "settlementMethod") }
    function ICCID(): string reads this { GetStringBytes(data, "iccid") }
    function BirthPlace(): string reads this { GetStringBytes(data, "birthPlace") }
    function BirthDay(): string reads this { GetStringBytes(data, "birthday") }
    function CustomerName(): string reads this { GetStringBytes(data, "customerName") }
    function CustomerType(): string reads this { GetStringBytes(data, "customerType") }
    function DefaultPricePlan(): string reads this { GetStringBytes(data, "defaultPricePlan") }
    function DefaultPricePlanCode(): string reads this { GetStringBytes(data, "defaultPricePlanCode") }
    function DocNumber(): string reads this { GetStringBytes(data, "docNumber") }
    function DocType(): string reads this { GetStringBytes(data, "docType") }
    function DocAddress(): string reads this { GetStringBytes(data, "docAddress") }
    function Email(): string reads this { GetStringBytes(data, "email") }
    function Gender(): string reads this { GetStringBytes(data, "gender") }
    function MotherMaidenName(): string reads this { GetStringBytes(data, "motherMaidenName") }
    function NextState(): string reads this { GetStringBytes(data, "nextState") }
    function OfferName(): string reads this { GetStringBytes(data, "offerName") }
    function ProductCode(): string reads this { GetStringBytes(data, "productCode") }
    function ProductName(): string reads this { GetStringBytes(data, "productName") }
    function CustomerGrade(): string reads this { GetStringBytes(data, "customerGrade") }

    // Date getters: the timestamp under the key, read by `ToTime`

    function ActiveDate(): Time reads this { DateAt(data, "activeDate") }
    function ActiveEndDate(): Time reads this { DateAt(data, "activeEndDate") }
    function TerminationDate(): Time reads this { DateAt(data, "terminationDate") }
    function NextStateDate(): Time reads this { DateAt(data, "nextStateDate") }
    function DueDate(): Time reads this { DateAt(data, "dueDate") }
    function LastPaymentDate(): Time reads this { DateAt(data, "lastPaymentDate") }

    /** The offer id, or 0 when there is none. */
    function OfferId(): (r: int)
      reads this
      ensures InInt64(r)
      ensures !Exists(data, "offerId") ==> r == 0
    {
      GetInt(data, "offerId")
    }

    /** The total credit limit in whole units, or 0 when there is none. */
    function TotalCreditLimit(): (r: int)
      reads this
      ensures !Exists(data, CreditLimitKey) ==> r == 0
      ensures Exists(data, CreditLimitKey) ==> r == TruncDiv(GetInt(data, CreditLimitKey), 100)
    {
      Units(data, CreditLimitKey)
    }

    /** The remaining credit limit in whole units, or 0 when there is none. */
    function RemainingCreditLimit(): (r: int)
      reads this
      ensures !Exists(data, RemainingCreditKey) ==> r == 0
      ensures Exists(data, RemainingCreditKey) ==> r == TruncDiv(GetInt(data, RemainingCreditKey), 100)
    {
      Units(data, RemainingCreditKey)
    }

    /** The current usage in whole units, or 0 when there is none. */
    function CurrentUsage(): (r: int)
      reads this
      ensures !Exists(data, UsageKey) ==> r == 0
      ensures Exists(data, UsageKey) ==> r == TruncDiv(GetInt(data, UsageKey), 100)
    {
      Units(data, UsageKey)
    }

    /** The `balances` array as records, appended in array order. */
    method Balances() returns (bs: seq<SubscriberBalance>)
      ensures bs == BalanceList(data)
    {
      var items := GetArray(data, BalancesKey);
      bs := [];
      for i := 0 to |items|
        invariant bs == Records(items[..i], ToBalance)
      {
        assert items[..i + 1][..i] == items[..i];
        bs := bs + [ToBalance(items[i])];
      }
      assert items[..|items|] == items;
    }

    /** The `services` array as records, appended in array order. */
    method Services() returns (ss: seq<SubscriberService>)
      ensures ss == ServiceList(data)
    {
      var items := GetArray(data, ServicesKey);
      ss := [];
      for i := 0 to |items|
        invariant ss == Records(items[..i], ToService)
      {
        assert items[..i + 1][..i] == items[..i];
        ss := ss + [ToService(items[i])];
      }
      assert items[..|items|] == items;
    }

    /**
     * The main balance in whole units. Without a stored `balance`, it scans
     * the records for the first main entry, stores its balance and stops.
     */
    method Balance() returns (r: int)
      modifies this
      ensures data == BalanceMemo(old(data))
      ensures r == TruncDiv(GetInt(data, BalanceKey), 100)
    {
      if !Exists(data, BalanceKey) {
        var bs := Balances();
        ghost var v := data;
        var found := false;
        for i := 0 to |bs|
          invariant !found ==> data == v && NoMainBefore(bs, i)
          invariant found ==> data == BalanceMemo(v)
        {
          if bs[i].acctResId == 1 {
            MainFound(v, bs, i);
            data := Set(data, BalanceKey, IntValue(bs[i].balance));
            found := true;
            break;
          }
          NoMainStep(bs, i);
        }
        if !found {
          MainAbsent(v, bs);
        }
      }
      r := TruncDiv(GetInt(data, BalanceKey), 100);
    }

    /**
     * The bonus balance in whole units. Without a stored `bonusPulsa`, it
     * totals the bonus entries with Go's wrapping `+=` and stores the total.
     */
    method BonusBalance() returns (r: int)
      modifies this
      ensures data == BonusMemo(old(data))
      ensures r == TruncDiv(GetInt(data, BonusKey), 100)
    {
      if !Exists(data, BonusKey) {
        var total := 0;
        var bs := Balances();
        ghost var exact := 0;
        for i := 0 to |bs|
          invariant data == old(data)
          invariant exact == BonusSum(bs[..i]) && total == Wrap64(exact)
        {
          BonusStep(bs, i, exact, total);
          if IsBonus(bs[i].acctResId) {
            total := Wrap64(total + bs[i].balance);
          }
          exact := exact + BonusPart(bs[i]);
        }
        BonusStored(data, bs, total);
        data := Set(data, BonusKey, IntValue(total));
      }
      r := TruncDiv(GetInt(data, BonusKey), 100);
    }
  }

  predicate NoMainBefore(bs: seq<SubscriberBalance>, i: int)
    requires 0 <= i <= |bs|
  {
    forall j :: 0 <= j < i ==> bs[j].acctResId != 1
  }

  lemma NoMainStep(bs: seq<SubscriberBalance>, i: int)
    requires 0 <= i < |bs| && NoMainBefore(bs, i) && bs[i].acctResId != 1
    ensures NoMainBefore(bs, i + 1)
  {
  }

  /** The scan of `Balance` stops at `i`: the document it leaves is the one `BalanceMemo` describes. */
  lemma MainFound(v: Value, bs: seq<SubscriberBalance>, i: int)
    requires bs == BalanceList(v) && !Exists(v, BalanceKey)
    requires 0 <= i < |bs| && bs[i].acctResId == 1 && NoMainBefore(bs, i)
    ensures BalanceMemo(v) == Set(v, BalanceKey, IntValue(bs[i].balance))
  {
    MainIndexAt(bs, i);
  }

  lemma MainIndexAt(bs: seq<SubscriberBalance>, i: int)
    requires 0 <= i < |bs| && bs[i].acctResId == 1 && NoMainBefore(bs, i)
    ensures MainIndex(bs) == Some(i)
  {
  }

  lemma MainAbsent(v: Value, bs: seq<SubscriberBalance>)
    requires bs == BalanceList(v) && NoMainBefore(bs, |bs|)
    ensures BalanceMemo(v) == v
  {
  }

  /** One step of the running total: Go's wrapping `+=` keeps it equal to the wrapped exact sum. */
  lemma BonusStep(bs: seq<SubscriberBalance>, i: int, exact: int, total: int)
    requires 0 <= i < |bs| && exact == BonusSum(bs[..i]) && total == Wrap64(exact)
    ensures BonusSum(bs[..i + 1]) == exact + BonusPart(bs[i])
    ensures IsBonus(bs[i].acctResId) ==> Wrap64(total + bs[i].balance) == Wrap64(exact + BonusPart(bs[i]))
    ensures !IsBonus(bs[i].acctResId) ==> total == Wrap64(exact + BonusPart(bs[i]))
  {
    assert bs[..i + 1][..i] == bs[..i];
    WrapAdd(exact, BonusPart(bs[i]));
  }

  lemma BonusStored(v: Value, bs: seq<SubscriberBalance>, total: int)
    requires bs == BalanceList(v) && !Exists(v, BonusKey)
    requires total == Wrap64(BonusSum(bs[..|bs|]))
    ensures BonusMemo(v) == Set(v, BonusKey, IntValue(total))
  {
    assert bs[..|bs|] == bs;
    if !v.Object? {
      NonObjectIsEmpty(v);
    }
  }

  /** `NewSubscriber`: a subscriber for the normalised number, filled by one query. */
  method NewSubscriber(api: Client, mdn: string, date: string, reply: Reply<Value>)
    returns (s: Subscriber, sent: Result<Request, Error>, err: Option<SubscriberError>)
    ensures fresh(s) && s.gw == api && s.mdn == NormalizeMDN(mdn)
    ensures err.None? <==> api.env.parses(api.baseURL + QueryUri) && reply.Received?
    ensures s.data == (if err.None? then reply.body else Null)
  {
    s := new Subscriber(api, mdn);
    sent, err := s.Query(date, reply);
  }
}
