// The exchange order executor of src/execution/order_executor.cpp. The
// transport is left out: each request the executor would send is appended
// to a ghost log, and the exchange's parsed reply to it is an input.
module Executor {
  import opened Books
  import opened Wrappers
  import opened Trading
  import opened Signing
  import opened Symbols

  const BaseUrl := "https://api.binance.com"

  /** `what()` of the JSON library when a number is read from a string or
      a string from a number. */
  const NumberFromString := "[json.exception.type_error.302] type must be number, but is string"
  const StringFromNumber := "[json.exception.type_error.302] type must be string, but is number"
  /** `what()` of `std::stod` on text that is not a number. */
  const StodFailure := "stod"

  /** A reply field as the JSON library sees it. */
  datatype Field = Absent | Number(n: real) | Text(t: string)

  /** An exchange reply, by the first key the executor tests for. */
  datatype Reply =
    | AccountType
    | OrderId(id: u64, status: Option<string>, executedQty: Field, price: Field)
    | Code(msg: Option<string>)
    | Unparsable(detail: string)
    | Other

  /** One signed request: verb, full URL, API-key header. */
  datatype Request = Request(verb: string, url: string, apiKey: string)

  /** A mapped reply: the result and whether it is written to the table. */
  datatype Mapped = Mapped(result: ExecutionResult, store: bool)

  function SideName(side: int): string
  {
    if side == 0 then "BUY" else "SELL"
  }

  function OrderType(price: real): string
  {
    if price > 0.0 then "LIMIT" else "MARKET"
  }

  /** The table `getOrderStatus` leaves for a known id: the mapped reply
      is written back when it carries an order id. */
  function AfterStatus(orders: map<u64, ExecutionResult>, id: u64, q: Result<Mapped>): (t: map<u64, ExecutionResult>)
    ensures t.Keys == orders.Keys + (if q.Success? && q.value.store then {id} else {})
    ensures forall k :: k in orders && k != id ==> k in t && t[k] == orders[k]
  {
    if q.Success? && q.value.store then orders[id := q.value.result] else orders
  }

  /** The order query of `submitOrder`: split at '&' it is exactly the
      symbol, side, type and quantity fields, and the two LIMIT fields
      follow only for a positive price. */
  function OrderQuery(symbol: int, side: int, price: real, quantity: real,
                      fixed8: real -> Token): (q: string)
    ensures Fields(q) ==
            ["symbol=" + ExchangeSymbol(symbol), "side=" + SideName(side), "type=" + OrderType(price),
             "quantity=" + fixed8(quantity)] +
            (if price > 0.0 then ["timeInForce=GTC", "price=" + fixed8(price)] else [])
  {
    var f1: Token := LabelledField("symbol=", ExchangeSymbol(symbol));
    var f2: Token := LabelledField("side=", SideName(side));
    var f3: Token := LabelledField("type=", OrderType(price));
    var tail := QuantityPart(price, quantity, fixed8);
    QuantityPartFields(price, quantity, fixed8);
    ThreeLeadingFields(f1, f2, f3, tail);
    // grouped field by field: "symbol=..&side=..&type=..&quantity=..[&timeInForce=GTC&price=..]"
    f1 + "&" + (f2 + "&" + (f3 + "&" + tail))
  }

  lemma ThreeLeadingFields(f1: Token, f2: Token, f3: Token, tail: string)
    ensures Fields(f1 + "&" + (f2 + "&" + (f3 + "&" + tail))) == [f1, f2, f3] + Fields(tail)
  {
    LeadingField(f3, tail);
    LeadingField(f2, f3 + "&" + tail);
    LeadingField(f1, f2 + "&" + (f3 + "&" + tail));
  }

  /** A key followed by its value, neither holding '&', is one field. */
  function LabelledField(key: Token, value: Token): (r: Token)
    ensures r == key + value
  {
    assert forall k :: 0 <= k < |key + value| ==>
             (key + value)[k] == (if k < |key| then key[k] else value[k - |key|]);
    key + value
  }

  /** The fields from the quantity on. */
  function QuantityPart(price: real, quantity: real, fixed8: real -> Token): string
  {
    var quantityField := "quantity=" + fixed8(quantity);
    if price > 0.0 then quantityField + "&" + ("timeInForce=GTC" + "&" + ("price=" + fixed8(price)))
    else quantityField
  }

  lemma QuantityPartFields(price: real, quantity: real, fixed8: real -> Token)
    ensures Fields(QuantityPart(price, quantity, fixed8)) ==
            ["quantity=" + fixed8(quantity)] +
            (if price > 0.0 then ["timeInForce=GTC", "price=" + fixed8(price)] else [])
  {
    var f4: Token := "quantity=" + fixed8(quantity);
    var f5: Token := "timeInForce=GTC";
    var f6: Token := "price=" + fixed8(price);
    if price > 0.0 {
      LeadingField(f5, f6);
      FieldsOfToken(f6);
      LeadingField(f4, f5 + "&" + f6);
    } else {
      FieldsOfToken(f4);
    }
  }

  /** A field without '&' put in front of a query becomes its first field. */
  lemma LeadingField(first: Token, rest: string)
    ensures Fields(first + "&" + rest) == [first] + Fields(rest)
  {
    FieldsOfJoin(first, rest);
    FieldsOfToken(first);
  }

  /** The query of the status and cancel requests: the pair is always
      BTCUSDT, and the id reads back from the second field. */
  function OrderRef(id: u64): (q: string)
    ensures Fields(q) == ["symbol=BTCUSDT", "orderId=" + Decimal(id)]
    ensures ParseDecimal(Fields(q)[1][8..]) == id
  {
    var f1: Token := "symbol=BTCUSDT";
    DecimalIsToken(id as nat);
    var f2: Token := LabelledField("orderId=", Decimal(id));
    LeadingField(f1, f2);
    FieldsOfToken(f2);
    assert f2[8..] == Decimal(id);
    ParseDecimalOfDecimal(id);
    assert "symbol=BTCUSDT&orderId=" + Decimal(id) == f1 + "&" + f2;
    "symbol=BTCUSDT&orderId=" + Decimal(id)
  }

  /** `j.value(key, default)` with a numeric default. */
  function NumberOr(f: Field, default: real): (r: Result<real>)
    ensures f.Text? <==> r == Failure(NumberFromString)
    ensures f.Number? ==> r == Success(f.n)
    ensures f.Absent? ==> r == Success(default)
  {
    match f
    case Absent => Success(default)
    case Number(n) => Success(n)
    case Text(_) => Failure(NumberFromString)
  }

  /** `std::stod(j.value(key, "0"))`. */
  function ParsedText(f: Field, stod: string -> Option<real>): (r: Result<real>)
    ensures f.Number? ==> r == Failure(StringFromNumber)
    ensures f.Text? && r.Success? ==> stod(f.t) == Some(r.value)
    ensures f.Absent? && r.Success? ==> stod("0") == Some(r.value)
  {
    match f
    case Number(_) => Failure(StringFromNumber)
    case Absent => Stod("0", stod)
    case Text(t) => Stod(t, stod)
  }

  function Stod(text: string, stod: string -> Option<real>): (r: Result<real>)
    ensures r.Success? <==> stod(text).Some?
    ensures r.Success? ==> stod(text) == Some(r.value)
    ensures r.Failure? ==> r.error == StodFailure
  {
    match stod(text)
    case None => Failure(StodFailure)
    case Some(v) => Success(v)
  }

  /** How `submitOrder` maps the reply to an order sent for `quantity` at
      `price`. A reply with an order id is a success (PARTIAL when the
      exchange says PARTIALLY_FILLED; the full quantity when it says
      FILLED) and is stored, unless reading a field throws: then the
      catch-all handler returns the half-built SUCCESS result with the
      exception text and nothing is stored. Every other reply is FAILED. */
  function SubmitOutcome(reply: Reply, price: real, quantity: real): (m: Mapped)
    ensures m.store <==> reply.OrderId? && !reply.executedQty.Text? && !reply.price.Text?
    ensures reply.OrderId? <==> m.result.status != Failed
    ensures reply.OrderId? ==> m.result.orderId == reply.id
    ensures m.result.status == Partial <==>
              m.store && reply.status == Some("PARTIALLY_FILLED")
    ensures m.store && reply.status == Some("FILLED") ==> m.result.filledQuantity == quantity
    ensures m.store && reply.price.Absent? ==> m.result.averagePrice == price
    ensures m.store ==> m.result.errorMessage == ""
    ensures reply.OrderId? && !m.store ==> |m.result.errorMessage| > 11 && m.result.errorMessage[..11] == "Exception: "
    ensures reply.Code? ==> m.result.errorMessage == (if reply.msg.Some? then reply.msg.value else "Unknown error")
  {
    match reply
    case OrderId(id, st, qty, pr) =>
      var base := DefaultResult.(status := Succeeded, orderId := id);
      (match NumberOr(qty, 0.0)
       case Failure(e) => Mapped(base.(errorMessage := "Exception: " + e), false)
       case Success(filled) =>
         match NumberOr(pr, price)
         case Failure(e) => Mapped(base.(filledQuantity := filled, errorMessage := "Exception: " + e), false)
         case Success(avg) =>
           var r := base.(filledQuantity := filled, averagePrice := avg);
           if st == Some("FILLED") then Mapped(r.(filledQuantity := quantity), true)
           else if st == Some("PARTIALLY_FILLED") then Mapped(r.(status := Partial), true)
           else Mapped(r, true))
    case Code(msg) =>
      Mapped(FailedWith(if msg.Some? then msg.value else "Unknown error"), false)
    case Unparsable(detail) =>
      Mapped(FailedWith("Failed to parse response: " + detail), false)
    case _ =>
      Mapped(FailedWith("Invalid response from exchange"), false)
  }

  /** How `getOrderStatus` maps the reply for a known order. A reply with
      an order id is translated status by status and overwrites the local
      entry; other replies give FAILED and leave it. A field of the wrong
      JSON type, or text `std::stod` rejects, throws out of the method
      (Failure), since only parse errors are caught. */
  function StatusOutcome(reply: Reply, stod: string -> Option<real>): (r: Result<Mapped>)
    ensures r.Failure? ==> reply.OrderId?
    ensures r.Success? ==> (r.value.store <==> reply.OrderId?)
    ensures r.Success? && reply.OrderId? ==> r.value.result.orderId == reply.id
    ensures r.Success? ==> (r.value.result.status == Succeeded <==> reply.OrderId? && reply.status == Some("FILLED"))
    ensures r.Success? ==> (r.value.result.status == Partial <==>
                              reply.OrderId? && reply.status == Some("PARTIALLY_FILLED"))
    ensures r.Success? && reply.OrderId? && reply.status == Some("CANCELED") ==>
              r.value.result.errorMessage == "Order CANCELED"
    ensures r.Success? && reply.OrderId? && reply.status == Some("REJECTED") ==>
              r.value.result.errorMessage == "Order REJECTED"
    ensures reply.Unparsable? ==> r == Success(Mapped(FailedWith("Parse error"), false))
  {
    match reply
    case OrderId(id, st, qty, pr) =>
      (match ParsedText(qty, stod)
       case Failure(e) => Failure(e)
       case Success(filled) =>
         var s := if st.Some? then st.value else "";
         var r := DefaultResult.(orderId := id, filledQuantity := filled);
         if s == "FILLED" || s == "PARTIALLY_FILLED" then
           match ParsedText(pr, stod)
           case Failure(e) => Failure(e)
           case Success(avg) =>
             Success(Mapped(r.(status := if s == "FILLED" then Succeeded else Partial, averagePrice := avg), true))
         else if s == "CANCELED" || s == "REJECTED" then
           Success(Mapped(r.(errorMessage := "Order " + s), true))
         else
           Success(Mapped(r, true)))
    case Code(msg) =>
      Success(Mapped(FailedWith(if msg.Some? then msg.value else "Unknown error"), false))
    case Unparsable(_) =>
      Success(Mapped(FailedWith("Parse error"), false))
    case _ =>
      Success(Mapped(DefaultResult, false))
  }

  class OrderExecutor {
    /** HMAC-SHA256(key, data), or None when OpenSSL returns null. */
    const hmac: (string, string) -> Option<Digest>
    /** `std::fixed << std::setprecision(8)`. */
    const fixed8: real -> Token
    /** `std::stod`, None when it throws. */
    const stod: string -> Option<real>
    const baseUrl: string

    var risk: RiskParams
    var status: ExecutionStatus
    var apiKey: string
    var apiSecret: string
    var nextOrderId: int
    var orders: map<u64, ExecutionResult>
    ghost var sent: seq<Request>

    constructor (hmac: (string, string) -> Option<Digest>, fixed8: real -> Token,
                 stod: string -> Option<real>)
      ensures this.hmac == hmac && this.fixed8 == fixed8 && this.stod == stod
      ensures baseUrl == BaseUrl && status == Idle && nextOrderId == 1 && risk == DefaultRisk
      ensures apiKey == "" && apiSecret == "" && orders == map[] && sent == []
    {
      this.hmac := hmac;
      this.fixed8 := fixed8;
      this.stod := stod;
      baseUrl := BaseUrl;
      risk := DefaultRisk;
      status := Idle;
      apiKey := "";
      apiSecret := "";
      nextOrderId := 1;
      orders := map[];
      sent := [];
    }

    method Initialize() returns (ok: bool)
      modifies this
      ensures ok && status == Idle && nextOrderId == 1
      ensures orders == old(orders) && sent == old(sent) && risk == old(risk)
      ensures apiKey == old(apiKey) && apiSecret == old(apiSecret)
    {
      status := Idle;
      nextOrderId := 1;
      ok := true;
    }

    /** Forgets every order and returns to IDLE. */
    method Cleanup()
      modifies this
      ensures orders == map[] && status == Idle
      ensures sent == old(sent) && risk == old(risk) && nextOrderId == old(nextOrderId)
      ensures apiKey == old(apiKey) && apiSecret == old(apiSecret)
    {
      orders := map[];
      status := Idle;
    }

    method SetRiskParams(params: RiskParams)
      modifies this
      ensures risk == params
      ensures status == old(status) && orders == old(orders) && sent == old(sent)
      ensures apiKey == old(apiKey) && apiSecret == old(apiSecret) && nextOrderId == old(nextOrderId)
    {
      risk := params;
    }

    method SetApiCredentials(key: string, secret: string)
      modifies this
      ensures apiKey == key && apiSecret == secret
      ensures status == old(status) && orders == old(orders) && sent == old(sent)
      ensures risk == old(risk) && nextOrderId == old(nextOrderId)
    {
      apiKey := key;
      apiSecret := secret;
    }

    function GetStatus(): (r: ExecutionStatus)
      reads this
      ensures r == status
    {
      status
    }

    method Disconnect()
      modifies this
      ensures status == Disconnected
      ensures orders == old(orders) && sent == old(sent) && risk == old(risk)
      ensures apiKey == old(apiKey) && apiSecret == old(apiSecret) && nextOrderId == old(nextOrderId)
    {
      status := Disconnected;
    }

    /** The URL `send_signed_request` builds for a query at time `nowMs`:
        the base URL, the endpoint and '?', then the caller's fields, the
        timestamp field and the signature of the signed string under the
        secret. */
    function SignedUrl(endpoint: string, query: string, nowMs: nat): (url: string)
      reads this`apiSecret
      ensures |url| > |baseUrl + endpoint| && url[..|baseUrl + endpoint| + 1] == baseUrl + endpoint + "?"
      ensures Fields(url[|baseUrl + endpoint| + 1..]) ==
              (if query == "" then [] else Fields(query)) +
              ["timestamp=" + Decimal(nowMs), "signature=" + Signature(hmac(apiSecret, ToSign(query, nowMs)))]
    {
      var signature := Signature(hmac(apiSecret, ToSign(query, nowMs)));
      assert '&' !in signature by {
        forall k | 0 <= k < |signature| ensures signature[k] != '&' { assert IsHexDigit(signature[k]); }
      }
      var head := baseUrl + endpoint + "?";
      var signed := SignedQuery(query, nowMs, signature);
      assert (head + signed)[..|head|] == head;
      assert (head + signed)[|head|..] == signed;
      head + signed
    }

    /** Builds the signed query step by step, signs it with the secret and
        records the request. */
    method SendSignedRequest(verb: string, endpoint: string, query: string, nowMs: nat)
      returns (url: string)
      modifies this`sent
      ensures url == SignedUrl(endpoint, query, nowMs)
      ensures sent == old(sent) + [Request(verb, url, apiKey)]
    {
      var full := query;
      if full != "" {
        full := full + "&";
      }
      full := full + "timestamp=" + Decimal(nowMs);
      assert full == ToSign(query, nowMs);
      var digest := hmac(apiSecret, full);
      var signature := "";
      if digest.Some? {
        signature := HexDigest(digest.value);
      }
      full := full + "&signature=" + signature;
      assert full == SignedQuery(query, nowMs, Signature(digest));
      url := baseUrl + endpoint + "?" + full;
      sent := sent + [Request(verb, url, apiKey)];
    }

    /** Missing credentials: ERROR with no request. Otherwise one signed
        account request; CONNECTED exactly when the reply has an account
        type, ERROR for anything else. */
    method Connect(nowMs: nat, reply: Reply) returns (ok: bool)
      modifies this
      ensures ok <==> old(apiKey) != "" && old(apiSecret) != "" && reply.AccountType?
      ensures status == if ok then Connected else Error
      ensures old(apiKey) == "" || old(apiSecret) == "" ==> sent == old(sent)
      ensures old(apiKey) != "" && old(apiSecret) != "" ==>
                sent == old(sent) + [Request("GET", old(SignedUrl("/api/v3/account", "", nowMs)), apiKey)]
      ensures orders == old(orders) && risk == old(risk) && nextOrderId == old(nextOrderId)
      ensures apiKey == old(apiKey) && apiSecret == old(apiSecret)
    {
      if apiKey == "" || apiSecret == "" {
        status := Error;
        return false;
      }
      status := Connecting;
      var _ := SendSignedRequest("GET", "/api/v3/account", "", nowMs);
      if reply.AccountType? {
        status := Connected;
        ok := true;
      } else {
        status := Error;
        ok := false;
      }
    }

    /** Rejects without a request when not connected or when the quantity
        is over the order-size limit; otherwise posts the order query and
        maps the reply with `SubmitOutcome`, storing the result under the
        exchange's id when the mapping says so. */
    method SubmitOrder(symbol: int, side: int, price: real, quantity: real, nowMs: nat, reply: Reply)
      returns (result: ExecutionResult)
      modifies this
      ensures status == old(status) && risk == old(risk) && nextOrderId == old(nextOrderId)
      ensures apiKey == old(apiKey) && apiSecret == old(apiSecret)
      ensures old(status) != Connected ==>
                result == FailedWith("Not connected to exchange") && orders == old(orders) && sent == old(sent)
      ensures old(status) == Connected && quantity > old(risk).maxOrderSize ==>
                result == FailedWith("Order size exceeds maximum allowed") &&
                orders == old(orders) && sent == old(sent)
      ensures old(status) == Connected && quantity <= old(risk).maxOrderSize ==>
                sent == old(sent) + [Request("POST",
                  old(SignedUrl("/api/v3/order", OrderQuery(symbol, side, price, quantity, fixed8), nowMs)),
                  apiKey)] &&
                result == SubmitOutcome(reply, price, quantity).result &&
                orders == if SubmitOutcome(reply, price, quantity).store
                          then old(orders)[reply.id := result] else old(orders)
    {
      if status != Connected {
        return FailedWith("Not connected to exchange");
      }
      if quantity > risk.maxOrderSize {
        return FailedWith("Order size exceeds maximum allowed");
      }
      var query := OrderQuery(symbol, side, price, quantity, fixed8);
      var _ := SendSignedRequest("POST", "/api/v3/order", query, nowMs);
      var m := SubmitOutcome(reply, price, quantity);
      result := m.result;
      if m.store {
        orders := orders[reply.id := result];
      }
    }

    /** Not connected: FAILED. An id missing from the table: FAILED "Order
        not found" with no request. A known id: one status request, the
        reply mapped by `StatusOutcome`; a Failure is an exception that
        leaves the method with the table unchanged. */
    method GetOrderStatus(id: u64, nowMs: nat, reply: Reply) returns (r: Result<ExecutionResult>)
      modifies this
      ensures status == old(status) && risk == old(risk) && nextOrderId == old(nextOrderId)
      ensures apiKey == old(apiKey) && apiSecret == old(apiSecret)
      ensures old(status) != Connected ==>
                r == Success(FailedWith("Not connected to exchange")) && orders == old(orders) && sent == old(sent)
      ensures old(status) == Connected && id !in old(orders) ==>
                r == Success(FailedWith("Order not found")) && orders == old(orders) && sent == old(sent)
      ensures old(status) == Connected && id in old(orders) ==>
                sent == old(sent) + [Request("GET", old(SignedUrl("/api/v3/order", OrderRef(id), nowMs)), apiKey)] &&
                match StatusOutcome(reply, stod)
                case Failure(e) => r == Failure(e) && orders == old(orders)
                case Success(m) =>
                  r == Success(m.result) &&
                  orders == if m.store then old(orders)[id := m.result] else old(orders)
    {
      if status != Connected {
        return Success(FailedWith("Not connected to exchange"));
      }
      if id !in orders {
        return Success(FailedWith("Order not found"));
      }
      var _ := SendSignedRequest("GET", "/api/v3/order", OrderRef(id), nowMs);
      var outcome := StatusOutcome(reply, stod);
      match outcome {
        case Failure(e) =>
          r := Failure(e);
        case Success(m) =>
          if m.store {
            orders := orders[id := m.result];
          }
          r := Success(m.result);
      }
    }

    /** Cancels through a status query first. In the source every connected
        call deadlocks there, since the status query re-locks the mutex the
        cancel already holds; this is the result the code gives when the
        nested lock is taken as a no-op. Only an order
        the exchange reports as FILLED or PARTIALLY_FILLED proceeds to the
        DELETE request; a reply to it with an order id marks the entry
        FAILED "Order cancelled" and gives true. */
    method CancelOrder(id: u64, statusMs: nat, statusReply: Reply, cancelMs: nat, cancelReply: Reply)
      returns (r: Result<bool>)
      modifies this
      ensures status == old(status) && risk == old(risk) && nextOrderId == old(nextOrderId)
      ensures apiKey == old(apiKey) && apiSecret == old(apiSecret)
      ensures old(status) != Connected ==> r == Success(false) && orders == old(orders) && sent == old(sent)
      ensures old(status) == Connected && id !in old(orders) ==>
                r == Success(false) && orders == old(orders) && sent == old(sent)
      ensures r == Success(true) ==>
                old(status) == Connected && id in old(orders) && statusReply.OrderId? &&
                (statusReply.status == Some("FILLED") || statusReply.status == Some("PARTIALLY_FILLED")) &&
                cancelReply.OrderId? && id in orders &&
                orders[id].status == Failed && orders[id].errorMessage == "Order cancelled" &&
                |sent| == |old(sent)| + 2 &&
                sent[|sent| - 1] == Request("DELETE", old(SignedUrl("/api/v3/order", OrderRef(id), cancelMs)), apiKey)
      ensures old(status) == Connected && id in old(orders) && StatusOutcome(statusReply, stod).Success? &&
              StatusOutcome(statusReply, stod).value.result.status == Failed ==>
                r == Success(false) && |sent| == |old(sent)| + 1
      ensures old(status) == Connected && id in old(orders) ==>
                var q := StatusOutcome(statusReply, stod);
                var t := AfterStatus(old(orders), id, q);
                var query := Request("GET", old(SignedUrl("/api/v3/order", OrderRef(id), statusMs)), apiKey);
                var delete := Request("DELETE", old(SignedUrl("/api/v3/order", OrderRef(id), cancelMs)), apiKey);
                id in t &&
                match q
                case Failure(e) => r == Failure(e) && orders == t && sent == old(sent) + [query]
                case Success(m) =>
                  if m.result.status == Failed then
                    r == Success(false) && orders == t && sent == old(sent) + [query]
                  else
                    sent == old(sent) + [query, delete] &&
                    if cancelReply.OrderId? then
                      r == Success(true) &&
                      orders == t[id := t[id].(status := Failed, errorMessage := "Order cancelled")]
                    else r == Success(false) && orders == t
    {
      if status != Connected {
        return Success(false);
      }
      ghost var query := Request("GET", SignedUrl("/api/v3/order", OrderRef(id), statusMs), apiKey);
      ghost var delete := Request("DELETE", SignedUrl("/api/v3/order", OrderRef(id), cancelMs), apiKey);
      ghost var t := AfterStatus(orders, id, StatusOutcome(statusReply, stod));
      ghost var sent0 := sent;
      var info := GetOrderStatus(id, statusMs, statusReply);
      assert id in old(orders) ==> orders == t && sent == sent0 + [query];
      if info.Failure? {
        return Failure(info.error);
      }
      if info.value.status == Failed {
        return Success(false);
      }
      assert statusReply.OrderId? &&
             (statusReply.status == Some("FILLED") || statusReply.status == Some("PARTIALLY_FILLED")) by {
        assert info.value.status == Succeeded || info.value.status == Partial;
      }
      r := SendCancel(id, cancelMs, cancelReply);
      assert sent == sent0 + [query, delete];
    }

    /** The DELETE half of `cancelOrder`: one signed request, then a reply
        with an order id marks the known order cancelled and answers true. */
    method SendCancel(id: u64, cancelMs: nat, cancelReply: Reply) returns (r: Result<bool>)
      modifies this`sent, this`orders
      ensures sent == old(sent) + [Request("DELETE", old(SignedUrl("/api/v3/order", OrderRef(id), cancelMs)), apiKey)]
      ensures cancelReply.OrderId? ==>
                r == Success(true) &&
                orders == if id in old(orders)
                          then old(orders)[id := old(orders)[id].(status := Failed, errorMessage := "Order cancelled")]
                          else old(orders)
      ensures !cancelReply.OrderId? ==> r == Success(false) && orders == old(orders)
    {
      var _ := SendSignedRequest("DELETE", "/api/v3/order", OrderRef(id), cancelMs);
      if cancelReply.OrderId? {
        if id in orders {
          orders := orders[id := orders[id].(status := Failed, errorMessage := "Order cancelled")];
        }
        return Success(true);
      }
      r := Success(false);
    }

    /** Spot trading holds no positions. */
    function GetPosition(symbol: int): (r: real)
      ensures r == 0.0
    {
      0.0
    }

    /** At most `maxCount` distinct ids from the table. A negative count
        makes the initial `reserve` throw `std::length_error`. */
    method GetOrderHistory(maxCount: i32) returns (r: Result<seq<u64>>)
      ensures maxCount < 0 <==> r == Failure("vector::reserve")
      ensures r.Success? ==> |r.value| == Min(maxCount, |orders|)
      ensures r.Success? ==> forall i :: 0 <= i < |r.value| ==> r.value[i] in orders
      ensures r.Success? ==> forall i, j :: 0 <= i < j < |r.value| ==> r.value[i] != r.value[j]
    {
      if maxCount < 0 {
        return Failure("vector::reserve");
      }
      var ids := TakeIds(orders.Keys, maxCount);
      r := Success(ids);
    }
  }
}
