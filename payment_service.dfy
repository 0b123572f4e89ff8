/** The VNPay payment flow: building the signed payment URL for an order, the
    browser return check and the IPN (instant payment notification) decision
    procedure that settles an order's payment status. */
module PaymentService {
  import opened Common
  import opened JavaLang
  import opened OrderEntity
  import opened VNPayUtil

  /** The gateway settings the service reads. */
  datatype VNPayConfig = VNPayConfig(
    tmnCode: string,
    hashSecret: string,
    payUrl: string,
    returnUrl: string,
    version: string,
    command: string,
    orderType: string,
    ipnUrl: string,
    vnpUrl: string)

  /** A recorded payment; `transactionId`, `bankCode` and `cardType` are null
      when the notification lacks them. */
  datatype Payment = Payment(
    transactionId: Option<string>,
    vnpTxnRef: string,
    vnpResponseCode: string,
    bankCode: Option<string>,
    cardType: Option<string>,
    orderId: string)

  /** The body of the IPN reply. */
  datatype IpnReply = IpnReply(rspCode: string, message: string)

  /** An IPN reply together with the repository contents after it. */
  datatype IpnResult = IpnResult(reply: IpnReply, orders: map<string, Order>, payments: seq<Payment>)

  /** `Map.get`: null when the key is absent. */
  function Get(m: map<string, string>, k: string): (r: Option<string>)
    ensures r.Some? <==> k in m
    ensures r.Some? ==> r.value == m[k]
  {
    if k in m then Some(m[k]) else None
  }

  /** The request parameters the handlers copy into `fields`: those whose
      value is non-empty. */
  function NonEmpty(params: map<string, string>): (r: map<string, string>)
    ensures forall k :: k in r <==> k in params && params[k] != ""
    ensures forall k :: k in r ==> r[k] == params[k]
  {
    map k | k in params && params[k] != "" :: params[k]
  }

  /** The fields the signature covers: the non-empty parameters without the
      signature and its type. */
  function SignedFields(params: map<string, string>): map<string, string>
  {
    NonEmpty(params) - {"vnp_SecureHash", "vnp_SecureHashType"}
  }

  /** The MAC is HMAC-SHA512: 64 bytes for any key and message. */
  ghost predicate IsSha512Mac(mac: (string, string) -> seq<byte>)
  {
    forall key, data :: |mac(key, data)| == 64
  }

  // ---------------------------------------------------------------------------
  // The amount

  /** `String.valueOf(order.getTotalPrice() * 100)` as written: the product of
      an `Integer` and an `int` is a 32-bit `int` and wraps around. */
  function AmountAsWritten(totalPrice: int): string
  {
    ValueOf(Wrap32(totalPrice * 100))
  }

  /** The amount with the product computed as a `long`, as the gateway expects. */
  function Amount(totalPrice: int): string
  {
    ValueOf(totalPrice * 100)
  }

  /** How the IPN handler reads an amount: `Long.parseLong(v) / 100`. */
  function AmountReadBack(v: string): Option<int>
  {
    match ParseLong(v)
    case None => None
    case Some(n) => Some(JavaDiv(n, 100))
  }

  /** As written, every order total above 21474836 is sent wrapped around
      and read back as a different number (21474837 is sent as -2147483596 and
      read back as -21474835), so the notification for such an order always
      fails the amount check. */
  lemma AmountAsWrittenMisreads(totalPrice: int)
    requires 21474836 < totalPrice <= INT_MAX
    ensures AmountReadBack(AmountAsWritten(totalPrice)).Some?
    ensures AmountReadBack(AmountAsWritten(totalPrice)).value != totalPrice
  {
    var w := Wrap32(totalPrice * 100);
    ParseValueOf(w);
    var q := JavaDiv(w, 100);
    assert q <= 21474836;
  }

  /** The two agree as long as the product fits in an `int`. */
  lemma AmountAsWrittenAgrees(totalPrice: int)
    requires INT_MIN <= totalPrice * 100 <= INT_MAX
    ensures AmountAsWritten(totalPrice) == Amount(totalPrice)
  {
  }

  lemma DivHundred(t: int)
    ensures JavaDiv(t * 100, 100) == t
  {
    var r := JavaDiv(t * 100, 100);
    assert t * 100 - r * 100 == (t - r) * 100;
  }

  /** Every `Integer` total is read back unchanged from the amount sent. */
  lemma AmountRoundTrip(totalPrice: int)
    requires INT_MIN <= totalPrice <= INT_MAX
    ensures AmountReadBack(Amount(totalPrice)) == Some(totalPrice)
  {
    ParseValueOf(totalPrice * 100);
    DivHundred(totalPrice);
  }

  // ---------------------------------------------------------------------------
  // The payment URL

  /** The parameters `createPaymentUrl` sends for an order. */
  function PaymentParams(config: VNPayConfig, orderId: string, amount: string, ip: string,
                         createDate: string, expireDate: string): map<string, string>
  {
    map["vnp_Version" := config.version,
        "vnp_Command" := config.command,
        "vnp_TmnCode" := config.tmnCode,
        "vnp_Amount" := amount,
        "vnp_CurrCode" := "VND",
        "vnp_TxnRef" := orderId,
        "vnp_OrderInfo" := "Thanh toan don hang",
        "vnp_OrderType" := config.orderType,
        "vnp_Locale" := "vn",
        "vnp_ReturnUrl" := config.returnUrl,
        "vnp_IpnUrl" := config.ipnUrl,
        "vnp_IpAddr" := ip,
        "vnp_CreateDate" := createDate,
        "vnp_ExpireDate" := expireDate]
  }

  /** What the loop appends for one field: nothing for an empty value, else
      `name=value`, followed by '&' unless the field is the last key. */
  function Piece(name: string, value: string, last: bool): string
  {
    if value == "" then "" else name + "=" + UrlEncode(value) + (if last then "" else "&")
  }

  /** The signed data as the loop builds it after the first `n` keys. */
  function HashDataAsBuilt(keys: seq<string>, n: nat, params: map<string, string>): string
    requires n <= |keys| && KeysIn(keys, params)
  {
    if n == 0 then ""
    else HashDataAsBuilt(keys, n - 1, params) + Piece(keys[n - 1], params[keys[n - 1]], n == |keys|)
  }

  /** The query as the loop builds it after the first `n` keys: the same
      pieces with the key encoded as well. */
  function QueryAsBuilt(keys: seq<string>, n: nat, params: map<string, string>): string
    requires n <= |keys| && KeysIn(keys, params)
  {
    if n == 0 then ""
    else QueryAsBuilt(keys, n - 1, params) + Piece(UrlEncode(keys[n - 1]), params[keys[n - 1]], n == |keys|)
  }

  /** The data `createPaymentUrl` signs for `params`. */
  ghost function SignedData(params: map<string, string>): string
  {
    var keys := SortedKeys(params.Keys);
    SortedKeysIn(params.Keys, params);
    HashDataAsBuilt(keys, |keys|, params)
  }

  /** The query `createPaymentUrl` builds for `params`. */
  ghost function UrlQuery(params: map<string, string>): string
  {
    var keys := SortedKeys(params.Keys);
    SortedKeysIn(params.Keys, params);
    QueryAsBuilt(keys, |keys|, params)
  }

  /** The URL signed over `params`: the base, '?', the query, and the hex of
      the MAC of the signed data. */
  ghost function SignedUrl(config: VNPayConfig, mac: (string, string) -> seq<byte>, params: map<string, string>): string
  {
    config.vnpUrl + "?" + UrlQuery(params) + "&vnp_SecureHash=" + Hex(mac(config.hashSecret, SignedData(params)))
  }

  /** The URL `createPaymentUrl` returns for an order, given the client
      address and the two timestamps. It carries the corrected `Amount`; the
      amount as written, `AmountAsWritten`, differs from it only for totals
      whose product by 100 leaves the `int` range. */
  ghost function PaymentUrl(orders: map<string, Order>, config: VNPayConfig, mac: (string, string) -> seq<byte>,
                            orderId: string, ip: string, createDate: string, expireDate: string): Result<string>
  {
    if orderId !in orders then Err("order-e-01")
    else if orders[orderId].totalPrice.None? then Err("NullPointerException")
    else
      var params := PaymentParams(config, orderId, Amount(orders[orderId].totalPrice.value), ip, createDate, expireDate);
      Ok(SignedUrl(config, mac, params))
  }

  /** Before the last key every present field is followed by '&'. */
  lemma {:induction false} HashDataPrefix(keys: seq<string>, n: nat, params: map<string, string>)
    requires n < |keys| && KeysIn(keys, params)
    ensures KeysIn(keys[..n], params)
    ensures HashDataAsBuilt(keys, n, params) == Terminated(PairsOf(keys[..n], params))
  {
    if n > 0 {
      var m := n - 1;
      HashDataPrefix(keys, m, params);
      PairsOfStep(keys, m, params);
      var k := keys[m];
      var ps := PairsOf(keys[..m], params);
      assert HashDataAsBuilt(keys, n, params) == Terminated(ps) + Piece(k, params[k], false);
      if params[k] != "" {
        TerminatedSnoc(ps, Pair(k, params[k]));
        assert Piece(k, params[k], false) == Pair(k, params[k]) + "&";
      } else {
        assert Piece(k, params[k], false) == "";
        assert PairsOf(keys[..n], params) == ps;
      }
    }
  }

  lemma TerminatedThen(parts: seq<string>, p: string)
    ensures Terminated(parts) + p == Join(parts + [p], "&")
  {
    if parts == [] {
      assert parts + [p] == [p];
    } else {
      TerminatedJoin(parts);
      JoinSnoc(parts, p, "&");
    }
  }

  /** When the last key has a value, the data the payment URL signs is the
      canonical string `hashAllFields` computes over the same parameters; when
      it has none, the signed data keeps a trailing '&'. */
  lemma HashDataCanonical(keys: seq<string>, params: map<string, string>)
    requires |keys| > 0 && KeysIn(keys, params)
    ensures params[keys[|keys| - 1]] != "" ==>
      HashDataAsBuilt(keys, |keys|, params) == Join(PairsOf(keys, params), "&")
    ensures params[keys[|keys| - 1]] == "" && PairsOf(keys, params) != [] ==>
      HashDataAsBuilt(keys, |keys|, params) == Join(PairsOf(keys, params), "&") + "&"
  {
    var n := |keys| - 1;
    HashDataPrefix(keys, n, params);
    PairsOfStep(keys, n, params);
    assert keys[..n + 1] == keys;
    var k := keys[n];
    var ps := PairsOf(keys[..n], params);
    assert HashDataAsBuilt(keys, |keys|, params) == Terminated(ps) + Piece(k, params[k], true);
    if params[k] != "" {
      assert Piece(k, params[k], true) == Pair(k, params[k]);
      TerminatedThen(ps, Pair(k, params[k]));
    } else {
      assert Piece(k, params[k], true) == "";
      assert PairsOf(keys, params) == ps;
      if ps != [] {
        TerminatedJoin(ps);
      }
    }
  }

  /** With keys that encode to themselves the query is the signed data. */
  lemma {:induction false} QueryIsHashData(keys: seq<string>, n: nat, params: map<string, string>)
    requires n <= |keys| && KeysIn(keys, params)
    requires forall i :: 0 <= i < |keys| ==> UrlEncode(keys[i]) == keys[i]
    ensures QueryAsBuilt(keys, n, params) == HashDataAsBuilt(keys, n, params)
  {
    if n > 0 {
      QueryIsHashData(keys, n - 1, params);
    }
  }

  // ---------------------------------------------------------------------------
  // The return and IPN decisions

  /** What the handlers read from a request: the canonical string of the
      signed fields (or the exception computing it throws), the signature
      sent, and the notification fields the IPN decision looks at. */
  datatype Notice = Notice(
    data: Result<string>,
    secureHash: Option<string>,
    txnRef: Option<string>,
    amount: Option<string>,
    responseCode: Option<string>,
    transactionStatus: Option<string>,
    transactionNo: Option<string>,
    bankCode: Option<string>,
    cardType: Option<string>)

  /** The notice the IPN handler reads: every field is taken from the
      non-empty parameters. */
  ghost function ReadNotice(params: map<string, string>): Notice
  {
    var fields := SignedFields(params);
    Notice(Canonical(fields), Get(NonEmpty(params), "vnp_SecureHash"), Get(fields, "vnp_TxnRef"),
           Get(fields, "vnp_Amount"), Get(fields, "vnp_ResponseCode"), Get(fields, "vnp_TransactionStatus"),
           Get(fields, "vnp_TransactionNo"), Get(fields, "vnp_BankCode"), Get(fields, "vnp_CardType"))
  }

  /** The signature sent is the hex of the MAC of the canonical string. */
  predicate SignedNotice(secret: string, mac: (string, string) -> seq<byte>, n: Notice)
  {
    n.data.Ok? && n.secureHash == Some(Hex(mac(secret, n.data.value)))
  }

  /** The request parameters carry the signature of their other non-empty
      fields. */
  ghost predicate Signed(secret: string, mac: (string, string) -> seq<byte>, params: map<string, string>)
  {
    SignedNotice(secret, mac, ReadNotice(params))
  }

  /** What `handleReturn` yields: the order named by vnp_TxnRef once the
      signature checks; it never writes. The signature and the order id are
      read from the raw parameters. */
  ghost function ReturnOutcome(orders: map<string, Order>, secret: string, mac: (string, string) -> seq<byte>,
                               params: map<string, string>): Result<Order>
  {
    var data := Canonical(SignedFields(params));
    if data.Err? then Err(data.code)
    else if Get(params, "vnp_SecureHash") != Some(Hex(mac(secret, data.value))) then Err("payment-e-02")
    else if "vnp_TxnRef" !in params then Err("IllegalArgumentException")
    else if params["vnp_TxnRef"] !in orders then Err("order-e-01")
    else Ok(orders[params["vnp_TxnRef"]])
  }

  /** The return check accepts exactly the signed parameters, and then
      yields the stored order. */
  lemma ReturnChecksSignature(orders: map<string, Order>, secret: string, mac: (string, string) -> seq<byte>,
                              params: map<string, string>)
    requires IsSha512Mac(mac)
    requires Canonical(SignedFields(params)).Ok?
    ensures !Signed(secret, mac, params) <==> ReturnOutcome(orders, secret, mac, params) == Err("payment-e-02")
    ensures Signed(secret, mac, params) && "vnp_TxnRef" in params && params["vnp_TxnRef"] in orders ==>
      ReturnOutcome(orders, secret, mac, params) == Ok(orders[params["vnp_TxnRef"]])
  {
    var data := Canonical(SignedFields(params));
    HexShape(mac(secret, data.value));
    assert |Hex(mac(secret, data.value))| == 128;
  }

  /** The IPN decision over a notice: signature (97), order (01), amount
      (04), already paid (02); then the order becomes PAID, with a payment
      recorded, or FAILED. Exceptions are the ones the Java code throws on a
      missing order id, a missing or malformed amount and a null total. */
  function Decide(orders: map<string, Order>, payments: seq<Payment>, secret: string,
                  mac: (string, string) -> seq<byte>, n: Notice): Result<IpnResult>
  {
    if n.data.Err? then Err(n.data.code)
    else if n.secureHash != Some(Hex(mac(secret, n.data.value))) then
      Ok(IpnResult(IpnReply("97", "Invalid signature"), orders, payments))
    else if n.txnRef.None? then Err("IllegalArgumentException")
    else
      var orderId := n.txnRef.value;
      if orderId !in orders then Ok(IpnResult(IpnReply("01", "Order not found"), orders, payments))
      else
        var order := orders[orderId];
        var amount := AmountReadBack(if n.amount.Some? then n.amount.value else "");
        if amount.None? then Err("NumberFormatException")
        else if order.totalPrice.None? then Err("NullPointerException")
        else if amount.value != order.totalPrice.value then
          Ok(IpnResult(IpnReply("04", "Invalid amount"), orders, payments))
        else if order.paymentStatus == PaymentStatus.PAID then
          Ok(IpnResult(IpnReply("02", "Order already confirmed"), orders, payments))
        else if n.responseCode == Some("00") && n.transactionStatus == Some("00") then
          var payment := Payment(n.transactionNo, orderId, "00", n.bankCode, n.cardType, orderId);
          Ok(IpnResult(IpnReply("00", "Confirm Success"),
                       orders[orderId := order.(paymentStatus := PaymentStatus.PAID)], payments + [payment]))
        else
          Ok(IpnResult(IpnReply("00", "Payment failed"),
                       orders[orderId := order.(paymentStatus := PaymentStatus.FAILED)], payments))
  }

  /** `PaymentController.paymentIpn`: 200 for RspCode "00", else 400. */
  function HttpStatus(reply: IpnReply): (status: int)
    ensures status == 200 || status == 400
    ensures status == 200 <==> reply.rspCode == "00"
  {
    if reply.rspCode == "00" then 200 else 400
  }

  /** Every reply is one of the five codes; every reply other than "00"
      (every HTTP 400) leaves orders and payments as they were; a "00" reply
      changes only the payment status of the notified order, which was not
      PAID, to PAID (recording one payment for it) or to FAILED (recording
      none). */
  lemma IpnEffects(orders: map<string, Order>, payments: seq<Payment>, secret: string,
                   mac: (string, string) -> seq<byte>, n: Notice)
    ensures Decide(orders, payments, secret, mac, n).Ok? ==>
      var s := Decide(orders, payments, secret, mac, n).value;
      && s.reply.rspCode in {"97", "01", "04", "02", "00"}
      && (HttpStatus(s.reply) == 400 ==> s.orders == orders && s.payments == payments)
      && (HttpStatus(s.reply) == 200 ==>
            && n.txnRef.Some? && n.txnRef.value in orders
            && orders[n.txnRef.value].paymentStatus != PaymentStatus.PAID
            && ((&& s.orders == orders[n.txnRef.value := orders[n.txnRef.value].(paymentStatus := PaymentStatus.PAID)]
                 && |s.payments| == |payments| + 1 && s.payments[..|payments|] == payments
                 && s.payments[|payments|].vnpTxnRef == n.txnRef.value
                 && s.payments[|payments|].orderId == n.txnRef.value)
                || (&& s.orders == orders[n.txnRef.value := orders[n.txnRef.value].(paymentStatus := PaymentStatus.FAILED)]
                    && s.payments == payments)))
  {
    var r := Decide(orders, payments, secret, mac, n);
    if r.Ok? && r.value.reply.rspCode == "00" && r.value.reply.message == "Confirm Success" {
      assert r.value.payments[..|payments|] == payments;
    }
  }

  /** With a canonical string to check, a notice whose signature does not
      match is answered with 97 and nothing else happens, and a signed one is
      never answered with 97. */
  lemma IpnChecksSignature(orders: map<string, Order>, payments: seq<Payment>, secret: string,
                           mac: (string, string) -> seq<byte>, n: Notice)
    requires n.data.Ok?
    ensures !SignedNotice(secret, mac, n) <==>
      Decide(orders, payments, secret, mac, n) == Ok(IpnResult(IpnReply("97", "Invalid signature"), orders, payments))
  {
  }

  /** A signed notification of a successful payment of the right amount for
      an order that is not yet paid confirms it: the order becomes PAID and one
      payment referring to it is recorded. */
  lemma IpnConfirmsSignedPayment(orders: map<string, Order>, payments: seq<Payment>, secret: string,
                                 mac: (string, string) -> seq<byte>, n: Notice)
    requires SignedNotice(secret, mac, n)
    requires n.txnRef.Some? && n.txnRef.value in orders
    requires var o := orders[n.txnRef.value];
      && o.totalPrice.Some? && INT_MIN <= o.totalPrice.value <= INT_MAX
      && o.paymentStatus != PaymentStatus.PAID
      && n.amount == Some(Amount(o.totalPrice.value))
    requires n.responseCode == Some("00") && n.transactionStatus == Some("00")
    ensures var id := n.txnRef.value;
      Decide(orders, payments, secret, mac, n)
        == Ok(IpnResult(IpnReply("00", "Confirm Success"),
                        orders[id := orders[id].(paymentStatus := PaymentStatus.PAID)],
                        payments + [Payment(n.transactionNo, id, "00", n.bankCode, n.cardType, id)]))
  {
    AmountRoundTrip(orders[n.txnRef.value].totalPrice.value);
  }

  /** Re-sending a notification that confirmed a payment is answered with 02
      and records no second payment. */
  lemma IpnIdempotent(orders: map<string, Order>, payments: seq<Payment>, secret: string,
                      mac: (string, string) -> seq<byte>, n: Notice)
    requires Decide(orders, payments, secret, mac, n).Ok?
    requires Decide(orders, payments, secret, mac, n).value.reply == IpnReply("00", "Confirm Success")
    ensures var s := Decide(orders, payments, secret, mac, n).value;
      Decide(s.orders, s.payments, secret, mac, n)
        == Ok(IpnResult(IpnReply("02", "Order already confirmed"), s.orders, s.payments))
  {
  }

  /** For parameters that all have a value, the data the payment URL signs
      is the canonical string `hashAllFields` computes over them; when their
      names also encode to themselves, so is the query. */
  lemma SignedDataCanonical(params: map<string, string>)
    requires |params| > 0
    requires forall k :: k in params ==> params[k] != ""
    ensures Canonical(params).Ok? && SignedData(params) == Canonical(params).value
    ensures (forall k :: k in params ==> UrlEncode(k) == k) ==> UrlQuery(params) == Canonical(params).value
  {
    var keys := SortedKeys(params.Keys);
    SortedKeysIn(params.Keys, params);
    var last := keys[|keys| - 1];
    assert last in params;
    HashDataCanonical(keys, params);
    PairsOfStep(keys, |keys| - 1, params);
    assert keys[..|keys|] == keys;
    assert PairsOf(keys, params) != [];
    if forall k :: k in params ==> UrlEncode(k) == k {
      forall i | 0 <= i < |keys| ensures UrlEncode(keys[i]) == keys[i] {
        assert keys[i] in params;
      }
      QueryIsHashData(keys, |keys|, params);
    }
  }

  /** Parameters without a signature, echoed back with the signature of
      their canonical string, are signed, and pass the return check for the
      order they name. */
  lemma EchoedSigned(orders: map<string, Order>, secret: string, mac: (string, string) -> seq<byte>,
                     params: map<string, string>)
    requires IsSha512Mac(mac)
    requires forall k :: k in params ==> params[k] != ""
    requires "vnp_SecureHash" !in params && "vnp_SecureHashType" !in params
    requires Canonical(params).Ok?
    ensures var echoed := params["vnp_SecureHash" := Hex(mac(secret, Canonical(params).value))];
      && SignedFields(echoed) == params
      && Signed(secret, mac, echoed)
      && ReadNotice(echoed).txnRef == Get(params, "vnp_TxnRef")
      && ReadNotice(echoed).amount == Get(params, "vnp_Amount")
      && ("vnp_TxnRef" in params && params["vnp_TxnRef"] in orders ==>
            ReturnOutcome(orders, secret, mac, echoed) == Ok(orders[params["vnp_TxnRef"]]))
  {
    var c := Canonical(params).value;
    var sig := Hex(mac(secret, c));
    HexShape(mac(secret, c));
    var echoed := params["vnp_SecureHash" := sig];
    EchoedFields(params, sig);
    assert ReadNotice(echoed).data == Canonical(params);
    assert ReadNotice(echoed).secureHash == Some(sig);
    ReturnChecksSignature(orders, secret, mac, echoed);
  }

  /** Adding a non-empty signature to parameters that all have a value
      leaves exactly those parameters as the signed fields. */
  lemma EchoedFields(params: map<string, string>, sig: string)
    requires forall k :: k in params ==> params[k] != ""
    requires "vnp_SecureHash" !in params && "vnp_SecureHashType" !in params
    requires sig != ""
    ensures NonEmpty(params["vnp_SecureHash" := sig]) == params["vnp_SecureHash" := sig]
    ensures SignedFields(params["vnp_SecureHash" := sig]) == params
  {
    var echoed := params["vnp_SecureHash" := sig];
    assert NonEmpty(echoed) == echoed;
  }

  /** The URL signed over parameters that all have a value carries the MAC
      of their canonical string, and echoing them back with it makes a signed
      notice for the same order id and amount. */
  lemma SignedUrlEchoed(orders: map<string, Order>, config: VNPayConfig, mac: (string, string) -> seq<byte>,
                        params: map<string, string>)
    requires IsSha512Mac(mac)
    requires |params| > 0
    requires forall k :: k in params ==> params[k] != ""
    requires "vnp_SecureHash" !in params && "vnp_SecureHashType" !in params
    ensures var c := Canonical(params);
      && c.Ok?
      && var sig := Hex(mac(config.hashSecret, c.value));
         var echoed := params["vnp_SecureHash" := sig];
         && SignedUrl(config, mac, params) == config.vnpUrl + "?" + UrlQuery(params) + "&vnp_SecureHash=" + sig
         && Signed(config.hashSecret, mac, echoed)
         && ReadNotice(echoed).txnRef == Get(params, "vnp_TxnRef")
         && ReadNotice(echoed).amount == Get(params, "vnp_Amount")
         && ("vnp_TxnRef" in params && params["vnp_TxnRef"] in orders ==>
               ReturnOutcome(orders, config.hashSecret, mac, echoed) == Ok(orders[params["vnp_TxnRef"]]))
  {
    SignedDataCanonical(params);
    EchoedSigned(orders, config.hashSecret, mac, params);
  }

  /** The names of the parameters `createPaymentUrl` sends. */
  const PaymentNames: set<string> := {"vnp_Version", "vnp_Command", "vnp_TmnCode", "vnp_Amount", "vnp_CurrCode",
    "vnp_TxnRef", "vnp_OrderInfo", "vnp_OrderType", "vnp_Locale", "vnp_ReturnUrl",
    "vnp_IpnUrl", "vnp_IpAddr", "vnp_CreateDate", "vnp_ExpireDate"}

  /** `createPaymentUrl` sends exactly the fourteen names. */
  lemma PaymentParamsNames(config: VNPayConfig, orderId: string, amount: string, ip: string,
                           createDate: string, expireDate: string)
    ensures PaymentParams(config, orderId, amount, ip, createDate, expireDate).Keys == PaymentNames
  {
  }

  /** The signature fields are not among the parameters `createPaymentUrl`
      sends, and vnp_TxnRef and vnp_Amount carry the order id and the
      amount. */
  lemma PaymentParamsShape(config: VNPayConfig, orderId: string, amount: string, ip: string,
                           createDate: string, expireDate: string)
    ensures var params := PaymentParams(config, orderId, amount, ip, createDate, expireDate);
      && "vnp_SecureHash" !in params && "vnp_SecureHashType" !in params
      && params["vnp_TxnRef"] == orderId && params["vnp_Amount"] == amount
  {
  }

  /** With every setting and argument set, every parameter
      `createPaymentUrl` sends has a value. */
  lemma PaymentParamsFilled(config: VNPayConfig, orderId: string, amount: string, ip: string,
                            createDate: string, expireDate: string)
    requires config.version != "" && config.command != "" && config.tmnCode != "" && config.orderType != ""
    requires config.returnUrl != "" && config.ipnUrl != ""
    requires orderId != "" && amount != "" && ip != "" && createDate != "" && expireDate != ""
    ensures var params := PaymentParams(config, orderId, amount, ip, createDate, expireDate);
      forall k :: k in params ==> params[k] != ""
  {
  }

  /** A payment URL for an order whose settings are all set: its query is the
      canonical string of its parameters and its signature the MAC of that
      string, so the parameters echoed back with that signature pass the
      return check for the order, and the notice they make names the order and
      carries an amount that reads back as its total. */
  lemma PaymentUrlSigned(orders: map<string, Order>, config: VNPayConfig, mac: (string, string) -> seq<byte>,
                         orderId: string, ip: string, createDate: string, expireDate: string)
    requires IsSha512Mac(mac)
    requires orderId in orders && orders[orderId].totalPrice.Some?
    requires INT_MIN <= orders[orderId].totalPrice.value <= INT_MAX
    requires config.version != "" && config.command != "" && config.tmnCode != "" && config.orderType != ""
    requires config.returnUrl != "" && config.ipnUrl != ""
    requires orderId != "" && ip != "" && createDate != "" && expireDate != ""
    ensures var tp := orders[orderId].totalPrice.value;
      var params := PaymentParams(config, orderId, Amount(tp), ip, createDate, expireDate);
      var c := Canonical(params);
      && c.Ok?
      && var sig := Hex(mac(config.hashSecret, c.value));
         var echoed := params["vnp_SecureHash" := sig];
         && PaymentUrl(orders, config, mac, orderId, ip, createDate, expireDate)
            == Ok(config.vnpUrl + "?" + UrlQuery(params) + "&vnp_SecureHash=" + sig)
         && Signed(config.hashSecret, mac, echoed)
         && ReturnOutcome(orders, config.hashSecret, mac, echoed) == Ok(orders[orderId])
         && ReadNotice(echoed).txnRef == Some(orderId)
         && ReadNotice(echoed).amount == Some(Amount(tp))
         && AmountReadBack(Amount(tp)) == Some(tp)
  {
    var tp := orders[orderId].totalPrice.value;
    var params := PaymentParams(config, orderId, Amount(tp), ip, createDate, expireDate);
    PaymentParamsShape(config, orderId, Amount(tp), ip, createDate, expireDate);
    assert Amount(tp) != "";
    PaymentParamsFilled(config, orderId, Amount(tp), ip, createDate, expireDate);
    assert |params| > 0 by { assert "vnp_TxnRef" in params; }
    SignedUrlEchoed(orders, config, mac, params);
    AmountRoundTrip(tp);
  }

  /** The reading half of `handleIpn`: the non-empty parameters, the
      signature taken from them, and the canonical string and notification
      fields of what is left once the signature fields are removed. */
  method ReadIpnNotice(params: map<string, string>) returns (n: Notice)
    ensures n == ReadNotice(params)
  {
    var fields := NonEmpty(params);
    var secureHash := Get(fields, "vnp_SecureHash");
    fields := fields - {"vnp_SecureHash", "vnp_SecureHashType"};
    var data := HashAllFields(fields);
    n := Notice(data, secureHash, Get(fields, "vnp_TxnRef"), Get(fields, "vnp_Amount"),
                Get(fields, "vnp_ResponseCode"), Get(fields, "vnp_TransactionStatus"),
                Get(fields, "vnp_TransactionNo"), Get(fields, "vnp_BankCode"), Get(fields, "vnp_CardType"));
  }

  // ---------------------------------------------------------------------------
  // The service

  /** The loop of `createPaymentUrl`: each field with a value as
      `name=value`, into the signed data with the name as is and into the
      query with the name encoded, followed by '&' while keys remain. */
  method AppendFields(fieldNames: seq<string>, params: map<string, string>) returns (hashData: string, query: string)
    requires KeysIn(fieldNames, params)
    ensures hashData == HashDataAsBuilt(fieldNames, |fieldNames|, params)
    ensures query == QueryAsBuilt(fieldNames, |fieldNames|, params)
  {
    hashData := "";
    query := "";
    for i := 0 to |fieldNames|
      invariant hashData == HashDataAsBuilt(fieldNames, i, params)
      invariant query == QueryAsBuilt(fieldNames, i, params)
    {
      var fieldName := fieldNames[i];
      var fieldValue := params[fieldName];
      ghost var last := i + 1 == |fieldNames|;
      if fieldValue != "" {
        PieceBuilt(hashData, fieldName, fieldValue, last);
        PieceBuilt(query, UrlEncode(fieldName), fieldValue, last);
        hashData := hashData + fieldName + "=" + UrlEncode(fieldValue);
        query := query + UrlEncode(fieldName) + "=" + UrlEncode(fieldValue);
        if i + 1 < |fieldNames| {
          query := query + "&";
          hashData := hashData + "&";
        }
      }
    }
  }

  lemma PieceBuilt(h: string, name: string, value: string, last: bool)
    requires value != ""
    ensures last ==> h + name + "=" + UrlEncode(value) == h + Piece(name, value, last)
    ensures !last ==> h + name + "=" + UrlEncode(value) + "&" == h + Piece(name, value, last)
  {
  }

  class PaymentService {
    const config: VNPayConfig
    const mac: (string, string) -> seq<byte>
    var orders: map<string, Order>
    var payments: seq<Payment>

    constructor(config: VNPayConfig, mac: (string, string) -> seq<byte>, orders: map<string, Order>)
      ensures this.config == config && this.mac == mac && this.orders == orders && payments == []
    {
      this.config := config;
      this.mac := mac;
      this.orders := orders;
      payments := [];
    }

    /** `createPaymentUrl`; the client address comes from the request headers
        and the two timestamps from the clock. */
    method CreatePaymentUrl(orderId: string, forwardedFor: Option<string>, remoteAddr: string,
                            createDate: string, expireDate: string) returns (r: Result<string>)
      ensures r == PaymentUrl(orders, config, mac, orderId, ClientIp(forwardedFor, remoteAddr), createDate, expireDate)
    {
      if orderId !in orders {
        return Err("order-e-01");
      }
      var order := orders[orderId];
      if order.totalPrice.None? {
        return Err("NullPointerException");
      }
      var ip := GetIpAddress(forwardedFor, remoteAddr);
      var params := PaymentParams(config, orderId, Amount(order.totalPrice.value), ip, createDate, expireDate);
      var fieldNames := SortKeys(params.Keys);
      SortedKeysIn(params.Keys, params);
      var hashData, query := AppendFields(fieldNames, params);
      var secureHash := HmacSha512(mac, config.hashSecret, hashData);
      r := Ok(config.vnpUrl + "?" + query + "&vnp_SecureHash=" + secureHash);
    }

    /** `handleReturn`. */
    method HandleReturn(params: map<string, string>) returns (r: Result<Order>)
      ensures r == ReturnOutcome(orders, config.hashSecret, mac, params)
    {
      var fields := NonEmpty(params);
      var secureHash := Get(params, "vnp_SecureHash");
      fields := fields - {"vnp_SecureHash", "vnp_SecureHashType"};
      var data := HashAllFields(fields);
      if data.Err? {
        return Err(data.code);
      }
      var signValue := HmacSha512(mac, config.hashSecret, data.value);
      if secureHash != Some(signValue) {
        return Err("payment-e-02");
      }
      var orderId := Get(params, "vnp_TxnRef");
      if orderId.None? {
        return Err("IllegalArgumentException");
      }
      if orderId.value !in orders {
        return Err("order-e-01");
      }
      r := Ok(orders[orderId.value]);
    }

    /** `handleIpn`: the reply, or the exception it throws. */
    method HandleIpn(params: map<string, string>) returns (r: Result<IpnReply>)
      modifies this
      ensures match Decide(old(orders), old(payments), config.hashSecret, mac, ReadNotice(params))
        case Err(code) => r == Err(code) && orders == old(orders) && payments == old(payments)
        case Ok(s) => r == Ok(s.reply) && orders == s.orders && payments == s.payments
    {
      var n := ReadIpnNotice(params);
      r := ApplyIpn(n);
    }

    /** The deciding half of `handleIpn`, from the signature check on. */
    method ApplyIpn(n: Notice) returns (r: Result<IpnReply>)
      modifies this
      ensures match Decide(old(orders), old(payments), config.hashSecret, mac, n)
        case Err(code) => r == Err(code) && orders == old(orders) && payments == old(payments)
        case Ok(s) => r == Ok(s.reply) && orders == s.orders && payments == s.payments
    {
      ghost var d := Decide(orders, payments, config.hashSecret, mac, n);
      if n.data.Err? {
        return Err(n.data.code);
      }
      var signValue := HmacSha512(mac, config.hashSecret, n.data.value);
      if n.secureHash != Some(signValue) {
        return Ok(IpnReply("97", "Invalid signature"));
      }
      var orderId := n.txnRef;
      if orderId.None? {
        return Err("IllegalArgumentException");
      }
      if orderId.value !in orders {
        return Ok(IpnReply("01", "Order not found"));
      }
      var order := orders[orderId.value];
      var amount := AmountReadBack(if n.amount.Some? then n.amount.value else "");
      if amount.None? {
        return Err("NumberFormatException");
      }
      if order.totalPrice.None? {
        return Err("NullPointerException");
      }
      if amount.value != order.totalPrice.value {
        return Ok(IpnReply("04", "Invalid amount"));
      }
      if order.paymentStatus == PaymentStatus.PAID {
        return Ok(IpnReply("02", "Order already confirmed"));
      }
      if n.responseCode == Some("00") && n.transactionStatus == Some("00") {
        order := order.(paymentStatus := PaymentStatus.PAID);
        var payment := Payment(n.transactionNo, orderId.value, "00", n.bankCode, n.cardType, orderId.value);
        assert d == Ok(IpnResult(IpnReply("00", "Confirm Success"), orders[orderId.value := order], payments + [payment]));
        payments := payments + [payment];
        orders := orders[orderId.value := order];
        r := Ok(IpnReply("00", "Confirm Success"));
        assert orders == d.value.orders;
      } else {
        order := order.(paymentStatus := PaymentStatus.FAILED);
        assert d == Ok(IpnResult(IpnReply("00", "Payment failed"), orders[orderId.value := order], payments));
        orders := orders[orderId.value := order];
        r := Ok(IpnReply("00", "Payment failed"));
        assert orders == d.value.orders;
      }
    }

    /** `getPaymentStatus`: the name of the order's payment status. */
    method GetPaymentStatus(orderId: string) returns (r: Result<string>)
      ensures orderId !in orders <==> r == Err("order-e-01")
      ensures orderId in orders ==> r == Ok(StatusName(orders[orderId].paymentStatus))
    {
      if orderId !in orders {
        return Err("order-e-01");
      }
      r := Ok(StatusName(orders[orderId].paymentStatus));
    }
  }

  /** `Enum.name()` of a payment status; distinct statuses have distinct names. */
  function StatusName(s: PaymentStatus): (name: string)
    ensures s == PaymentStatus.PAID <==> name == "PAID"
    ensures s == PaymentStatus.PENDING <==> name == "PENDING"
    ensures s == PaymentStatus.FAILED <==> name == "FAILED"
    ensures s == PaymentStatus.REFUNDED <==> name == "REFUNDED"
    ensures s == PaymentStatus.CANCELED <==> name == "CANCELED"
  {
    match s
    case PENDING => "PENDING"
    case PAID => "PAID"
    case FAILED => "FAILED"
    case REFUNDED => "REFUNDED"
    case CANCELED => "CANCELED"
  }
}
