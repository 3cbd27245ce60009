/** The payment service: the status vocabularies of the payment gateway mapped
    onto the stored ones, refund classification, and the sequences of store
    writes behind creating a booking payment, polling an order's status,
    processing a gateway webhook and recording a payment's transaction. */
module PaymentService {
  import opened Common
  import opened PaymentRepository

  datatype PaymentError =
    | NoDefaultProvider
    | InvalidSignature
    | OrderNotFound
    | NegativeLimitOrOffset
    | GatewayFailed(message: string)

  // ----- status mapping -----

  /** `mapCashfreeOrderStatus`: the gateway's order status, compared
      case-insensitively; anything unrecognised, `undefined` included, is
      `created`, and no refund status is ever produced. */
  function MapCashfreeOrderStatus(status: Option<string>): (r: OrderStatus)
    ensures r != PartiallyRefunded && r != FullyRefunded
    ensures status.None? ==> r == OrderCreated
  {
    var u := UpperOpt(status);
    if u == Some("ACTIVE") then OrderActive
    else if u == Some("PAID") then OrderPaid
    else if u == Some("EXPIRED") then OrderExpired
    else if u == Some("CANCELLED") then OrderCancelled
    else OrderCreated
  }

  /** `mapCashfreePaymentStatus`, case-insensitive and defaulting to
      `initiated`; it never yields `timeout`. */
  function MapCashfreePaymentStatus(status: Option<string>): (r: PaymentStatus)
    ensures r != PaymentTimeout
    ensures status.None? ==> r == PaymentInitiated
  {
    var u := UpperOpt(status);
    if u == Some("SUCCESS") then PaymentSuccess
    else if u == Some("FAILED") then PaymentFailed
    else if u == Some("PENDING") then PaymentPending
    else if u == Some("USER_DROPPED") then PaymentUserDropped
    else if u == Some("CANCELLED") then PaymentCancelled
    else PaymentInitiated
  }

  /** The refund status a payment status corresponds to: the gateway reports
      refunds with the payment vocabulary less `USER_DROPPED`. */
  function RefundOfPayment(p: PaymentStatus): RefundStatus {
    match p
      case PaymentSuccess => RefundSuccessful
      case PaymentPending => RefundPending
      case PaymentCancelled => RefundCancelled
      case PaymentFailed => RefundFailed
      case _ => RefundInitiated
  }

  /** `mapCashfreeRefundStatus`, defaulting to `initiated`. It agrees with the
      payment mapping on every input, and never yields `processed`. */
  function MapCashfreeRefundStatus(status: Option<string>): (r: RefundStatus)
    ensures r == RefundOfPayment(MapCashfreePaymentStatus(status))
    ensures r != RefundProcessed
  {
    var u := UpperOpt(status);
    if u == Some("SUCCESS") then RefundSuccessful
    else if u == Some("PENDING") then RefundPending
    else if u == Some("CANCELLED") then RefundCancelled
    else if u == Some("FAILED") then RefundFailed
    else RefundInitiated
  }

  /** The order status a payment status settles an order in. */
  function OrderOfPayment(p: PaymentStatus): OrderStatus {
    match p
      case PaymentSuccess => OrderPaid
      case PaymentFailed => OrderCancelled
      case PaymentUserDropped => OrderCancelled
      case PaymentPending => OrderActive
      case _ => OrderCreated
  }

  /** `mapPaymentStatusToOrderStatus`: the order status a webhook's payment
      status puts the order in is what the payment mapping's result settles
      an order in, so it is never `expired` or a refund status. */
  function MapPaymentStatusToOrderStatus(status: Option<string>): (r: OrderStatus)
    ensures r == OrderOfPayment(MapCashfreePaymentStatus(status))
    ensures r != OrderExpired && r != PartiallyRefunded && r != FullyRefunded
  {
    var u := UpperOpt(status);
    if u == Some("SUCCESS") then OrderPaid
    else if u == Some("FAILED") || u == Some("USER_DROPPED") then OrderCancelled
    else if u == Some("PENDING") then OrderActive
    else OrderCreated
  }

  /** The gateway's order keywords, upper-cased, and what each maps to; every
      other status maps to `created`. */
  lemma OrderStatusKeywords(status: Option<string>)
    ensures var r := MapCashfreeOrderStatus(status);
            && (r == OrderActive <==> UpperOpt(status) == Some("ACTIVE"))
            && (r == OrderPaid <==> UpperOpt(status) == Some("PAID"))
            && (r == OrderExpired <==> UpperOpt(status) == Some("EXPIRED"))
            && (r == OrderCancelled <==> UpperOpt(status) == Some("CANCELLED"))
  {
  }

  /** The gateway's payment keywords, upper-cased, and what each maps to;
      every other status maps to `initiated`. */
  lemma PaymentStatusKeywords(status: Option<string>)
    ensures var r := MapCashfreePaymentStatus(status);
            && (r == PaymentSuccess <==> UpperOpt(status) == Some("SUCCESS"))
            && (r == PaymentFailed <==> UpperOpt(status) == Some("FAILED"))
            && (r == PaymentPending <==> UpperOpt(status) == Some("PENDING"))
            && (r == PaymentUserDropped <==> UpperOpt(status) == Some("USER_DROPPED"))
            && (r == PaymentCancelled <==> UpperOpt(status) == Some("CANCELLED"))
  {
  }

  /** Upper-casing the gateway's order status first changes nothing. */
  lemma OrderStatusCaseInsensitive(status: Option<string>)
    ensures MapCashfreeOrderStatus(UpperOpt(status)) == MapCashfreeOrderStatus(status)
  {
    if status.Some? {
      ToUpperIdempotent(status.value);
    }
  }

  /** Upper-casing the gateway's payment status first changes nothing, for
      the payment, refund and order mappings alike. */
  lemma PaymentStatusCaseInsensitive(status: Option<string>)
    ensures MapCashfreePaymentStatus(UpperOpt(status)) == MapCashfreePaymentStatus(status)
    ensures MapCashfreeRefundStatus(UpperOpt(status)) == MapCashfreeRefundStatus(status)
    ensures MapPaymentStatusToOrderStatus(UpperOpt(status)) == MapPaymentStatusToOrderStatus(status)
  {
    if status.Some? {
      ToUpperIdempotent(status.value);
    }
  }

  /** `determineRefundType`: a refund is partial exactly when it is positive
      and below the order amount; otherwise, a non-positive amount included,
      it is full. */
  function DetermineRefundType(refundAmount: int, orderAmount: int): (r: RefundType)
    ensures r == PartialRefund <==> 0 < refundAmount < orderAmount
    ensures r != PartialRefund ==> r == FullRefund
  {
    if refundAmount >= orderAmount then FullRefund
    else if refundAmount > 0 then PartialRefund
    else FullRefund
  }

  // ----- transactions -----

  /** The part of a webhook's `data.order` the service reads. */
  datatype GatewayOrder = GatewayOrder(orderId: string)

  /** A webhook's `data.payment`. `paymentMethodType` is
      `payment_method?.type`, `errorDescription` is
      `error_details?.error_description`, `paymentTime` is the parsed payment
      time when one is given, and `body` is the whole object. */
  datatype GatewayPayment = GatewayPayment(
    cfPaymentId: string,
    transactionId: JsValue,
    paymentAmount: JsValue,
    paymentCurrency: JsValue,
    paymentStatus: Option<string>,
    paymentMethod: JsValue,
    paymentMethodType: JsValue,
    paymentGateway: JsValue,
    gatewayTransactionId: JsValue,
    bankReference: JsValue,
    authId: JsValue,
    rrn: JsValue,
    paymentMessage: JsValue,
    errorDescription: JsValue,
    paymentTime: Option<int>,
    body: JsValue)

  /** The keys of the record `upsertTransaction` builds, in the order written. */
  const TransactionKeys: seq<Col> := [
    TransactionId, OrderId, ProviderId, ProviderPaymentId, ProviderTransactionId,
    TransactionAmount, TransactionCurrency, PaymentStatusColumn, PaymentMethod,
    PaymentMethodDetails, GatewayName, GatewayTransactionId, BankReferenceNumber,
    AuthIdCode, Rrn, PaymentMessage, FailureReason, GatewayResponse, TransactionTime]

  /** The record `upsertTransaction` builds: the transaction id is `TXN_`
      followed by the gateway payment id, the status is mapped, a missing
      method type is `unknown` and a missing payment time is `now`. */
  function TransactionData(order: GatewayOrder, payment: GatewayPayment, status: PaymentStatus,
                           providerId: string, now: int): Fields
  {
    (c: Col) => TransactionDataField(order, payment, status, providerId, now, c)
  }

  function TransactionDataField(order: GatewayOrder, payment: GatewayPayment, status: PaymentStatus,
                                providerId: string, now: int, c: Col): JsValue
  {
      match c
        case TransactionId => JString("TXN_" + payment.cfPaymentId)
        case OrderId => JString(order.orderId)
        case ProviderId => JString(providerId)
        case ProviderPaymentId => JString(payment.cfPaymentId)
        case ProviderTransactionId => payment.transactionId
        case TransactionAmount => payment.paymentAmount
        case TransactionCurrency => payment.paymentCurrency
        case PaymentStatusColumn => JString(PaymentStatusName(status))
        case PaymentMethod =>
          if JsTruthy(payment.paymentMethodType) then payment.paymentMethodType else JString("unknown")
        case PaymentMethodDetails => payment.paymentMethod
        case GatewayName => payment.paymentGateway
        case GatewayTransactionId => payment.gatewayTransactionId
        case BankReferenceNumber => payment.bankReference
        case AuthIdCode => payment.authId
        case Rrn => payment.rrn
        case PaymentMessage => payment.paymentMessage
        case FailureReason => payment.errorDescription
        case GatewayResponse => payment.body
        case TransactionTime =>
          JDate(if payment.paymentTime.Some? then payment.paymentTime.value else now)
        case _ => JUndefined
  }

  /** `Object.entries` of a record with the given keys. */
  function Entries(keys: seq<Col>, fields: Fields): (r: seq<(Col, JsValue)>)
    ensures |r| == |keys|
    ensures forall i :: 0 <= i < |keys| ==> r[i] == (keys[i], Field(fields, keys[i]))
  {
    seq(|keys|, i requires 0 <= i < |keys| => (keys[i], Field(fields, keys[i])))
  }

  /** The assignments asked for by a record's entries are exactly its keys
      with the values the loop does not skip. */
  lemma EntriesAssignments(shape: UpdateShape, keys: seq<Col>, fields: Fields, c: Col, e: SqlValue)
    ensures (c, e) in Assignments(shape, Entries(keys, fields)) <==>
            c in keys && EntryValue(shape, c, Field(fields, c)) == Some(e)
  {
    var entries := Entries(keys, fields);
    AssignmentsMembership(shape, entries, c, e);
    if c in keys && EntryValue(shape, c, Field(fields, c)) == Some(e) {
      var i :| 0 <= i < |keys| && keys[i] == c;
      assert entries[i].0 == c && EntryValue(shape, c, entries[i].1) == Some(e);
    }
  }

  /** Each payment id other than the empty one keys at most one transaction. */
  ghost predicate PaymentIdsUnique(rows: seq<Row>) {
    forall s: string :: s != "" ==> CountRows(rows, ProviderPaymentId, SText(s)) <= 1
  }

  /** Tables that agree on a column agree on every count by that column. */
  lemma {:induction false} CountRowsSameColumn(a: seq<Row>, b: seq<Row>, c: Col, key: SqlValue)
    requires |a| == |b|
    requires forall i :: 0 <= i < |a| ==> Get(a[i], c) == Get(b[i], c)
    ensures CountRows(a, c, key) == CountRows(b, c, key)
  {
    if a != [] {
      var n := |a| - 1;
      CountRowsSameColumn(a[..n], b[..n], c, key);
    }
  }

  /** The last value assigned to a column is one of its assignments. */
  lemma {:induction false} LastValueAssigned(assignments: seq<(Col, SqlValue)>, c: Col)
    requires c in Written(assignments)
    ensures (c, LastValue(assignments, c)) in assignments
  {
    var n := |assignments| - 1;
    if assignments[n].0 != c {
      var init := assignments[..n];
      assert c in Written(init) by {
        var i :| 0 <= i < |assignments| && assignments[i].0 == c;
        assert init[i] == assignments[i];
      }
      LastValueAssigned(init, c);
      assert (c, LastValue(init, c)) in init;
    }
  }

  /** An update whose every assignment to the key column writes the key
      leaves the key column of every row as it was. */
  lemma UpdateKeepsKeys(rows: seq<Row>, c: Col, key: SqlValue, assignments: seq<(Col, SqlValue)>, now: int)
    requires c != UpdatedAt
    requires forall e :: (c, e) in assignments ==> e == key
    ensures forall i :: 0 <= i < |rows| ==> Get(UpdateRows(rows, c, key, assignments, now)[i], c) == Get(rows[i], c)
  {
    var r := UpdateRows(rows, c, key, assignments, now);
    forall i | 0 <= i < |rows|
      ensures Get(r[i], c) == Get(rows[i], c)
    {
      if Get(rows[i], c) == key {
        AssignValue(rows[i], assignments, c);
        if c in Written(assignments) {
          LastValueAssigned(assignments, c);
        }
      }
    }
  }

  /** The record's payment id is the only value it assigns to the payment id
      column. */
  lemma TransactionUpdateKeepsKeys(rows: seq<Row>, order: GatewayOrder, payment: GatewayPayment,
                                   status: PaymentStatus, providerId: string, now: int)
    ensures var assignments := Assignments(TransactionShape,
                                           Entries(TransactionKeys, TransactionData(order, payment, status, providerId, now)));
            forall i :: 0 <= i < |rows| ==>
              Get(UpdateRows(rows, ProviderPaymentId, SText(payment.cfPaymentId), assignments, now)[i],
                  ProviderPaymentId) == Get(rows[i], ProviderPaymentId)
  {
    var data := TransactionData(order, payment, status, providerId, now);
    var assignments := Assignments(TransactionShape, Entries(TransactionKeys, data));
    forall e | (ProviderPaymentId, e) in assignments
      ensures e == SText(payment.cfPaymentId)
    {
      EntriesAssignments(TransactionShape, TransactionKeys, data, ProviderPaymentId, e);
    }
    UpdateKeepsKeys(rows, ProviderPaymentId, SText(payment.cfPaymentId), assignments, now);
  }

  /** The record always asks for assignments: its transaction id is a string. */
  lemma TransactionUpdateNotEmpty(order: GatewayOrder, payment: GatewayPayment, status: PaymentStatus,
                                  providerId: string, now: int)
    ensures Assignments(TransactionShape,
                        Entries(TransactionKeys, TransactionData(order, payment, status, providerId, now))) != []
  {
    var data := TransactionData(order, payment, status, providerId, now);
    var e := SText("TXN_" + payment.cfPaymentId);
    assert TransactionKeys[0] == TransactionId;
    EntriesAssignments(TransactionShape, TransactionKeys, data, TransactionId, e);
  }

  /** Appending a row adds one to the count of its key and no other. */
  lemma CountRowsAppend(rows: seq<Row>, row: Row, c: Col, key: SqlValue)
    ensures CountRows(rows + [row], c, key) == CountRows(rows, c, key) + (if Get(row, c) == key then 1 else 0)
  {
    assert (rows + [row])[..|rows|] == rows;
  }

  /** The transactions after `upsertTransaction` stores a payment's record:
      a transaction already carrying the payment id is updated with it,
      otherwise the record is inserted. */
  function UpsertedRows(rows: seq<Row>, order: GatewayOrder, payment: GatewayPayment,
                        providerId: string, now: int): seq<Row>
  {
    var status := MapCashfreePaymentStatus(payment.paymentStatus);
    var data := TransactionData(order, payment, status, providerId, now);
    if FindRow(rows, ProviderPaymentId, SText(payment.cfPaymentId)).Some? then
      UpdateRows(rows, ProviderPaymentId, SText(payment.cfPaymentId),
                 Assignments(TransactionShape, Entries(TransactionKeys, data)), now)
    else rows + [TransactionRow(data, now)]
  }

  /** Updating rows without touching their payment ids keeps every count by
      payment id. */
  lemma UpdateKeepsPaymentIdsUnique(rows: seq<Row>, order: GatewayOrder, payment: GatewayPayment,
                                    status: PaymentStatus, providerId: string, now: int)
    requires PaymentIdsUnique(rows)
    ensures var assignments := Assignments(TransactionShape,
                                           Entries(TransactionKeys, TransactionData(order, payment, status, providerId, now)));
            PaymentIdsUnique(UpdateRows(rows, ProviderPaymentId, SText(payment.cfPaymentId), assignments, now))
    ensures var assignments := Assignments(TransactionShape,
                                           Entries(TransactionKeys, TransactionData(order, payment, status, providerId, now)));
            forall k: SqlValue :: CountRows(UpdateRows(rows, ProviderPaymentId, SText(payment.cfPaymentId), assignments, now),
                                            ProviderPaymentId, k)
                                  == CountRows(rows, ProviderPaymentId, k)
  {
    var assignments := Assignments(TransactionShape,
                                   Entries(TransactionKeys, TransactionData(order, payment, status, providerId, now)));
    var after := UpdateRows(rows, ProviderPaymentId, SText(payment.cfPaymentId), assignments, now);
    TransactionUpdateKeepsKeys(rows, order, payment, status, providerId, now);
    forall k: SqlValue
      ensures CountRows(after, ProviderPaymentId, k) == CountRows(rows, ProviderPaymentId, k)
    {
      CountRowsSameColumn(after, rows, ProviderPaymentId, k);
    }
  }

  /** Appending a row whose payment id is NULL or absent from the table keeps
      every payment id unique, and leaves that id on one row. */
  lemma AppendKeepsPaymentIdsUnique(rows: seq<Row>, row: Row, key: SqlValue)
    requires PaymentIdsUnique(rows)
    requires forall i :: 0 <= i < |rows| ==> Get(rows[i], ProviderPaymentId) != key
    requires Get(row, ProviderPaymentId) == key || Get(row, ProviderPaymentId) == SNull
    ensures PaymentIdsUnique(rows + [row])
    ensures Get(row, ProviderPaymentId) == key ==> CountRows(rows + [row], ProviderPaymentId, key) == 1
  {
    CountRowsNone(rows, ProviderPaymentId, key);
    forall k: SqlValue
      ensures CountRows(rows + [row], ProviderPaymentId, k)
              == CountRows(rows, ProviderPaymentId, k) + (if Get(row, ProviderPaymentId) == k then 1 else 0)
    {
      CountRowsAppend(rows, row, ProviderPaymentId, k);
    }
  }

  /** Storing a payment's record keeps every payment id on at most one
      transaction, and leaves a non-empty payment id on exactly one. */
  lemma UpsertKeepsPaymentIdsUnique(rows: seq<Row>, order: GatewayOrder, payment: GatewayPayment,
                                    providerId: string, now: int)
    requires PaymentIdsUnique(rows)
    ensures PaymentIdsUnique(UpsertedRows(rows, order, payment, providerId, now))
    ensures payment.cfPaymentId != "" ==>
              CountRows(UpsertedRows(rows, order, payment, providerId, now), ProviderPaymentId,
                        SText(payment.cfPaymentId)) == 1
  {
    var key := SText(payment.cfPaymentId);
    var status := MapCashfreePaymentStatus(payment.paymentStatus);
    var data := TransactionData(order, payment, status, providerId, now);
    var found := FindRow(rows, ProviderPaymentId, key);
    if found.Some? {
      UpdateKeepsPaymentIdsUnique(rows, order, payment, status, providerId, now);
      CountRowsPositive(rows, ProviderPaymentId, key, found.value);
    } else {
      TransactionDataFields(order, payment, status, providerId, now);
      TransactionRowPaymentId(data, now);
      AppendKeepsPaymentIdsUnique(rows, TransactionRow(data, now), key);
    }
  }

  /** After a row takes a record's assignments, a column of the record holds
      the value the loop computes for it. */
  lemma AssignedColumn(row: Row, shape: UpdateShape, keys: seq<Col>, fields: Fields, k: nat, e: SqlValue)
    requires k < |keys| && EntryValue(shape, keys[k], Field(fields, keys[k])) == Some(e)
    ensures Get(Assign(row, Assignments(shape, Entries(keys, fields))), keys[k]) == e
  {
    var c := keys[k];
    var assignments := Assignments(shape, Entries(keys, fields));
    EntriesAssignments(shape, keys, fields, c, e);
    assert c in Written(assignments) by {
      var i :| 0 <= i < |assignments| && assignments[i] == (c, e);
    }
    AssignValue(row, assignments, c);
    LastValueAssigned(assignments, c);
    EntriesAssignments(shape, keys, fields, c, LastValue(assignments, c));
  }

  /** What a stored payment record says of its transaction: the payment id,
      the transaction id `TXN_` followed by it, and the mapped status. */
  predicate CarriesRecord(row: Row, payment: GatewayPayment, status: PaymentStatus) {
    && Get(row, ProviderPaymentId) == SText(payment.cfPaymentId)
    && Get(row, TransactionId) == SText("TXN_" + payment.cfPaymentId)
    && Get(row, PaymentStatusColumn) == SText(PaymentStatusName(status))
  }

  /** The row an update with a payment's record leaves behind. */
  function UpdatedRow(row: Row, order: GatewayOrder, payment: GatewayPayment,
                      status: PaymentStatus, providerId: string, now: int): Row
  {
    Assign(row, Assignments(TransactionShape,
                            Entries(TransactionKeys, TransactionData(order, payment, status, providerId, now))))
      [UpdatedAt := STime(now)]
  }

  lemma UpdatedRowTransactionId(row: Row, order: GatewayOrder, payment: GatewayPayment,
                                status: PaymentStatus, providerId: string, now: int)
    ensures Get(UpdatedRow(row, order, payment, status, providerId, now), TransactionId)
            == SText("TXN_" + payment.cfPaymentId)
  {
    assert TransactionKeys[0] == TransactionId;
    AssignedColumn(row, TransactionShape, TransactionKeys, TransactionData(order, payment, status, providerId, now),
                   0, SText("TXN_" + payment.cfPaymentId));
  }

  lemma UpdatedRowPaymentId(row: Row, order: GatewayOrder, payment: GatewayPayment,
                            status: PaymentStatus, providerId: string, now: int)
    ensures Get(UpdatedRow(row, order, payment, status, providerId, now), ProviderPaymentId)
            == SText(payment.cfPaymentId)
  {
    assert TransactionKeys[3] == ProviderPaymentId;
    AssignedColumn(row, TransactionShape, TransactionKeys, TransactionData(order, payment, status, providerId, now),
                   3, SText(payment.cfPaymentId));
  }

  lemma UpdatedRowStatus(row: Row, order: GatewayOrder, payment: GatewayPayment,
                         status: PaymentStatus, providerId: string, now: int)
    ensures Get(UpdatedRow(row, order, payment, status, providerId, now), PaymentStatusColumn)
            == SText(PaymentStatusName(status))
  {
    assert TransactionKeys[7] == PaymentStatusColumn;
    AssignedColumn(row, TransactionShape, TransactionKeys, TransactionData(order, payment, status, providerId, now),
                   7, SText(PaymentStatusName(status)));
  }

  /** A transaction updated with a payment's record carries it. */
  lemma UpdatedRowCarriesRecord(row: Row, order: GatewayOrder, payment: GatewayPayment,
                                status: PaymentStatus, providerId: string, now: int)
    ensures CarriesRecord(UpdatedRow(row, order, payment, status, providerId, now), payment, status)
  {
    UpdatedRowTransactionId(row, order, payment, status, providerId, now);
    UpdatedRowPaymentId(row, order, payment, status, providerId, now);
    UpdatedRowStatus(row, order, payment, status, providerId, now);
  }

  /** The record of a payment holds the transaction id `TXN_` followed by
      the payment id, the payment id, and the mapped status. */
  lemma TransactionDataFields(order: GatewayOrder, payment: GatewayPayment, status: PaymentStatus,
                              providerId: string, now: int)
    ensures Field(TransactionData(order, payment, status, providerId, now), TransactionId)
            == JString("TXN_" + payment.cfPaymentId)
    ensures Field(TransactionData(order, payment, status, providerId, now), ProviderPaymentId)
            == JString(payment.cfPaymentId)
    ensures Field(TransactionData(order, payment, status, providerId, now), PaymentStatusColumn)
            == JString(PaymentStatusName(status))
  {
  }

  /** A transaction inserted from data holding a payment's non-empty id, its
      transaction id and its status carries the record. */
  lemma InsertedRowCarries(data: Fields, now: int, payment: GatewayPayment, status: PaymentStatus)
    requires payment.cfPaymentId != ""
    requires Field(data, TransactionId) == JString("TXN_" + payment.cfPaymentId)
    requires Field(data, ProviderPaymentId) == JString(payment.cfPaymentId)
    requires Field(data, PaymentStatusColumn) == JString(PaymentStatusName(status))
    ensures CarriesRecord(TransactionRow(data, now), payment, status)
  {
    TransactionRowId(data, now);
    TransactionRowStatus(data, now);
    TransactionRowPaymentId(data, now);
  }

  /** A transaction inserted from a payment's record with a non-empty payment
      id carries it. */
  lemma InsertedRowCarriesRecord(order: GatewayOrder, payment: GatewayPayment, status: PaymentStatus,
                                 providerId: string, now: int)
    requires payment.cfPaymentId != ""
    ensures CarriesRecord(TransactionRow(TransactionData(order, payment, status, providerId, now), now),
                          payment, status)
  {
    TransactionDataFields(order, payment, status, providerId, now);
    InsertedRowCarries(TransactionData(order, payment, status, providerId, now), now, payment, status);
  }

  /** Storing a payment's record with a non-empty payment id leaves a
      transaction that carries it: the last record stored wins. */
  lemma UpsertStoresRecord(rows: seq<Row>, order: GatewayOrder, payment: GatewayPayment,
                           providerId: string, now: int)
    requires payment.cfPaymentId != ""
    ensures var after := UpsertedRows(rows, order, payment, providerId, now);
            exists i :: 0 <= i < |after|
              && CarriesRecord(after[i], payment, MapCashfreePaymentStatus(payment.paymentStatus))
  {
    var after := UpsertedRows(rows, order, payment, providerId, now);
    var status := MapCashfreePaymentStatus(payment.paymentStatus);
    var found := FindRow(rows, ProviderPaymentId, SText(payment.cfPaymentId));
    if found.Some? {
      UpdatedRowCarriesRecord(rows[found.value], order, payment, status, providerId, now);
      assert CarriesRecord(after[found.value], payment, status);
    } else {
      InsertedRowCarriesRecord(order, payment, status, providerId, now);
      assert CarriesRecord(after[|rows|], payment, status);
    }
  }

  /** The writes `upsertTransaction` performs on a store, as the journal
      records them. */
  function UpsertWrites(transactions: seq<Row>, payment: GatewayPayment, fails: bool): seq<StoreWrite> {
    if fails then []
    else if FindRow(transactions, ProviderPaymentId, SText(payment.cfPaymentId)).Some? then
      [TransactionUpdated(payment.cfPaymentId)]
    else [TransactionInserted(OrElse(JString(payment.cfPaymentId), SNull))]
  }

  /** `upsertTransaction`. A failing store (`fails`) raises an error the
      method swallows, and nothing changes. */
  method UpsertTransaction(store: PaymentStore, order: GatewayOrder, payment: GatewayPayment,
                           providerId: string, now: int, fails: bool)
    modifies store
    ensures store.transactions == if fails then old(store.transactions)
                                  else UpsertedRows(old(store.transactions), order, payment, providerId, now)
    ensures store.journal == old(store.journal) + UpsertWrites(old(store.transactions), payment, fails)
    ensures store.providers == old(store.providers) && store.orders == old(store.orders)
    ensures store.webhooks == old(store.webhooks) && store.nextWebhookId == old(store.nextWebhookId)
  {
    if fails {
      return;
    }
    var status := MapCashfreePaymentStatus(payment.paymentStatus);
    var data := TransactionData(order, payment, status, providerId, now);
    var existing := store.GetTransactionByPaymentId(payment.cfPaymentId);
    if existing.Some? {
      TransactionUpdateNotEmpty(order, payment, status, providerId, now);
      store.UpdateTransaction(payment.cfPaymentId, Entries(TransactionKeys, data), now);
    } else {
      TransactionDataFields(order, payment, status, providerId, now);
      TransactionRowPaymentId(data, now);
      var row := store.CreateTransaction(data, now);
    }
  }

  /** A key some row carries is counted at least once. */
  lemma {:induction false} CountRowsPositive(rows: seq<Row>, c: Col, key: SqlValue, i: nat)
    requires i < |rows| && Get(rows[i], c) == key
    ensures CountRows(rows, c, key) >= 1
  {
    var n := |rows| - 1;
    if i < n {
      CountRowsPositive(rows[..n], c, key, i);
    }
  }

  // ----- webhooks -----

  /** A gateway webhook: `eventId` and `altEventId` are `event_id` and
      `eventId`, `order` and `payment` are `data.order` and `data.payment`
      when present, and `body` is the whole payload. */
  datatype WebhookEvent = WebhookEvent(
    eventId: JsValue,
    altEventId: JsValue,
    eventType: string,
    order: Option<GatewayOrder>,
    payment: Option<GatewayPayment>,
    body: JsValue)

  /** The update `processWebhook` and `getPaymentStatus` ask of an order. */
  function StatusUpdate(status: OrderStatus): seq<(Col, JsValue)> {
    [(OrderStatusColumn, JString(OrderStatusName(status)))]
  }

  /** A status update always asks for exactly the one assignment. */
  lemma StatusUpdateAssigns(status: OrderStatus)
    ensures Assignments(OrderShape, StatusUpdate(status)) == [(OrderStatusColumn, SText(OrderStatusName(status)))]
  {
    assert StatusUpdate(status)[..0] == [];
  }

  /** The order id a webhook carries, `data?.order?.order_id`. */
  function WebhookOrderId(event: WebhookEvent): JsValue {
    if event.order.Some? then JString(event.order.value.orderId) else JUndefined
  }

  /** The record `saveWebhook` stores for an event: its id is `event_id`,
      or `eventId` when that is falsy. */
  function SavedWebhook(id: nat, providerId: string, event: WebhookEvent, signature: string,
                        timestamp: Instant): Webhook
  {
    var eventId := if JsTruthy(event.eventId) then event.eventId else event.altEventId;
    Webhook(id, providerId, OrElse(eventId, SNull), event.eventType, SJson(event.body),
            OrElse(JString(signature), SNull), timestamp, OrElse(WebhookOrderId(event), SNull), false, None)
  }

  /** Marking the newest event processed changes only that event. */
  lemma MarkNewest(webhooks: seq<Webhook>, w: Webhook, now: int)
    requires forall i :: 0 <= i < |webhooks| ==> webhooks[i].id != w.id
    ensures MarkProcessed(webhooks + [w], w.id, now) == webhooks + [w.(processed := true, processedAt := Some(now))]
  {
  }

  /** The order update and transaction upsert of a webhook that carries
      both an order and a payment. */
  method ApplyPayment(store: PaymentStore, order: GatewayOrder, payment: GatewayPayment,
                      providerId: string, now: int, upsertFails: bool)
    modifies store
    ensures store.orders == UpdateRows(old(store.orders), OrderId, SText(order.orderId),
                                       [(OrderStatusColumn, SText(OrderStatusName(
                                         MapPaymentStatusToOrderStatus(payment.paymentStatus))))], now)
    ensures store.transactions == if upsertFails then old(store.transactions)
                                  else UpsertedRows(old(store.transactions), order, payment, providerId, now)
    ensures store.journal == old(store.journal) + [OrderUpdated(order.orderId)]
                             + UpsertWrites(old(store.transactions), payment, upsertFails)
    ensures store.providers == old(store.providers)
    ensures store.webhooks == old(store.webhooks) && store.nextWebhookId == old(store.nextWebhookId)
  {
    var status := MapPaymentStatusToOrderStatus(payment.paymentStatus);
    StatusUpdateAssigns(status);
    store.UpdateOrder(order.orderId, StatusUpdate(status), now);
    UpsertTransaction(store, order, payment, providerId, now, upsertFails);
  }

  /** The writes of `processWebhook` once the provider and the signature
      are accepted: the event is saved under the next key; when the payload
      carries both an order and a payment the order's status is set from the
      payment's and the transaction upserted; last the saved event, and only
      that event, is marked processed. */
  method RecordWebhook(store: PaymentStore, providerId: string, event: WebhookEvent, signature: string,
                       timestamp: Instant, now: int, upsertFails: bool)
    returns (webhookId: nat)
    requires store.Valid()
    modifies store
    ensures store.Valid() && store.providers == old(store.providers)
    ensures webhookId == old(store.nextWebhookId)
    ensures store.webhooks == old(store.webhooks)
                              + [SavedWebhook(webhookId, providerId, event, signature, timestamp)
                                   .(processed := true, processedAt := Some(now))]
    ensures store.journal == old(store.journal) + [WebhookSaved(webhookId)]
                             + (if event.order.Some? && event.payment.Some?
                                then [OrderUpdated(event.order.value.orderId)]
                                     + UpsertWrites(old(store.transactions), event.payment.value, upsertFails)
                                else [])
                             + [WebhookMarked(webhookId)]
    ensures !(event.order.Some? && event.payment.Some?) ==>
              store.orders == old(store.orders) && store.transactions == old(store.transactions)
    ensures event.order.Some? && event.payment.Some? ==>
              && store.orders == UpdateRows(old(store.orders), OrderId, SText(event.order.value.orderId),
                                            [(OrderStatusColumn,
                                              SText(OrderStatusName(MapPaymentStatusToOrderStatus(
                                                event.payment.value.paymentStatus))))], now)
              && store.transactions == if upsertFails then old(store.transactions)
                                       else UpsertedRows(old(store.transactions), event.order.value,
                                                         event.payment.value, providerId, now)
  {
    var webhookEventId := if JsTruthy(event.eventId) then event.eventId else event.altEventId;
    ghost var webhooks0 := store.webhooks;
    webhookId := store.SaveWebhook(providerId, webhookEventId, event.eventType, event.body,
                                   JString(signature), timestamp, WebhookOrderId(event));
    ghost var w := SavedWebhook(webhookId, providerId, event, signature, timestamp);
    assert store.webhooks == webhooks0 + [w];
    if event.order.Some? && event.payment.Some? {
      ApplyPayment(store, event.order.value, event.payment.value, providerId, now, upsertFails);
    }
    MarkNewest(webhooks0, w, now);
    store.MarkWebhookProcessed(webhookId, now);
  }

  /** `processWebhook`: without a default provider, or with a signature the
      gateway rejects (`signatureValid`), it fails before any write;
      otherwise it performs the writes of `RecordWebhook` and returns the
      saved event's key. */
  method ProcessWebhook(store: PaymentStore, event: WebhookEvent, signature: string, timestamp: Instant,
                        signatureValid: bool, now: int, upsertFails: bool)
    returns (r: Result<nat, PaymentError>)
    requires store.Valid()
    modifies store
    ensures store.Valid() && store.providers == old(store.providers)
    ensures old(store.GetDefaultProvider()).None? ==> r == Failure(NoDefaultProvider)
    ensures old(store.GetDefaultProvider()).Some? && !signatureValid ==> r == Failure(InvalidSignature)
    ensures r.Failure? ==>
              store.journal == old(store.journal) && store.webhooks == old(store.webhooks)
              && store.orders == old(store.orders) && store.transactions == old(store.transactions)
    ensures old(store.GetDefaultProvider()).Some? && signatureValid ==>
              && r == Success(old(store.nextWebhookId))
              && store.webhooks == old(store.webhooks)
                                   + [SavedWebhook(r.value, old(store.GetDefaultProvider()).value.providerId,
                                                   event, signature, timestamp)
                                        .(processed := true, processedAt := Some(now))]
              && store.journal == old(store.journal) + [WebhookSaved(r.value)]
                                  + (if event.order.Some? && event.payment.Some?
                                     then [OrderUpdated(event.order.value.orderId)]
                                          + UpsertWrites(old(store.transactions), event.payment.value, upsertFails)
                                     else [])
                                  + [WebhookMarked(r.value)]
    ensures r.Success? && !(event.order.Some? && event.payment.Some?) ==>
              store.orders == old(store.orders) && store.transactions == old(store.transactions)
    ensures r.Success? && event.order.Some? && event.payment.Some? ==>
              && store.orders == UpdateRows(old(store.orders), OrderId, SText(event.order.value.orderId),
                                            [(OrderStatusColumn,
                                              SText(OrderStatusName(MapPaymentStatusToOrderStatus(
                                                event.payment.value.paymentStatus))))], now)
              && store.transactions == if upsertFails then old(store.transactions)
                                       else UpsertedRows(old(store.transactions), event.order.value,
                                                         event.payment.value,
                                                         old(store.GetDefaultProvider()).value.providerId, now)
  {
    var provider := store.GetDefaultProvider();
    if provider.None? {
      return Failure(NoDefaultProvider);
    }
    if !signatureValid {
      return Failure(InvalidSignature);
    }
    var webhookId := RecordWebhook(store, provider.value.providerId, event, signature, timestamp, now, upsertFails);
    return Success(webhookId);
  }

  /** A webhook keeps every payment id on at most one transaction. */
  lemma WebhookKeepsPaymentIdsUnique(rows: seq<Row>, event: WebhookEvent, providerId: string,
                                     now: int, upsertFails: bool)
    requires PaymentIdsUnique(rows)
    requires event.order.Some? && event.payment.Some?
    ensures PaymentIdsUnique(if upsertFails then rows
                             else UpsertedRows(rows, event.order.value, event.payment.value, providerId, now))
  {
    if !upsertFails {
      UpsertKeepsPaymentIdsUnique(rows, event.order.value, event.payment.value, providerId, now);
    }
  }

  // ----- status polling -----

  /** `getPaymentStatus`: an unknown order fails without a write. Otherwise
      the gateway is asked for the order and its payments (`gateway`, the
      order status it reports, or the message of the call that failed); a
      failed call fails the poll without a write. The gateway's status is
      mapped and written to the order only when it differs from the stored
      one; the mapped status is returned. */
  method GetPaymentStatus(store: PaymentStore, orderId: string, gateway: Result<Option<string>, string>, now: int)
    returns (r: Result<OrderStatus, PaymentError>)
    modifies store
    ensures old(store.GetOrderById(orderId)).None? ==>
              r == Failure(OrderNotFound) && store.orders == old(store.orders) && store.journal == old(store.journal)
    ensures old(store.GetOrderById(orderId)).Some? && gateway.Failure? ==>
              r == Failure(GatewayFailed(gateway.error))
              && store.orders == old(store.orders) && store.journal == old(store.journal)
    ensures old(store.GetOrderById(orderId)).Some? && gateway.Success? ==>
              && r == Success(MapCashfreeOrderStatus(gateway.value))
              && var changed := Get(old(store.GetOrderById(orderId)).value, OrderStatusColumn)
                                != SText(OrderStatusName(r.value));
                 && (changed ==> store.orders == UpdateRows(old(store.orders), OrderId, SText(orderId),
                                                            [(OrderStatusColumn, SText(OrderStatusName(r.value)))], now)
                                 && store.journal == old(store.journal) + [OrderUpdated(orderId)])
                 && (!changed ==> store.orders == old(store.orders) && store.journal == old(store.journal))
    ensures store.providers == old(store.providers) && store.transactions == old(store.transactions)
    ensures store.webhooks == old(store.webhooks) && store.nextWebhookId == old(store.nextWebhookId)
  {
    var order := store.GetOrderById(orderId);
    if order.None? {
      return Failure(OrderNotFound);
    }
    if gateway.Failure? {
      return Failure(GatewayFailed(gateway.error));
    }
    var newStatus := MapCashfreeOrderStatus(gateway.value);
    if Get(order.value, OrderStatusColumn) != SText(OrderStatusName(newStatus)) {
      StatusUpdateAssigns(newStatus);
      store.UpdateOrder(orderId, StatusUpdate(newStatus), now);
    }
    return Success(newStatus);
  }

  /** Polling twice in a row with the same gateway status writes at most
      once: after the first poll the stored status is the mapped one. */
  lemma PollStoresStatus(rows: seq<Row>, orderId: string, status: OrderStatus, now: int, i: nat)
    requires i < |rows| && Get(rows[i], OrderId) == SText(orderId)
    ensures Get(UpdateRows(rows, OrderId, SText(orderId), [(OrderStatusColumn, SText(OrderStatusName(status)))], now)[i],
                OrderStatusColumn) == SText(OrderStatusName(status))
  {
    var a := [(OrderStatusColumn, SText(OrderStatusName(status)))];
    AssignValue(rows[i], a, OrderStatusColumn);
    assert a[..0] == [];
    assert OrderStatusColumn in Written(a) by {
      assert a[0].0 == OrderStatusColumn;
    }
  }

  // ----- creating a booking payment -----

  /** What a booking payment request carries. `tags` and `meta` are the
      `order_tags` and `order_meta` objects the call builds from it. */
  datatype BookingPaymentRequest = BookingPaymentRequest(
    userId: string,
    bookingId: string,
    amount: int,
    customerDetails: JsValue,
    note: JsValue,
    tags: JsValue,
    meta: JsValue,
    discountAmount: JsValue,
    taxAmount: JsValue,
    convenienceFee: JsValue)

  /** The gateway's answer to creating an order; `orderExpiryTime` is the
      parsed expiry when one is given. */
  datatype GatewayOrderResponse = GatewayOrderResponse(
    orderStatus: Option<string>,
    cfOrderId: JsValue,
    paymentSessionId: JsValue,
    orderExpiryTime: Option<int>)

  /** `x || 0`. */
  function OrZero(v: JsValue): JsValue {
    if JsTruthy(v) then v else JNumber(0)
  }

  /** The record `createBookingPayment` hands to `createOrder`. */
  function BookingOrderData(data: BookingPaymentRequest, orderId: string, providerId: string,
                            gateway: GatewayOrderResponse): Fields
  {
    (c: Col) => BookingOrderField(data, orderId, providerId, gateway, c)
  }

  function BookingOrderField(data: BookingPaymentRequest, orderId: string, providerId: string,
                             gateway: GatewayOrderResponse, c: Col): JsValue
  {
      match c
        case OrderId => JString(orderId)
        case UserId => JString(data.userId)
        case BookingId => JString(data.bookingId)
        case ProviderId => JString(providerId)
        case OrderAmount => JNumber(data.amount)
        case OrderCurrency => JString("INR")
        case OrderStatusColumn => JString(OrderStatusName(MapCashfreeOrderStatus(gateway.orderStatus)))
        case ProviderOrderId => gateway.cfOrderId
        case PaymentSessionId => gateway.paymentSessionId
        case CustomerDetails => data.customerDetails
        case OrderNote => data.note
        case OrderTags => data.tags
        case OrderMeta => data.meta
        case DiscountAmount => OrZero(data.discountAmount)
        case TaxAmount => OrZero(data.taxAmount)
        case ConvenienceFee => OrZero(data.convenienceFee)
        case OrderExpiryTime =>
          if gateway.orderExpiryTime.Some? then JDate(gateway.orderExpiryTime.value) else JUndefined
        case _ => JUndefined
  }

  /** `createBookingPayment`: without a default provider it fails before any
      write. Otherwise the gateway is asked to create the order `orderId`
      (`gateway`, its answer or the message of its failure); when that fails,
      nothing is written. Otherwise the gateway order is recorded as a new
      order row of the default provider with the gateway's status mapped, and
      the row is returned. */
  method CreateBookingPayment(store: PaymentStore, data: BookingPaymentRequest, orderId: string,
                              gateway: Result<GatewayOrderResponse, string>, internalOrderId: string, now: int)
    returns (r: Result<Row, PaymentError>)
    modifies store
    ensures old(store.GetDefaultProvider()).None? ==>
              r == Failure(NoDefaultProvider) && store.orders == old(store.orders)
              && store.journal == old(store.journal)
    ensures old(store.GetDefaultProvider()).Some? && gateway.Failure? ==>
              r == Failure(GatewayFailed(gateway.error)) && store.orders == old(store.orders)
              && store.journal == old(store.journal)
    ensures old(store.GetDefaultProvider()).Some? && gateway.Success? ==>
              && r.Success?
              && r.value == OrderRow(BookingOrderData(data, orderId, old(store.GetDefaultProvider()).value.providerId,
                                                      gateway.value), internalOrderId, now)
              && store.orders == old(store.orders) + [r.value]
              && store.journal == old(store.journal) + [OrderInserted(SText(orderId))]
    ensures store.providers == old(store.providers) && store.transactions == old(store.transactions)
    ensures store.webhooks == old(store.webhooks) && store.nextWebhookId == old(store.nextWebhookId)
  {
    var provider := store.GetDefaultProvider();
    if provider.None? {
      return Failure(NoDefaultProvider);
    }
    if gateway.Failure? {
      return Failure(GatewayFailed(gateway.error));
    }
    var fields := BookingOrderData(data, orderId, provider.value.providerId, gateway.value);
    var row := store.CreateOrder(fields, internalOrderId, now);
    OrderRowKey(fields, internalOrderId, now);
    return Success(row);
  }

  /** The stored booking payment carries the order id, the provider and the
      mapped gateway status; its charges are 0 when the request omits them. */
  lemma BookingOrderRow(data: BookingPaymentRequest, orderId: string, providerId: string,
                        gateway: GatewayOrderResponse, internalOrderId: string, now: int)
    ensures var row := OrderRow(BookingOrderData(data, orderId, providerId, gateway), internalOrderId, now);
            && Get(row, OrderId) == SText(orderId)
            && Get(row, OrderStatusColumn) == SText(OrderStatusName(MapCashfreeOrderStatus(gateway.orderStatus)))
            && (!JsTruthy(data.discountAmount) ==> Get(row, DiscountAmount) == SNumber(0))
            && (!JsTruthy(data.taxAmount) ==> Get(row, TaxAmount) == SNumber(0))
            && (!JsTruthy(data.convenienceFee) ==> Get(row, ConvenienceFee) == SNumber(0))
  {
    var fields := BookingOrderData(data, orderId, providerId, gateway);
    OrderRowKey(fields, internalOrderId, now);
    OrderRowCharges(fields, internalOrderId, now);
  }

  // ----- payment history -----

  datatype HistoryPage = HistoryPage(orders: seq<Row>, page: int, limit: int, total: nat, hasMore: bool)

  /** `getUserPaymentHistory` with `page` and `limit` defaulting to 1 and 20:
      the offset is `(page - 1) * limit`, the database rejects a negative
      limit or offset, the page is that window of the user's orders joined
      with their successful transactions, newest first, `total` is the number
      of rows on the page, and `hasMore` holds when the page is full. */
  function PaymentHistory(orders: seq<Row>, transactions: seq<Row>, userId: string, page: Option<int>,
                          limit: Option<int>)
    : (r: Result<HistoryPage, PaymentError>)
    ensures var p := if page.Some? then page.value else 1;
            var l := if limit.Some? then limit.value else 20;
            && (r.Failure? <==> l < 0 || (p - 1) * l < 0)
            && (r.Success? ==>
                  && r.value.page == p && r.value.limit == l
                  && r.value.orders == OrdersByUser(orders, transactions, userId, l, (p - 1) * l)
                  && r.value.total == |r.value.orders|
                  && (r.value.hasMore <==> |r.value.orders| == l))
  {
    var p := if page.Some? then page.value else 1;
    var l := if limit.Some? then limit.value else 20;
    var offset := (p - 1) * l;
    if l < 0 || offset < 0 then Failure(NegativeLimitOrOffset)
    else
      var rows := OrdersByUser(orders, transactions, userId, l, offset);
      Success(HistoryPage(rows, p, l, |rows|, |rows| == l))
  }

  /** A page that is not full is the last one: no order of the user follows
      it; and a page of limit 0 always claims more. */
  lemma HistoryLastPage(orders: seq<Row>, transactions: seq<Row>, userId: string, page: int, limit: int)
    requires PaymentHistory(orders, transactions, userId, Some(page), Some(limit)).Success?
    ensures var h := PaymentHistory(orders, transactions, userId, Some(page), Some(limit)).value;
            && (!h.hasMore ==>
                  (page - 1) * limit + |h.orders| >= |HistoryRows(UserOrders(orders, userId), transactions)|)
            && (limit == 0 ==> h.hasMore && h.orders == [])
  {
    var all := HistoryRows(UserOrders(orders, userId), transactions);
    var offset: nat := (page - 1) * limit;
    assert PaymentHistory(orders, transactions, userId, Some(page), Some(limit)).value.orders
           == Window(all, offset, limit);
  }

  /** The user's pages 1 to k, one after the other. */
  function Pages(rows: seq<Row>, limit: nat, k: nat): seq<Row> {
    if k == 0 then [] else Pages(rows, limit, k - 1) + Window(rows, (k - 1) * limit, limit)
  }

  /** With a positive limit, the first k pages are the first `k * limit`
      orders of the user, without gaps or repeats. */
  lemma {:induction false} PagesTile(rows: seq<Row>, limit: nat, k: nat)
    requires limit > 0
    ensures Pages(rows, limit, k) == rows[..if k * limit <= |rows| then k * limit else |rows|]
  {
    if k > 0 {
      PagesTile(rows, limit, k - 1);
      var a := if (k - 1) * limit <= |rows| then (k - 1) * limit else |rows|;
      var b := if k * limit <= |rows| then k * limit else |rows|;
      assert k * limit == (k - 1) * limit + limit;
      assert Window(rows, (k - 1) * limit, limit) == rows[a..b];
      assert rows[..a] + rows[a..b] == rows[..b];
    }
  }

  /** One order of the user is the user's only order. */
  lemma OneOrder(a: Row, userId: string)
    requires Get(a, UserId) == SText(userId)
    ensures UserOrders([a], userId) == [a]
  {
    assert [a][..0] == [];
  }

  /** Two orders of the user come newest first, whatever their order in the
      table. */
  lemma TwoOrdersNewestFirst(a: Row, b: Row, userId: string)
    requires Get(a, UserId) == SText(userId) && Get(b, UserId) == SText(userId)
    requires Get(a, CreatedAt) == STime(1) && Get(b, CreatedAt) == STime(2)
    ensures UserOrders([a, b], userId) == [b, a] && UserOrders([b, a], userId) == [b, a]
  {
    OneOrder(a, userId);
    OneOrder(b, userId);
    assert [a, b][..1] == [a] && [b, a][..1] == [b];
    assert AtOrBefore(b, a) && !AtOrBefore(a, b);
    assert InsertNewest(a, [b]) == [b] + InsertNewest(a, []);
  }

  /** Of two orders created at the same time, the one inserted later comes
      first. */
  lemma TiedOrdersLatestFirst(a: Row, b: Row, userId: string)
    requires Get(a, UserId) == SText(userId) && Get(b, UserId) == SText(userId)
    requires Get(a, CreatedAt) == Get(b, CreatedAt)
    ensures UserOrders([a, b], userId) == [b, a]
  {
    OneOrder(a, userId);
    assert [a, b][..1] == [a];
    assert AtOrBefore(b, a);
  }

  /** With no transactions, the first joined row of `[b, a]` is `b`'s. */
  lemma JoinedHeadWithoutTransactions(a: Row, b: Row)
    ensures Window(HistoryRows([b, a], []), 0, 1) == [Joined(b, None)]
  {
    assert SuccessfulFor(b, []) == [];
    var head := JoinOrder(b, []);
    assert head == [Joined(b, None)];
    assert HistoryRows([b, a], []) == head + HistoryRows([a], []);
  }

  /** The first page of size 1 is the first row of the query. */
  lemma FirstPageOfOne(orders: seq<Row>, transactions: seq<Row>, userId: string)
    ensures PaymentHistory(orders, transactions, userId, Some(1), Some(1)).Success?
    ensures PaymentHistory(orders, transactions, userId, Some(1), Some(1)).value.orders
            == Window(HistoryRows(UserOrders(orders, userId), transactions), 0, 1)
  {
    assert (1 - 1) * 1 == 0;
    assert PaymentHistory(orders, transactions, userId, Some(1), Some(1))
           == Success(HistoryPage(OrdersByUser(orders, transactions, userId, 1, 0), 1, 1,
                                  |OrdersByUser(orders, transactions, userId, 1, 0)|,
                                  |OrdersByUser(orders, transactions, userId, 1, 0)| == 1));
  }

  /** Of two orders of the user, the later-created one is on the first page
      of size 1, whatever their order in the table. */
  lemma HistoryShowsNewestFirst(orders: seq<Row>, a: Row, b: Row, userId: string)
    requires orders == [a, b] || orders == [b, a]
    requires Get(a, UserId) == SText(userId) && Get(b, UserId) == SText(userId)
    requires Get(a, CreatedAt) == STime(1) && Get(b, CreatedAt) == STime(2)
    ensures PaymentHistory(orders, [], userId, Some(1), Some(1)).value.orders == [Joined(b, None)]
  {
    TwoOrdersNewestFirst(a, b, userId);
    JoinedHeadWithoutTransactions(a, b);
    FirstPageOfOne(orders, [], userId);
  }
}
