/** The payment tables: providers, orders, transactions and webhook events, and
    the parameterised SET clause that `updateOrder` and `updateTransaction`
    build from a partial record. */
module PaymentRepository {
  import opened Common

  datatype OrderStatus = OrderCreated | OrderActive | OrderPaid | OrderExpired | OrderCancelled
                       | PartiallyRefunded | FullyRefunded

  function OrderStatusName(s: OrderStatus): string {
    match s
      case OrderCreated => "created"
      case OrderActive => "active"
      case OrderPaid => "paid"
      case OrderExpired => "expired"
      case OrderCancelled => "cancelled"
      case PartiallyRefunded => "partially_refunded"
      case FullyRefunded => "fully_refunded"
  }

  datatype PaymentStatus = PaymentInitiated | PaymentPending | PaymentSuccess | PaymentFailed
                         | PaymentCancelled | PaymentTimeout | PaymentUserDropped

  function PaymentStatusName(s: PaymentStatus): string {
    match s
      case PaymentInitiated => "initiated"
      case PaymentPending => "pending"
      case PaymentSuccess => "success"
      case PaymentFailed => "failed"
      case PaymentCancelled => "cancelled"
      case PaymentTimeout => "timeout"
      case PaymentUserDropped => "user_dropped"
  }

  datatype RefundStatus = RefundInitiated | RefundPending | RefundProcessed | RefundSuccessful
                        | RefundFailed | RefundCancelled

  datatype RefundType = FullRefund | PartialRefund | CancellationRefund | DisputeRefund | GoodwillRefund

  /** A JavaScript value as it can appear in a partial record. Numbers are
      integers here; an object or array is known only by an opaque tag. */
  datatype JsValue =
    | JUndefined
    | JNull
    | JBool(b: bool)
    | JNumber(n: int)
    | JString(s: string)
    | JDate(ms: int)
    | JObject(tag: string)
    | JFunction

  /** JavaScript truthiness. */
  predicate JsTruthy(v: JsValue) {
    match v
      case JUndefined => false
      case JNull => false
      case JBool(b) => b
      case JNumber(n) => n != 0
      case JString(s) => s != ""
      case _ => true
  }

  /** A value bound to a query parameter, as the database stores it. `SJson(v)`
      is the text `JSON.stringify(v)` and `SStringOf(v)` the text `String(v)`;
      a date sent as a `Date` or as its ISO text is the instant `STime`. */
  datatype SqlValue =
    | SNull
    | SText(s: string)
    | SNumber(n: int)
    | STime(ms: int)
    | SJson(v: JsValue)
    | SStringOf(v: JsValue)

  /** How the database driver sends a JavaScript value: `undefined` and `null`
      become NULL, a date a timestamp, an object its JSON text and anything
      else its string form. */
  function DriverValue(v: JsValue): SqlValue {
    match v
      case JUndefined => SNull
      case JNull => SNull
      case JBool(b) => SText(if b then "true" else "false")
      case JNumber(n) => SNumber(n)
      case JString(s) => SText(s)
      case JDate(ms) => STime(ms)
      case JObject(_) => SJson(v)
      case JFunction => SStringOf(v)
  }

  /** The columns of the order and transaction tables. */
  datatype Col =
    | CustomerDetails
    | OrderTags
    | OrderMeta
    | OrderExpiryTime
    | PaymentMethodDetails
    | GatewayResponse
    | TransactionTime
    | UpdatedAt
    | OrderId
    | InternalOrderId
    | UserId
    | BookingId
    | ProviderId
    | OrderAmount
    | OrderCurrency
    | OrderStatusColumn
    | ProviderOrderId
    | PaymentSessionId
    | OrderNote
    | DiscountAmount
    | TaxAmount
    | ConvenienceFee
    | CreatedAt
    | ProviderPaymentId
    | ProviderTransactionId
    | PaymentMethod
    | GatewayName
    | GatewayTransactionId
    | BankReferenceNumber
    | AuthIdCode
    | Rrn
    | SettlementAmount
    | SettlementCurrency
    | GatewayFee
    | GatewayTax
    | PaymentMessage
    | FailureReason
    | TransactionId
    | PaymentStatusColumn
    | TransactionAmount
    | TransactionCurrency

  /** A table row: column to stored value. */
  type Row = map<Col, SqlValue>

  /** A column's value, NULL when the row lacks the column. */
  function Get(row: Row, c: Col): SqlValue {
    if c in row then row[c] else SNull
  }

  // ----- the SET clause of updateOrder / updateTransaction -----

  /** The columns whose values are stored as JSON text, and the column whose
      `Date` values are sent as ISO text, for one table. */
  datatype UpdateShape = UpdateShape(jsonKeys: set<Col>, dateKey: Col)

  const OrderShape := UpdateShape({CustomerDetails, OrderTags, OrderMeta}, OrderExpiryTime)
  const TransactionShape := UpdateShape({PaymentMethodDetails, GatewayResponse}, TransactionTime)

  /** What the loop pushes for one entry of the partial record, `None` for an
      entry it skips. An `undefined` value is skipped first; a JSON column is
      stored as JSON text whatever the value (`JSON.stringify` of a function is
      `undefined`, which the driver sends as NULL); a `Date` under the date
      column is sent as ISO text; strings, numbers and `null` are sent as they
      are; a function is skipped; anything else is sent as `String(value)`. */
  function EntryValue(shape: UpdateShape, key: Col, v: JsValue): Option<SqlValue> {
    if v.JUndefined? then None
    else if key in shape.jsonKeys then Some(if v.JFunction? then SNull else SJson(v))
    else if key == shape.dateKey && v.JDate? then Some(STime(v.ms))
    else match v
      case JString(s) => Some(SText(s))
      case JNumber(n) => Some(SNumber(n))
      case JNull => Some(SNull)
      case JFunction => None
      case JBool(b) => Some(SText(if b then "true" else "false"))
      case _ => Some(SStringOf(v))
  }

  /** The column assignments a partial record asks for, in entry order. */
  function Assignments(shape: UpdateShape, updates: seq<(Col, JsValue)>): seq<(Col, SqlValue)>
  {
    if updates == [] then []
    else
      var last := updates[|updates| - 1];
      Assignments(shape, updates[..|updates| - 1])
      + match EntryValue(shape, last.0, last.1)
          case None => []
          case Some(e) => [(last.0, e)]
  }

  /** An assignment is asked for exactly when some entry of the record carries
      that column with a value the loop does not skip. */
  lemma {:induction false} AssignmentsMembership(shape: UpdateShape, updates: seq<(Col, JsValue)>,
                                                 c: Col, e: SqlValue)
    ensures (c, e) in Assignments(shape, updates) <==>
            exists i :: 0 <= i < |updates| && updates[i].0 == c && EntryValue(shape, c, updates[i].1) == Some(e)
  {
    if updates != [] {
      var init := updates[..|updates| - 1];
      AssignmentsMembership(shape, init, c, e);
      var last := updates[|updates| - 1];
      if (c, e) in Assignments(shape, updates) && (c, e) !in Assignments(shape, init) {
        assert updates[|updates| - 1].0 == c && EntryValue(shape, c, updates[|updates| - 1].1) == Some(e);
      }
      if exists i :: 0 <= i < |updates| && updates[i].0 == c && EntryValue(shape, c, updates[i].1) == Some(e) {
        var i :| 0 <= i < |updates| && updates[i].0 == c && EntryValue(shape, c, updates[i].1) == Some(e);
        if i < |init| {
          assert init[i] == updates[i];
        }
      }
    }
  }

  /** There are never more assignments than entries, and a record whose
      entries are all skipped asks for none. */
  lemma {:induction false} AssignmentsBound(shape: UpdateShape, updates: seq<(Col, JsValue)>)
    ensures |Assignments(shape, updates)| <= |updates|
    ensures (forall i :: 0 <= i < |updates| ==> EntryValue(shape, updates[i].0, updates[i].1).None?)
            ==> Assignments(shape, updates) == []
  {
    if updates != [] {
      var init := updates[..|updates| - 1];
      AssignmentsBound(shape, init);
      assert forall i :: 0 <= i < |init| ==> init[i] == updates[i];
    }
  }

  /** One `column = $n` entry of the SET clause. */
  datatype SetItem = SetItem(column: Col, placeholder: nat)

  /** The loop of `updateOrder` / `updateTransaction`. `values` starts with the
      row key, bound to `$1`; the i-th clause then binds its column to `$(i+2)`,
      whose value is the i-th requested assignment, so
      `|values| == |setClause| + 1`. */
  method BuildSetClause(key: SqlValue, shape: UpdateShape, updates: seq<(Col, JsValue)>)
    returns (setClause: seq<SetItem>, values: seq<SqlValue>)
    ensures |values| == |setClause| + 1 && values[0] == key
    ensures |setClause| == |Assignments(shape, updates)|
    ensures forall i :: 0 <= i < |setClause| ==>
              setClause[i] == SetItem(Assignments(shape, updates)[i].0, i + 2)
              && values[i + 1] == Assignments(shape, updates)[i].1
  {
    setClause := [];
    values := [key];
    var paramIndex := 2;
    for n := 0 to |updates|
      invariant |values| == |setClause| + 1 && values[0] == key
      invariant paramIndex == |setClause| + 2
      invariant |setClause| == |Assignments(shape, updates[..n])|
      invariant forall i :: 0 <= i < |setClause| ==>
                  setClause[i] == SetItem(Assignments(shape, updates[..n])[i].0, i + 2)
                  && values[i + 1] == Assignments(shape, updates[..n])[i].1
    {
      assert updates[..n + 1][..n] == updates[..n];
      var (k, value) := updates[n];
      if value != JUndefined {
        if k in shape.jsonKeys {
          setClause := setClause + [SetItem(k, paramIndex)];
          values := values + [if value.JFunction? then SNull else SJson(value)];
        } else if k == shape.dateKey && value.JDate? {
          setClause := setClause + [SetItem(k, paramIndex)];
          values := values + [STime(value.ms)];
        } else if value.JString? || value.JNumber? || value.JNull? {
          setClause := setClause + [SetItem(k, paramIndex)];
          values := values + [if value.JString? then SText(value.s)
                              else if value.JNumber? then SNumber(value.n) else SNull];
        } else if value.JFunction? {
          continue;
        } else {
          setClause := setClause + [SetItem(k, paramIndex)];
          values := values + [if value.JBool? then SText(if value.b then "true" else "false")
                              else SStringOf(value)];
        }
        paramIndex := paramIndex + 1;
      }
    }
    assert updates[..|updates|] == updates;
  }

  /** The row the SET clause produces, binding each placeholder to its value. */
  function ApplySet(row: Row, items: seq<SetItem>, values: seq<SqlValue>): Row
    requires forall i :: 0 <= i < |items| ==> 1 <= items[i].placeholder <= |values|
  {
    if items == [] then row
    else
      var last := items[|items| - 1];
      ApplySet(row, items[..|items| - 1], values)[last.column := values[last.placeholder - 1]]
  }

  /** The row after the requested assignments, in order. */
  function Assign(row: Row, assignments: seq<(Col, SqlValue)>): Row
  {
    if assignments == [] then row
    else
      var last := assignments[|assignments| - 1];
      Assign(row, assignments[..|assignments| - 1])[last.0 := last.1]
  }

  /** The columns the assignments write. */
  function Written(assignments: seq<(Col, SqlValue)>): set<Col> {
    set i | 0 <= i < |assignments| :: assignments[i].0
  }

  /** The value the last assignment to a written column gives it. */
  function LastValue(assignments: seq<(Col, SqlValue)>, c: Col): SqlValue
    requires c in Written(assignments)
  {
    var last := assignments[|assignments| - 1];
    if last.0 == c then last.1
    else
      assert c in Written(assignments[..|assignments| - 1]) by {
        var i :| 0 <= i < |assignments| && assignments[i].0 == c;
        assert assignments[..|assignments| - 1][i] == assignments[i];
      }
      LastValue(assignments[..|assignments| - 1], c)
  }

  /** The placeholders of the built clause bind exactly the requested values. */
  lemma {:induction false} ApplySetIsAssign(row: Row, items: seq<SetItem>, values: seq<SqlValue>,
                                            assignments: seq<(Col, SqlValue)>)
    requires |items| == |assignments|
    requires forall i :: 0 <= i < |items| ==> 1 <= items[i].placeholder <= |values|
    requires forall i :: 0 <= i < |items| ==>
               items[i].column == assignments[i].0 && values[items[i].placeholder - 1] == assignments[i].1
    ensures ApplySet(row, items, values) == Assign(row, assignments)
  {
    if items != [] {
      var n := |items| - 1;
      ApplySetIsAssign(row, items[..n], values, assignments[..n]);
    }
  }

  /** After the assignments a written column holds its last assigned value and
      every other column keeps its value. */
  lemma {:induction false} AssignValue(row: Row, assignments: seq<(Col, SqlValue)>, c: Col)
    ensures c in Assign(row, assignments) <==> c in row || c in Written(assignments)
    ensures c in Written(assignments) ==> Assign(row, assignments)[c] == LastValue(assignments, c)
    ensures c !in Written(assignments) && c in row ==> Assign(row, assignments)[c] == row[c]
  {
    if assignments != [] {
      var n := |assignments| - 1;
      var init := assignments[..n];
      AssignValue(row, init, c);
      assert Written(assignments) == Written(init) + {assignments[n].0} by {
        forall d | d in Written(assignments)
          ensures d in Written(init) + {assignments[n].0}
        {
          var i :| 0 <= i < |assignments| && assignments[i].0 == d;
          if i < n {
            assert init[i] == assignments[i];
          }
        }
        forall d | d in Written(init)
          ensures d in Written(assignments)
        {
          var i :| 0 <= i < |init| && init[i].0 == d;
          assert assignments[i] == init[i];
        }
      }
    }
  }

  /** Applying the same assignments again changes nothing. */
  lemma AssignIdempotent(row: Row, assignments: seq<(Col, SqlValue)>)
    ensures Assign(Assign(row, assignments), assignments) == Assign(row, assignments)
  {
    var once := Assign(row, assignments);
    var twice := Assign(once, assignments);
    forall c
      ensures c in twice <==> c in once
      ensures c in once ==> twice[c] == once[c]
    {
      AssignValue(row, assignments, c);
      AssignValue(once, assignments, c);
    }
  }

  /** `UPDATE … SET <assignments>, updated_at = NOW() WHERE keyColumn = key`:
      the rows whose key column holds the key take the assignments and the new
      `updated_at`; every other row is kept. */
  function UpdateRows(rows: seq<Row>, keyColumn: Col, key: SqlValue,
                      assignments: seq<(Col, SqlValue)>, now: int): (r: seq<Row>)
    ensures |r| == |rows|
    ensures forall i :: 0 <= i < |rows| && Get(rows[i], keyColumn) != key ==> r[i] == rows[i]
    ensures forall i :: 0 <= i < |rows| && Get(rows[i], keyColumn) == key ==>
              r[i] == Assign(rows[i], assignments)[UpdatedAt := STime(now)]
  {
    seq(|rows|, i requires 0 <= i < |rows| =>
      if Get(rows[i], keyColumn) == key then Assign(rows[i], assignments)[UpdatedAt := STime(now)]
      else rows[i])
  }

  /** The first row whose key column holds the key: what `rows[0]` of a
      `SELECT … WHERE keyColumn = key` is. */
  function FindRow(rows: seq<Row>, keyColumn: Col, key: SqlValue): (r: Option<nat>)
    ensures r.Some? ==> r.value < |rows| && Get(rows[r.value], keyColumn) == key
                        && forall i :: 0 <= i < r.value ==> Get(rows[i], keyColumn) != key
    ensures r.None? ==> forall i :: 0 <= i < |rows| ==> Get(rows[i], keyColumn) != key
  {
    if rows == [] then None
    else if Get(rows[0], keyColumn) == key then Some(0)
    else match FindRow(rows[1..], keyColumn, key)
      case None => None
      case Some(k) => Some(k + 1)
  }

  /** The number of rows whose key column holds the key. */
  function CountRows(rows: seq<Row>, keyColumn: Col, key: SqlValue): nat {
    if rows == [] then 0
    else CountRows(rows[..|rows| - 1], keyColumn, key)
         + (if Get(rows[|rows| - 1], keyColumn) == key then 1 else 0)
  }

  lemma {:induction false} CountRowsNone(rows: seq<Row>, keyColumn: Col, key: SqlValue)
    requires forall i :: 0 <= i < |rows| ==> Get(rows[i], keyColumn) != key
    ensures CountRows(rows, keyColumn, key) == 0
  {
    if rows != [] {
      CountRowsNone(rows[..|rows| - 1], keyColumn, key);
    }
  }

  /** A row is keyed by `key` in at most one position. */
  predicate KeyedOnce(rows: seq<Row>, keyColumn: Col, key: SqlValue) {
    forall i, j :: 0 <= i < j < |rows| && Get(rows[i], keyColumn) == key ==> Get(rows[j], keyColumn) != key
  }

  /** A key held by exactly one row is counted once. */
  lemma {:induction false} CountRowsOne(rows: seq<Row>, keyColumn: Col, key: SqlValue, k: nat)
    requires k < |rows| && Get(rows[k], keyColumn) == key
    requires forall i :: 0 <= i < |rows| && i != k ==> Get(rows[i], keyColumn) != key
    ensures CountRows(rows, keyColumn, key) == 1
  {
    var n := |rows| - 1;
    var init := rows[..n];
    if k == n {
      CountRowsNone(init, keyColumn, key);
    } else {
      CountRowsOne(init, keyColumn, key, k);
    }
  }

  // ----- stored records -----

  datatype Provider = Provider(providerId: string, providerName: string, isActive: bool, isDefault: bool)

  /** `getDefaultProvider`: the first provider that is both default and active. */
  function DefaultProvider(providers: seq<Provider>): (r: Option<Provider>)
    ensures r.Some? ==> r.value in providers && r.value.isDefault && r.value.isActive
    ensures r.None? ==> forall p :: p in providers ==> !(p.isDefault && p.isActive)
  {
    if providers == [] then None
    else if providers[0].isDefault && providers[0].isActive then Some(providers[0])
    else DefaultProvider(providers[1..])
  }

  /** A record's fields by key, `undefined` for a key it lacks. */
  type Fields = Col -> JsValue

  function Field(fields: Fields, key: Col): JsValue {
    fields(key)
  }

  /** `x || fallback` as a parameter. */
  function OrElse(v: JsValue, fallback: SqlValue): SqlValue {
    if JsTruthy(v) then DriverValue(v) else fallback
  }

  /** `x ? JSON.stringify(x) : null` as a parameter. */
  function JsonOrNull(v: JsValue): SqlValue {
    if JsTruthy(v) then SJson(v) else SNull
  }

  /** The row `createOrder` inserts. Order id, user, provider, amount, currency,
      status and customer details are sent as given (the details as JSON text);
      booking, provider order, session, note and expiry fall back to NULL,
      tags and meta are JSON text or NULL, and the three charges fall back to
      0. The generated internal id and the creation time are parameters. */
  const OrderColumns: set<Col> := {
    OrderId, InternalOrderId, UserId, BookingId, ProviderId, OrderAmount, OrderCurrency,
    OrderStatusColumn, ProviderOrderId, PaymentSessionId, CustomerDetails, OrderNote, OrderTags,
    OrderMeta, DiscountAmount, TaxAmount, ConvenienceFee, OrderExpiryTime, CreatedAt, UpdatedAt}

  /** The value `createOrder` sends for one column. */
  function OrderValue(data: Fields, internalOrderId: string, now: int, c: Col): SqlValue {
    match c
      case InternalOrderId => SText(internalOrderId)
      case BookingId => OrElse(Field(data, c), SNull)
      case ProviderOrderId => OrElse(Field(data, c), SNull)
      case PaymentSessionId => OrElse(Field(data, c), SNull)
      case CustomerDetails => SJson(Field(data, c))
      case OrderNote => OrElse(Field(data, c), SNull)
      case OrderTags => JsonOrNull(Field(data, c))
      case OrderMeta => JsonOrNull(Field(data, c))
      case DiscountAmount => OrElse(Field(data, c), SNumber(0))
      case TaxAmount => OrElse(Field(data, c), SNumber(0))
      case ConvenienceFee => OrElse(Field(data, c), SNumber(0))
      case OrderExpiryTime => OrElse(Field(data, c), SNull)
      case CreatedAt => STime(now)
      case UpdatedAt => STime(now)
      case _ => DriverValue(Field(data, c))
  }

  function OrderRow(data: Fields, internalOrderId: string, now: int): Row
  {
    map c | c in OrderColumns :: OrderValue(data, internalOrderId, now, c)
  }

  /** The order id and the status are stored as given. */
  lemma OrderRowKey(data: Fields, internalOrderId: string, now: int)
    ensures Get(OrderRow(data, internalOrderId, now), OrderId) == DriverValue(Field(data, OrderId))
    ensures Get(OrderRow(data, internalOrderId, now), OrderStatusColumn)
            == DriverValue(Field(data, OrderStatusColumn))
  {
  }

  /** A missing booking is NULL. */
  lemma OrderRowBooking(data: Fields, internalOrderId: string, now: int)
    ensures !JsTruthy(Field(data, BookingId)) ==> Get(OrderRow(data, internalOrderId, now), BookingId) == SNull
  {
  }

  /** Missing charges are 0. */
  lemma OrderRowCharges(data: Fields, internalOrderId: string, now: int)
    ensures var row := OrderRow(data, internalOrderId, now);
            && (!JsTruthy(Field(data, DiscountAmount)) ==> Get(row, DiscountAmount) == SNumber(0))
            && (!JsTruthy(Field(data, TaxAmount)) ==> Get(row, TaxAmount) == SNumber(0))
            && (!JsTruthy(Field(data, ConvenienceFee)) ==> Get(row, ConvenienceFee) == SNumber(0))
  {
  }

  /** The columns of `payment_transactions` that `createTransaction` falls back
      to NULL for. */
  const TransactionOrNull: set<Col> := {
    ProviderPaymentId, ProviderTransactionId, PaymentMethod, GatewayName,
    GatewayTransactionId, BankReferenceNumber, AuthIdCode, Rrn,
    SettlementAmount, SettlementCurrency, GatewayFee, GatewayTax,
    PaymentMessage, FailureReason}

  const TransactionColumns: set<Col> := TransactionOrNull + {
    TransactionId, OrderId, ProviderId, TransactionAmount, TransactionCurrency, PaymentStatusColumn,
    PaymentMethodDetails, GatewayResponse, TransactionTime, CreatedAt, UpdatedAt}

  /** The value `createTransaction` sends for one column: id, order, provider,
      amount, currency and status as given; the optional columns above fall
      back to NULL; method details and gateway response are JSON text or NULL;
      the transaction time falls back to the current time. */
  function TransactionValue(data: Fields, now: int, c: Col): SqlValue {
    if c in TransactionOrNull then OrElse(Field(data, c), SNull)
    else match c
      case PaymentMethodDetails => JsonOrNull(Field(data, c))
      case GatewayResponse => JsonOrNull(Field(data, c))
      case TransactionTime => OrElse(Field(data, c), STime(now))
      case CreatedAt => STime(now)
      case UpdatedAt => STime(now)
      case _ => DriverValue(Field(data, c))
  }

  /** The row `createTransaction` inserts. */
  function TransactionRow(data: Fields, now: int): Row
  {
    map c | c in TransactionColumns :: TransactionValue(data, now, c)
  }

  /** A column of a new transaction holds the value `createTransaction`
      sends for it. */
  lemma TransactionRowGet(data: Fields, now: int, c: Col)
    requires c in TransactionColumns
    ensures Get(TransactionRow(data, now), c) == TransactionValue(data, now, c)
  {
  }

  /** The transaction id of a new transaction is stored as given. */
  lemma TransactionRowId(data: Fields, now: int)
    ensures Get(TransactionRow(data, now), TransactionId) == DriverValue(Field(data, TransactionId))
  {
    TransactionRowGet(data, now, TransactionId);
  }

  /** The status of a new transaction is stored as given. */
  lemma TransactionRowStatus(data: Fields, now: int)
    ensures Get(TransactionRow(data, now), PaymentStatusColumn)
            == DriverValue(Field(data, PaymentStatusColumn))
  {
    TransactionRowGet(data, now, PaymentStatusColumn);
  }

  /** The provider's payment id is stored as given, NULL when missing. */
  lemma TransactionRowPaymentId(data: Fields, now: int)
    ensures Get(TransactionRow(data, now), ProviderPaymentId) == OrElse(Field(data, ProviderPaymentId), SNull)
  {
    TransactionRowGet(data, now, ProviderPaymentId);
  }

  /** A missing transaction time is the current time. */
  lemma TransactionRowTime(data: Fields, now: int)
    ensures !JsTruthy(Field(data, TransactionTime)) ==> Get(TransactionRow(data, now), TransactionTime) == STime(now)
  {
    TransactionRowGet(data, now, TransactionTime);
  }

  /** The record of one received webhook. */
  datatype Webhook = Webhook(
    id: nat,
    providerId: string,
    providerWebhookId: SqlValue,
    eventType: string,
    data: SqlValue,
    signature: SqlValue,
    timestamp: Instant,
    orderId: SqlValue,
    processed: bool,
    processedAt: Option<int>)

  /** A write the store has performed, in the order performed. */
  datatype StoreWrite =
    | OrderInserted(orderId: SqlValue)
    | OrderUpdated(updatedOrderId: string)
    | TransactionInserted(paymentId: SqlValue)
    | TransactionUpdated(updatedPaymentId: string)
    | WebhookSaved(webhookId: nat)
    | WebhookMarked(webhookId: nat)

  class PaymentStore {
    var providers: seq<Provider>
    var orders: seq<Row>
    var transactions: seq<Row>
    var webhooks: seq<Webhook>
    var nextWebhookId: nat
    /** Every write, in order; no write removes an entry. */
    ghost var journal: seq<StoreWrite>

    /** Webhook keys are distinct and below the next serial value. */
    ghost predicate Valid()
      reads this
    {
      && (forall i :: 0 <= i < |webhooks| ==> webhooks[i].id < nextWebhookId)
      && (forall i, j :: 0 <= i < j < |webhooks| ==> webhooks[i].id != webhooks[j].id)
    }

    constructor (providers: seq<Provider>)
      ensures Valid() && this.providers == providers
      ensures orders == [] && transactions == [] && webhooks == [] && journal == []
    {
      this.providers := providers;
      orders, transactions, webhooks, nextWebhookId := [], [], [], 0;
      journal := [];
    }

    function GetDefaultProvider(): (r: Option<Provider>)
      reads this
      ensures r == DefaultProvider(providers)
    {
      DefaultProvider(providers)
    }

    /** `createOrder`: appends the order row and returns it. */
    method CreateOrder(data: Fields, internalOrderId: string, now: int) returns (row: Row)
      modifies this
      ensures row == OrderRow(data, internalOrderId, now)
      ensures orders == old(orders) + [row]
      ensures journal == old(journal) + [OrderInserted(Get(row, OrderId))]
      ensures providers == old(providers) && transactions == old(transactions)
      ensures webhooks == old(webhooks) && nextWebhookId == old(nextWebhookId)
    {
      row := OrderRow(data, internalOrderId, now);
      orders := orders + [row];
      journal := journal + [OrderInserted(Get(row, OrderId))];
    }

    /** `getOrderById`. */
    function GetOrderById(orderId: string): (r: Option<Row>)
      reads this
      ensures r.Some? <==> exists i :: 0 <= i < |orders| && Get(orders[i], OrderId) == SText(orderId)
      ensures r.Some? ==> r.value in orders && Get(r.value, OrderId) == SText(orderId)
    {
      match FindRow(orders, OrderId, SText(orderId))
        case None => None
        case Some(i) => Some(orders[i])
    }

    /** `updateOrder`: without any assignment nothing is issued; otherwise the
        orders with the key take the assignments, and no other order changes. */
    method UpdateOrder(orderId: string, updates: seq<(Col, JsValue)>, now: int)
      modifies this
      ensures Assignments(OrderShape, updates) == [] ==>
                orders == old(orders) && journal == old(journal)
      ensures Assignments(OrderShape, updates) != [] ==>
                && orders == UpdateRows(old(orders), OrderId, SText(orderId),
                                        Assignments(OrderShape, updates), now)
                && journal == old(journal) + [OrderUpdated(orderId)]
      ensures providers == old(providers) && transactions == old(transactions)
      ensures webhooks == old(webhooks) && nextWebhookId == old(nextWebhookId)
    {
      var setClause, values := BuildSetClause(SText(orderId), OrderShape, updates);
      if |setClause| == 0 {
        return;
      }
      orders := ExecuteUpdate(orders, OrderId, setClause, values, Assignments(OrderShape, updates), now);
      journal := journal + [OrderUpdated(orderId)];
    }

    /** `createTransaction`: appends the transaction row and returns it. */
    method CreateTransaction(data: Fields, now: int) returns (row: Row)
      modifies this
      ensures row == TransactionRow(data, now)
      ensures transactions == old(transactions) + [row]
      ensures journal == old(journal) + [TransactionInserted(Get(row, ProviderPaymentId))]
      ensures providers == old(providers) && orders == old(orders)
      ensures webhooks == old(webhooks) && nextWebhookId == old(nextWebhookId)
    {
      row := TransactionRow(data, now);
      transactions := transactions + [row];
      journal := journal + [TransactionInserted(Get(row, ProviderPaymentId))];
    }

    /** `updateTransaction`: as `updateOrder`, on the transactions with the
        provider payment id. */
    method UpdateTransaction(paymentId: string, updates: seq<(Col, JsValue)>, now: int)
      modifies this
      ensures Assignments(TransactionShape, updates) == [] ==>
                transactions == old(transactions) && journal == old(journal)
      ensures Assignments(TransactionShape, updates) != [] ==>
                && transactions == UpdateRows(old(transactions), ProviderPaymentId, SText(paymentId),
                                              Assignments(TransactionShape, updates), now)
                && journal == old(journal) + [TransactionUpdated(paymentId)]
      ensures providers == old(providers) && orders == old(orders)
      ensures webhooks == old(webhooks) && nextWebhookId == old(nextWebhookId)
    {
      var setClause, values := BuildSetClause(SText(paymentId), TransactionShape, updates);
      if |setClause| == 0 {
        return;
      }
      transactions := ExecuteUpdate(transactions, ProviderPaymentId, setClause, values,
                                    Assignments(TransactionShape, updates), now);
      journal := journal + [TransactionUpdated(paymentId)];
    }

    /** `getTransactionByPaymentId`. */
    function GetTransactionByPaymentId(paymentId: string): (r: Option<Row>)
      reads this
      ensures r.Some? <==>
                exists i :: 0 <= i < |transactions| && Get(transactions[i], ProviderPaymentId) == SText(paymentId)
      ensures r.Some? ==> r.value in transactions && Get(r.value, ProviderPaymentId) == SText(paymentId)
    {
      match FindRow(transactions, ProviderPaymentId, SText(paymentId))
        case None => None
        case Some(i) => Some(transactions[i])
    }

    /** `saveWebhook`: appends the event under the next serial key and returns
        that key. The optional fields fall back to NULL; the payload is stored
        as JSON text. */
    method SaveWebhook(providerId: string, providerWebhookId: JsValue, eventType: string,
                       data: JsValue, signature: JsValue, timestamp: Instant, orderId: JsValue)
      returns (id: nat)
      requires Valid()
      modifies this
      ensures Valid()
      ensures id == old(nextWebhookId) && nextWebhookId == old(nextWebhookId) + 1
      ensures webhooks == old(webhooks) + [Webhook(id, providerId, OrElse(providerWebhookId, SNull), eventType,
                                                   SJson(data), OrElse(signature, SNull), timestamp,
                                                   OrElse(orderId, SNull), false, None)]
      ensures journal == old(journal) + [WebhookSaved(id)]
      ensures providers == old(providers) && orders == old(orders) && transactions == old(transactions)
    {
      id := nextWebhookId;
      webhooks := webhooks + [Webhook(id, providerId, OrElse(providerWebhookId, SNull), eventType,
                                      SJson(data), OrElse(signature, SNull), timestamp,
                                      OrElse(orderId, SNull), false, None)];
      nextWebhookId := nextWebhookId + 1;
      journal := journal + [WebhookSaved(id)];
    }

    /** `markWebhookProcessed`: the event with the key is marked processed at
        `now`; every other event is kept. */
    method MarkWebhookProcessed(webhookId: nat, now: int)
      requires Valid()
      modifies this
      ensures Valid()
      ensures webhooks == MarkProcessed(old(webhooks), webhookId, now)
      ensures journal == old(journal) + [WebhookMarked(webhookId)]
      ensures providers == old(providers) && orders == old(orders) && transactions == old(transactions)
      ensures nextWebhookId == old(nextWebhookId)
    {
      webhooks := MarkProcessed(webhooks, webhookId, now);
      journal := journal + [WebhookMarked(webhookId)];
    }
  }

  /** The database running a built UPDATE: the placeholders bind the requested
      assignments. */
  method ExecuteUpdate(rows: seq<Row>, keyColumn: Col, setClause: seq<SetItem>, values: seq<SqlValue>,
                       ghost assignments: seq<(Col, SqlValue)>, now: int)
    returns (r: seq<Row>)
    requires |values| == |setClause| + 1 && |setClause| == |assignments|
    requires forall i :: 0 <= i < |setClause| ==>
               setClause[i] == SetItem(assignments[i].0, i + 2) && values[i + 1] == assignments[i].1
    ensures r == UpdateRows(rows, keyColumn, values[0], assignments, now)
  {
    forall row: Row
      ensures ApplySet(row, setClause, values) == Assign(row, assignments)
    {
      ApplySetIsAssign(row, setClause, values, assignments);
    }
    r := seq(|rows|, i requires 0 <= i < |rows| =>
      if Get(rows[i], keyColumn) == values[0]
      then ApplySet(rows[i], setClause, values)[UpdatedAt := STime(now)]
      else rows[i]);
  }

  /** `UPDATE payment_webhooks SET webhook_status = 'processed', processed_at =
      NOW() WHERE id = $2`. */
  function MarkProcessed(webhooks: seq<Webhook>, webhookId: nat, now: int): (r: seq<Webhook>)
    ensures |r| == |webhooks|
    ensures forall i :: 0 <= i < |webhooks| ==>
              r[i] == if webhooks[i].id == webhookId
                      then webhooks[i].(processed := true, processedAt := Some(now))
                      else webhooks[i]
  {
    seq(|webhooks|, i requires 0 <= i < |webhooks| =>
      if webhooks[i].id == webhookId then webhooks[i].(processed := true, processedAt := Some(now))
      else webhooks[i])
  }

  // ----- getOrdersByUser -----

  /** The key of `ORDER BY po.created_at DESC`: the creation time, `None` for
      NULL, which descending order puts first. */
  function CreatedRank(row: Row): Option<int> {
    match Get(row, CreatedAt)
      case STime(ms) => Some(ms)
      case _ => None
  }

  /** `a` may come before `b` in newest-first order. */
  predicate AtOrBefore(a: Row, b: Row) {
    CreatedRank(a).None? || (CreatedRank(b).Some? && CreatedRank(a).value >= CreatedRank(b).value)
  }

  predicate NewestFirst(rows: seq<Row>) {
    forall i, j :: 0 <= i < j < |rows| ==> AtOrBefore(rows[i], rows[j])
  }

  /** `x` placed before the first row it may come before. */
  function InsertNewest(x: Row, rows: seq<Row>): (r: seq<Row>)
    ensures multiset(r) == multiset(rows) + multiset{x}
  {
    if rows == [] || AtOrBefore(x, rows[0]) then [x] + rows
    else
      assert rows == [rows[0]] + rows[1..];
      [rows[0]] + InsertNewest(x, rows[1..])
  }

  /** Inserting into a newest-first list keeps it newest first. */
  lemma {:induction false} InsertNewestSorted(x: Row, rows: seq<Row>)
    requires NewestFirst(rows)
    ensures NewestFirst(InsertNewest(x, rows))
  {
    if rows != [] && !AtOrBefore(x, rows[0]) {
      var rest := rows[1..];
      var tail := InsertNewest(x, rest);
      InsertNewestSorted(x, rest);
      forall y | y in tail
        ensures AtOrBefore(rows[0], y)
      {
        assert y in multiset(tail);
        if y != x {
          assert y in multiset(rest);
          var k :| 0 <= k < |rest| && rest[k] == y;
          assert rows[k + 1] == y;
        }
      }
      var r := [rows[0]] + tail;
      forall i, j | 0 <= i < j < |r|
        ensures AtOrBefore(r[i], r[j])
      {
        assert r[j] == tail[j - 1];
        if i > 0 {
          assert r[i] == tail[i - 1];
        }
      }
    }
  }

  /** The user's orders, in table order. */
  function OfUser(orders: seq<Row>, userId: string): (r: seq<Row>)
    ensures forall x :: x in r <==> x in orders && Get(x, UserId) == SText(userId)
  {
    if orders == [] then []
    else
      var init := OfUser(orders[..|orders| - 1], userId);
      var last := orders[|orders| - 1];
      assert forall x :: x in orders <==> x in orders[..|orders| - 1] || x == last by {
        assert orders == orders[..|orders| - 1] + [last];
      }
      if Get(last, UserId) == SText(userId) then init + [last] else init
  }

  /** `WHERE po.user_id = $1 ORDER BY po.created_at DESC`: the user's orders,
      newest first. The query leaves the order of equal creation times open;
      here the order inserted later comes first. */
  function UserOrders(orders: seq<Row>, userId: string): (r: seq<Row>)
    ensures multiset(r) == multiset(OfUser(orders, userId))
    ensures NewestFirst(r)
  {
    if orders == [] then []
    else
      var init := UserOrders(orders[..|orders| - 1], userId);
      var last := orders[|orders| - 1];
      if Get(last, UserId) == SText(userId) then
        InsertNewestSorted(last, init);
        InsertNewest(last, init)
      else init
  }

  /** The user's orders are exactly the orders with that user id, each as
      often as in the table. */
  lemma UserOrdersMembers(orders: seq<Row>, userId: string)
    ensures forall x :: x in UserOrders(orders, userId) <==> x in orders && Get(x, UserId) == SText(userId)
    ensures |UserOrders(orders, userId)| == |OfUser(orders, userId)|
  {
    var r := UserOrders(orders, userId);
    forall x
      ensures x in r <==> x in OfUser(orders, userId)
    {
      assert x in r <==> x in multiset(r);
      assert x in OfUser(orders, userId) <==> x in multiset(OfUser(orders, userId));
    }
    assert |multiset(r)| == |multiset(OfUser(orders, userId))|;
  }

  /** `ON po.order_id = pt.order_id AND pt.payment_status = 'success'`. */
  predicate JoinsWith(order: Row, t: Row) {
    Get(order, OrderId) != SNull && Get(t, OrderId) == Get(order, OrderId)
    && Get(t, PaymentStatusColumn) == SText("success")
  }

  /** The transactions that join with `order`, in table order. */
  function SuccessfulFor(order: Row, transactions: seq<Row>): (r: seq<Row>)
    ensures forall t :: t in r <==> t in transactions && JoinsWith(order, t)
  {
    if transactions == [] then []
    else
      assert transactions == [transactions[0]] + transactions[1..];
      (if JoinsWith(order, transactions[0]) then [transactions[0]] else [])
      + SuccessfulFor(order, transactions[1..])
  }

  /** The three transaction columns the query selects beside `po.*`. */
  const JoinedColumns: set<Col> := {PaymentStatusColumn, PaymentMethod, TransactionTime}

  /** One result row: the order with the joined transaction's status, method
      and time, or NULL in those columns when no transaction joined. */
  function Joined(order: Row, t: Option<Row>): (r: Row)
    ensures forall c :: c !in JoinedColumns ==> Get(r, c) == Get(order, c)
    ensures forall c :: c in JoinedColumns ==> Get(r, c) == if t.Some? then Get(t.value, c) else SNull
  {
    var from := (c: Col) => if t.Some? then Get(t.value, c) else SNull;
    order[PaymentStatusColumn := from(PaymentStatusColumn)][PaymentMethod := from(PaymentMethod)]
         [TransactionTime := from(TransactionTime)]
  }

  /** The LEFT JOIN's rows for one order: one per joining transaction, or one
      with NULL transaction columns when none joins. */
  function JoinOrder(order: Row, transactions: seq<Row>): (r: seq<Row>)
    ensures |r| == if SuccessfulFor(order, transactions) == [] then 1 else |SuccessfulFor(order, transactions)|
    ensures forall i :: 0 <= i < |r| ==> CreatedRank(r[i]) == CreatedRank(order)
    ensures forall i :: 0 <= i < |r| ==>
              Get(r[i], PaymentStatusColumn) == SText("success") || Get(r[i], PaymentStatusColumn) == SNull
  {
    var ts := SuccessfulFor(order, transactions);
    if ts == [] then [Joined(order, None)]
    else
      assert forall i :: 0 <= i < |ts| ==> ts[i] in ts;
      seq(|ts|, i requires 0 <= i < |ts| => Joined(order, Some(ts[i])))
  }

  /** The LEFT JOIN over a list of orders, keeping the orders' order. */
  function HistoryRows(orders: seq<Row>, transactions: seq<Row>): (r: seq<Row>)
    ensures |r| >= |orders|
  {
    if orders == [] then []
    else JoinOrder(orders[0], transactions) + HistoryRows(orders[1..], transactions)
  }

  /** Every joined row is created when one of its orders was. */
  lemma {:induction false} HistoryRowsRanks(orders: seq<Row>, transactions: seq<Row>, j: nat)
    requires j < |HistoryRows(orders, transactions)|
    ensures exists k :: 0 <= k < |orders| && CreatedRank(HistoryRows(orders, transactions)[j]) == CreatedRank(orders[k])
  {
    var head := JoinOrder(orders[0], transactions);
    if j < |head| {
      assert HistoryRows(orders, transactions)[j] == head[j];
    } else {
      HistoryRowsRanks(orders[1..], transactions, j - |head|);
      var k :| 0 <= k < |orders[1..]|
               && CreatedRank(HistoryRows(orders[1..], transactions)[j - |head|]) == CreatedRank(orders[1..][k]);
      assert HistoryRows(orders, transactions)[j] == HistoryRows(orders[1..], transactions)[j - |head|];
      assert orders[1..][k] == orders[k + 1];
    }
  }

  /** Joining keeps a newest-first list of orders newest first. */
  lemma {:induction false} HistoryRowsNewestFirst(orders: seq<Row>, transactions: seq<Row>)
    requires NewestFirst(orders)
    ensures NewestFirst(HistoryRows(orders, transactions))
  {
    if orders != [] {
      var head := JoinOrder(orders[0], transactions);
      var tail := HistoryRows(orders[1..], transactions);
      var r := HistoryRows(orders, transactions);
      HistoryRowsNewestFirst(orders[1..], transactions);
      forall i, j | 0 <= i < j < |r|
        ensures AtOrBefore(r[i], r[j])
      {
        if j < |head| {
          assert r[i] == head[i] && r[j] == head[j];
        } else if i < |head| {
          assert r[i] == head[i] && r[j] == tail[j - |head|];
          HistoryRowsRanks(orders[1..], transactions, j - |head|);
          var k :| 0 <= k < |orders[1..]| && CreatedRank(tail[j - |head|]) == CreatedRank(orders[1..][k]);
          assert AtOrBefore(orders[0], orders[k + 1]);
        } else {
          assert r[i] == tail[i - |head|] && r[j] == tail[j - |head|];
        }
      }
    }
  }

  /** When no order joins more than one transaction, the query yields the
      orders one for one, each with its own columns. */
  lemma {:induction false} HistoryRowsOneToOne(orders: seq<Row>, transactions: seq<Row>)
    requires forall k :: 0 <= k < |orders| ==> |SuccessfulFor(orders[k], transactions)| <= 1
    ensures |HistoryRows(orders, transactions)| == |orders|
    ensures forall k, c :: 0 <= k < |orders| && c !in JoinedColumns ==>
              Get(HistoryRows(orders, transactions)[k], c) == Get(orders[k], c)
  {
    if orders != [] {
      var ts := SuccessfulFor(orders[0], transactions);
      var head := JoinOrder(orders[0], transactions);
      var tail := HistoryRows(orders[1..], transactions);
      assert forall k :: 0 <= k < |orders[1..]| ==> orders[1..][k] == orders[k + 1];
      HistoryRowsOneToOne(orders[1..], transactions);
      assert |head| == 1;
      assert head[0] == Joined(orders[0], if ts == [] then None else Some(ts[0]));
      forall k, c | 0 <= k < |orders| && c !in JoinedColumns
        ensures Get(HistoryRows(orders, transactions)[k], c) == Get(orders[k], c)
      {
        if k > 0 {
          assert HistoryRows(orders, transactions)[k] == tail[k - 1];
        }
      }
    }
  }

  /** `LIMIT limit OFFSET offset` on a list of rows. */
  function Window(rows: seq<Row>, offset: nat, limit: nat): (r: seq<Row>)
    ensures |r| <= limit
    ensures offset + |r| == if offset + limit <= |rows| then offset + limit else if offset <= |rows| then |rows| else offset
    ensures forall i :: 0 <= i < |r| ==> r[i] == rows[offset + i]
  {
    var lo := if offset <= |rows| then offset else |rows|;
    var hi := if offset + limit <= |rows| then offset + limit else |rows|;
    rows[lo..hi]
  }

  /** `getOrdersByUser(userId, limit, offset)`: one page of the user's orders
      joined with their successful transactions, newest first. */
  function OrdersByUser(orders: seq<Row>, transactions: seq<Row>, userId: string, limit: nat, offset: nat)
    : seq<Row>
  {
    Window(HistoryRows(UserOrders(orders, userId), transactions), offset, limit)
  }

  /** A page is newest first, and each of its rows may come before every row
      of the later pages. */
  lemma OrdersByUserNewestFirst(orders: seq<Row>, transactions: seq<Row>, userId: string, limit: nat, offset: nat)
    ensures var all := HistoryRows(UserOrders(orders, userId), transactions);
            var page := OrdersByUser(orders, transactions, userId, limit, offset);
            && NewestFirst(page)
            && forall i, j :: 0 <= i < |page| && offset + |page| <= j < |all| ==> AtOrBefore(page[i], all[j])
  {
    HistoryRowsNewestFirst(UserOrders(orders, userId), transactions);
  }
}
