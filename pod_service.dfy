/** The pod catalogue: creating pods with their amenity rows, the parameterised
    UPDATE built by `updatePod`, and the parameters of the nearby-pod search. */
module PodService {
  import opened Common
  import opened Validation

  datatype PodStatus = Available | Occupied | Maintenance

  function PodStatusName(s: PodStatus): string {
    match s
      case Available => "available"
      case Occupied => "occupied"
      case Maintenance => "maintenance"
  }

  /** A row of `pods`. The serial `id` and the public `pod_id` are one key here. */
  datatype Pod = Pod(
    id: nat,
    podNumber: string,
    description: Option<string>,
    locationId: Option<int>,
    status: PodStatus,
    address: Option<string>,
    latitude: real,
    longitude: real,
    pricePerHour: int,
    maxCapacity: int)

  /** A row of `pod_amenities`. */
  datatype AmenityRow = AmenityRow(podId: nat, amenityId: int)

  datatype PodError = InvalidCoordinates | NoFieldsToUpdate | PodNotFound | InvalidDateRange

  /** A bound query parameter. */
  datatype Param = PText(s: string) | PInt(i: int) | PReal(r: real)

  datatype CreatePodRequest = CreatePodRequest(
    podNumber: string,
    description: Option<string>,
    locationId: Option<int>,
    address: Option<string>,
    latitude: real,
    longitude: real,
    pricePerHour: int,
    maxCapacity: int,
    amenities: Option<seq<int>>)

  /** Every field of an update may be absent. */
  datatype UpdatePodRequest = UpdatePodRequest(
    podNumber: Option<string>,
    description: Option<string>,
    locationId: Option<int>,
    status: Option<PodStatus>,
    address: Option<string>,
    latitude: Option<real>,
    longitude: Option<real>,
    pricePerHour: Option<int>,
    maxCapacity: Option<int>,
    amenities: Option<seq<int>>)

  /** JavaScript truthiness of an optional number: absent and zero are falsy. */
  predicate IntTruthy(n: Option<int>) {
    n.Some? && n.value != 0
  }

  predicate RealTruthy(x: Option<real>) {
    x.Some? && x.value != 0.0
  }

  // ----- createPod amenity rows -----

  /** The `($1, $n)` tuples of the amenity insert: amenity `i` is bound to
      placeholder `i + 2`, the pod id to placeholder 1. */
  function AmenityPlaceholders(n: nat): (t: seq<(nat, nat)>)
    ensures |t| == n && forall i :: 0 <= i < n ==> t[i] == (1, i + 2)
  {
    seq(n, i => (1, i + 2))
  }

  /** The rows the insert `INSERT INTO pod_amenities (pod_id, amenity_id) VALUES
      ($1, $2), ($1, $3), …` writes when bound to `[podId, ...amenities]`: one row
      per amenity, in order, all for the new pod. */
  function AmenityInsertRows(podId: nat, amenities: seq<int>): (rows: seq<AmenityRow>)
    ensures |rows| == |amenities|
    ensures forall i :: 0 <= i < |rows| ==> rows[i] == AmenityRow(podId, amenities[i])
  {
    var tuples := AmenityPlaceholders(|amenities|);
    var params := [podId as int] + amenities;
    seq(|tuples|, i requires 0 <= i < |tuples| =>
      AmenityRow(params[tuples[i].0 - 1] as nat, params[tuples[i].1 - 1]))
  }

  function WithoutPod(rows: seq<AmenityRow>, podId: nat): (r: seq<AmenityRow>)
    ensures forall x :: x in r <==> x in rows && x.podId != podId
  {
    if rows == [] then []
    else (if rows[0].podId == podId then [] else [rows[0]]) + WithoutPod(rows[1..], podId)
  }

  // ----- updatePod SET clause -----

  /** The columns `updatePod` may set, in the order the source tests them. */
  datatype PodColumn =
    PodNumberCol | DescriptionCol | LocationIdCol | StatusCol | AddressCol
    | CoordinatesCol | PricePerHourCol | MaxCapacityCol

  function Rank(c: PodColumn): nat {
    match c
      case PodNumberCol => 0
      case DescriptionCol => 1
      case LocationIdCol => 2
      case StatusCol => 3
      case AddressCol => 4
      case CoordinatesCol => 5
      case PricePerHourCol => 6
      case MaxCapacityCol => 7
  }

  /** The coordinates clause `ST_MakePoint($n, $n+1)` takes two parameters. */
  function Arity(c: PodColumn): nat {
    if c == CoordinatesCol then 2 else 1
  }

  /** One `column = $placeholder` entry of the SET list. */
  datatype SetItem = SetItem(column: PodColumn, placeholder: nat)

  /** The value (or, for coordinates, the longitude and latitude) a request asks
      to write into a column, or `None` when the field is falsy and the column
      keeps its value. Coordinates need both numbers truthy and in range. */
  function RequestValue(req: UpdatePodRequest, c: PodColumn): Option<seq<Param>> {
    match c
      case PodNumberCol =>
        if Truthy(req.podNumber) then Some([PText(req.podNumber.value)]) else None
      case DescriptionCol =>
        if Truthy(req.description) then Some([PText(req.description.value)]) else None
      case LocationIdCol =>
        if IntTruthy(req.locationId) then Some([PInt(req.locationId.value)]) else None
      case StatusCol =>
        if req.status.Some? then Some([PText(PodStatusName(req.status.value))]) else None
      case AddressCol =>
        if Truthy(req.address) then Some([PText(req.address.value)]) else None
      case CoordinatesCol =>
        if RealTruthy(req.latitude) && RealTruthy(req.longitude)
           && IsValidCoordinates(req.latitude.value, req.longitude.value)
        then Some([PReal(req.longitude.value), PReal(req.latitude.value)])
        else None
      case PricePerHourCol =>
        if IntTruthy(req.pricePerHour) then Some([PInt(req.pricePerHour.value)]) else None
      case MaxCapacityCol =>
        if IntTruthy(req.maxCapacity) then Some([PInt(req.maxCapacity.value)]) else None
  }

  /** The placeholder of the first SET entry for column `c`. */
  function FindColumn(items: seq<SetItem>, c: PodColumn): Option<nat> {
    if items == [] then None
    else if items[0].column == c then Some(items[0].placeholder)
    else FindColumn(items[1..], c)
  }

  /** The parameters a SET list binds to column `c`, read from `values`. */
  function Bound(items: seq<SetItem>, values: seq<Param>, c: PodColumn): Option<seq<Param>> {
    BoundAt(FindColumn(items, c), values, c)
  }

  /** The parameters of column `c` when its entry takes placeholder `ph`. */
  function BoundAt(ph: Option<nat>, values: seq<Param>, c: PodColumn): Option<seq<Param>> {
    match ph
      case None => None
      case Some(ph) =>
        if 1 <= ph && ph - 1 + Arity(c) <= |values|
        then Some(values[ph - 1..ph - 1 + Arity(c)]) else None
  }

  /** The placeholder the next SET entry would take. */
  function NextPlaceholder(items: seq<SetItem>): nat {
    if items == [] then 1 else items[|items| - 1].placeholder + Arity(items[|items| - 1].column)
  }

  /** Placeholders are numbered from `$1` with no gap: each entry starts where
      the one before it ends. */
  predicate Consecutive(items: seq<SetItem>) {
    items == [] || (Consecutive(items[..|items| - 1])
                    && items[|items| - 1].placeholder == NextPlaceholder(items[..|items| - 1]))
  }

  predicate RanksIncreasing(items: seq<SetItem>) {
    forall i, j :: 0 <= i < j < |items| ==> Rank(items[i].column) < Rank(items[j].column)
  }

  predicate RanksBelow(items: seq<SetItem>, k: nat) {
    forall i :: 0 <= i < |items| ==> Rank(items[i].column) < k
  }

  /** The list binds each of the first `k` columns to what the request asks for
      it, and binds no other column. */
  predicate BindsUpTo(items: seq<SetItem>, values: seq<Param>, req: UpdatePodRequest, k: nat) {
    forall c :: Bound(items, values, c) == if Rank(c) < k then RequestValue(req, c) else None
  }

  /** The list binds every column to exactly what the request asks for it. */
  predicate Binds(items: seq<SetItem>, values: seq<Param>, req: UpdatePodRequest) {
    forall c :: Bound(items, values, c) == RequestValue(req, c)
  }

  predicate AllRequested(items: seq<SetItem>, req: UpdatePodRequest) {
    forall i :: 0 <= i < |items| ==> RequestValue(req, items[i].column).Some?
  }

  /** The state of the builder after it has looked at the first `k` fields. */
  predicate Built(items: seq<SetItem>, values: seq<Param>, req: UpdatePodRequest, k: nat) {
    && Consecutive(items)
    && NextPlaceholder(items) == |values| + 1
    && RanksIncreasing(items)
    && RanksBelow(items, k)
    && BindsUpTo(items, values, req, k)
  }

  lemma {:induction false} FindColumnAppend(items: seq<SetItem>, it: SetItem, c: PodColumn)
    ensures FindColumn(items + [it], c)
            == if FindColumn(items, c).Some? then FindColumn(items, c)
               else if it.column == c then Some(it.placeholder) else None
  {
    if items == [] {
      assert [it][1..] == [];
    } else {
      assert (items + [it])[1..] == items[1..] + [it];
      FindColumnAppend(items[1..], it, c);
    }
  }

  lemma {:induction false} FindColumnNone(items: seq<SetItem>, c: PodColumn)
    requires forall i :: 0 <= i < |items| ==> items[i].column != c
    ensures FindColumn(items, c) == None
  {
    if items != [] {
      FindColumnNone(items[1..], c);
    }
  }

  /** Every placeholder of a consecutive list lies below the next one. */
  lemma {:induction false} ConsecutiveBound(items: seq<SetItem>, c: PodColumn)
    requires Consecutive(items)
    requires FindColumn(items, c).Some?
    ensures 1 <= FindColumn(items, c).value
    ensures FindColumn(items, c).value + Arity(c) <= NextPlaceholder(items)
  {
    var prefix := items[..|items| - 1];
    var last := items[|items| - 1];
    assert items == prefix + [last];
    FindColumnAppend(prefix, last, c);
    if FindColumn(prefix, c).Some? {
      ConsecutiveBound(prefix, c);
    } else if prefix != [] {
      ConsecutiveStart(prefix);
    }
  }

  lemma {:induction false} ConsecutiveStart(items: seq<SetItem>)
    requires Consecutive(items)
    ensures NextPlaceholder(items) >= 1
  {
  }

  /** Parameters appended after the SET list's own do not change what it binds. */
  lemma BoundExtend(items: seq<SetItem>, values: seq<Param>, more: seq<Param>, c: PodColumn)
    requires Consecutive(items) && NextPlaceholder(items) == |values| + 1
    ensures Bound(items, values + more, c) == Bound(items, values, c)
  {
    if FindColumn(items, c).Some? {
      ConsecutiveBound(items, c);
      var ph := FindColumn(items, c).value;
      assert (values + more)[ph - 1..ph - 1 + Arity(c)] == values[ph - 1..ph - 1 + Arity(c)];
    }
  }

  /** Appending an entry for a column not yet in the list, with its parameters
      at the end, binds that column to those parameters and nothing else changes. */
  lemma BoundAfterAdd(items: seq<SetItem>, values: seq<Param>, it: SetItem, vs: seq<Param>,
                      d: PodColumn)
    requires Consecutive(items) && NextPlaceholder(items) == |values| + 1
    requires it.placeholder == |values| + 1 && |vs| == Arity(it.column)
    requires FindColumn(items, it.column) == None
    ensures Bound(items + [it], values + vs, d)
            == if d == it.column then Some(vs) else Bound(items, values, d)
  {
    if d == it.column {
      BoundAddedColumn(items, values, it, vs);
    } else {
      BoundOtherColumn(items, values, it, vs, d);
    }
  }

  lemma BoundAddedColumn(items: seq<SetItem>, values: seq<Param>, it: SetItem, vs: seq<Param>)
    requires it.placeholder == |values| + 1 && |vs| == Arity(it.column)
    requires FindColumn(items, it.column) == None
    ensures Bound(items + [it], values + vs, it.column) == Some(vs)
  {
    FindColumnAppend(items, it, it.column);
    var all := values + vs;
    assert all[|values|..|values| + |vs|] == vs;
    assert BoundAt(Some(|values| + 1), all, it.column) == Some(vs);
  }

  lemma BoundOtherColumn(items: seq<SetItem>, values: seq<Param>, it: SetItem, vs: seq<Param>,
                         d: PodColumn)
    requires Consecutive(items) && NextPlaceholder(items) == |values| + 1
    requires d != it.column
    ensures Bound(items + [it], values + vs, d) == Bound(items, values, d)
  {
    FindColumnAppend(items, it, d);
    BoundExtend(items, values, vs, d);
  }

  lemma AddConsecutive(items: seq<SetItem>, it: SetItem)
    requires Consecutive(items) && it.placeholder == NextPlaceholder(items)
    ensures Consecutive(items + [it])
    ensures NextPlaceholder(items + [it]) == it.placeholder + Arity(it.column)
  {
    assert (items + [it])[..|items + [it]| - 1] == items;
  }

  lemma AddRanks(items: seq<SetItem>, it: SetItem, k: nat)
    requires RanksIncreasing(items) && RanksBelow(items, k) && Rank(it.column) == k
    ensures RanksIncreasing(items + [it]) && RanksBelow(items + [it], k + 1)
  {
  }

  /** A truthy field adds one entry at the next placeholder and its parameters. */
  lemma AddField(items: seq<SetItem>, values: seq<Param>, req: UpdatePodRequest, c: PodColumn)
    requires Built(items, values, req, Rank(c))
    requires RequestValue(req, c).Some? && |RequestValue(req, c).value| == Arity(c)
    ensures Built(items + [SetItem(c, |values| + 1)], values + RequestValue(req, c).value,
                  req, Rank(c) + 1)
  {
    AddConsecutive(items, SetItem(c, |values| + 1));
    AddRanks(items, SetItem(c, |values| + 1), Rank(c));
    AddBound(items, values, req, c);
  }

  lemma AddBound(items: seq<SetItem>, values: seq<Param>, req: UpdatePodRequest, c: PodColumn)
    requires Consecutive(items) && NextPlaceholder(items) == |values| + 1
    requires RanksBelow(items, Rank(c)) && BindsUpTo(items, values, req, Rank(c))
    requires RequestValue(req, c).Some? && |RequestValue(req, c).value| == Arity(c)
    ensures BindsUpTo(items + [SetItem(c, |values| + 1)], values + RequestValue(req, c).value,
                      req, Rank(c) + 1)
  {
    var it := SetItem(c, |values| + 1);
    var vs := RequestValue(req, c).value;
    FindColumnNone(items, c);
    forall d
      ensures Bound(items + [it], values + vs, d)
              == if Rank(d) < Rank(c) + 1 then RequestValue(req, d) else None
    {
      BoundAfterAdd(items, values, it, vs, d);
      if d != c {
        RankInjective(c, d);
      }
    }
  }

  lemma RankInjective(c: PodColumn, d: PodColumn)
    requires c != d
    ensures Rank(c) != Rank(d)
  {
  }

  /** A falsy field leaves the builder unchanged. */
  lemma SkipField(items: seq<SetItem>, values: seq<Param>, req: UpdatePodRequest, c: PodColumn)
    requires Built(items, values, req, Rank(c))
    requires RequestValue(req, c).None?
    ensures Built(items, values, req, Rank(c) + 1)
  {
    forall d
      ensures Bound(items, values, d) == if Rank(d) < Rank(c) + 1 then RequestValue(req, d) else None
    {
      if d == c {
        assert Bound(items, values, c) == None;
      }
    }
  }

  /** The column the source tests `k`-th. */
  function ColumnAt(k: nat): (c: PodColumn)
    requires k < 8
    ensures Rank(c) == k
  {
    if k == 0 then PodNumberCol else if k == 1 then DescriptionCol
    else if k == 2 then LocationIdCol else if k == 3 then StatusCol
    else if k == 4 then AddressCol else if k == 5 then CoordinatesCol
    else if k == 6 then PricePerHourCol else MaxCapacityCol
  }

  lemma RequestValueArity(req: UpdatePodRequest, c: PodColumn)
    ensures RequestValue(req, c).Some? ==> |RequestValue(req, c).value| == Arity(c)
  {
  }

  /** The values pushed once the first `k` fields have been looked at. */
  ghost function PlanValues(req: UpdatePodRequest, k: nat): seq<Param>
    requires k <= 8
  {
    if k == 0 then []
    else if RequestValue(req, ColumnAt(k - 1)).Some?
    then PlanValues(req, k - 1) + RequestValue(req, ColumnAt(k - 1)).value
    else PlanValues(req, k - 1)
  }

  /** The SET entries pushed once the first `k` fields have been looked at. */
  ghost function PlanItems(req: UpdatePodRequest, k: nat): seq<SetItem>
    requires k <= 8
  {
    if k == 0 then []
    else if RequestValue(req, ColumnAt(k - 1)).Some?
    then PlanItems(req, k - 1) + [SetItem(ColumnAt(k - 1), |PlanValues(req, k - 1)| + 1)]
    else PlanItems(req, k - 1)
  }

  /** One more field of the plan: the entry and values it adds, if any. */
  lemma PlanStep(req: UpdatePodRequest, k: nat)
    requires k < 8
    ensures PlanItems(req, k + 1)
            == if RequestValue(req, ColumnAt(k)).Some?
               then PlanItems(req, k) + [SetItem(ColumnAt(k), |PlanValues(req, k)| + 1)]
               else PlanItems(req, k)
    ensures PlanValues(req, k + 1)
            == if RequestValue(req, ColumnAt(k)).Some?
               then PlanValues(req, k) + RequestValue(req, ColumnAt(k)).value
               else PlanValues(req, k)
  {
  }

  lemma {:induction false} PlanBuilt(req: UpdatePodRequest, k: nat)
    requires k <= 8
    ensures Built(PlanItems(req, k), PlanValues(req, k), req, k)
  {
    if k == 0 {
    } else {
      PlanBuilt(req, k - 1);
      var c := ColumnAt(k - 1);
      RequestValueArity(req, c);
      var items, values := PlanItems(req, k - 1), PlanValues(req, k - 1);
      if RequestValue(req, c).Some? {
        AddField(items, values, req, c);
        assert PlanItems(req, k) == items + [SetItem(c, |values| + 1)];
        assert PlanValues(req, k) == values + RequestValue(req, c).value;
      } else {
        SkipField(items, values, req, c);
        assert PlanItems(req, k) == items;
        assert PlanValues(req, k) == values;
      }
    }
  }

  /** One block of `updatePod`: when the field is truthy, push
      `column = $valueIndex` and the field's value(s), and advance `valueIndex`
      by the number of values pushed. */
  method AddClause(items: seq<SetItem>, values: seq<Param>, valueIndex: nat,
                   req: UpdatePodRequest, c: PodColumn, ghost k: nat)
    returns (items': seq<SetItem>, values': seq<Param>, valueIndex': nat)
    requires Rank(c) == k
    requires items == PlanItems(req, k) && values == PlanValues(req, k)
    requires valueIndex == |values| + 1
    ensures items' == PlanItems(req, k + 1) && values' == PlanValues(req, k + 1)
    ensures valueIndex' == |values'| + 1
  {
    PlanStep(req, Rank(c));
    match RequestValue(req, c)
    case None =>
      items', values', valueIndex' := items, values, valueIndex;
    case Some(vs) =>
      items' := items + [SetItem(c, valueIndex)];
      values' := values + vs;
      valueIndex' := valueIndex + |vs|;
  }

  /** The blocks of `updatePod` for the pod number, description, location
      and status, starting from empty lists at `$1`. */
  method AddIdentityClauses(req: UpdatePodRequest)
    returns (items: seq<SetItem>, values: seq<Param>, valueIndex: nat)
    ensures items == PlanItems(req, 4) && values == PlanValues(req, 4)
    ensures valueIndex == |values| + 1
  {
    items, values, valueIndex := AddClause([], [], 1, req, PodNumberCol, 0);
    items, values, valueIndex := AddClause(items, values, valueIndex, req, DescriptionCol, 1);
    items, values, valueIndex := AddClause(items, values, valueIndex, req, LocationIdCol, 2);
    items, values, valueIndex := AddClause(items, values, valueIndex, req, StatusCol, 3);
  }

  /** The blocks of `updatePod` for the address, coordinates, hourly price
      and capacity, after the first four. */
  method AddPlaceClauses(items0: seq<SetItem>, values0: seq<Param>, valueIndex0: nat, req: UpdatePodRequest)
    returns (items: seq<SetItem>, values: seq<Param>, valueIndex: nat)
    requires items0 == PlanItems(req, 4) && values0 == PlanValues(req, 4)
    requires valueIndex0 == |values0| + 1
    ensures items == PlanItems(req, 8) && values == PlanValues(req, 8)
    ensures valueIndex == |values| + 1
  {
    items, values, valueIndex := AddClause(items0, values0, valueIndex0, req, AddressCol, 4);
    items, values, valueIndex := AddClause(items, values, valueIndex, req, CoordinatesCol, 5);
    items, values, valueIndex := AddClause(items, values, valueIndex, req, PricePerHourCol, 6);
    items, values, valueIndex := AddClause(items, values, valueIndex, req, MaxCapacityCol, 7);
  }

  /** `updatePod`'s accumulation of `updateFields` and `updateValues`. The pod key
      is the last value and the WHERE placeholder is the number of values; the
      SET placeholders are consecutive from `$1`; each column appears at most
      once, in source order; and the list binds to each column exactly what the
      request asks for it. An empty list means only `updated_at` would be set. */
  method BuildPodUpdate(podId: nat, req: UpdatePodRequest)
    returns (items: seq<SetItem>, values: seq<Param>, whereIndex: nat)
    ensures |values| >= 1 && values[|values| - 1] == PInt(podId) && whereIndex == |values|
    ensures Consecutive(items) && NextPlaceholder(items) == whereIndex
    ensures RanksIncreasing(items)
    ensures Binds(items, values, req)
    ensures AllRequested(items, req)
  {
    var valueIndex;
    items, values, valueIndex := AddIdentityClauses(req);
    items, values, valueIndex := AddPlaceClauses(items, values, valueIndex, req);
    PlanBuilt(req, 8);
    FinishBuild(items, values, req, podId);
    values := values + [PInt(podId)];
    whereIndex := valueIndex;
  }

  /** Once all eight fields have been looked at, appending the pod key keeps
      every binding and puts the key at the WHERE placeholder. */
  lemma FinishBuild(items: seq<SetItem>, values: seq<Param>, req: UpdatePodRequest, podId: nat)
    requires Built(items, values, req, 8)
    ensures Consecutive(items) && NextPlaceholder(items) == |values| + 1
    ensures RanksIncreasing(items)
    ensures Binds(items, values + [PInt(podId)], req)
    ensures AllRequested(items, req)
  {
    forall c
      ensures Bound(items, values + [PInt(podId)], c) == RequestValue(req, c)
    {
      BoundExtend(items, values, [PInt(podId)], c);
    }
    forall i | 0 <= i < |items|
      ensures RequestValue(req, items[i].column).Some?
    {
      FindColumnPresent(items, i);
      ConsecutiveBound(items, items[i].column);
    }
  }

  lemma {:induction false} FindColumnPresent(items: seq<SetItem>, i: nat)
    requires i < |items|
    ensures FindColumn(items, items[i].column).Some?
  {
    if items[0].column != items[i].column {
      FindColumnPresent(items[1..], i - 1);
    }
  }

  /** Which request fields are truthy decides whether anything but `updated_at`
      is set. */
  predicate HasUpdateFields(req: UpdatePodRequest) {
    exists c :: RequestValue(req, c).Some?
  }

  lemma EmptyItemsIffNoFields(items: seq<SetItem>, values: seq<Param>, req: UpdatePodRequest)
    requires Consecutive(items) && NextPlaceholder(items) <= |values| + 1
    requires Binds(items, values, req)
    ensures items == [] <==> !HasUpdateFields(req)
  {
    if items != [] {
      var c := items[0].column;
      assert FindColumn(items, c).Some?;
      ConsecutiveBound(items, c);
      assert RequestValue(req, c).Some?;
    } else {
      forall c
        ensures RequestValue(req, c).None?
      {
        assert Bound(items, values, c) == None;
      }
    }
  }

  /** What the database does with `UPDATE pods SET … WHERE pod_id = $n` on the
      matching row: each bound column takes its parameter(s), every other
      column keeps its value. */
  function ExecuteSet(p: Pod, items: seq<SetItem>, values: seq<Param>): Pod {
    p.(
      podNumber := TextParam(Bound(items, values, PodNumberCol), p.podNumber),
      description := OptTextParam(Bound(items, values, DescriptionCol), p.description),
      locationId := OptIntParam(Bound(items, values, LocationIdCol), p.locationId),
      status := StatusParam(Bound(items, values, StatusCol), p.status),
      address := OptTextParam(Bound(items, values, AddressCol), p.address),
      longitude := RealParam(Bound(items, values, CoordinatesCol), 0, p.longitude),
      latitude := RealParam(Bound(items, values, CoordinatesCol), 1, p.latitude),
      pricePerHour := IntParam(Bound(items, values, PricePerHourCol), p.pricePerHour),
      maxCapacity := IntParam(Bound(items, values, MaxCapacityCol), p.maxCapacity))
  }

  /** How the column reads a bound text parameter; without one it keeps `current`. */
  function TextParam(b: Option<seq<Param>>, current: string): string {
    if b.Some? && |b.value| == 1 && b.value[0].PText? then b.value[0].s else current
  }

  function OptTextParam(b: Option<seq<Param>>, current: Option<string>): Option<string> {
    if b.Some? && |b.value| == 1 && b.value[0].PText? then Some(b.value[0].s) else current
  }

  function IntParam(b: Option<seq<Param>>, current: int): int {
    if b.Some? && |b.value| == 1 && b.value[0].PInt? then b.value[0].i else current
  }

  function OptIntParam(b: Option<seq<Param>>, current: Option<int>): Option<int> {
    if b.Some? && |b.value| == 1 && b.value[0].PInt? then Some(b.value[0].i) else current
  }

  /** `ST_MakePoint(x, y)`: parameter 0 is the x (longitude), 1 the y (latitude). */
  function RealParam(b: Option<seq<Param>>, k: nat, current: real): real {
    if b.Some? && |b.value| == 2 && k < 2 && b.value[k].PReal? then b.value[k].r else current
  }

  /** The status column accepts the three names of the status type. */
  function StatusParam(b: Option<seq<Param>>, current: PodStatus): PodStatus {
    if b.Some? && |b.value| == 1 && b.value[0].PText? then
      var s := b.value[0].s;
      if s == "available" then Available
      else if s == "occupied" then Occupied
      else if s == "maintenance" then Maintenance else current
    else current
  }

  /** The effect `updatePod` intends, stated field by field on the request. */
  function ApplyRequest(p: Pod, req: UpdatePodRequest): Pod {
    var coords := RealTruthy(req.latitude) && RealTruthy(req.longitude)
                  && IsValidCoordinates(req.latitude.value, req.longitude.value);
    p.(
      podNumber := if Truthy(req.podNumber) then req.podNumber.value else p.podNumber,
      description := if Truthy(req.description) then req.description else p.description,
      locationId := if IntTruthy(req.locationId) then req.locationId else p.locationId,
      status := if req.status.Some? then req.status.value else p.status,
      address := if Truthy(req.address) then req.address else p.address,
      latitude := if coords then req.latitude.value else p.latitude,
      longitude := if coords then req.longitude.value else p.longitude,
      pricePerHour := if IntTruthy(req.pricePerHour) then req.pricePerHour.value else p.pricePerHour,
      maxCapacity := if IntTruthy(req.maxCapacity) then req.maxCapacity.value else p.maxCapacity)
  }

  /** Running the built statement has the intended effect: in particular the
      longitude goes to the first coordinate parameter and the latitude to the
      second. */
  lemma ExecuteSetMatchesRequest(p: Pod, items: seq<SetItem>, values: seq<Param>,
                                 req: UpdatePodRequest)
    requires Binds(items, values, req)
    ensures ExecuteSet(p, items, values) == ApplyRequest(p, req)
  {
    assert Bound(items, values, StatusCol) == RequestValue(req, StatusCol);
    assert Bound(items, values, CoordinatesCol) == RequestValue(req, CoordinatesCol);
  }

  /** The database running the built UPDATE on the matching row. */
  method ExecuteUpdate(p: Pod, items: seq<SetItem>, values: seq<Param>, ghost req: UpdatePodRequest)
    returns (q: Pod)
    requires Binds(items, values, req)
    ensures q == ApplyRequest(p, req)
  {
    ExecuteSetMatchesRequest(p, items, values, req);
    q := ExecuteSet(p, items, values);
  }

  /** An update keeps the key, and keeps coordinates valid: new ones are taken
      only when they are in range. */
  lemma ApplyRequestKeeps(p: Pod, req: UpdatePodRequest)
    ensures ApplyRequest(p, req).id == p.id
    ensures IsValidCoordinates(p.latitude, p.longitude) ==>
              IsValidCoordinates(ApplyRequest(p, req).latitude, ApplyRequest(p, req).longitude)
  {
  }

  /** The pods table and the pod_amenities table. */
  class PodCatalog {
    var pods: seq<Pod>
    var amenityRows: seq<AmenityRow>
    var nextId: nat

    /** Keys are distinct and below the next serial value; every pod has valid
        coordinates; every amenity row belongs to a pod. */
    ghost predicate Valid()
      reads this
    {
      IdsBelow(pods, nextId) && DistinctIds(pods) && CoordinatesValid(pods)
      && RowsReferencePods(pods, amenityRows)
    }

    constructor ()
      ensures Valid() && pods == [] && amenityRows == []
    {
      pods, amenityRows, nextId := [], [], 0;
    }

    function IndexOfPod(id: nat): (r: Option<nat>)
      reads this
      ensures r.Some? ==> r.value < |pods| && pods[r.value].id == id
      ensures r.None? ==> forall i :: 0 <= i < |pods| ==> pods[i].id != id
    {
      IndexOfPodIn(pods, id)
    }

    /** `createPod`: invalid coordinates are rejected before anything is
        written. Otherwise the pod is inserted (its status is the column default,
        `available`) and, when the amenity list is non-empty, one amenity row per
        element is inserted for it. */
    method CreatePod(req: CreatePodRequest) returns (r: Result<Pod, PodError>)
      requires Valid()
      modifies this
      ensures Valid()
      ensures !IsValidCoordinates(req.latitude, req.longitude) ==>
                r == Failure(InvalidCoordinates) && unchanged(this)
      ensures IsValidCoordinates(req.latitude, req.longitude) ==>
                && r.Success?
                && r.value == Pod(old(nextId), req.podNumber, req.description, req.locationId,
                                  Available, req.address, req.latitude, req.longitude,
                                  req.pricePerHour, req.maxCapacity)
                && pods == old(pods) + [r.value]
                && amenityRows == old(amenityRows)
                   + (if req.amenities.Some? then AmenityInsertRows(r.value.id, req.amenities.value)
                      else [])
    {
      if !IsValidCoordinates(req.latitude, req.longitude) {
        return Failure(InvalidCoordinates);
      }
      var pod := Pod(nextId, req.podNumber, req.description, req.locationId, Available,
                     req.address, req.latitude, req.longitude, req.pricePerHour, req.maxCapacity);
      pods := pods + [pod];
      nextId := nextId + 1;
      if req.amenities.Some? && |req.amenities.value| > 0 {
        amenityRows := amenityRows + AmenityInsertRows(pod.id, req.amenities.value);
      } else if req.amenities.Some? {
        assert AmenityInsertRows(pod.id, req.amenities.value) == [];
        assert amenityRows == amenityRows + [];
      }
      forall x | x in amenityRows
        ensures exists i :: 0 <= i < |pods| && pods[i].id == x.podId
      {
        if x !in old(amenityRows) {
          assert pods[|pods| - 1].id == x.podId;
        } else {
          var i :| 0 <= i < |old(pods)| && old(pods)[i].id == x.podId;
          assert pods[i].id == x.podId;
        }
      }
      return Success(pod);
    }

    /** `updatePod`: without any field to set it fails with `No fields to
        update` (amenities alone do not count); without a pod of that key it
        fails with `Pod not found`; both leave everything unchanged. Otherwise
        the pod takes the requested fields, and a given amenity list replaces
        the pod's amenity rows. */
    method UpdatePod(podId: nat, req: UpdatePodRequest) returns (r: Result<Pod, PodError>)
      requires Valid()
      modifies this
      ensures Valid() && nextId == old(nextId)
      ensures !HasUpdateFields(req) ==> r == Failure(NoFieldsToUpdate) && unchanged(this)
      ensures HasUpdateFields(req) && old(IndexOfPod(podId)).None? ==>
                r == Failure(PodNotFound) && unchanged(this)
      ensures HasUpdateFields(req) && old(IndexOfPod(podId)).Some? ==>
                var i := old(IndexOfPod(podId)).value;
                && |pods| == |old(pods)|
                && r == Success(pods[i])
                && pods == old(pods)[i := ApplyRequest(old(pods)[i], req)]
                && amenityRows == if req.amenities.Some?
                                  then WithoutPod(old(amenityRows), podId)
                                       + AmenityInsertRows(podId, req.amenities.value)
                                  else old(amenityRows)
    {
      var items, values, whereIndex := BuildPodUpdate(podId, req);
      EmptyItemsIffNoFields(items, values, req);
      if |items| == 0 {
        return Failure(NoFieldsToUpdate);
      }
      var found := IndexOfPod(podId);
      if found.None? {
        return Failure(PodNotFound);
      }
      var i := found.value;
      var updated := ExecuteUpdate(pods[i], items, values, req);
      ApplyRequestKeeps(pods[i], req);
      ReplacePodKeeps(pods, amenityRows, nextId, i, updated);
      pods := pods[i := updated];
      if req.amenities.Some? {
        var kept := WithoutPod(amenityRows, updated.id);
        ReplaceRowsKeeps(pods, amenityRows, i, req.amenities.value);
        if |req.amenities.value| > 0 {
          amenityRows := kept + AmenityInsertRows(updated.id, req.amenities.value);
        } else {
          assert AmenityInsertRows(updated.id, req.amenities.value) == [];
          amenityRows := kept + [];
        }
      }
      return Success(updated);
    }
  }

  predicate IdsBelow(pods: seq<Pod>, bound: nat) {
    forall i :: 0 <= i < |pods| ==> pods[i].id < bound
  }

  predicate DistinctIds(pods: seq<Pod>) {
    forall i, j :: 0 <= i < j < |pods| ==> pods[i].id != pods[j].id
  }

  predicate CoordinatesValid(pods: seq<Pod>) {
    forall i :: 0 <= i < |pods| ==> IsValidCoordinates(pods[i].latitude, pods[i].longitude)
  }

  predicate RowsReferencePods(pods: seq<Pod>, rows: seq<AmenityRow>) {
    forall r :: r in rows ==> exists i :: 0 <= i < |pods| && pods[i].id == r.podId
  }

  /** Replacing a pod by one with the same key and valid coordinates keeps the
      catalogue's invariant. */
  lemma ReplacePodKeeps(pods: seq<Pod>, rows: seq<AmenityRow>, bound: nat, i: nat, q: Pod)
    requires i < |pods| && q.id == pods[i].id
    requires IsValidCoordinates(q.latitude, q.longitude)
    requires IdsBelow(pods, bound) && DistinctIds(pods) && CoordinatesValid(pods)
    requires RowsReferencePods(pods, rows)
    ensures IdsBelow(pods[i := q], bound) && DistinctIds(pods[i := q]) && CoordinatesValid(pods[i := q])
    ensures RowsReferencePods(pods[i := q], rows)
  {
    var ps := pods[i := q];
    assert forall k :: 0 <= k < |ps| ==> ps[k].id == pods[k].id;
    forall x | x in rows
      ensures exists k :: 0 <= k < |ps| && ps[k].id == x.podId
    {
      var k :| 0 <= k < |pods| && pods[k].id == x.podId;
      assert ps[k].id == x.podId;
    }
  }

  /** Replacing the amenity rows of an existing pod keeps every row referencing
      a pod. */
  lemma ReplaceRowsKeeps(pods: seq<Pod>, rows: seq<AmenityRow>, i: nat, amenities: seq<int>)
    requires i < |pods| && RowsReferencePods(pods, rows)
    ensures RowsReferencePods(pods, WithoutPod(rows, pods[i].id) + AmenityInsertRows(pods[i].id, amenities))
  {
    forall x | x in WithoutPod(rows, pods[i].id) + AmenityInsertRows(pods[i].id, amenities)
      ensures exists k :: 0 <= k < |pods| && pods[k].id == x.podId
    {
      if x in rows {
        var k :| 0 <= k < |pods| && pods[k].id == x.podId;
      } else {
        assert pods[i].id == x.podId;
      }
    }
  }

  function IndexOfPodIn(pods: seq<Pod>, id: nat): (r: Option<nat>)
    ensures r.Some? ==> r.value < |pods| && pods[r.value].id == id
    ensures r.None? ==> forall i :: 0 <= i < |pods| ==> pods[i].id != id
  {
    if pods == [] then None
    else if pods[0].id == id then Some(0)
    else match IndexOfPodIn(pods[1..], id)
      case None => None
      case Some(k) => Some(k + 1)
  }

  // ----- getPodsNearUser parameters -----

  /** A date string as the request carries it, with the instant `new Date` and
      `Date.parse` read from it. */
  datatype DateText = DateText(text: string, parsed: Instant)

  predicate DateTruthy(d: Option<DateText>) {
    d.Some? && d.value.text != ""
  }

  datatype PodSearchRequest = PodSearchRequest(
    latitude: real,
    longitude: real,
    range: real,
    checkIn: Option<DateText>,
    checkOut: Option<DateText>,
    capacity: Option<int>)

  /** The parameters of the search and the placeholders of the optional filters:
      the availability subquery reads check-in and check-out from two
      placeholders, the capacity filter from one. */
  datatype NearbyQuery = NearbyQuery(
    params: seq<Param>,
    availability: Option<(nat, nat)>,
    capacityPlaceholder: Option<nat>)

  /** `getPodsNearUser`'s guards and parameter list. Invalid coordinates, and,
      when both dates are given, an invalid date range are rejected. The first
      three parameters are longitude, latitude and the range in metres; the
      dates, when both are given, use `$4` and `$5`; the capacity, when truthy,
      uses the last placeholder, `$4` without dates and `$6` with them. */
  method BuildNearbyQuery(search: PodSearchRequest, now: int) returns (r: Result<NearbyQuery, PodError>)
    ensures !IsValidCoordinates(search.latitude, search.longitude) ==> r == Failure(InvalidCoordinates)
    ensures IsValidCoordinates(search.latitude, search.longitude)
            && DateTruthy(search.checkIn) && DateTruthy(search.checkOut)
            && !IsValidDateRange(search.checkIn.value.parsed, search.checkOut.value.parsed, now)
            ==> r == Failure(InvalidDateRange)
    ensures r.Success? ==>
              var q := r.value;
              var dates := DateTruthy(search.checkIn) && DateTruthy(search.checkOut);
              && IsValidCoordinates(search.latitude, search.longitude)
              && |q.params| >= 3
              && q.params[..3] == [PReal(search.longitude), PReal(search.latitude),
                                   PReal(search.range * 1000.0)]
              && |q.params| == 3 + (if dates then 2 else 0) + (if IntTruthy(search.capacity) then 1 else 0)
              && (q.availability.Some? <==> dates)
              && (dates ==> q.availability == Some((4, 5))
                            && q.params[3..5] == [PInt(search.checkIn.value.parsed.ms),
                                                  PInt(search.checkOut.value.parsed.ms)])
              && (q.capacityPlaceholder.Some? <==> IntTruthy(search.capacity))
              && (IntTruthy(search.capacity) ==>
                    q.capacityPlaceholder == Some(|q.params|)
                    && q.capacityPlaceholder.value == (if dates then 6 else 4)
                    && q.params[|q.params| - 1] == PInt(search.capacity.value))
    ensures IsValidCoordinates(search.latitude, search.longitude)
            && !(DateTruthy(search.checkIn) && DateTruthy(search.checkOut)
                 && !IsValidDateRange(search.checkIn.value.parsed, search.checkOut.value.parsed, now))
            ==> r.Success?
  {
    if !IsValidCoordinates(search.latitude, search.longitude) {
      return Failure(InvalidCoordinates);
    }
    var queryParams := [PReal(search.longitude), PReal(search.latitude), PReal(search.range * 1000.0)];
    var paramIndex := 4;
    var availability: Option<(nat, nat)> := None;
    if DateTruthy(search.checkIn) && DateTruthy(search.checkOut) {
      if !IsValidDateRange(search.checkIn.value.parsed, search.checkOut.value.parsed, now) {
        return Failure(InvalidDateRange);
      }
      availability := Some((paramIndex, paramIndex + 1));
      queryParams := queryParams + [PInt(search.checkIn.value.parsed.ms),
                                    PInt(search.checkOut.value.parsed.ms)];
      paramIndex := paramIndex + 2;
    }
    var capacityPlaceholder: Option<nat> := None;
    if IntTruthy(search.capacity) {
      capacityPlaceholder := Some(paramIndex);
      queryParams := queryParams + [PInt(search.capacity.value)];
    }
    return Success(NearbyQuery(queryParams, availability, capacityPlaceholder));
  }
}
