/** The record shapes the allocation engine passes around: inventory batches,
    plan lines, deduction lines, ledger entries and the allocation fields of an order. */
module Domain {
  import opened Wrappers

  /** The text Double.toString gives a unit price (MRP). It is never empty and never
      holds '|' (it looks like "9.99", "1.0E10", "NaN" or "-Infinity"), so it can be
      told apart from the "||" separator inside a key. The price itself is only ever
      compared for equality, so the text is all the model keeps of it. */
  predicate IsMrpText(s: string) {
    |s| > 0 && '|' !in s
  }

  type MrpText = s: string | IsMrpText(s) witness "0.0"

  /** A LocalDate, as a day number: the engine only ever compares expiry dates. */
  type Date = int

  /** InventoryBatchResponse: one batch the inventory gateway reports for a (SKU, MRP) pair. */
  datatype Batch = Batch(batchNo: string, expiryDate: Date, mrp: Option<MrpText>, quantity: int)

  /** BatchAllocationDetail: one plan line, the quantity taken from one batch. The single
      path leaves expiryDate and mrp unset; the bulk path copies them from the batch. */
  datatype AllocationDetail =
    AllocationDetail(batchNo: string, expiryDate: Option<Date>, mrp: Option<MrpText>, qty: int)

  /** InventoryDeductRequest: one line of a deduction call. */
  datatype DeductLine = DeductLine(sku: string, mrp: MrpText, batchNo: string, quantity: int)

  /** OrderAllocation: one immutable ledger entry owned by an order. */
  datatype LedgerEntry =
    LedgerEntry(skuCode: string, batchNo: string, expiryDate: Option<Date>, mrp: Option<MrpText>, allocatedQty: int)

  datatype OrderStatus = PENDING | PARTIAL | COMPLETED

  /** The fields of an Order that allocation reads or writes, as a value. */
  datatype OrderState = OrderState(
    orderNumber: string,
    skuCode: string,
    mrp: MrpText,
    requestedQty: int,
    allocatedQty: int,
    status: OrderStatus,
    allocations: seq<LedgerEntry>)

  function Min(a: int, b: int): int {
    if a <= b then a else b
  }

  /** Sum of the quantities of a list of plan lines. */
  function SumQty(ds: seq<AllocationDetail>): int {
    if ds == [] then 0 else ds[0].qty + SumQty(ds[1..])
  }

  lemma {:induction false} SumQtyAppend(a: seq<AllocationDetail>, b: seq<AllocationDetail>)
    ensures SumQty(a + b) == SumQty(a) + SumQty(b)
  {
    if a == [] {
      assert a + b == b;
    } else {
      assert (a + b)[1..] == a[1..] + b;
      SumQtyAppend(a[1..], b);
    }
  }

  /** The status rule applied after every allocation: COMPLETED once the allocated
      quantity reaches the requested one, PARTIAL while it is positive, otherwise as it was. */
  function StatusAfter(allocatedQty: int, requestedQty: int, current: OrderStatus): OrderStatus {
    if allocatedQty == requestedQty then COMPLETED
    else if allocatedQty > 0 then PARTIAL
    else current
  }

  /** The status derived from the two quantities: PENDING before any allocation,
      PARTIAL in between, COMPLETED once everything requested is allocated. */
  function DerivedStatus(allocatedQty: int, requestedQty: int): OrderStatus {
    if allocatedQty == requestedQty then COMPLETED
    else if allocatedQty == 0 then PENDING
    else PARTIAL
  }

  /** The order invariant: 0 <= allocatedQty <= requestedQty, requestedQty positive,
      and the status is the derived one. */
  predicate WellFormedOrder(o: OrderState) {
    && 0 <= o.allocatedQty <= o.requestedQty
    && 0 < o.requestedQty
    && o.status == DerivedStatus(o.allocatedQty, o.requestedQty)
  }

  /** Length of the longest suffix of x that holds no '|'. */
  function PipeFreeTail(x: string): nat {
    if x == [] || x[|x| - 1] == '|' then 0 else 1 + PipeFreeTail(x[..|x| - 1])
  }

  lemma {:induction false} PipeFreeTailOfJoined(a: string, m: string)
    requires '|' !in m
    ensures PipeFreeTail(a + "||" + m) == |m|
  {
    var x := a + "||" + m;
    if m != [] {
      assert x[..|x| - 1] == a + "||" + m[..|m| - 1];
      PipeFreeTailOfJoined(a, m[..|m| - 1]);
    }
  }

  /** Both key builders join a SKU and a price text with "||". Because the price text holds
      no '|', the joined string determines both parts. */
  lemma SeparatedMrpInjective(a: string, m1: MrpText, b: string, m2: MrpText)
    requires a + "||" + m1 == b + "||" + m2
    ensures a == b && m1 == m2
  {
    var x := a + "||" + m1;
    PipeFreeTailOfJoined(a, m1);
    PipeFreeTailOfJoined(b, m2);
    assert |a| == |b|;
    assert a == x[..|a|] == b;
    assert m1 == x[|a| + 2..] == m2;
  }

  /** A "sku||mrp" map key, held as its two parts; KeyText is the string the source builds. */
  datatype Key = Key(sku: string, mrp: MrpText)

  function KeyText(k: Key): string {
    k.sku + "||" + k.mrp
  }

  /** Distinct keys have distinct texts, so a map keyed by the text is a map keyed by the pair. */
  lemma KeyTextInjective(k1: Key, k2: Key)
    ensures KeyText(k1) == KeyText(k2) <==> k1 == k2
  {
    if KeyText(k1) == KeyText(k2) {
      SeparatedMrpInjective(k1.sku, k1.mrp, k2.sku, k2.mrp);
    }
  }
}
