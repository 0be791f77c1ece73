/** The order entity and the single-order allocation of the order service
    (allocateOrderInternal): validate the order, ask the gateway for its batches, plan FEFO,
    deduct at the gateway, then write the ledger and update quantity and status. */
module OrderService {
  import opened Wrappers
  import opened JavaText
  import opened Domain
  import opened InventoryClient
  import opened Planner

  /** The ledger entry saved for one plan line. */
  function LedgerEntryFor(skuCode: string, d: AllocationDetail): LedgerEntry {
    LedgerEntry(skuCode, d.batchNo, d.expiryDate, d.mrp, d.qty)
  }

  /** The ledger entries saved for a plan, one per line, in order. */
  function EntriesFor(skuCode: string, ds: seq<AllocationDetail>): (es: seq<LedgerEntry>)
    ensures |es| == |ds|
    ensures forall i :: 0 <= i < |ds| ==> es[i].batchNo == ds[i].batchNo && es[i].allocatedQty == ds[i].qty && es[i].skuCode == skuCode
  {
    seq(|ds|, i requires 0 <= i < |ds| => LedgerEntryFor(skuCode, ds[i]))
  }

  /** The deduction lines of a plan: the order's SKU and price, each line's batch and quantity. */
  function DeductLines(skuCode: string, mrp: MrpText, ds: seq<AllocationDetail>): (ls: seq<DeductLine>)
    ensures |ls| == |ds|
    ensures forall i :: 0 <= i < |ds| ==> ls[i] == DeductLine(skuCode, mrp, ds[i].batchNo, ds[i].qty)
  {
    seq(|ds|, i requires 0 <= i < |ds| => DeductLine(skuCode, mrp, ds[i].batchNo, ds[i].qty))
  }

  /** The order after a plan is recorded: its entries appended, the total added to the
      allocated quantity, and the status rule applied. */
  function Recorded(s: OrderState, ds: seq<AllocationDetail>, total: int): OrderState {
    var allocatedNow := s.allocatedQty + total;
    s.(allocatedQty := allocatedNow,
       status := StatusAfter(allocatedNow, s.requestedQty, s.status),
       allocations := s.allocations + EntriesFor(s.skuCode, ds))
  }

  /** Commit effect: a positive total no larger than what remains keeps the allocated
      quantity within the requested one, and leaves the order COMPLETED exactly when the two
      meet and PARTIAL otherwise; a well-formed order stays well-formed. */
  lemma RecordedStatus(s: OrderState, ds: seq<AllocationDetail>, total: int)
    requires 0 <= s.allocatedQty && 0 < total <= s.requestedQty - s.allocatedQty
    ensures var t := Recorded(s, ds, total);
            && t.allocatedQty == s.allocatedQty + total <= s.requestedQty
            && (t.status == COMPLETED <==> t.allocatedQty == t.requestedQty)
            && (t.status != COMPLETED ==> t.status == PARTIAL)
            && (WellFormedOrder(s) ==> WellFormedOrder(t))
            && t.allocations[..|s.allocations|] == s.allocations
            && t.allocations[|s.allocations|..] == EntriesFor(s.skuCode, ds)
  {
  }

  /** Order: one order row. Its number, SKU, price and requested quantity are fixed here;
      allocation changes the allocated quantity and the status, and adds the ledger rows
      that reference the order. */
  class Order {
    const orderNumber: string
    const skuCode: string
    const mrp: MrpText
    const requestedQty: int
    var allocatedQty: int
    var status: OrderStatus
    var allocations: seq<LedgerEntry>

    constructor (orderNumber: string, skuCode: string, mrp: MrpText, requestedQty: int,
                 allocatedQty: int, status: OrderStatus, allocations: seq<LedgerEntry>)
      ensures State() == OrderState(orderNumber, skuCode, mrp, requestedQty, allocatedQty, status, allocations)
    {
      this.orderNumber := orderNumber;
      this.skuCode := skuCode;
      this.mrp := mrp;
      this.requestedQty := requestedQty;
      this.allocatedQty := allocatedQty;
      this.status := status;
      this.allocations := allocations;
    }

    function State(): OrderState
      reads this
    {
      OrderState(orderNumber, skuCode, mrp, requestedQty, allocatedQty, status, allocations)
    }

    /** The write-back both paths share: one ledger row saved per plan line, then
        setAllocatedQty(allocatedQty + total) and the status rule. */
    method Record(ds: seq<AllocationDetail>, totalAllocatedNow: int)
      modifies this
      ensures State() == Recorded(old(State()), ds, totalAllocatedNow)
    {
      var i := 0;
      while i < |ds|
        invariant 0 <= i <= |ds|
        invariant allocations == old(allocations) + EntriesFor(skuCode, ds[..i])
        invariant allocatedQty == old(allocatedQty) && status == old(status)
      {
        assert EntriesFor(skuCode, ds[..i + 1]) == EntriesFor(skuCode, ds[..i]) + [LedgerEntryFor(skuCode, ds[i])];
        allocations := allocations + [LedgerEntryFor(skuCode, ds[i])];
        i := i + 1;
      }
      assert ds[..i] == ds;
      allocatedQty := allocatedQty + totalAllocatedNow;
      if allocatedQty == requestedQty {
        status := COMPLETED;
      } else if allocatedQty > 0 {
        status := PARTIAL;
      }
    }
  }

  /** The repository: every order is stored under its own number. */
  predicate OrderStore(db: map<string, Order>) {
    forall k :: k in db ==> db[k].orderNumber == k
  }

  /** The stored orders as values. */
  function Snapshot(db: map<string, Order>): (states: map<string, OrderState>)
    reads db.Values
    ensures states.Keys == db.Keys
    ensures OrderStore(db) ==> forall k :: k in states ==> states[k].orderNumber == k
  {
    map k | k in db :: db[k].State()
  }

  /** The two exceptions allocation raises, each with its message. */
  datatype ServiceError = BusinessError(message: string) | AllocationError(message: string)

  /** AllocationResponse. */
  datatype AllocationResponse =
    AllocationResponse(orderNumber: string, requestedQty: int, allocatedQty: int, status: OrderStatus, allocations: seq<AllocationDetail>)

  function ResponseFor(s: OrderState, ds: seq<AllocationDetail>): AllocationResponse {
    AllocationResponse(s.orderNumber, s.requestedQty, s.allocatedQty, s.status, ds)
  }

  /** What allocateOrderInternal decides for an existing order: the plan to record, or the
      exception it raises, checked in the source's order. */
  function SingleDecision(s: OrderState, available: seq<SkuMrpRequest> -> AvailableReply,
                          send: BulkOrdersDeductRequest -> DeductReply): Result<Plan, ServiceError>
  {
    if s.status == COMPLETED then Failure(AllocationError("Order already completed"))
    else
      var remainingQty := s.requestedQty - s.allocatedQty;
      if remainingQty <= 0 then Failure(AllocationError("Order already fully allocated"))
      else match GetBatchesBySkuAndMrp(s.skuCode, s.mrp, available)
        case Failure(message) => Failure(AllocationError(message))
        case Success(batches) =>
          var validBatches := SortByExpiry(batches);
          if validBatches == [] then Failure(AllocationError("No valid inventory available"))
          else
            var plan := SingleWalk(validBatches, remainingQty);
            if plan.total == 0 then Failure(AllocationError("Insufficient stock for allocation"))
            else match DeductInventoryBulk(DeductLines(s.skuCode, s.mrp, plan.details), send)
              case Fail(message) => Failure(AllocationError(message))
              case Pass => Success(plan)
  }

  /** allocateOrderInternal: a missing order raises "Order not found"; every other rejection
      leaves the order as it was; an accepted plan is recorded and reported. */
  method AllocateOrderInternal(db: map<string, Order>, orderNumber: string,
                               available: seq<SkuMrpRequest> -> AvailableReply,
                               send: BulkOrdersDeductRequest -> DeductReply)
    returns (r: Result<AllocationResponse, ServiceError>)
    requires OrderStore(db)
    modifies if orderNumber in db then {db[orderNumber]} else {}
    ensures orderNumber !in db ==> r == Failure(BusinessError("Order not found"))
    ensures orderNumber in db ==>
              var before := old(db[orderNumber].State());
              match SingleDecision(before, available, send)
              case Failure(e) => r == Failure(e) && db[orderNumber].State() == before
              case Success(plan) =>
                && db[orderNumber].State() == Recorded(before, plan.details, plan.total)
                && r == Success(ResponseFor(db[orderNumber].State(), plan.details))
  {
    if orderNumber !in db {
      return Failure(BusinessError("Order not found"));
    }
    var order := db[orderNumber];
    if order.status == COMPLETED {
      return Failure(AllocationError("Order already completed"));
    }
    var remainingQty := order.requestedQty - order.allocatedQty;
    if remainingQty <= 0 {
      return Failure(AllocationError("Order already fully allocated"));
    }
    var batches: seq<Batch>;
    match GetBatchesBySkuAndMrp(order.skuCode, order.mrp, available) {
      case Failure(message) =>
        return Failure(AllocationError(message));
      case Success(bs) =>
        batches := bs;
    }
    var validBatches := SortByExpiry(batches);
    if validBatches == [] {
      return Failure(AllocationError("No valid inventory available"));
    }
    var allocationDetails, totalAllocatedNow := PlanSingle(validBatches, remainingQty);
    if totalAllocatedNow == 0 {
      return Failure(AllocationError("Insufficient stock for allocation"));
    }
    var deductRequests := DeductLines(order.skuCode, order.mrp, allocationDetails);
    match DeductInventoryBulk(deductRequests, send) {
      case Fail(message) =>
        return Failure(AllocationError(message));
      case Pass =>
    }
    order.Record(allocationDetails, totalAllocatedNow);
    r := Success(ResponseFor(order.State(), allocationDetails));
  }

  /** An accepted single allocation: the order was neither completed nor fully allocated,
      the gateway answered, the plan is the walk over the batches sorted by expiry, and the
      deduction of exactly its lines came back with a success status or an error status with
      an empty body. */
  lemma SingleAllocationPlan(s: OrderState, available: seq<SkuMrpRequest> -> AvailableReply,
                             send: BulkOrdersDeductRequest -> DeductReply)
    requires SingleDecision(s, available, send).Success?
    ensures s.status != COMPLETED && s.requestedQty - s.allocatedQty > 0
    ensures GetBatchesBySkuAndMrp(s.skuCode, s.mrp, available).Success?
    ensures SortedByExpiry(SortByExpiry(GetBatchesBySkuAndMrp(s.skuCode, s.mrp, available).value))
    ensures SingleDecision(s, available, send).value
            == SingleWalk(SortByExpiry(GetBatchesBySkuAndMrp(s.skuCode, s.mrp, available).value), s.requestedQty - s.allocatedQty)
    ensures var reply := send(BulkOrdersDeductRequest("DEDUCT", DeductLines(s.skuCode, s.mrp, SingleDecision(s, available, send).value.details)));
            reply == Deducted || reply == DeductRejected("")
  {
    var q := GetBatchesBySkuAndMrp(s.skuCode, s.mrp, available);
    assert q.Success?;
    var plan := SingleWalk(SortByExpiry(q.value), s.requestedQty - s.allocatedQty);
    assert SingleDecision(s, available, send) == Success(plan);
    SortByExpirySortsAndPermutes(q.value);
  }

  /** The amounts of an accepted single allocation: min(remaining, positive stock) > 0,
      taken as positive lines from the positive batches in expiry order. */
  lemma SingleAllocationTakes(s: OrderState, available: seq<SkuMrpRequest> -> AvailableReply,
                              send: BulkOrdersDeductRequest -> DeductReply, batches: seq<Batch>)
    requires SingleDecision(s, available, send).Success?
    requires GetBatchesBySkuAndMrp(s.skuCode, s.mrp, available) == Success(batches)
    ensures 0 < SingleDecision(s, available, send).value.total <= s.requestedQty - s.allocatedQty
    ensures SingleDecision(s, available, send).value.total
            == Min(s.requestedQty - s.allocatedQty, PositiveStock(SortByExpiry(batches)))
    ensures SingleDecision(s, available, send).value.total == SumQty(SingleDecision(s, available, send).value.details)
    ensures PositiveLines(SingleDecision(s, available, send).value.details)
    ensures TakesInOrder(SingleDecision(s, available, send).value.details, PositiveBatches(SortByExpiry(batches)))
  {
    var remainingQty := s.requestedQty - s.allocatedQty;
    var sorted := SortByExpiry(batches);
    var plan := SingleWalk(sorted, remainingQty);
    SingleAllocationPlan(s, available, send);
    assert SingleDecision(s, available, send).value == plan;
    SingleWalkTotal(sorted, remainingQty);
    PositiveStockNonNegative(sorted);
    SingleWalkIsFefo(sorted, remainingQty);
  }

  /** Single-path atomicity: when the gateway query or the deduction fails, the decision is
      that failure's AllocationException, so nothing is recorded. */
  lemma SingleAllocationAtomic(s: OrderState, available: seq<SkuMrpRequest> -> AvailableReply,
                               send: BulkOrdersDeductRequest -> DeductReply)
    requires s.status != COMPLETED && s.requestedQty - s.allocatedQty > 0
    ensures GetBatchesBySkuAndMrp(s.skuCode, s.mrp, available).Failure? ==>
              SingleDecision(s, available, send)
              == Failure(AllocationError(GetBatchesBySkuAndMrp(s.skuCode, s.mrp, available).error))
    ensures GetBatchesBySkuAndMrp(s.skuCode, s.mrp, available).Success? ==>
              var batches := SortByExpiry(GetBatchesBySkuAndMrp(s.skuCode, s.mrp, available).value);
              var plan := SingleWalk(batches, s.requestedQty - s.allocatedQty);
              var outcome := DeductInventoryBulk(DeductLines(s.skuCode, s.mrp, plan.details), send);
              batches != [] && plan.total != 0 && outcome.Fail? ==>
                SingleDecision(s, available, send) == Failure(AllocationError(outcome.error))
  {
  }

  /** Rejections: a completed order, an order with nothing remaining, an empty batch list
      and a walk that finds no stock each raise their own AllocationException. */
  lemma SingleAllocationRejections(s: OrderState, available: seq<SkuMrpRequest> -> AvailableReply,
                                   send: BulkOrdersDeductRequest -> DeductReply)
    ensures s.status == COMPLETED ==>
              SingleDecision(s, available, send) == Failure(AllocationError("Order already completed"))
    ensures s.status != COMPLETED && s.requestedQty - s.allocatedQty <= 0 ==>
              SingleDecision(s, available, send) == Failure(AllocationError("Order already fully allocated"))
    ensures s.status != COMPLETED && s.requestedQty - s.allocatedQty > 0
            && GetBatchesBySkuAndMrp(s.skuCode, s.mrp, available) == Success([]) ==>
              SingleDecision(s, available, send) == Failure(AllocationError("No valid inventory available"))
    ensures s.status != COMPLETED && s.requestedQty - s.allocatedQty > 0
            && GetBatchesBySkuAndMrp(s.skuCode, s.mrp, available).Success?
            && GetBatchesBySkuAndMrp(s.skuCode, s.mrp, available).value != []
            && PositiveStock(GetBatchesBySkuAndMrp(s.skuCode, s.mrp, available).value) == 0 ==>
              SingleDecision(s, available, send) == Failure(AllocationError("Insufficient stock for allocation"))
  {
    var remainingQty := s.requestedQty - s.allocatedQty;
    var q := GetBatchesBySkuAndMrp(s.skuCode, s.mrp, available);
    if s.status != COMPLETED && remainingQty > 0 && q.Success? && q.value != [] {
      var batches := SortByExpiry(q.value);
      PositiveStockOfSorted(q.value);
      SingleWalkTotal(batches, remainingQty);
    }
  }

  lemma {:induction false} PositiveStockOfInsert(b: Batch, bs: seq<Batch>)
    ensures PositiveStock(InsertByExpiry(b, bs)) == (if b.quantity > 0 then b.quantity else 0) + PositiveStock(bs)
  {
    if bs != [] && b.expiryDate > bs[0].expiryDate {
      PositiveStockOfInsert(b, bs[1..]);
      assert ([bs[0]] + InsertByExpiry(b, bs[1..]))[1..] == InsertByExpiry(b, bs[1..]);
    } else {
      assert ([b] + bs)[1..] == bs;
    }
  }

  /** Sorting by expiry does not change the positive stock. */
  lemma {:induction false} PositiveStockOfSorted(bs: seq<Batch>)
    ensures PositiveStock(SortByExpiry(bs)) == PositiveStock(bs)
  {
    if bs != [] {
      PositiveStockOfSorted(bs[1..]);
      PositiveStockOfInsert(bs[0], SortByExpiry(bs[1..]));
    }
  }
}
