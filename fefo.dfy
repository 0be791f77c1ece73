/** The FEFO (first-expiry-first-out) planner of the order service: the stable sort of a
    batch list by expiry date, and the two greedy walks that turn a remaining quantity into
    plan lines, one reading each batch's own quantity (single-order path) and one reading
    and updating a per-batch availability map shared by every order of a bulk call. */
module Planner {
  import opened Wrappers
  import opened Domain

  // ---------------------------------------------------------------------------
  // Stable sort by expiry

  predicate SortedByExpiry(bs: seq<Batch>) {
    forall i, j :: 0 <= i < j < |bs| ==> bs[i].expiryDate <= bs[j].expiryDate
  }

  /** Puts b in front of the first batch that does not expire before it. */
  function InsertByExpiry(b: Batch, bs: seq<Batch>): seq<Batch> {
    if bs == [] || b.expiryDate <= bs[0].expiryDate then [b] + bs
    else [bs[0]] + InsertByExpiry(b, bs[1..])
  }

  /** Stream.sorted(Comparator.comparing(getExpiryDate)): a stable sort by expiry date. */
  function SortByExpiry(bs: seq<Batch>): seq<Batch> {
    if bs == [] then [] else InsertByExpiry(bs[0], SortByExpiry(bs[1..]))
  }

  lemma {:induction false} InsertByExpiryPermutes(b: Batch, bs: seq<Batch>)
    ensures multiset(InsertByExpiry(b, bs)) == multiset(bs) + multiset{b}
    ensures |InsertByExpiry(b, bs)| == |bs| + 1
  {
    if bs != [] && b.expiryDate > bs[0].expiryDate {
      InsertByExpiryPermutes(b, bs[1..]);
      assert bs == [bs[0]] + bs[1..];
    }
  }

  /** Inserting keeps a lower bound on the expiry dates. */
  lemma {:induction false} InsertByExpiryBound(b: Batch, bs: seq<Batch>, d: Date)
    requires d <= b.expiryDate
    requires forall i :: 0 <= i < |bs| ==> d <= bs[i].expiryDate
    ensures forall i :: 0 <= i < |InsertByExpiry(b, bs)| ==> d <= InsertByExpiry(b, bs)[i].expiryDate
  {
    if bs != [] && b.expiryDate > bs[0].expiryDate {
      var r := InsertByExpiry(b, bs[1..]);
      InsertByExpiryBound(b, bs[1..], d);
      assert InsertByExpiry(b, bs) == [bs[0]] + r;
    }
  }

  lemma {:induction false} InsertByExpirySorted(b: Batch, bs: seq<Batch>)
    requires SortedByExpiry(bs)
    ensures SortedByExpiry(InsertByExpiry(b, bs))
  {
    if bs != [] && b.expiryDate > bs[0].expiryDate {
      var tail := bs[1..];
      InsertByExpirySorted(b, tail);
      InsertByExpiryBound(b, tail, bs[0].expiryDate);
      var r := InsertByExpiry(b, tail);
      var s := [bs[0]] + r;
      assert InsertByExpiry(b, bs) == s;
      forall i, j | 0 <= i < j < |s| ensures s[i].expiryDate <= s[j].expiryDate {
        assert s[j] == r[j - 1];
        if i > 0 {
          assert s[i] == r[i - 1];
        }
      }
    }
  }

  /** The sorted list is in expiry order and holds exactly the batches it was given. */
  lemma SortByExpirySortsAndPermutes(bs: seq<Batch>)
    ensures SortedByExpiry(SortByExpiry(bs))
    ensures multiset(SortByExpiry(bs)) == multiset(bs)
    ensures |SortByExpiry(bs)| == |bs|
  {
    SortByExpirySorts(bs);
    SortByExpiryPermutes(bs);
  }

  lemma {:induction false} SortByExpirySorts(bs: seq<Batch>)
    ensures SortedByExpiry(SortByExpiry(bs))
  {
    if bs != [] {
      SortByExpirySorts(bs[1..]);
      InsertByExpirySorted(bs[0], SortByExpiry(bs[1..]));
    }
  }

  lemma {:induction false} SortByExpiryPermutes(bs: seq<Batch>)
    ensures multiset(SortByExpiry(bs)) == multiset(bs)
    ensures |SortByExpiry(bs)| == |bs|
  {
    if bs != [] {
      SortByExpiryPermutes(bs[1..]);
      InsertByExpiryPermutes(bs[0], SortByExpiry(bs[1..]));
      assert bs == [bs[0]] + bs[1..];
    }
  }

  /** The batches of bs that expire on day e, in their order in bs. */
  function ExpiringOn(bs: seq<Batch>, e: Date): seq<Batch> {
    if bs == [] then []
    else (if bs[0].expiryDate == e then [bs[0]] else []) + ExpiringOn(bs[1..], e)
  }

  lemma {:induction false} ExpiringOnInsert(b: Batch, bs: seq<Batch>, e: Date)
    requires SortedByExpiry(bs)
    ensures ExpiringOn(InsertByExpiry(b, bs), e) == (if b.expiryDate == e then [b] else []) + ExpiringOn(bs, e)
  {
    var mine := if b.expiryDate == e then [b] else [];
    if bs != [] && b.expiryDate > bs[0].expiryDate {
      var r := InsertByExpiry(b, bs[1..]);
      var s := [bs[0]] + r;
      assert InsertByExpiry(b, bs) == s;
      assert s[1..] == r;
      ExpiringOnInsert(b, bs[1..], e);
      var head := if bs[0].expiryDate == e then [bs[0]] else [];
      assert ExpiringOn(s, e) == head + ExpiringOn(r, e);
      assert ExpiringOn(bs, e) == head + ExpiringOn(bs[1..], e);
      if b.expiryDate == e {
        assert bs[0].expiryDate != e;
      }
    } else {
      var s := [b] + bs;
      assert InsertByExpiry(b, bs) == s;
      assert s[1..] == bs;
      assert ExpiringOn(s, e) == mine + ExpiringOn(bs, e);
    }
  }

  /** Stability: batches with the same expiry date keep the order the gateway gave them. */
  lemma {:induction false} SortByExpiryIsStable(bs: seq<Batch>, e: Date)
    ensures ExpiringOn(SortByExpiry(bs), e) == ExpiringOn(bs, e)
  {
    if bs != [] {
      SortByExpiryIsStable(bs[1..], e);
      SortByExpirySortsAndPermutes(bs[1..]);
      ExpiringOnInsert(bs[0], SortByExpiry(bs[1..]), e);
    }
  }

  // ---------------------------------------------------------------------------
  // Keys

  /** buildSkuMrpKey(skuCode, mrp): the SKU exactly as stored on the order, "||", the price. */
  function BuildSkuMrpKey(skuCode: string, mrp: MrpText): Key {
    Key(skuCode, mrp)
  }

  /** buildBatchKey(skuCode, mrp, batchNo). */
  function BuildBatchKey(skuCode: string, mrp: MrpText, batchNo: string): string {
    skuCode + "||" + mrp + "||" + batchNo
  }

  // ---------------------------------------------------------------------------
  // Shared quantities

  /** The plan of one order: its lines and their total. */
  datatype Plan = Plan(details: seq<AllocationDetail>, total: int)

  /** The batches with a positive quantity, in order. */
  function PositiveBatches(bs: seq<Batch>): seq<Batch> {
    if bs == [] then []
    else (if bs[0].quantity > 0 then [bs[0]] else []) + PositiveBatches(bs[1..])
  }

  /** The sum of the positive batch quantities. */
  function PositiveStock(bs: seq<Batch>): int {
    if bs == [] then 0
    else (if bs[0].quantity > 0 then bs[0].quantity else 0) + PositiveStock(bs[1..])
  }

  /** Every plan line takes a positive quantity. */
  predicate PositiveLines(ds: seq<AllocationDetail>) {
    forall i :: 0 <= i < |ds| ==> ds[i].qty > 0
  }

  // ---------------------------------------------------------------------------
  // Single-order walk

  /** The walk of allocateOrderInternal over the sorted batches: stop once nothing remains,
      skip a batch whose quantity is not positive, otherwise take min(remaining, quantity).
      The lines carry only the batch number and the quantity. */
  function SingleWalk(bs: seq<Batch>, remaining: int): Plan {
    if bs == [] || remaining <= 0 then Plan([], 0)
    else if bs[0].quantity <= 0 then SingleWalk(bs[1..], remaining)
    else
      var take := Min(remaining, bs[0].quantity);
      var rest := SingleWalk(bs[1..], remaining - take);
      Plan([AllocationDetail(bs[0].batchNo, None, None, take)] + rest.details, take + rest.total)
  }

  /** The loop of allocateOrderInternal. */
  method PlanSingle(bs: seq<Batch>, remainingQty: int) returns (details: seq<AllocationDetail>, totalAllocatedNow: int)
    ensures Plan(details, totalAllocatedNow) == SingleWalk(bs, remainingQty)
  {
    details := [];
    totalAllocatedNow := 0;
    var remaining := remainingQty;
    var i := 0;
    while i < |bs|
      invariant 0 <= i <= |bs|
      invariant SingleWalk(bs, remainingQty)
                == Plan(details + SingleWalk(bs[i..], remaining).details, totalAllocatedNow + SingleWalk(bs[i..], remaining).total)
    {
      if remaining <= 0 {
        break;
      }
      var batch := bs[i];
      assert bs[i..][1..] == bs[i + 1..];
      ghost var here := SingleWalk(bs[i..], remaining);
      var available := batch.quantity;
      if available <= 0 {
        assert here == SingleWalk(bs[i + 1..], remaining);
        i := i + 1;
        continue;
      }
      var allocateQty := Min(remaining, available);
      var line := AllocationDetail(batch.batchNo, None, None, allocateQty);
      details := details + [line];
      remaining := remaining - allocateQty;
      totalAllocatedNow := totalAllocatedNow + allocateQty;
      ghost var next := SingleWalk(bs[i + 1..], remaining);
      assert here == Plan([line] + next.details, allocateQty + next.total);
      i := i + 1;
    }
  }

  /** The total is the sum of the lines, each line is positive, and the total is the
      remaining quantity or all the positive stock, whichever is smaller. */
  lemma {:induction false} SingleWalkTotal(bs: seq<Batch>, remaining: int)
    ensures SingleWalk(bs, remaining).total == SumQty(SingleWalk(bs, remaining).details)
    ensures PositiveLines(SingleWalk(bs, remaining).details)
    ensures SingleWalk(bs, remaining).total == if remaining <= 0 then 0 else Min(remaining, PositiveStock(bs))
  {
    if bs != [] && remaining > 0 {
      SingleWalkTotal(bs[1..], remaining - Min(remaining, bs[0].quantity));
      SingleWalkTotal(bs[1..], remaining);
      PositiveStockNonNegative(bs[1..]);
      var w := SingleWalk(bs, remaining);
      if bs[0].quantity > 0 {
        var rest := SingleWalk(bs[1..], remaining - Min(remaining, bs[0].quantity));
        assert w.details[1..] == rest.details;
      }
    }
  }

  lemma {:induction false} PositiveStockNonNegative(bs: seq<Batch>)
    ensures PositiveStock(bs) >= 0
  {
    if bs != [] {
      PositiveStockNonNegative(bs[1..]);
    }
  }

  /** The lines take from the positive batches in order: line i is batch i of them, takes a
      positive quantity no larger than it, every line but the last empties its batch, and a
      positive batch is left untouched only when the remaining quantity was met. */
  predicate TakesInOrder(ds: seq<AllocationDetail>, ps: seq<Batch>) {
    && |ds| <= |ps|
    && (forall i :: 0 <= i < |ds| ==> ds[i].batchNo == ps[i].batchNo && 0 < ds[i].qty <= ps[i].quantity)
    && (forall i :: 0 <= i < |ds| - 1 ==> ds[i].qty == ps[i].quantity)
  }

  /** FEFO for the single path: with sorted input, the lines follow the positive batches in
      expiry order, and a later batch is touched only once the earlier ones are empty. */
  lemma {:induction false} SingleWalkIsFefo(bs: seq<Batch>, remaining: int)
    ensures TakesInOrder(SingleWalk(bs, remaining).details, PositiveBatches(bs))
  {
    if bs != [] && remaining > 0 {
      var ps := PositiveBatches(bs);
      var w := SingleWalk(bs, remaining);
      if bs[0].quantity <= 0 {
        assert w == SingleWalk(bs[1..], remaining);
        SingleWalkIsFefo(bs[1..], remaining);
        assert ps == PositiveBatches(bs[1..]);
      } else {
        var take := Min(remaining, bs[0].quantity);
        var rest := SingleWalk(bs[1..], remaining - take);
        var line := AllocationDetail(bs[0].batchNo, None, None, take);
        assert w.details == [line] + rest.details;
        SingleWalkIsFefo(bs[1..], remaining - take);
        var pr := PositiveBatches(bs[1..]);
        assert ps == [bs[0]] + pr;
        if take < bs[0].quantity {
          assert rest == Plan([], 0);
        }
        TakesInOrderCons(line, rest.details, bs[0], pr);
      }
    }
  }

  /** A line that empties its batch, or is the last line, extends lines that take in order. */
  lemma TakesInOrderCons(d: AllocationDetail, ds: seq<AllocationDetail>, p: Batch, ps: seq<Batch>)
    requires TakesInOrder(ds, ps)
    requires d.batchNo == p.batchNo && 0 < d.qty <= p.quantity
    requires ds != [] ==> d.qty == p.quantity
    ensures TakesInOrder([d] + ds, [p] + ps)
  {
    var ds', ps' := [d] + ds, [p] + ps;
    forall i | 0 < i < |ds'| ensures ds'[i] == ds[i - 1] && ps'[i] == ps[i - 1] {
    }
  }

  /** The single walk leaves a positive batch untouched only when the remaining quantity
      was met. */
  lemma {:induction false} SingleWalkStopsWhenMet(bs: seq<Batch>, remaining: int)
    requires remaining > 0 && |SingleWalk(bs, remaining).details| < |PositiveBatches(bs)|
    ensures SingleWalk(bs, remaining).total == remaining
  {
    var w := SingleWalk(bs, remaining);
    if bs[0].quantity <= 0 {
      assert w == SingleWalk(bs[1..], remaining);
      assert PositiveBatches(bs) == PositiveBatches(bs[1..]);
      SingleWalkStopsWhenMet(bs[1..], remaining);
    } else {
      var take := Min(remaining, bs[0].quantity);
      var rest := SingleWalk(bs[1..], remaining - take);
      var line := AllocationDetail(bs[0].batchNo, None, None, take);
      assert w == Plan([line] + rest.details, take + rest.total);
      assert PositiveBatches(bs) == [bs[0]] + PositiveBatches(bs[1..]);
      if remaining - take > 0 {
        SingleWalkStopsWhenMet(bs[1..], remaining - take);
      }
    }
  }

  // ---------------------------------------------------------------------------
  // Shared-availability walk (bulk path)

  /** The plan of one order in a bulk call, and the availability map after it. */
  datatype Walk = Walk(details: seq<AllocationDetail>, total: int, avail: map<string, int>)

  /** The working availability of a batch: the map's value for its key, or the batch's own
      quantity when the key was never written (getOrDefault). */
  function Working(avail: map<string, int>, key: string, b: Batch): int {
    if key in avail then avail[key] else b.quantity
  }

  /** The walk of allocateOrdersBulk for one order over its sorted batches: as the single
      walk, but the quantity comes from the shared map and what is taken is written back. */
  function SharedWalk(skuCode: string, mrp: MrpText, bs: seq<Batch>, remaining: int, avail: map<string, int>): Walk {
    if bs == [] || remaining <= 0 then Walk([], 0, avail)
    else
      var key := BuildBatchKey(skuCode, mrp, bs[0].batchNo);
      var available := Working(avail, key, bs[0]);
      if available <= 0 then SharedWalk(skuCode, mrp, bs[1..], remaining, avail)
      else
        var take := Min(remaining, available);
        var rest := SharedWalk(skuCode, mrp, bs[1..], remaining - take, avail[key := available - take]);
        Walk([AllocationDetail(bs[0].batchNo, Some(bs[0].expiryDate), bs[0].mrp, take)] + rest.details,
             take + rest.total, rest.avail)
  }

  /** The inner loop of allocateOrdersBulk for one order. */
  method WalkShared(skuCode: string, mrp: MrpText, bs: seq<Batch>, remainingQty: int, availIn: map<string, int>)
    returns (details: seq<AllocationDetail>, totalAllocatedNow: int, availableByBatchKey: map<string, int>)
    ensures Walk(details, totalAllocatedNow, availableByBatchKey) == SharedWalk(skuCode, mrp, bs, remainingQty, availIn)
  {
    details := [];
    totalAllocatedNow := 0;
    availableByBatchKey := availIn;
    var remaining := remainingQty;
    var i := 0;
    while i < |bs|
      invariant 0 <= i <= |bs|
      invariant var rest := SharedWalk(skuCode, mrp, bs[i..], remaining, availableByBatchKey);
                SharedWalk(skuCode, mrp, bs, remainingQty, availIn)
                == Walk(details + rest.details, totalAllocatedNow + rest.total, rest.avail)
    {
      if remaining <= 0 {
        break;
      }
      var batch := bs[i];
      assert bs[i..][1..] == bs[i + 1..];
      var batchKey := BuildBatchKey(skuCode, mrp, batch.batchNo);
      var available := Working(availableByBatchKey, batchKey, batch);
      if available <= 0 {
        SharedWalkSkips(skuCode, mrp, bs[i..], remaining, availableByBatchKey);
        i := i + 1;
        continue;
      }
      var allocateQty := Min(remaining, available);
      var line := AllocationDetail(batch.batchNo, Some(batch.expiryDate), batch.mrp, allocateQty);
      SharedWalkTakes(skuCode, mrp, bs[i..], remaining, availableByBatchKey, batchKey, available, allocateQty);
      ghost var rest := SharedWalk(skuCode, mrp, bs[i + 1..], remaining - allocateQty, availableByBatchKey[batchKey := available - allocateQty]);
      assert (details + [line]) + rest.details == details + ([line] + rest.details);
      details := details + [line];
      availableByBatchKey := availableByBatchKey[batchKey := available - allocateQty];
      remaining := remaining - allocateQty;
      totalAllocatedNow := totalAllocatedNow + allocateQty;
      i := i + 1;
    }
    if i == |bs| {
      assert bs[i..] == [];
    }
  }

  /** A batch with no working availability is passed over. */
  lemma SharedWalkSkips(skuCode: string, mrp: MrpText, bs: seq<Batch>, remaining: int, avail: map<string, int>)
    requires bs != [] && remaining > 0
    requires Working(avail, BuildBatchKey(skuCode, mrp, bs[0].batchNo), bs[0]) <= 0
    ensures SharedWalk(skuCode, mrp, bs, remaining, avail) == SharedWalk(skuCode, mrp, bs[1..], remaining, avail)
  {
  }

  /** A batch with working availability gives the first line, and its key is written back
      before the walk goes on. */
  lemma SharedWalkTakes(skuCode: string, mrp: MrpText, bs: seq<Batch>, remaining: int, avail: map<string, int>,
                        key: string, available: int, take: int)
    requires bs != [] && remaining > 0
    requires key == BuildBatchKey(skuCode, mrp, bs[0].batchNo) && available == Working(avail, key, bs[0]) > 0
    requires take == Min(remaining, available)
    ensures SharedWalk(skuCode, mrp, bs, remaining, avail)
            == Walk([AllocationDetail(bs[0].batchNo, Some(bs[0].expiryDate), bs[0].mrp, take)]
                    + SharedWalk(skuCode, mrp, bs[1..], remaining - take, avail[key := available - take]).details,
                    take + SharedWalk(skuCode, mrp, bs[1..], remaining - take, avail[key := available - take]).total,
                    SharedWalk(skuCode, mrp, bs[1..], remaining - take, avail[key := available - take]).avail)
  {
  }

  /** What the lines of one order took from batch key k. */
  function TakenFrom(skuCode: string, mrp: MrpText, ds: seq<AllocationDetail>, k: string): int {
    if ds == [] then 0
    else (if BuildBatchKey(skuCode, mrp, ds[0].batchNo) == k then ds[0].qty else 0) + TakenFrom(skuCode, mrp, ds[1..], k)
  }

  /** The quantity of the first batch with key k and a positive quantity. */
  function FirstPositive(skuCode: string, mrp: MrpText, bs: seq<Batch>, k: string): Option<int> {
    if bs == [] then None
    else if BuildBatchKey(skuCode, mrp, bs[0].batchNo) == k && bs[0].quantity > 0 then Some(bs[0].quantity)
    else FirstPositive(skuCode, mrp, bs[1..], k)
  }

  /** The total is the sum of the lines, every line is positive, and the total is at most
      the remaining quantity. */
  lemma {:induction false} SharedWalkTotal(skuCode: string, mrp: MrpText, bs: seq<Batch>, remaining: int, avail: map<string, int>)
    ensures SharedWalk(skuCode, mrp, bs, remaining, avail).total == SumQty(SharedWalk(skuCode, mrp, bs, remaining, avail).details)
    ensures PositiveLines(SharedWalk(skuCode, mrp, bs, remaining, avail).details)
    ensures 0 <= SharedWalk(skuCode, mrp, bs, remaining, avail).total
    ensures remaining > 0 ==> SharedWalk(skuCode, mrp, bs, remaining, avail).total <= remaining
  {
    if bs != [] && remaining > 0 {
      var key := BuildBatchKey(skuCode, mrp, bs[0].batchNo);
      var available := Working(avail, key, bs[0]);
      var w := SharedWalk(skuCode, mrp, bs, remaining, avail);
      if available <= 0 {
        SharedWalkTotal(skuCode, mrp, bs[1..], remaining, avail);
      } else {
        var take := Min(remaining, available);
        var avail1 := avail[key := available - take];
        SharedWalkTotal(skuCode, mrp, bs[1..], remaining - take, avail1);
        var rest := SharedWalk(skuCode, mrp, bs[1..], remaining - take, avail1);
        assert w.details[1..] == rest.details;
      }
    }
  }

  /** What an order's lines took from batch key k is never negative, and is nothing when
      the walk never wrote k into the map. */
  lemma {:induction false} SharedWalkTakesOnlyWritten(skuCode: string, mrp: MrpText, bs: seq<Batch>, remaining: int, avail: map<string, int>, k: string)
    ensures 0 <= TakenFrom(skuCode, mrp, SharedWalk(skuCode, mrp, bs, remaining, avail).details, k)
    ensures k !in SharedWalk(skuCode, mrp, bs, remaining, avail).avail ==>
              TakenFrom(skuCode, mrp, SharedWalk(skuCode, mrp, bs, remaining, avail).details, k) == 0
  {
    if bs != [] && remaining > 0 {
      var key := BuildBatchKey(skuCode, mrp, bs[0].batchNo);
      var available := Working(avail, key, bs[0]);
      var w := SharedWalk(skuCode, mrp, bs, remaining, avail);
      if available <= 0 {
        assert w == SharedWalk(skuCode, mrp, bs[1..], remaining, avail);
        SharedWalkTakesOnlyWritten(skuCode, mrp, bs[1..], remaining, avail, k);
      } else {
        var take := Min(remaining, available);
        var avail1 := avail[key := available - take];
        var rest := SharedWalk(skuCode, mrp, bs[1..], remaining - take, avail1);
        var line := AllocationDetail(bs[0].batchNo, Some(bs[0].expiryDate), bs[0].mrp, take);
        assert w == Walk([line] + rest.details, take + rest.total, rest.avail);
        SharedWalkTakesOnlyWritten(skuCode, mrp, bs[1..], remaining - take, avail1, k);
        SharedWalkKeepsKeys(skuCode, mrp, bs[1..], remaining - take, avail1);
        assert w.details[1..] == rest.details;
        assert TakenFrom(skuCode, mrp, w.details, k) == (if key == k then take else 0) + TakenFrom(skuCode, mrp, rest.details, k);
      }
    }
  }

  /** The walk only adds keys to the map. */
  lemma {:induction false} SharedWalkKeepsKeys(skuCode: string, mrp: MrpText, bs: seq<Batch>, remaining: int, avail: map<string, int>)
    ensures avail.Keys <= SharedWalk(skuCode, mrp, bs, remaining, avail).avail.Keys
  {
    if bs != [] && remaining > 0 {
      var key := BuildBatchKey(skuCode, mrp, bs[0].batchNo);
      var available := Working(avail, key, bs[0]);
      if available <= 0 {
        SharedWalkKeepsKeys(skuCode, mrp, bs[1..], remaining, avail);
      } else {
        var take := Min(remaining, available);
        SharedWalkKeepsKeys(skuCode, mrp, bs[1..], remaining - take, avail[key := available - take]);
      }
    }
  }

  /** What lines in front of others took from key k: the first line's share and the rest. */
  lemma TakenFromCons(skuCode: string, mrp: MrpText, d: AllocationDetail, ds: seq<AllocationDetail>, k: string)
    ensures TakenFrom(skuCode, mrp, [d] + ds, k)
            == (if BuildBatchKey(skuCode, mrp, d.batchNo) == k then d.qty else 0) + TakenFrom(skuCode, mrp, ds, k)
  {
    assert ([d] + ds)[1..] == ds;
  }

  /** What a walk starts from for batch key k: the map's value, or, for a key the map does
      not hold, the quantity of the first batch with that key and a positive quantity. */
  function StartOf(skuCode: string, mrp: MrpText, bs: seq<Batch>, avail: map<string, int>, k: string): Option<int> {
    if k in avail then Some(avail[k]) else FirstPositive(skuCode, mrp, bs, k)
  }

  /** Passing over a batch with no working availability does not change where any key starts. */
  lemma StartOfSkip(skuCode: string, mrp: MrpText, bs: seq<Batch>, avail: map<string, int>, k: string)
    requires bs != [] && Working(avail, BuildBatchKey(skuCode, mrp, bs[0].batchNo), bs[0]) <= 0
    ensures StartOf(skuCode, mrp, bs, avail, k) == StartOf(skuCode, mrp, bs[1..], avail, k)
  {
  }

  /** Writing v back for the first batch's key makes that key start at v and leaves where
      every other key starts. */
  lemma StartOfTake(skuCode: string, mrp: MrpText, bs: seq<Batch>, avail: map<string, int>, k: string, v: int)
    requires bs != [] && Working(avail, BuildBatchKey(skuCode, mrp, bs[0].batchNo), bs[0]) > 0
    ensures BuildBatchKey(skuCode, mrp, bs[0].batchNo) != k ==>
              StartOf(skuCode, mrp, bs[1..], avail[BuildBatchKey(skuCode, mrp, bs[0].batchNo) := v], k)
              == StartOf(skuCode, mrp, bs, avail, k)
    ensures StartOf(skuCode, mrp, bs, avail, BuildBatchKey(skuCode, mrp, bs[0].batchNo))
            == Some(Working(avail, BuildBatchKey(skuCode, mrp, bs[0].batchNo), bs[0]))
  {
  }

  /** Conservation for a key the map holds after the walk: what the lines took from it plus
      what the map holds afterwards is where the key started. */
  lemma {:induction false} SharedWalkConservesStart(skuCode: string, mrp: MrpText, bs: seq<Batch>, remaining: int, avail: map<string, int>, k: string)
    requires k in SharedWalk(skuCode, mrp, bs, remaining, avail).avail
    ensures StartOf(skuCode, mrp, bs, avail, k)
            == Some(SharedWalk(skuCode, mrp, bs, remaining, avail).avail[k]
                    + TakenFrom(skuCode, mrp, SharedWalk(skuCode, mrp, bs, remaining, avail).details, k))
  {
    if bs != [] && remaining > 0 {
      var key := BuildBatchKey(skuCode, mrp, bs[0].batchNo);
      var available := Working(avail, key, bs[0]);
      if available <= 0 {
        SharedWalkSkips(skuCode, mrp, bs, remaining, avail);
        SharedWalkConservesStart(skuCode, mrp, bs[1..], remaining, avail, k);
        StartOfSkip(skuCode, mrp, bs, avail, k);
      } else {
        var take := Min(remaining, available);
        var avail1 := avail[key := available - take];
        var rest := SharedWalk(skuCode, mrp, bs[1..], remaining - take, avail1);
        var line := AllocationDetail(bs[0].batchNo, Some(bs[0].expiryDate), bs[0].mrp, take);
        SharedWalkTakes(skuCode, mrp, bs, remaining, avail, key, available, take);
        TakenFromCons(skuCode, mrp, line, rest.details, k);
        assert BuildBatchKey(skuCode, mrp, line.batchNo) == key;
        SharedWalkConservesStart(skuCode, mrp, bs[1..], remaining - take, avail1, k);
        StartOfTake(skuCode, mrp, bs, avail, k, available - take);
        if key == k {
          assert StartOf(skuCode, mrp, bs[1..], avail1, k) == Some(available - take);
        }
      }
    }
  }

  /** Conservation per batch key: what an order's lines took from a key plus what the map
      holds for it afterwards is what the map held before, or, for a key the walk wrote
      first, the quantity of the first batch with that key and a positive quantity. */
  lemma SharedWalkConserves(skuCode: string, mrp: MrpText, bs: seq<Batch>, remaining: int, avail: map<string, int>, k: string)
    ensures k in avail ==>
              && k in SharedWalk(skuCode, mrp, bs, remaining, avail).avail
              && SharedWalk(skuCode, mrp, bs, remaining, avail).avail[k]
                 + TakenFrom(skuCode, mrp, SharedWalk(skuCode, mrp, bs, remaining, avail).details, k) == avail[k]
    ensures k !in avail && k in SharedWalk(skuCode, mrp, bs, remaining, avail).avail ==>
              FirstPositive(skuCode, mrp, bs, k)
              == Some(SharedWalk(skuCode, mrp, bs, remaining, avail).avail[k]
                      + TakenFrom(skuCode, mrp, SharedWalk(skuCode, mrp, bs, remaining, avail).details, k))
  {
    if k in avail {
      SharedWalkKeepsKeys(skuCode, mrp, bs, remaining, avail);
    }
    if k in SharedWalk(skuCode, mrp, bs, remaining, avail).avail {
      SharedWalkConservesStart(skuCode, mrp, bs, remaining, avail, k);
    }
  }

  /** A walk that allocates nothing leaves the map as it was and has no lines. */
  lemma {:induction false} SharedWalkIdle(skuCode: string, mrp: MrpText, bs: seq<Batch>, remaining: int, avail: map<string, int>)
    requires SharedWalk(skuCode, mrp, bs, remaining, avail).total == 0
    ensures SharedWalk(skuCode, mrp, bs, remaining, avail).avail == avail
    ensures SharedWalk(skuCode, mrp, bs, remaining, avail).details == []
  {
    if bs != [] && remaining > 0 {
      var key := BuildBatchKey(skuCode, mrp, bs[0].batchNo);
      var available := Working(avail, key, bs[0]);
      if available <= 0 {
        SharedWalkIdle(skuCode, mrp, bs[1..], remaining, avail);
      } else {
        var take := Min(remaining, available);
        SharedWalkTotal(skuCode, mrp, bs[1..], remaining - take, avail[key := available - take]);
      }
    }
  }

  /** A value the walk leaves in the map is either one it wrote, never negative, or the
      value the map already held. */
  lemma {:induction false} SharedWalkKeepsNonNegative(skuCode: string, mrp: MrpText, bs: seq<Batch>, remaining: int, avail: map<string, int>, k: string)
    ensures k in SharedWalk(skuCode, mrp, bs, remaining, avail).avail ==>
              || 0 <= SharedWalk(skuCode, mrp, bs, remaining, avail).avail[k]
              || (k in avail && SharedWalk(skuCode, mrp, bs, remaining, avail).avail[k] == avail[k])
  {
    if bs != [] && remaining > 0 {
      var key := BuildBatchKey(skuCode, mrp, bs[0].batchNo);
      var available := Working(avail, key, bs[0]);
      if available <= 0 {
        SharedWalkKeepsNonNegative(skuCode, mrp, bs[1..], remaining, avail, k);
      } else {
        var take := Min(remaining, available);
        SharedWalkKeepsNonNegative(skuCode, mrp, bs[1..], remaining - take, avail[key := available - take], k);
      }
    }
  }

  /** Every line carries an expiry date, and the dates never decrease. */
  predicate LinesInExpiryOrder(ds: seq<AllocationDetail>) {
    && (forall i :: 0 <= i < |ds| ==> ds[i].expiryDate.Some?)
    && (forall i, j :: 0 <= i < j < |ds| ==> ds[i].expiryDate.value <= ds[j].expiryDate.value)
  }

  predicate ExpireNoEarlierThan(ds: seq<AllocationDetail>, e: Date) {
    forall i :: 0 <= i < |ds| ==> ds[i].expiryDate.Some? && e <= ds[i].expiryDate.value
  }

  /** Lines come in the order of the batches, so with sorted input their expiry dates never
      decrease. */
  lemma {:induction false} SharedWalkExpiryOrder(skuCode: string, mrp: MrpText, bs: seq<Batch>, remaining: int, avail: map<string, int>)
    requires SortedByExpiry(bs)
    ensures LinesInExpiryOrder(SharedWalk(skuCode, mrp, bs, remaining, avail).details)
    ensures bs != [] ==> ExpireNoEarlierThan(SharedWalk(skuCode, mrp, bs, remaining, avail).details, bs[0].expiryDate)
  {
    if bs != [] && remaining > 0 {
      var key := BuildBatchKey(skuCode, mrp, bs[0].batchNo);
      var available := Working(avail, key, bs[0]);
      var w := SharedWalk(skuCode, mrp, bs, remaining, avail);
      var tail := bs[1..];
      assert SortedByExpiry(tail);
      if tail != [] {
        assert bs[0].expiryDate <= tail[0].expiryDate;
      }
      if available <= 0 {
        assert w == SharedWalk(skuCode, mrp, tail, remaining, avail);
        SharedWalkExpiryOrder(skuCode, mrp, tail, remaining, avail);
      } else {
        var take := Min(remaining, available);
        var rest := SharedWalk(skuCode, mrp, tail, remaining - take, avail[key := available - take]);
        var line := AllocationDetail(bs[0].batchNo, Some(bs[0].expiryDate), bs[0].mrp, take);
        assert w == Walk([line] + rest.details, take + rest.total, rest.avail);
        SharedWalkExpiryOrder(skuCode, mrp, tail, remaining - take, avail[key := available - take]);
        ExpiryOrderCons(line, rest.details, bs[0].expiryDate);
      }
    }
  }

  /** A line dated e in front of lines dated e or later keeps the dates in order. */
  lemma ExpiryOrderCons(d: AllocationDetail, ds: seq<AllocationDetail>, e: Date)
    requires d.expiryDate == Some(e)
    requires LinesInExpiryOrder(ds) && ExpireNoEarlierThan(ds, e)
    ensures LinesInExpiryOrder([d] + ds) && ExpireNoEarlierThan([d] + ds, e)
  {
    var ds' := [d] + ds;
    forall i | 0 < i < |ds'| ensures ds'[i] == ds[i - 1] {
    }
  }

  /** A batch the shared walk can reach with working availability, and that availability. */
  datatype Reach = Reach(batch: Batch, available: int)

  /** Reference definition of FEFO over the shared map: the batches, in the order given,
      that still have working availability when every earlier one has been taken in full,
      each with the availability it has then. */
  function Drain(skuCode: string, mrp: MrpText, bs: seq<Batch>, avail: map<string, int>): seq<Reach> {
    if bs == [] then []
    else
      var key := BuildBatchKey(skuCode, mrp, bs[0].batchNo);
      var available := Working(avail, key, bs[0]);
      if available <= 0 then Drain(skuCode, mrp, bs[1..], avail)
      else [Reach(bs[0], available)] + Drain(skuCode, mrp, bs[1..], avail[key := 0])
  }

  /** The lines take from the drained batches in order: line i names batch i of them with
      that batch's own expiry date and price, takes a positive quantity no larger than its
      availability, and every line but the last takes all of it. */
  predicate TakesAsDrained(ds: seq<AllocationDetail>, rs: seq<Reach>) {
    && |ds| <= |rs|
    && (forall i :: 0 <= i < |ds| ==>
          && ds[i] == AllocationDetail(rs[i].batch.batchNo, Some(rs[i].batch.expiryDate), rs[i].batch.mrp, ds[i].qty)
          && 0 < ds[i].qty <= rs[i].available)
    && (forall i :: 0 <= i < |ds| - 1 ==> ds[i].qty == rs[i].available)
  }

  lemma TakesAsDrainedCons(d: AllocationDetail, ds: seq<AllocationDetail>, r: Reach, rs: seq<Reach>)
    requires TakesAsDrained(ds, rs)
    requires d == AllocationDetail(r.batch.batchNo, Some(r.batch.expiryDate), r.batch.mrp, d.qty)
    requires 0 < d.qty <= r.available
    requires ds != [] ==> d.qty == r.available
    ensures TakesAsDrained([d] + ds, [r] + rs)
  {
    var ds', rs' := [d] + ds, [r] + rs;
    forall i | 0 < i < |ds'| ensures ds'[i] == ds[i - 1] && rs'[i] == rs[i - 1] {
    }
  }

  /** FEFO for the bulk path: the lines of one order are the drained batches in order, a
      later batch being touched only once every earlier one with availability is empty. */
  lemma {:induction false} SharedWalkIsFefo(skuCode: string, mrp: MrpText, bs: seq<Batch>, remaining: int, avail: map<string, int>)
    ensures TakesAsDrained(SharedWalk(skuCode, mrp, bs, remaining, avail).details, Drain(skuCode, mrp, bs, avail))
  {
    if bs != [] && remaining > 0 {
      var key := BuildBatchKey(skuCode, mrp, bs[0].batchNo);
      var available := Working(avail, key, bs[0]);
      var w := SharedWalk(skuCode, mrp, bs, remaining, avail);
      if available <= 0 {
        assert w == SharedWalk(skuCode, mrp, bs[1..], remaining, avail);
        SharedWalkIsFefo(skuCode, mrp, bs[1..], remaining, avail);
      } else {
        var take := Min(remaining, available);
        var rest := SharedWalk(skuCode, mrp, bs[1..], remaining - take, avail[key := available - take]);
        var line := AllocationDetail(bs[0].batchNo, Some(bs[0].expiryDate), bs[0].mrp, take);
        assert w.details == [line] + rest.details;
        var rs := Drain(skuCode, mrp, bs[1..], avail[key := 0]);
        if take == available {
          assert avail[key := available - take] == avail[key := 0];
          SharedWalkIsFefo(skuCode, mrp, bs[1..], remaining - take, avail[key := 0]);
        } else {
          assert rest.details == [];
        }
        TakesAsDrainedCons(line, rest.details, Reach(bs[0], available), rs);
      }
    }
  }

  /** The shared walk leaves a drained batch untouched only when the remaining quantity was
      met. */
  lemma {:induction false} SharedWalkStopsWhenMet(skuCode: string, mrp: MrpText, bs: seq<Batch>, remaining: int, avail: map<string, int>)
    requires remaining > 0
    requires |SharedWalk(skuCode, mrp, bs, remaining, avail).details| < |Drain(skuCode, mrp, bs, avail)|
    ensures SharedWalk(skuCode, mrp, bs, remaining, avail).total == remaining
  {
    var key := BuildBatchKey(skuCode, mrp, bs[0].batchNo);
    var available := Working(avail, key, bs[0]);
    var w := SharedWalk(skuCode, mrp, bs, remaining, avail);
    if available <= 0 {
      assert w == SharedWalk(skuCode, mrp, bs[1..], remaining, avail);
      SharedWalkStopsWhenMet(skuCode, mrp, bs[1..], remaining, avail);
    } else {
      var take := Min(remaining, available);
      var rest := SharedWalk(skuCode, mrp, bs[1..], remaining - take, avail[key := available - take]);
      assert w.total == take + rest.total;
      if remaining - take > 0 {
        assert avail[key := available - take] == avail[key := 0];
        SharedWalkStopsWhenMet(skuCode, mrp, bs[1..], remaining - take, avail[key := 0]);
      }
    }
  }

  /** A walk with a quantity to fill and a batch with availability allocates something. */
  lemma {:induction false} SharedWalkFindsStock(skuCode: string, mrp: MrpText, bs: seq<Batch>, remaining: int, avail: map<string, int>)
    requires remaining > 0 && Drain(skuCode, mrp, bs, avail) != []
    ensures SharedWalk(skuCode, mrp, bs, remaining, avail).total > 0
  {
    var key := BuildBatchKey(skuCode, mrp, bs[0].batchNo);
    var available := Working(avail, key, bs[0]);
    if available <= 0 {
      SharedWalkFindsStock(skuCode, mrp, bs[1..], remaining, avail);
    } else {
      var take := Min(remaining, available);
      SharedWalkTotal(skuCode, mrp, bs[1..], remaining - take, avail[key := available - take]);
    }
  }

  /** Exhaustion: when the walk allocates less than the remaining quantity, every batch it
      was given ends with no working availability left. */
  lemma {:induction false} SharedWalkExhausts(skuCode: string, mrp: MrpText, bs: seq<Batch>, remaining: int, avail: map<string, int>)
    requires SharedWalk(skuCode, mrp, bs, remaining, avail).total < remaining
    ensures var w := SharedWalk(skuCode, mrp, bs, remaining, avail);
            forall j :: 0 <= j < |bs| ==> Working(w.avail, BuildBatchKey(skuCode, mrp, bs[j].batchNo), bs[j]) <= 0
  {
    var w := SharedWalk(skuCode, mrp, bs, remaining, avail);
    if bs != [] {
      var key := BuildBatchKey(skuCode, mrp, bs[0].batchNo);
      var available := Working(avail, key, bs[0]);
      var avail1 := if available <= 0 then avail else avail[key := available - Min(remaining, available)];
      var remaining1 := if available <= 0 then remaining else remaining - Min(remaining, available);
      var rest := SharedWalk(skuCode, mrp, bs[1..], remaining1, avail1);
      SharedWalkTotal(skuCode, mrp, bs[1..], remaining1, avail1);
      SharedWalkExhausts(skuCode, mrp, bs[1..], remaining1, avail1);
      assert w.avail == rest.avail;
      forall j | 0 <= j < |bs| ensures Working(w.avail, BuildBatchKey(skuCode, mrp, bs[j].batchNo), bs[j]) <= 0 {
        if j > 0 {
          assert bs[j] == bs[1..][j - 1];
        } else {
          SharedWalkConserves(skuCode, mrp, bs[1..], remaining1, avail1, key);
          SharedWalkTakesOnlyWritten(skuCode, mrp, bs[1..], remaining1, avail1, key);
          if key !in avail1 && key in rest.avail {
            FirstPositiveHasBatch(skuCode, mrp, bs[1..], key);
            var j1 :| 0 <= j1 < |bs[1..]| && BuildBatchKey(skuCode, mrp, bs[1..][j1].batchNo) == key;
            assert Working(rest.avail, key, bs[1..][j1]) <= 0;
          }
        }
      }
    }
  }

  lemma {:induction false} FirstPositiveHasBatch(skuCode: string, mrp: MrpText, bs: seq<Batch>, k: string)
    requires FirstPositive(skuCode, mrp, bs, k).Some?
    ensures exists j :: 0 <= j < |bs| && BuildBatchKey(skuCode, mrp, bs[j].batchNo) == k
  {
    if BuildBatchKey(skuCode, mrp, bs[0].batchNo) != k || bs[0].quantity <= 0 {
      FirstPositiveHasBatch(skuCode, mrp, bs[1..], k);
      var j :| 0 <= j < |bs[1..]| && BuildBatchKey(skuCode, mrp, bs[1..][j].batchNo) == k;
      assert bs[j + 1] == bs[1..][j];
    }
  }
}
