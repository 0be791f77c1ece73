/** The bulk allocation of the order service (allocateOrdersBulk): clean the order numbers,
    screen the orders, query the gateway once for every order, plan all orders FEFO against
    one shared per-batch availability map, deduct every plan's lines in one call, then
    record each plan on its own so that one failing write does not undo the others. */
module BulkAllocation {
  import opened Wrappers
  import opened JavaText
  import opened Domain
  import opened InventoryClient
  import opened Planner
  import opened OrderService

  /** BulkOrderAllocationResult. */
  datatype BulkResult = BulkResult(orderNumber: Option<string>, success: bool, message: string, allocation: Option<AllocationResponse>)

  /** BulkAllocationResponse. */
  datatype BulkResponse = BulkResponse(totalOrders: int, successCount: int, failureCount: int, results: seq<BulkResult>)

  /** The failed result of an order, its reason behind the order number. */
  function FailedFor(orderNumber: string, reason: string): BulkResult {
    BulkResult(Some(orderNumber), false, "Allocation failed for order " + orderNumber + ": " + reason, None)
  }

  /** The order numbers of a list of results, in order. */
  function ResultNumbers(rs: seq<BulkResult>): seq<Option<string>> {
    seq(|rs|, i requires 0 <= i < |rs| => rs[i].orderNumber)
  }

  lemma ResultNumbersAppend(a: seq<BulkResult>, b: seq<BulkResult>)
    ensures ResultNumbers(a + b) == ResultNumbers(a) + ResultNumbers(b)
  {
  }

  /** Order numbers as the results carry them. */
  function Present(ns: seq<string>): seq<Option<string>> {
    seq(|ns|, i requires 0 <= i < |ns| => Some(ns[i]))
  }

  lemma PresentAppend(a: seq<string>, b: seq<string>)
    ensures Present(a + b) == Present(a) + Present(b)
  {
  }

  predicate AllFailed(rs: seq<BulkResult>) {
    forall i :: 0 <= i < |rs| ==> !rs[i].success
  }

  /** The number of successful results. */
  function CountSuccesses(rs: seq<BulkResult>): int {
    if rs == [] then 0
    else CountSuccesses(rs[..|rs| - 1]) + (if rs[|rs| - 1].success then 1 else 0)
  }

  lemma {:induction false} CountSuccessesBounds(rs: seq<BulkResult>)
    ensures 0 <= CountSuccesses(rs) <= |rs|
    ensures AllFailed(rs) ==> CountSuccesses(rs) == 0
  {
    if rs != [] {
      CountSuccessesBounds(rs[..|rs| - 1]);
    }
  }

  lemma {:induction false} CountSuccessesAppend(a: seq<BulkResult>, b: seq<BulkResult>)
    ensures CountSuccesses(a + b) == CountSuccesses(a) + CountSuccesses(b)
    decreases |b|
  {
    if b == [] {
      assert a + b == a;
    } else {
      assert (a + b)[..|a + b| - 1] == a + b[..|b| - 1];
      CountSuccessesAppend(a, b[..|b| - 1]);
    }
  }

  /** The response built from the results: every result counts once, as a success or not. */
  function Respond(results: seq<BulkResult>): BulkResponse {
    BulkResponse(|results|, CountSuccesses(results), |results| - CountSuccesses(results), results)
  }

  // ---------------------------------------------------------------------------
  // Order numbers

  /** A null entry, or one that is blank once trimmed. */
  predicate MissingNumber(n: Option<string>) {
    n.None? || IsBlank(Trim(n.value))
  }

  /** The entries the first loop reports as missing, in order. */
  function MissingEntries(ns: seq<Option<string>>): seq<Option<string>> {
    if ns == [] then []
    else MissingEntries(ns[..|ns| - 1]) + (if MissingNumber(ns[|ns| - 1]) then [ns[|ns| - 1]] else [])
  }

  /** The results of the first loop: one failed "Order number is missing" per missing entry. */
  function MissingResults(ns: seq<Option<string>>): seq<BulkResult> {
    if ns == [] then []
    else
      MissingResults(ns[..|ns| - 1])
      + (if MissingNumber(ns[|ns| - 1]) then [BulkResult(ns[|ns| - 1], false, "Order number is missing", None)] else [])
  }

  /** Each missing entry gets one failed result carrying the entry as given, and nothing else
      does. */
  lemma {:induction false} MissingResultsCarryEntries(ns: seq<Option<string>>)
    ensures ResultNumbers(MissingResults(ns)) == MissingEntries(ns)
    ensures AllFailed(MissingResults(ns))
    ensures forall x :: x in MissingEntries(ns) <==> x in ns && MissingNumber(x)
  {
    if ns != [] {
      var init := ns[..|ns| - 1];
      MissingResultsCarryEntries(init);
      assert ns == init + [ns[|ns| - 1]];
      var extra := if MissingNumber(ns[|ns| - 1]) then [BulkResult(ns[|ns| - 1], false, "Order number is missing", None)] else [];
      ResultNumbersAppend(MissingResults(init), extra);
    }
  }

  /** Entry i of the request names order x: it is present and trims to x. */
  predicate NamesOrder(ns: seq<Option<string>>, i: int, x: string) {
    0 <= i < |ns| && !MissingNumber(ns[i]) && Trim(ns[i].value) == x
  }

  /** The LinkedHashSet of the trimmed, non-blank order numbers, in first-seen order. */
  function NormalizedOrderNumbers(ns: seq<Option<string>>): seq<string> {
    if ns == [] then []
    else
      var kept := NormalizedOrderNumbers(ns[..|ns| - 1]);
      var last := ns[|ns| - 1];
      if !MissingNumber(last) && Trim(last.value) !in kept then kept + [Trim(last.value)] else kept
  }

  predicate Distinct(ns: seq<string>) {
    forall i, j :: 0 <= i < j < |ns| ==> ns[i] != ns[j]
  }

  /** The cleaned numbers are distinct, and are exactly the trimmed forms of the entries that
      are not missing. */
  lemma {:induction false} NormalizedOrderNumbersSpec(ns: seq<Option<string>>)
    ensures Distinct(NormalizedOrderNumbers(ns))
    ensures forall x :: x in NormalizedOrderNumbers(ns) <==> exists i :: NamesOrder(ns, i, x)
  {
    if ns != [] {
      var init := ns[..|ns| - 1];
      NormalizedOrderNumbersSpec(init);
      var kept := NormalizedOrderNumbers(init);
      var last := ns[|ns| - 1];
      forall x ensures x in NormalizedOrderNumbers(ns) <==> exists i :: NamesOrder(ns, i, x) {
        if x in kept {
          var i :| NamesOrder(init, i, x);
          assert NamesOrder(ns, i, x);
        } else if x in NormalizedOrderNumbers(ns) {
          assert NamesOrder(ns, |ns| - 1, x);
        }
        if exists i :: NamesOrder(ns, i, x) {
          var i :| NamesOrder(ns, i, x);
          if i < |ns| - 1 {
            assert NamesOrder(init, i, x);
          } else {
            assert x == Trim(last.value) && !MissingNumber(last);
          }
        }
      }
    }
  }

  /** Entry j is the first entry naming its order: no entry before it trims to the same number. */
  predicate IsFirstNaming(ns: seq<Option<string>>, j: int) {
    && 0 <= j < |ns|
    && !MissingNumber(ns[j])
    && forall i :: 0 <= i < j ==> !NamesOrder(ns, i, Trim(ns[j].value))
  }

  /** Reference definition: the numbers of the first entries naming each order among the
      first n entries, in request order. */
  function FirstNamings(ns: seq<Option<string>>, n: int): seq<string>
    requires 0 <= n <= |ns|
  {
    if n == 0 then []
    else FirstNamings(ns, n - 1) + (if IsFirstNaming(ns, n - 1) then [Trim(ns[n - 1].value)] else [])
  }

  lemma {:induction false} FirstNamingsOfPrefix(ns: seq<Option<string>>, m: int, n: int)
    requires 0 <= n <= m <= |ns|
    ensures FirstNamings(ns[..m], n) == FirstNamings(ns, n)
  {
    if n > 0 {
      FirstNamingsOfPrefix(ns, m, n - 1);
      var p := ns[..m];
      assert forall i :: 0 <= i < m ==> p[i] == ns[i];
      assert forall i, x :: 0 <= i < n ==> (NamesOrder(p, i, x) <==> NamesOrder(ns, i, x));
      assert IsFirstNaming(p, n - 1) == IsFirstNaming(ns, n - 1);
    }
  }

  /** The LinkedHashSet keeps first-seen order: the cleaned numbers are, in request order,
      those of the first entries naming each order. */
  lemma {:induction false} NormalizedOrderNumbersInOrder(ns: seq<Option<string>>)
    ensures NormalizedOrderNumbers(ns) == FirstNamings(ns, |ns|)
  {
    if ns != [] {
      var j := |ns| - 1;
      var init := ns[..j];
      NormalizedOrderNumbersInOrder(init);
      FirstNamingsOfPrefix(ns, j, j);
      NormalizedOrderNumbersSpec(init);
      var last := ns[j];
      if !MissingNumber(last) {
        var x := Trim(last.value);
        if x in NormalizedOrderNumbers(init) {
          var i :| NamesOrder(init, i, x);
          assert NamesOrder(ns, i, x);
          assert !IsFirstNaming(ns, j);
        } else {
          forall i | 0 <= i < j ensures !NamesOrder(ns, i, x) {
            if NamesOrder(ns, i, x) {
              assert NamesOrder(init, i, x);
            }
          }
          assert IsFirstNaming(ns, j);
        }
      }
    }
  }

  // ---------------------------------------------------------------------------
  // Screening

  /** The stored orders: each under its own number. */
  predicate StoreStates(states: map<string, OrderState>) {
    forall k :: k in states ==> states[k].orderNumber == k
  }

  /** The screening of the cleaned numbers: the rejected ones and the orders to allocate. */
  datatype Screening = Screening(failures: seq<BulkResult>, allocatable: seq<OrderState>)

  /** The second loop: an unknown, completed or fully allocated order fails with its reason;
      every other order joins the allocatable list. */
  function Screen(states: map<string, OrderState>, ns: seq<string>): Screening {
    if ns == [] then Screening([], [])
    else
      var prev := Screen(states, ns[..|ns| - 1]);
      var n := ns[|ns| - 1];
      if n !in states then prev.(failures := prev.failures + [FailedFor(n, "Order not found")])
      else if states[n].status == COMPLETED then prev.(failures := prev.failures + [FailedFor(n, "Order already completed")])
      else if states[n].requestedQty - states[n].allocatedQty <= 0 then
        prev.(failures := prev.failures + [FailedFor(n, "Order already fully allocated")])
      else prev.(allocatable := prev.allocatable + [states[n]])
  }

  /** The order numbers of a list of orders. */
  function Numbers(ss: seq<OrderState>): seq<string> {
    seq(|ss|, i requires 0 <= i < |ss| => ss[i].orderNumber)
  }

  lemma NumbersAppend(a: seq<OrderState>, b: seq<OrderState>)
    ensures Numbers(a + b) == Numbers(a) + Numbers(b)
  {
  }

  lemma NumbersOfLast(ss: seq<OrderState>)
    requires ss != []
    ensures Numbers(ss) == Numbers(ss[..|ss| - 1]) + [ss[|ss| - 1].orderNumber]
  {
  }

  /** An order the bulk path may allocate: stored, not completed, something remaining. */
  predicate Eligible(states: map<string, OrderState>, s: OrderState) {
    && s.orderNumber in states && states[s.orderNumber] == s
    && s.status != COMPLETED && s.requestedQty - s.allocatedQty > 0
  }

  /** One step of the screening: the last number either fails or joins the allocatable list
      as its stored, eligible order. */
  predicate ScreenedOnce(states: map<string, OrderState>, prev: Screening, n: string, next: Screening) {
    || (&& next.allocatable == prev.allocatable
        && |next.failures| == |prev.failures| + 1
        && next.failures[..|prev.failures|] == prev.failures
        && next.failures[|prev.failures|].orderNumber == Some(n)
        && !next.failures[|prev.failures|].success)
    || (&& next.failures == prev.failures
        && n in states && Eligible(states, states[n])
        && next.allocatable == prev.allocatable + [states[n]])
  }

  lemma ScreenStep(states: map<string, OrderState>, ns: seq<string>)
    requires StoreStates(states) && ns != []
    ensures ScreenedOnce(states, Screen(states, ns[..|ns| - 1]), ns[|ns| - 1], Screen(states, ns))
  {
    var prev := Screen(states, ns[..|ns| - 1]);
    var n := ns[|ns| - 1];
    var next := Screen(states, ns);
    if n in states && states[n].status != COMPLETED && states[n].requestedQty - states[n].allocatedQty > 0 {
      assert next == prev.(allocatable := prev.allocatable + [states[n]]);
      assert Eligible(states, states[n]);
    } else {
      var reason := if n !in states then "Order not found"
                    else if states[n].status == COMPLETED then "Order already completed"
                    else "Order already fully allocated";
      var r := FailedFor(n, reason);
      assert next == prev.(failures := prev.failures + [r]);
      assert next.failures[..|prev.failures|] == prev.failures;
    }
  }

  /** Every screened number gets exactly one outcome, a failed result or a place in the
      allocatable list. */
  lemma {:induction false} ScreenAccounts(states: map<string, OrderState>, ns: seq<string>)
    requires StoreStates(states)
    ensures multiset(ResultNumbers(Screen(states, ns).failures)) + multiset(Present(Numbers(Screen(states, ns).allocatable)))
            == multiset(Present(ns))
  {
    if ns != [] {
      var init := ns[..|ns| - 1];
      ScreenAccounts(states, init);
      ScreenStep(states, ns);
      assert ns == init + [ns[|ns| - 1]];
      OneOutcomeMore(states, Screen(states, init), ns[|ns| - 1], Screen(states, ns), init);
    }
  }

  /** The accounting step: one more number, one more outcome. */
  lemma OneOutcomeMore(states: map<string, OrderState>, prev: Screening, n: string, next: Screening, init: seq<string>)
    requires StoreStates(states)
    requires multiset(ResultNumbers(prev.failures)) + multiset(Present(Numbers(prev.allocatable))) == multiset(Present(init))
    requires ScreenedOnce(states, prev, n, next)
    ensures multiset(ResultNumbers(next.failures)) + multiset(Present(Numbers(next.allocatable))) == multiset(Present(init + [n]))
  {
    var fs, ps := ResultNumbers(prev.failures), Present(Numbers(prev.allocatable));
    PresentAppend(init, [n]);
    if next.failures == prev.failures {
      NumbersAppend(prev.allocatable, [states[n]]);
      assert Numbers([states[n]]) == [n];
      PresentAppend(Numbers(prev.allocatable), [n]);
      MultisetAddOne(fs, ps, Present(init), Some(n));
    } else {
      var r := next.failures[|prev.failures|];
      assert next.failures == prev.failures + [r];
      ResultNumbersAppend(prev.failures, [r]);
      MultisetAddOne(fs, ps, Present(init), Some(n));
    }
  }

  /** Adding one element to either side of a split adds it to the whole. */
  lemma MultisetAddOne<T>(a: seq<T>, b: seq<T>, c: seq<T>, x: T)
    requires multiset(a) + multiset(b) == multiset(c)
    ensures multiset(a + [x]) + multiset(b) == multiset(c + [x])
    ensures multiset(a) + multiset(b + [x]) == multiset(c + [x])
  {
    assert multiset(a + [x]) == multiset(a) + multiset{x};
    assert multiset(b + [x]) == multiset(b) + multiset{x};
    assert multiset(c + [x]) == multiset(c) + multiset{x};
  }

  /** The allocatable orders are stored and eligible, each under a screened number and, when
      the numbers are distinct, each once. */
  lemma {:induction false} ScreenAllocatable(states: map<string, OrderState>, ns: seq<string>)
    requires StoreStates(states)
    ensures forall i :: 0 <= i < |Screen(states, ns).allocatable| ==>
              Eligible(states, Screen(states, ns).allocatable[i]) && Screen(states, ns).allocatable[i].orderNumber in ns
    ensures Distinct(ns) ==> Distinct(Numbers(Screen(states, ns).allocatable))
  {
    if ns != [] {
      var init := ns[..|ns| - 1];
      var n := ns[|ns| - 1];
      var prev := Screen(states, init);
      var sc := Screen(states, ns);
      ScreenAllocatable(states, init);
      ScreenStep(states, ns);
      forall i | 0 <= i < |prev.allocatable| ensures prev.allocatable[i].orderNumber in ns {
        var x := prev.allocatable[i].orderNumber;
        assert x in init;
        var j :| 0 <= j < |init| && init[j] == x;
        assert ns[j] == x;
      }
      if sc.failures == prev.failures {
        assert sc.allocatable == prev.allocatable + [states[n]];
        if Distinct(ns) {
          forall i | 0 <= i < |prev.allocatable| ensures prev.allocatable[i].orderNumber != n {
            var x := prev.allocatable[i].orderNumber;
            var j :| 0 <= j < |init| && init[j] == x;
            assert ns[j] == x;
          }
          assert Distinct(Numbers(prev.allocatable));
          forall i, j | 0 <= i < j < |sc.allocatable| ensures Numbers(sc.allocatable)[i] != Numbers(sc.allocatable)[j] {
            if j < |prev.allocatable| {
              assert Numbers(sc.allocatable)[i] == Numbers(prev.allocatable)[i];
              assert Numbers(sc.allocatable)[j] == Numbers(prev.allocatable)[j];
            }
          }
        }
      } else {
        assert sc.allocatable == prev.allocatable;
        if Distinct(ns) {
          assert Distinct(init);
        }
      }
    }
  }

  // ---------------------------------------------------------------------------
  // Inventory query and planning

  /** One query per allocatable order: its SKU and price exactly as stored. */
  function InventoryQueries(ss: seq<OrderState>): (qs: seq<Option<OrderInventoryQuery>>)
    ensures |qs| == |ss|
  {
    seq(|ss|, i requires 0 <= i < |ss| => Some(OrderInventoryQuery(Some(ss[i].skuCode), Some(ss[i].mrp))))
  }

  /** OrderAllocationPlan: the order, its lines, its deduction lines and their total. */
  datatype OrderPlan = OrderPlan(order: OrderState, details: seq<AllocationDetail>, deductRequests: seq<DeductLine>, total: int)

  /** The state of the planning loop: failed results, plans, the shared availability map. */
  datatype Planning = Planning(failures: seq<BulkResult>, plans: seq<OrderPlan>, avail: map<string, int>)

  /** The batches of an order: the inventory under buildSkuMrpKey of its stored SKU and price
      (none when the key is absent), sorted by expiry. */
  function ValidBatches(s: OrderState, inventory: map<Key, seq<Batch>>): seq<Batch> {
    var key := BuildSkuMrpKey(s.skuCode, s.mrp);
    SortByExpiry(if key in inventory then inventory[key] else [])
  }

  /** The planning loop body for one order. */
  function PlanStep(s: OrderState, inventory: map<Key, seq<Batch>>, p: Planning): Planning {
    var validBatches := ValidBatches(s, inventory);
    if validBatches == [] then p.(failures := p.failures + [FailedFor(s.orderNumber, "No valid inventory available")])
    else
      var w := SharedWalk(s.skuCode, s.mrp, validBatches, s.requestedQty - s.allocatedQty, p.avail);
      if w.total == 0 then Planning(p.failures + [FailedFor(s.orderNumber, "Insufficient stock for allocation")], p.plans, w.avail)
      else Planning(p.failures, p.plans + [OrderPlan(s, w.details, DeductLines(s.skuCode, s.mrp, w.details), w.total)], w.avail)
  }

  /** The planning loop over the allocatable orders, from an empty availability map. */
  function PlanOrders(ss: seq<OrderState>, inventory: map<Key, seq<Batch>>): Planning {
    if ss == [] then Planning([], [], map[])
    else PlanStep(ss[|ss| - 1], inventory, PlanOrders(ss[..|ss| - 1], inventory))
  }

  function PlanNumbers(plans: seq<OrderPlan>): seq<string> {
    seq(|plans|, i requires 0 <= i < |plans| => plans[i].order.orderNumber)
  }

  lemma PlanNumbersAppend(a: seq<OrderPlan>, b: seq<OrderPlan>)
    ensures PlanNumbers(a + b) == PlanNumbers(a) + PlanNumbers(b)
  {
  }

  /** A plan as the bulk path builds it: a positive total within what remains, the sum of
      positive lines in expiry order, and deduction lines that repeat the lines under the
      order's SKU and price. */
  predicate ValidPlan(plan: OrderPlan) {
    && 0 < plan.total <= plan.order.requestedQty - plan.order.allocatedQty
    && plan.total == SumQty(plan.details)
    && PositiveLines(plan.details)
    && LinesInExpiryOrder(plan.details)
    && plan.deductRequests == DeductLines(plan.order.skuCode, plan.order.mrp, plan.details)
  }

  /** One step of the planning: the order either fails, leaving the plans as they were, or
      adds one plan for itself. */
  predicate PlannedOnce(prev: Planning, s: OrderState, next: Planning) {
    || (&& next.plans == prev.plans
        && |next.failures| == |prev.failures| + 1
        && next.failures[..|prev.failures|] == prev.failures
        && next.failures[|prev.failures|].orderNumber == Some(s.orderNumber)
        && !next.failures[|prev.failures|].success)
    || (&& next.failures == prev.failures
        && |next.plans| == |prev.plans| + 1
        && next.plans[..|prev.plans|] == prev.plans
        && next.plans[|prev.plans|].order == s)
  }

  lemma PlanStepShape(s: OrderState, inventory: map<Key, seq<Batch>>, p: Planning)
    ensures PlannedOnce(p, s, PlanStep(s, inventory, p))
    ensures |PlanStep(s, inventory, p).plans| > |p.plans| ==> ValidPlan(PlanStep(s, inventory, p).plans[|p.plans|])
  {
    var validBatches := ValidBatches(s, inventory);
    var next := PlanStep(s, inventory, p);
    if validBatches == [] {
      assert next.failures == p.failures + [FailedFor(s.orderNumber, "No valid inventory available")];
    } else {
      var remainingQty := s.requestedQty - s.allocatedQty;
      var w := SharedWalk(s.skuCode, s.mrp, validBatches, remainingQty, p.avail);
      if w.total == 0 {
        assert next.failures == p.failures + [FailedFor(s.orderNumber, "Insufficient stock for allocation")];
      } else {
        var key := BuildSkuMrpKey(s.skuCode, s.mrp);
        SortByExpirySortsAndPermutes(if key in inventory then inventory[key] else []);
        SharedWalkTotal(s.skuCode, s.mrp, validBatches, remainingQty, p.avail);
        SharedWalkExpiryOrder(s.skuCode, s.mrp, validBatches, remainingQty, p.avail);
        var plan := OrderPlan(s, w.details, DeductLines(s.skuCode, s.mrp, w.details), w.total);
        assert next.plans == p.plans + [plan];
        assert ValidPlan(plan);
      }
    }
  }

  /** FEFO across the bulk call: a new plan's lines drain the order's batches in expiry
      order against the availability the earlier orders left; a plan short of the remaining
      quantity used every batch with availability; an order with batches and a positive
      remaining quantity gets no plan only when none of its batches has availability left. */
  lemma PlanStepIsFefo(s: OrderState, inventory: map<Key, seq<Batch>>, p: Planning)
    ensures var next := PlanStep(s, inventory, p);
            var drained := Drain(s.skuCode, s.mrp, ValidBatches(s, inventory), p.avail);
            |next.plans| > |p.plans| ==>
              && TakesAsDrained(next.plans[|p.plans|].details, drained)
              && (next.plans[|p.plans|].total < s.requestedQty - s.allocatedQty ==>
                    |next.plans[|p.plans|].details| == |drained|)
    ensures ValidBatches(s, inventory) != [] && s.requestedQty - s.allocatedQty > 0
            && |PlanStep(s, inventory, p).plans| == |p.plans| ==>
              Drain(s.skuCode, s.mrp, ValidBatches(s, inventory), p.avail) == []
  {
    var validBatches := ValidBatches(s, inventory);
    var remainingQty := s.requestedQty - s.allocatedQty;
    var w := SharedWalk(s.skuCode, s.mrp, validBatches, remainingQty, p.avail);
    var drained := Drain(s.skuCode, s.mrp, validBatches, p.avail);
    SharedWalkIsFefo(s.skuCode, s.mrp, validBatches, remainingQty, p.avail);
    if remainingQty > 0 && |w.details| < |drained| {
      SharedWalkStopsWhenMet(s.skuCode, s.mrp, validBatches, remainingQty, p.avail);
    }
    if remainingQty > 0 && drained != [] {
      SharedWalkFindsStock(s.skuCode, s.mrp, validBatches, remainingQty, p.avail);
    }
  }

  /** Every allocatable order gets exactly one outcome, a failed result or a plan. */
  lemma {:induction false} PlanOrdersAccounts(ss: seq<OrderState>, inventory: map<Key, seq<Batch>>)
    ensures multiset(ResultNumbers(PlanOrders(ss, inventory).failures)) + multiset(Present(PlanNumbers(PlanOrders(ss, inventory).plans)))
            == multiset(Present(Numbers(ss)))
  {
    if ss != [] {
      var init := ss[..|ss| - 1];
      var s := ss[|ss| - 1];
      var prev := PlanOrders(init, inventory);
      var next := PlanStep(s, inventory, prev);
      assert PlanOrders(ss, inventory) == next;
      PlanOrdersAccounts(init, inventory);
      PlanStepShape(s, inventory, prev);
      NumbersOfLast(ss);
      OnePlanningOutcomeMore(prev, s, next, Numbers(init));
    }
  }

  lemma OnePlanningOutcomeMore(prev: Planning, s: OrderState, next: Planning, init: seq<string>)
    requires multiset(ResultNumbers(prev.failures)) + multiset(Present(PlanNumbers(prev.plans))) == multiset(Present(init))
    requires PlannedOnce(prev, s, next)
    ensures multiset(ResultNumbers(next.failures)) + multiset(Present(PlanNumbers(next.plans))) == multiset(Present(init + [s.orderNumber]))
  {
    var fs, ps := ResultNumbers(prev.failures), Present(PlanNumbers(prev.plans));
    PresentAppend(init, [s.orderNumber]);
    if next.failures == prev.failures {
      assert next.plans == prev.plans + [next.plans[|prev.plans|]];
      PlanNumbersAppend(prev.plans, [next.plans[|prev.plans|]]);
      assert PlanNumbers([next.plans[|prev.plans|]]) == [s.orderNumber];
      PresentAppend(PlanNumbers(prev.plans), [s.orderNumber]);
      MultisetAddOne(fs, ps, Present(init), Some(s.orderNumber));
    } else {
      var r := next.failures[|prev.failures|];
      assert next.failures == prev.failures + [r];
      ResultNumbersAppend(prev.failures, [r]);
      MultisetAddOne(fs, ps, Present(init), Some(s.orderNumber));
    }
  }

  /** Every plan is valid and is the plan of one of the orders, and every failed result is
      a failure. */
  lemma {:induction false} PlanOrdersPlans(ss: seq<OrderState>, inventory: map<Key, seq<Batch>>)
    ensures forall j :: 0 <= j < |PlanOrders(ss, inventory).plans| ==>
              ValidPlan(PlanOrders(ss, inventory).plans[j]) && PlanOrders(ss, inventory).plans[j].order in ss
    ensures AllFailed(PlanOrders(ss, inventory).failures)
  {
    if ss != [] {
      var init := ss[..|ss| - 1];
      var s := ss[|ss| - 1];
      var prev := PlanOrders(init, inventory);
      var next := PlanOrders(ss, inventory);
      PlanOrdersPlans(init, inventory);
      PlanStepShape(s, inventory, prev);
      forall j | 0 <= j < |next.plans| ensures ValidPlan(next.plans[j]) && next.plans[j].order in ss {
        if j < |prev.plans| {
          assert next.plans[j] == prev.plans[j];
          assert prev.plans[j].order in init;
        }
      }
      forall j | 0 <= j < |next.failures| ensures !next.failures[j].success {
        if j < |prev.failures| {
          assert next.failures[j] == prev.failures[j];
        }
      }
    }
  }

  /** No order gets two plans when the orders are distinct. */
  lemma {:induction false} PlanOrdersDistinct(ss: seq<OrderState>, inventory: map<Key, seq<Batch>>)
    requires Distinct(Numbers(ss))
    ensures Distinct(PlanNumbers(PlanOrders(ss, inventory).plans))
  {
    if ss != [] {
      var init := ss[..|ss| - 1];
      var s := ss[|ss| - 1];
      var prev := PlanOrders(init, inventory);
      var next := PlanOrders(ss, inventory);
      NumbersOfLast(ss);
      DistinctSplit(Numbers(init), s.orderNumber);
      PlanOrdersDistinct(init, inventory);
      PlanOrdersPlans(init, inventory);
      PlanStepShape(s, inventory, prev);
      if next.plans != prev.plans {
        var plan := next.plans[|prev.plans|];
        assert next.plans == prev.plans + [plan];
        PlanNumbersAppend(prev.plans, [plan]);
        assert PlanNumbers([plan]) == [s.orderNumber];
        forall j | 0 <= j < |prev.plans| ensures PlanNumbers(prev.plans)[j] != s.orderNumber {
          NumberOf(prev.plans[j].order, init);
        }
        DistinctSnoc(PlanNumbers(prev.plans), s.orderNumber);
      }
    }
  }

  lemma DistinctSplit(ns: seq<string>, n: string)
    requires Distinct(ns + [n])
    ensures Distinct(ns) && n !in ns
  {
    var all := ns + [n];
    forall i, j | 0 <= i < j < |ns| ensures ns[i] != ns[j] {
      assert all[i] == ns[i] && all[j] == ns[j];
    }
    forall i | 0 <= i < |ns| ensures ns[i] != n {
      assert all[i] == ns[i] && all[|ns|] == n;
    }
  }

  lemma DistinctSnoc(ns: seq<string>, n: string)
    requires Distinct(ns)
    requires forall i :: 0 <= i < |ns| ==> ns[i] != n
    ensures Distinct(ns + [n])
  {
  }

  lemma NumberOf(o: OrderState, ss: seq<OrderState>)
    requires o in ss
    ensures o.orderNumber in Numbers(ss)
  {
    var i :| 0 <= i < |ss| && ss[i] == o;
    assert Numbers(ss)[i] == o.orderNumber;
  }

  // ---------------------------------------------------------------------------
  // No batch is overdrawn

  /** What all plans together take from batch key k. */
  function TakenAll(plans: seq<OrderPlan>, k: string): int {
    if plans == [] then 0
    else
      var last := plans[|plans| - 1];
      TakenAll(plans[..|plans| - 1], k) + TakenFrom(last.order.skuCode, last.order.mrp, last.details, k)
  }

  /** The stock the shared map started from for batch key k: the quantity of the first
      positive batch with key k among the sorted batches of the first order whose walk wrote
      k into the map, or None when no order of ss wrote it. */
  function FirstRead(ss: seq<OrderState>, inventory: map<Key, seq<Batch>>, k: string): Option<int> {
    if ss == [] then None
    else
      var init := ss[..|ss| - 1];
      var s := ss[|ss| - 1];
      if k in PlanOrders(init, inventory).avail then FirstRead(init, inventory, k)
      else if k in PlanOrders(ss, inventory).avail then FirstPositive(s.skuCode, s.mrp, ValidBatches(s, inventory), k)
      else None
  }

  /** The accounting of batch key k in a planning state, given the stock first read for k:
      a value the map holds is not negative, and with what all plans took it makes up that
      stock; a key the map does not hold was not taken from. */
  predicate Accounted(first: Option<int>, p: Planning, k: string) {
    && (k in p.avail ==> 0 <= p.avail[k] && first == Some(p.avail[k] + TakenAll(p.plans, k)))
    && (k !in p.avail ==> TakenAll(p.plans, k) == 0)
  }

  /** The accounting of batch key k after planning the orders ss. */
  predicate KeyAccounted(ss: seq<OrderState>, inventory: map<Key, seq<Batch>>, p: Planning, k: string) {
    Accounted(FirstRead(ss, inventory, k), p, k)
  }

  /** No batch is overdrawn: across the planning loop of one bulk call, the shared map never
      goes negative, and what all plans take from a batch plus what is left of it is the
      quantity that batch had when first read, so the plans together never take more from
      a batch than it had. */
  lemma {:induction false} PlanOrdersNeverOverdraws(ss: seq<OrderState>, inventory: map<Key, seq<Batch>>, k: string)
    ensures KeyAccounted(ss, inventory, PlanOrders(ss, inventory), k)
  {
    if ss != [] {
      var init := ss[..|ss| - 1];
      var s := ss[|ss| - 1];
      PlanOrdersNeverOverdraws(init, inventory, k);
      var prev := PlanOrders(init, inventory);
      FirstReadStep(ss, inventory, k);
      OverdrawStep(s, inventory, prev, FirstRead(init, inventory, k), k);
    }
  }

  /** One more order keeps the accounting: a key already in the map keeps its first read,
      and a key its walk writes first is read from its own batches. */
  lemma OverdrawStep(s: OrderState, inventory: map<Key, seq<Batch>>, prev: Planning, first: Option<int>, k: string)
    requires Accounted(first, prev, k)
    ensures var next := PlanStep(s, inventory, prev);
            Accounted(if k in prev.avail then first
                      else if k in next.avail then FirstPositive(s.skuCode, s.mrp, ValidBatches(s, inventory), k)
                      else None, next, k)
  {
    var next := PlanStep(s, inventory, prev);
    var validBatches := ValidBatches(s, inventory);
    var remainingQty := s.requestedQty - s.allocatedQty;
    var w := SharedWalk(s.skuCode, s.mrp, validBatches, remainingQty, prev.avail);
    if validBatches == [] || w.total == 0 {
      if validBatches != [] {
        SharedWalkIdle(s.skuCode, s.mrp, validBatches, remainingQty, prev.avail);
      }
      assert next.avail == prev.avail && next.plans == prev.plans;
    } else {
      var plan := OrderPlan(s, w.details, DeductLines(s.skuCode, s.mrp, w.details), w.total);
      assert next == Planning(prev.failures, prev.plans + [plan], w.avail);
      OverdrawTake(s, inventory, prev, first, plan, w.avail, k);
    }
  }

  /** The step of an order that gets a plan: its walk's conservation carries the accounting. */
  lemma OverdrawTake(s: OrderState, inventory: map<Key, seq<Batch>>, prev: Planning, first: Option<int>,
                     plan: OrderPlan, avail: map<string, int>, k: string)
    requires Accounted(first, prev, k)
    requires var w := SharedWalk(s.skuCode, s.mrp, ValidBatches(s, inventory), s.requestedQty - s.allocatedQty, prev.avail);
             plan.order == s && plan.details == w.details && avail == w.avail
    ensures Accounted(if k in prev.avail then first
                      else if k in avail then FirstPositive(s.skuCode, s.mrp, ValidBatches(s, inventory), k)
                      else None, Planning(prev.failures, prev.plans + [plan], avail), k)
  {
    var validBatches := ValidBatches(s, inventory);
    var remainingQty := s.requestedQty - s.allocatedQty;
    var plans := prev.plans + [plan];
    assert plans[..|plans| - 1] == prev.plans;
    var taken := TakenFrom(s.skuCode, s.mrp, plan.details, k);
    assert TakenAll(plans, k) == TakenAll(prev.plans, k) + taken;
    SharedWalkConserves(s.skuCode, s.mrp, validBatches, remainingQty, prev.avail, k);
    SharedWalkTakesOnlyWritten(s.skuCode, s.mrp, validBatches, remainingQty, prev.avail, k);
    SharedWalkKeepsNonNegative(s.skuCode, s.mrp, validBatches, remainingQty, prev.avail, k);
  }

  /** One more order: a key already in the map keeps its first read; a key its walk writes
      first is read from its own batches. */
  lemma FirstReadStep(ss: seq<OrderState>, inventory: map<Key, seq<Batch>>, k: string)
    requires ss != []
    ensures var init := ss[..|ss| - 1];
            var s := ss[|ss| - 1];
            var prev := PlanOrders(init, inventory);
            && PlanOrders(ss, inventory) == PlanStep(s, inventory, prev)
            && FirstRead(ss, inventory, k)
               == if k in prev.avail then FirstRead(init, inventory, k)
                  else if k in PlanStep(s, inventory, prev).avail then FirstPositive(s.skuCode, s.mrp, ValidBatches(s, inventory), k)
                  else None
  {
  }

  // ---------------------------------------------------------------------------
  // Deduction and write-back

  /** The deduction lines of every plan, plan after plan. */
  function AllDeductLines(plans: seq<OrderPlan>): seq<DeductLine> {
    if plans == [] then [] else AllDeductLines(plans[..|plans| - 1]) + plans[|plans| - 1].deductRequests
  }

  /** The failed result of each of the given orders, with the same reason. */
  function FailEach(numbers: seq<string>, reason: string): (rs: seq<BulkResult>)
    ensures |rs| == |numbers|
  {
    seq(|numbers|, i requires 0 <= i < |numbers| => FailedFor(numbers[i], reason))
  }

  /** The successful result of a recorded order. */
  function Completed(t: OrderState, ds: seq<AllocationDetail>): BulkResult {
    BulkResult(Some(t.orderNumber), true, "Allocation completed", Some(ResponseFor(t, ds)))
  }

  /** The write-back loop state: results so far, and the orders as stored. */
  datatype Commit = Commit(results: seq<BulkResult>, states: map<string, OrderState>)

  /** persistAllocationForOrder for one plan, with fault giving the message of the exception
      the write raises for an order, if any; a failed write leaves the order as it was. */
  function CommitStep(plan: OrderPlan, fault: string -> Option<string>, c: Commit): Commit {
    var n := plan.order.orderNumber;
    match fault(n)
    case Some(message) => c.(results := c.results + [FailedFor(n, message)])
    case None =>
      var t := Recorded(plan.order, plan.details, plan.total);
      Commit(c.results + [Completed(t, plan.details)], c.states[n := t])
  }

  /** The write-back loop over the plans. */
  function CommitPlans(plans: seq<OrderPlan>, fault: string -> Option<string>, states: map<string, OrderState>): Commit {
    if plans == [] then Commit([], states)
    else CommitStep(plans[|plans| - 1], fault, CommitPlans(plans[..|plans| - 1], fault, states))
  }

  /** What a plan's order becomes: recorded when its write succeeds, as it was otherwise. */
  function CommittedState(plan: OrderPlan, fault: string -> Option<string>): OrderState {
    if fault(plan.order.orderNumber).None? then Recorded(plan.order, plan.details, plan.total) else plan.order
  }

  /** Each plan gets one result, in plan order, and it is a success exactly when its own
      write succeeds. */
  lemma {:induction false} CommitPlansResults(plans: seq<OrderPlan>, fault: string -> Option<string>, states: map<string, OrderState>)
    ensures ResultNumbers(CommitPlans(plans, fault, states).results) == Present(PlanNumbers(plans))
    ensures forall j :: 0 <= j < |plans| ==>
              (CommitPlans(plans, fault, states).results[j].success <==> fault(plans[j].order.orderNumber).None?)
  {
    if plans != [] {
      var init := plans[..|plans| - 1];
      var plan := plans[|plans| - 1];
      var n := plan.order.orderNumber;
      var prev := CommitPlans(init, fault, states);
      var c := CommitPlans(plans, fault, states);
      CommitPlansResults(init, fault, states);
      assert plans == init + [plan];
      PlanNumbersAppend(init, [plan]);
      assert PlanNumbers([plan]) == [n];
      PresentAppend(PlanNumbers(init), [n]);
      var r := if fault(n).Some? then FailedFor(n, fault(n).value) else Completed(Recorded(plan.order, plan.details, plan.total), plan.details);
      assert c.results == prev.results + [r];
      ResultNumbersAppend(prev.results, [r]);
    }
  }

  /** The write-back touches only planned orders and stores no new ones. */
  lemma {:induction false} CommitPlansKeepsOthers(plans: seq<OrderPlan>, fault: string -> Option<string>, states: map<string, OrderState>)
    requires forall j :: 0 <= j < |plans| ==> plans[j].order.orderNumber in states
    ensures CommitPlans(plans, fault, states).states.Keys == states.Keys
    ensures forall k :: k in states && k !in PlanNumbers(plans) ==> CommitPlans(plans, fault, states).states[k] == states[k]
  {
    if plans != [] {
      var init := plans[..|plans| - 1];
      var plan := plans[|plans| - 1];
      var n := plan.order.orderNumber;
      var prevStates := CommitPlans(init, fault, states).states;
      var cs := CommitPlans(plans, fault, states).states;
      CommitPlansKeepsOthers(init, fault, states);
      assert cs == if fault(n).Some? then prevStates else prevStates[n := CommittedState(plan, fault)];
      assert plans == init + [plan];
      PlanNumbersAppend(init, [plan]);
      assert PlanNumbers([plan]) == [n];
      forall k | k in states && k !in PlanNumbers(plans) ensures cs[k] == states[k] {
        assert k != n && k !in PlanNumbers(init);
      }
    }
  }

  /** Per-order isolation of the write-back: with distinct plans, each planned order ends as
      CommittedState says, whatever happened to the others. */
  lemma {:induction false} CommitPlansIsolates(plans: seq<OrderPlan>, fault: string -> Option<string>, states: map<string, OrderState>)
    requires Distinct(PlanNumbers(plans))
    requires forall j :: 0 <= j < |plans| ==> plans[j].order.orderNumber in states && states[plans[j].order.orderNumber] == plans[j].order
    ensures forall j :: 0 <= j < |plans| ==>
              && plans[j].order.orderNumber in CommitPlans(plans, fault, states).states
              && CommitPlans(plans, fault, states).states[plans[j].order.orderNumber] == CommittedState(plans[j], fault)
  {
    if plans != [] {
      var last := |plans| - 1;
      var init := plans[..last];
      var plan := plans[last];
      var n := plan.order.orderNumber;
      var prevStates := CommitPlans(init, fault, states).states;
      var cs := CommitPlans(plans, fault, states).states;
      assert Distinct(PlanNumbers(init)) by {
        forall a, b | 0 <= a < b < |init| ensures PlanNumbers(init)[a] != PlanNumbers(init)[b] {
          assert PlanNumbers(init)[a] == PlanNumbers(plans)[a] && PlanNumbers(init)[b] == PlanNumbers(plans)[b];
        }
      }
      CommitPlansIsolates(init, fault, states);
      CommitPlansKeepsOthers(init, fault, states);
      assert cs == if fault(n).Some? then prevStates else prevStates[n := CommittedState(plan, fault)];
      assert PlanNumbers(plans)[last] == n;
      forall j | 0 <= j < |plans| ensures plans[j].order.orderNumber in cs && cs[plans[j].order.orderNumber] == CommittedState(plans[j], fault) {
        if j == last {
          if fault(n).Some? {
            assert n !in PlanNumbers(init) by {
              forall a | 0 <= a < |init| ensures PlanNumbers(init)[a] != n {
                assert PlanNumbers(init)[a] == PlanNumbers(plans)[a];
              }
            }
          }
        } else {
          assert plans[j] == init[j];
          assert PlanNumbers(plans)[j] == init[j].order.orderNumber != n;
        }
      }
    }
  }

  // ---------------------------------------------------------------------------
  // The whole call

  /** The response and the stored orders after a call. */
  datatype BulkOutcome = BulkOutcome(response: BulkResponse, states: map<string, OrderState>)

  /** The entries of the request; a null list has none. */
  function Entries(orderNumbers: Option<seq<Option<string>>>): seq<Option<string>> {
    if orderNumbers.None? then [] else orderNumbers.value
  }

  /** allocateOrdersBulk, given the stored orders, the gateway's availability and deduction
      endpoints, and the write faults; a null list is None. Up to the screening. */
  function BulkSpec(orderNumbers: Option<seq<Option<string>>>, states: map<string, OrderState>,
                    available: seq<SkuMrpRequest> -> AvailableReply,
                    send: BulkOrdersDeductRequest -> DeductReply,
                    fault: string -> Option<string>): BulkOutcome
  {
    if orderNumbers.None? || orderNumbers.value == [] then BulkOutcome(BulkResponse(0, 0, 0, []), states)
    else
      var ns := orderNumbers.value;
      var missing := MissingResults(ns);
      var normalized := NormalizedOrderNumbers(ns);
      if normalized == [] then BulkOutcome(BulkResponse(|missing|, 0, |missing|, missing), states)
      else
        var screening := Screen(states, normalized);
        AfterScreening(missing + screening.failures, screening.allocatable, states, available, send, fault)
  }

  /** From the allocatable orders on: the inventory query and the planning. */
  function AfterScreening(screened: seq<BulkResult>, allocatable: seq<OrderState>, states: map<string, OrderState>,
                          available: seq<SkuMrpRequest> -> AvailableReply,
                          send: BulkOrdersDeductRequest -> DeductReply,
                          fault: string -> Option<string>): BulkOutcome
  {
    if allocatable == [] then BulkOutcome(Respond(screened), states)
    else match GetBatchesBySkuAndMrpBulk(InventoryQueries(allocatable), available)
      case Failure(message) =>
        BulkOutcome(Respond(screened + FailEach(Numbers(allocatable), message)), states)
      case Success(inventory) =>
        var planning := PlanOrders(allocatable, inventory);
        AfterPlanning(screened + planning.failures, planning.plans, states, send, fault)
  }

  /** From the plans on: the one deduction call and the write-back. */
  function AfterPlanning(planned: seq<BulkResult>, plans: seq<OrderPlan>, states: map<string, OrderState>,
                         send: BulkOrdersDeductRequest -> DeductReply,
                         fault: string -> Option<string>): BulkOutcome
  {
    if plans == [] then BulkOutcome(Respond(planned), states)
    else match DeductInventoryBulk(AllDeductLines(plans), send)
      case Fail(message) =>
        BulkOutcome(Respond(planned + FailEach(PlanNumbers(plans), message)), states)
      case Pass =>
        var commit := CommitPlans(plans, fault, states);
        BulkOutcome(Respond(planned + commit.results), commit.states)
  }

  lemma FailEachNumbers(numbers: seq<string>, reason: string)
    ensures ResultNumbers(FailEach(numbers, reason)) == Present(numbers)
    ensures AllFailed(FailEach(numbers, reason))
  {
  }

  lemma AllFailedAppend(a: seq<BulkResult>, b: seq<BulkResult>)
    requires AllFailed(a) && AllFailed(b)
    ensures AllFailed(a + b)
  {
  }

  // Accounting

  /** After planning, every plan gets one result besides the earlier ones. */
  lemma AfterPlanningAccounts(planned: seq<BulkResult>, plans: seq<OrderPlan>, states: map<string, OrderState>,
                              send: BulkOrdersDeductRequest -> DeductReply, fault: string -> Option<string>)
    ensures AfterPlanning(planned, plans, states, send, fault).response
            == Respond(AfterPlanning(planned, plans, states, send, fault).response.results)
    ensures multiset(ResultNumbers(AfterPlanning(planned, plans, states, send, fault).response.results))
            == multiset(ResultNumbers(planned)) + multiset(Present(PlanNumbers(plans)))
  {
    var numbers := PlanNumbers(plans);
    if plans != [] {
      match DeductInventoryBulk(AllDeductLines(plans), send)
      case Fail(message) =>
        FailEachNumbers(numbers, message);
        ResultNumbersAppend(planned, FailEach(numbers, message));
      case Pass =>
        CommitPlansResults(plans, fault, states);
        ResultNumbersAppend(planned, CommitPlans(plans, fault, states).results);
    }
  }

  /** After screening, every allocatable order gets one result besides the earlier ones. */
  lemma AfterScreeningAccounts(screened: seq<BulkResult>, allocatable: seq<OrderState>, states: map<string, OrderState>,
                               available: seq<SkuMrpRequest> -> AvailableReply,
                               send: BulkOrdersDeductRequest -> DeductReply, fault: string -> Option<string>)
    ensures AfterScreening(screened, allocatable, states, available, send, fault).response
            == Respond(AfterScreening(screened, allocatable, states, available, send, fault).response.results)
    ensures multiset(ResultNumbers(AfterScreening(screened, allocatable, states, available, send, fault).response.results))
            == multiset(ResultNumbers(screened)) + multiset(Present(Numbers(allocatable)))
  {
    var numbers := Numbers(allocatable);
    if allocatable != [] {
      match GetBatchesBySkuAndMrpBulk(InventoryQueries(allocatable), available)
      case Failure(message) =>
        FailEachNumbers(numbers, message);
        ResultNumbersAppend(screened, FailEach(numbers, message));
      case Success(inventory) =>
        var planning := PlanOrders(allocatable, inventory);
        PlanOrdersAccounts(allocatable, inventory);
        ResultNumbersAppend(screened, planning.failures);
        AfterPlanningAccounts(screened + planning.failures, planning.plans, states, send, fault);
    }
  }

  /** The response counts every result once, as a success or a failure. */
  lemma BulkResponseCounts(orderNumbers: Option<seq<Option<string>>>, states: map<string, OrderState>,
                           available: seq<SkuMrpRequest> -> AvailableReply,
                           send: BulkOrdersDeductRequest -> DeductReply,
                           fault: string -> Option<string>)
    ensures BulkSpec(orderNumbers, states, available, send, fault).response
            == Respond(BulkSpec(orderNumbers, states, available, send, fault).response.results)
  {
    var ns := Entries(orderNumbers);
    if orderNumbers.Some? && ns != [] {
      var missing := MissingResults(ns);
      var normalized := NormalizedOrderNumbers(ns);
      if normalized == [] {
        MissingResultsCarryEntries(ns);
        CountSuccessesBounds(missing);
      } else {
        var screening := Screen(states, normalized);
        AfterScreeningAccounts(missing + screening.failures, screening.allocatable, states, available, send, fault);
      }
    }
  }

  /** Result accounting: the results carry exactly one entry per missing order number plus
      one per distinct cleaned order number. */
  lemma BulkAccounting(orderNumbers: Option<seq<Option<string>>>, states: map<string, OrderState>,
                       available: seq<SkuMrpRequest> -> AvailableReply,
                       send: BulkOrdersDeductRequest -> DeductReply,
                       fault: string -> Option<string>)
    requires StoreStates(states)
    ensures multiset(ResultNumbers(BulkSpec(orderNumbers, states, available, send, fault).response.results))
            == multiset(MissingEntries(Entries(orderNumbers))) + multiset(Present(NormalizedOrderNumbers(Entries(orderNumbers))))
  {
    var ns := Entries(orderNumbers);
    if orderNumbers.Some? && ns != [] {
      var missing := MissingResults(ns);
      var normalized := NormalizedOrderNumbers(ns);
      MissingResultsCarryEntries(ns);
      if normalized != [] {
        var screening := Screen(states, normalized);
        var screened := missing + screening.failures;
        var after := AfterScreening(screened, screening.allocatable, states, available, send, fault);
        assert BulkSpec(orderNumbers, states, available, send, fault) == after;
        ScreenAccounts(states, normalized);
        ResultNumbersAppend(missing, screening.failures);
        assert multiset(ResultNumbers(screened)) == multiset(MissingEntries(ns)) + multiset(ResultNumbers(screening.failures));
        AfterScreeningAccounts(screened, screening.allocatable, states, available, send, fault);
      }
    }
  }

  // Nothing is written before the deduction

  lemma {:induction false} ScreenFails(states: map<string, OrderState>, ns: seq<string>)
    requires StoreStates(states)
    ensures AllFailed(Screen(states, ns).failures)
  {
    if ns != [] {
      var prev := Screen(states, ns[..|ns| - 1]);
      var next := Screen(states, ns);
      ScreenFails(states, ns[..|ns| - 1]);
      ScreenStep(states, ns);
      forall i | 0 <= i < |next.failures| ensures !next.failures[i].success {
        if i < |prev.failures| {
          assert next.failures[i] == prev.failures[i];
        }
      }
    }
  }

  /** The allocatable orders got an inventory answer, some of them got a plan, and the
      deduction call for all plans' lines passed. */
  predicate DeductionAccepted(allocatable: seq<OrderState>,
                              available: seq<SkuMrpRequest> -> AvailableReply,
                              send: BulkOrdersDeductRequest -> DeductReply)
  {
    match GetBatchesBySkuAndMrpBulk(InventoryQueries(allocatable), available)
    case Failure(_) => false
    case Success(inventory) =>
      var plans := PlanOrders(allocatable, inventory).plans;
      plans != [] && DeductInventoryBulk(AllDeductLines(plans), send).Pass?
  }

  lemma AfterPlanningCommitsOnlyAfterDeduction(planned: seq<BulkResult>, plans: seq<OrderPlan>, states: map<string, OrderState>,
                                               send: BulkOrdersDeductRequest -> DeductReply, fault: string -> Option<string>)
    requires AllFailed(planned)
    requires || AfterPlanning(planned, plans, states, send, fault).states != states
             || AfterPlanning(planned, plans, states, send, fault).response.successCount != 0
    ensures plans != [] && DeductInventoryBulk(AllDeductLines(plans), send).Pass?
  {
    CountSuccessesBounds(planned);
    if plans != [] {
      match DeductInventoryBulk(AllDeductLines(plans), send)
      case Fail(message) =>
        var fails := FailEach(PlanNumbers(plans), message);
        FailEachNumbers(PlanNumbers(plans), message);
        AllFailedAppend(planned, fails);
        CountSuccessesBounds(planned + fails);
      case Pass =>
    }
  }

  lemma AfterScreeningCommitsOnlyAfterDeduction(screened: seq<BulkResult>, allocatable: seq<OrderState>, states: map<string, OrderState>,
                                                available: seq<SkuMrpRequest> -> AvailableReply,
                                                send: BulkOrdersDeductRequest -> DeductReply, fault: string -> Option<string>)
    requires AllFailed(screened)
    requires || AfterScreening(screened, allocatable, states, available, send, fault).states != states
             || AfterScreening(screened, allocatable, states, available, send, fault).response.successCount != 0
    ensures DeductionAccepted(allocatable, available, send)
  {
    CountSuccessesBounds(screened);
    if allocatable != [] {
      match GetBatchesBySkuAndMrpBulk(InventoryQueries(allocatable), available)
      case Failure(message) =>
        var fails := FailEach(Numbers(allocatable), message);
        FailEachNumbers(Numbers(allocatable), message);
        AllFailedAppend(screened, fails);
        CountSuccessesBounds(screened + fails);
      case Success(inventory) =>
        var planning := PlanOrders(allocatable, inventory);
        PlanOrdersPlans(allocatable, inventory);
        AllFailedAppend(screened, planning.failures);
        AfterPlanningCommitsOnlyAfterDeduction(screened + planning.failures, planning.plans, states, send, fault);
    }
  }

  /** Nothing is written, and nothing succeeds, unless the one deduction call for all plans
      was accepted: every rejection before it leaves the stored orders untouched and reports
      only failures. */
  lemma BulkCommitsOnlyAfterDeduction(orderNumbers: Option<seq<Option<string>>>, states: map<string, OrderState>,
                                      available: seq<SkuMrpRequest> -> AvailableReply,
                                      send: BulkOrdersDeductRequest -> DeductReply,
                                      fault: string -> Option<string>)
    requires StoreStates(states)
    requires || BulkSpec(orderNumbers, states, available, send, fault).states != states
             || BulkSpec(orderNumbers, states, available, send, fault).response.successCount != 0
    ensures orderNumbers.Some?
    ensures DeductionAccepted(Screen(states, NormalizedOrderNumbers(orderNumbers.value)).allocatable, available, send)
  {
    var ns := Entries(orderNumbers);
    var normalized := NormalizedOrderNumbers(ns);
    var screening := Screen(states, normalized);
    MissingResultsCarryEntries(ns);
    ScreenFails(states, normalized);
    AllFailedAppend(MissingResults(ns), screening.failures);
    AfterScreeningCommitsOnlyAfterDeduction(MissingResults(ns) + screening.failures, screening.allocatable,
                                            states, available, send, fault);
  }

  // Call-wide failures

  /** A failed inventory query fails every allocatable order, in order, with the query's
      message after the earlier results; nothing is stored and no new success is counted. */
  lemma QueryFailureFailsEveryOrder(screened: seq<BulkResult>, allocatable: seq<OrderState>, states: map<string, OrderState>,
                                    available: seq<SkuMrpRequest> -> AvailableReply,
                                    send: BulkOrdersDeductRequest -> DeductReply,
                                    fault: string -> Option<string>, message: string)
    requires allocatable != []
    requires GetBatchesBySkuAndMrpBulk(InventoryQueries(allocatable), available) == Failure(message)
    ensures AfterScreening(screened, allocatable, states, available, send, fault).states == states
    ensures |AfterScreening(screened, allocatable, states, available, send, fault).response.results| == |screened| + |allocatable|
    ensures AfterScreening(screened, allocatable, states, available, send, fault).response.results[..|screened|] == screened
    ensures AfterScreening(screened, allocatable, states, available, send, fault).response.results[|screened|..]
            == FailEach(Numbers(allocatable), message)
    ensures AfterScreening(screened, allocatable, states, available, send, fault).response.successCount == CountSuccesses(screened)
  {
    AfterScreeningFails(screened, allocatable, states, available, send, fault, message);
    RespondFailedAfter(screened, Numbers(allocatable), message);
  }

  lemma AfterScreeningFails(screened: seq<BulkResult>, allocatable: seq<OrderState>, states: map<string, OrderState>,
                            available: seq<SkuMrpRequest> -> AvailableReply,
                            send: BulkOrdersDeductRequest -> DeductReply,
                            fault: string -> Option<string>, message: string)
    requires allocatable != []
    requires GetBatchesBySkuAndMrpBulk(InventoryQueries(allocatable), available) == Failure(message)
    ensures AfterScreening(screened, allocatable, states, available, send, fault)
            == BulkOutcome(Respond(screened + FailEach(Numbers(allocatable), message)), states)
  {
  }

  /** A rejected deduction fails every planned order, in plan order, with the deduction's
      message after the earlier results; no plan is recorded and no new success is counted. */
  lemma DeductionFailureFailsEveryPlan(planned: seq<BulkResult>, plans: seq<OrderPlan>, states: map<string, OrderState>,
                                       send: BulkOrdersDeductRequest -> DeductReply,
                                       fault: string -> Option<string>, message: string)
    requires plans != []
    requires DeductInventoryBulk(AllDeductLines(plans), send) == Fail(message)
    ensures AfterPlanning(planned, plans, states, send, fault).states == states
    ensures |AfterPlanning(planned, plans, states, send, fault).response.results| == |planned| + |plans|
    ensures AfterPlanning(planned, plans, states, send, fault).response.results[..|planned|] == planned
    ensures AfterPlanning(planned, plans, states, send, fault).response.results[|planned|..]
            == FailEach(PlanNumbers(plans), message)
    ensures AfterPlanning(planned, plans, states, send, fault).response.successCount == CountSuccesses(planned)
  {
    AfterPlanningFails(planned, plans, states, send, fault, message);
    RespondFailedAfter(planned, PlanNumbers(plans), message);
  }

  lemma AfterPlanningFails(planned: seq<BulkResult>, plans: seq<OrderPlan>, states: map<string, OrderState>,
                           send: BulkOrdersDeductRequest -> DeductReply,
                           fault: string -> Option<string>, message: string)
    requires plans != []
    requires DeductInventoryBulk(AllDeductLines(plans), send) == Fail(message)
    ensures AfterPlanning(planned, plans, states, send, fault)
            == BulkOutcome(Respond(planned + FailEach(PlanNumbers(plans), message)), states)
  {
  }

  /** The response to earlier results followed by one failed result per order number. */
  lemma RespondFailedAfter(prior: seq<BulkResult>, numbers: seq<string>, message: string)
    ensures var r := Respond(prior + FailEach(numbers, message));
            && |r.results| == |prior| + |numbers|
            && r.results[..|prior|] == prior
            && r.results[|prior|..] == FailEach(numbers, message)
            && r.successCount == CountSuccesses(prior)
  {
    FailedAfterCount(prior, FailEach(numbers, message));
  }

  /** Failed results appended after earlier ones add no success. */
  lemma FailedAfterCount(prior: seq<BulkResult>, failed: seq<BulkResult>)
    requires AllFailed(failed)
    ensures CountSuccesses(prior + failed) == CountSuccesses(prior)
  {
    CountSuccessesBounds(failed);
    CountSuccessesAppend(prior, failed);
  }

  // The stored orders stay well formed

  /** The write-back keeps the stored orders well formed: with distinct valid plans made
      from the stored orders, every order keeps its requested quantity, its allocated
      quantity only grows, its earlier ledger rows stay, and a well-formed order stays
      well formed. */
  lemma CommitKeepsWellFormed(plans: seq<OrderPlan>, fault: string -> Option<string>, states: map<string, OrderState>, k: string)
    requires Distinct(PlanNumbers(plans))
    requires forall j :: 0 <= j < |plans| ==>
               plans[j].order.orderNumber in states && states[plans[j].order.orderNumber] == plans[j].order && ValidPlan(plans[j])
    requires k in states && 0 <= states[k].allocatedQty
    ensures k in CommitPlans(plans, fault, states).states
    ensures CommitPlans(plans, fault, states).states[k].requestedQty == states[k].requestedQty
    ensures states[k].allocatedQty <= CommitPlans(plans, fault, states).states[k].allocatedQty <= states[k].requestedQty
            || CommitPlans(plans, fault, states).states[k] == states[k]
    ensures |states[k].allocations| <= |CommitPlans(plans, fault, states).states[k].allocations|
    ensures CommitPlans(plans, fault, states).states[k].allocations[..|states[k].allocations|] == states[k].allocations
    ensures WellFormedOrder(states[k]) ==> WellFormedOrder(CommitPlans(plans, fault, states).states[k])
  {
    CommitPlansKeepsOthers(plans, fault, states);
    CommitPlansIsolates(plans, fault, states);
    if k in PlanNumbers(plans) {
      var j :| 0 <= j < |plans| && PlanNumbers(plans)[j] == k;
      var plan := plans[j];
      assert plan.order == states[k];
      if fault(k).None? {
        RecordedStatus(plan.order, plan.details, plan.total);
      }
    }
  }

  /** Orders screened from the store: eligible as stored, each once. */
  predicate FromStore(states: map<string, OrderState>, allocatable: seq<OrderState>) {
    && Distinct(Numbers(allocatable))
    && forall i :: 0 <= i < |allocatable| ==> Eligible(states, allocatable[i])
  }

  /** The plans made for orders screened from the store are for distinct stored orders,
      each as stored, and are valid. */
  lemma PlansFromStore(states: map<string, OrderState>, allocatable: seq<OrderState>, inventory: map<Key, seq<Batch>>)
    requires FromStore(states, allocatable)
    ensures Distinct(PlanNumbers(PlanOrders(allocatable, inventory).plans))
    ensures forall j :: 0 <= j < |PlanOrders(allocatable, inventory).plans| ==>
              && PlanOrders(allocatable, inventory).plans[j].order.orderNumber in states
              && states[PlanOrders(allocatable, inventory).plans[j].order.orderNumber] == PlanOrders(allocatable, inventory).plans[j].order
              && ValidPlan(PlanOrders(allocatable, inventory).plans[j])
  {
    var plans := PlanOrders(allocatable, inventory).plans;
    PlanOrdersDistinct(allocatable, inventory);
    PlanOrdersPlans(allocatable, inventory);
    forall j | 0 <= j < |plans|
      ensures plans[j].order.orderNumber in states && states[plans[j].order.orderNumber] == plans[j].order
    {
      var i :| 0 <= i < |allocatable| && allocatable[i] == plans[j].order;
      assert Eligible(states, allocatable[i]);
    }
  }

  /** The screening of a request yields orders from the store. */
  lemma ScreenedFromStore(states: map<string, OrderState>, ns: seq<Option<string>>)
    requires StoreStates(states)
    ensures FromStore(states, Screen(states, NormalizedOrderNumbers(ns)).allocatable)
  {
    NormalizedOrderNumbersSpec(ns);
    ScreenAllocatable(states, NormalizedOrderNumbers(ns));
  }

  lemma AfterScreeningKeepsWellFormed(screened: seq<BulkResult>, allocatable: seq<OrderState>, states: map<string, OrderState>,
                                      available: seq<SkuMrpRequest> -> AvailableReply,
                                      send: BulkOrdersDeductRequest -> DeductReply, fault: string -> Option<string>, k: string)
    requires FromStore(states, allocatable)
    requires k in states && 0 <= states[k].allocatedQty
    ensures AfterScreening(screened, allocatable, states, available, send, fault).states.Keys == states.Keys
    ensures AfterScreening(screened, allocatable, states, available, send, fault).states[k].requestedQty == states[k].requestedQty
    ensures |states[k].allocations| <= |AfterScreening(screened, allocatable, states, available, send, fault).states[k].allocations|
    ensures AfterScreening(screened, allocatable, states, available, send, fault).states[k].allocations[..|states[k].allocations|]
            == states[k].allocations
    ensures WellFormedOrder(states[k]) ==> WellFormedOrder(AfterScreening(screened, allocatable, states, available, send, fault).states[k])
  {
    if allocatable != [] {
      match GetBatchesBySkuAndMrpBulk(InventoryQueries(allocatable), available)
      case Failure(_) =>
      case Success(inventory) =>
        var plans := PlanOrders(allocatable, inventory).plans;
        if plans != [] && DeductInventoryBulk(AllDeductLines(plans), send).Pass? {
          PlansFromStore(states, allocatable, inventory);
          CommitPlansKeepsOthers(plans, fault, states);
          CommitKeepsWellFormed(plans, fault, states, k);
        }
    }
  }

  /** The call keeps the stored orders well formed: it stores no new order, and every
      stored order keeps its requested quantity, its earlier ledger rows and, when it was
      well formed, its well-formedness. */
  lemma BulkKeepsWellFormed(orderNumbers: Option<seq<Option<string>>>, states: map<string, OrderState>,
                            available: seq<SkuMrpRequest> -> AvailableReply,
                            send: BulkOrdersDeductRequest -> DeductReply,
                            fault: string -> Option<string>, k: string)
    requires StoreStates(states)
    requires k in states && 0 <= states[k].allocatedQty
    ensures BulkSpec(orderNumbers, states, available, send, fault).states.Keys == states.Keys
    ensures BulkSpec(orderNumbers, states, available, send, fault).states[k].requestedQty == states[k].requestedQty
    ensures |states[k].allocations| <= |BulkSpec(orderNumbers, states, available, send, fault).states[k].allocations|
    ensures BulkSpec(orderNumbers, states, available, send, fault).states[k].allocations[..|states[k].allocations|]
            == states[k].allocations
    ensures WellFormedOrder(states[k]) ==> WellFormedOrder(BulkSpec(orderNumbers, states, available, send, fault).states[k])
  {
    var ns := Entries(orderNumbers);
    var normalized := NormalizedOrderNumbers(ns);
    var screening := Screen(states, normalized);
    ScreenedFromStore(states, ns);
    AfterScreeningKeepsWellFormed(MissingResults(ns) + screening.failures, screening.allocatable,
                                  states, available, send, fault, k);
  }

  // The two paths look batches up under different keys

  /** Every key of a collected inventory map carries a normalised SKU. */
  lemma InventoryKeysNormalized(queries: seq<Option<OrderInventoryQuery>>,
                                available: seq<SkuMrpRequest> -> AvailableReply, key: Key)
    requires GetBatchesBySkuAndMrpBulk(queries, available).Success?
    requires key in GetBatchesBySkuAndMrpBulk(queries, available).value
    ensures IsNormalizedSku(key.sku)
  {
    if AvailablePayload(queries).Some? {
      var reply := available(AvailablePayload(queries).value);
      if reply.Listed? {
        CollectResponseKeepsFirst(reply.items);
        var i :| 0 <= i < |reply.items| && IsFirstItem(reply.items, i) && ItemKey(reply.items[i]) == key;
        NormalizedSkuIsNormal(reply.items[i].value.sku.value);
      }
    }
  }

  /** The bulk path looks an order up under its stored SKU as is, while the gateway's map is
      keyed by normalised SKUs: the two keys agree exactly when the stored SKU is already
      normalised, and an order whose SKU is not finds no batches and fails with
      "No valid inventory available", whatever the gateway holds. */
  lemma BulkLookupNeedsNormalizedSku(s: OrderState, queries: seq<Option<OrderInventoryQuery>>,
                                     available: seq<SkuMrpRequest> -> AvailableReply, p: Planning)
    requires GetBatchesBySkuAndMrpBulk(queries, available).Success?
    ensures BuildSkuMrpKey(s.skuCode, s.mrp) == BuildKey(Some(s.skuCode), s.mrp) <==> IsNormalizedSku(s.skuCode)
    ensures !IsNormalizedSku(s.skuCode) ==>
              && ValidBatches(s, GetBatchesBySkuAndMrpBulk(queries, available).value) == []
              && PlanStep(s, GetBatchesBySkuAndMrpBulk(queries, available).value, p)
                 == p.(failures := p.failures + [FailedFor(s.orderNumber, "No valid inventory available")])
  {
    var inventory := GetBatchesBySkuAndMrpBulk(queries, available).value;
    var key := BuildSkuMrpKey(s.skuCode, s.mrp);
    if key in inventory {
      InventoryKeysNormalized(queries, available, key);
    }
  }

  // ---------------------------------------------------------------------------
  // The service method over the stored orders

  /** The loop that reports every null or blank entry as missing. */
  method CollectMissing(orderNumbers: seq<Option<string>>) returns (results: seq<BulkResult>)
    ensures results == MissingResults(orderNumbers)
  {
    results := [];
    var i := 0;
    while i < |orderNumbers|
      invariant 0 <= i <= |orderNumbers|
      invariant results == MissingResults(orderNumbers[..i])
    {
      var orderNumber := orderNumbers[i];
      assert orderNumbers[..i + 1][..i] == orderNumbers[..i];
      if orderNumber.None? || IsBlank(Trim(orderNumber.value)) {
        results := results + [BulkResult(orderNumber, false, "Order number is missing", None)];
      }
      i := i + 1;
    }
    assert orderNumbers[..i] == orderNumbers;
  }

  /** The screening loop over the cleaned numbers, reading the stored orders. */
  method ScreenOrders(db: map<string, Order>, normalized: seq<string>)
    returns (failures: seq<BulkResult>, allocatable: seq<OrderState>)
    ensures Screening(failures, allocatable) == Screen(Snapshot(db), normalized)
  {
    failures, allocatable := [], [];
    var i := 0;
    while i < |normalized|
      invariant 0 <= i <= |normalized|
      invariant Screening(failures, allocatable) == Screen(Snapshot(db), normalized[..i])
    {
      var orderNumber := normalized[i];
      assert normalized[..i + 1][..i] == normalized[..i];
      if orderNumber !in db {
        failures := failures + [FailedFor(orderNumber, "Order not found")];
      } else {
        var order := db[orderNumber];
        if order.status == COMPLETED {
          failures := failures + [FailedFor(orderNumber, "Order already completed")];
        } else if order.requestedQty - order.allocatedQty <= 0 {
          failures := failures + [FailedFor(orderNumber, "Order already fully allocated")];
        } else {
          allocatable := allocatable + [order.State()];
        }
      }
      i := i + 1;
    }
    assert normalized[..i] == normalized;
  }

  /** One failed result per order, all with the message of the same exception. */
  method FailAll(numbers: seq<string>, reason: string) returns (results: seq<BulkResult>)
    ensures results == FailEach(numbers, reason)
  {
    results := [];
    var i := 0;
    while i < |numbers|
      invariant 0 <= i <= |numbers|
      invariant results == FailEach(numbers[..i], reason)
    {
      results := results + [FailedFor(numbers[i], reason)];
      i := i + 1;
    }
    assert numbers[..i] == numbers;
  }

  /** The planning loop: each allocatable order's batches sorted by expiry and walked against
      the availability map shared by all orders of the call. */
  method PlanAll(allocatable: seq<OrderState>, inventory: map<Key, seq<Batch>>)
    returns (failures: seq<BulkResult>, plans: seq<OrderPlan>)
    ensures failures == PlanOrders(allocatable, inventory).failures
    ensures plans == PlanOrders(allocatable, inventory).plans
  {
    failures, plans := [], [];
    var availableByBatchKey: map<string, int> := map[];
    var i := 0;
    while i < |allocatable|
      invariant 0 <= i <= |allocatable|
      invariant Planning(failures, plans, availableByBatchKey) == PlanOrders(allocatable[..i], inventory)
    {
      PlanOrdersNext(allocatable, inventory, i);
      failures, plans, availableByBatchKey := PlanOrder(allocatable[i], inventory, failures, plans, availableByBatchKey);
      i := i + 1;
    }
    assert allocatable[..i] == allocatable;
  }

  /** The body of the planning loop for one order: its batches under buildSkuMrpKey sorted by
      expiry, a failed result when there are none or nothing can be taken, a plan otherwise. */
  method PlanOrder(order: OrderState, inventory: map<Key, seq<Batch>>,
                   failures: seq<BulkResult>, plans: seq<OrderPlan>, availableByBatchKey: map<string, int>)
    returns (failures': seq<BulkResult>, plans': seq<OrderPlan>, availableByBatchKey': map<string, int>)
    ensures Planning(failures', plans', availableByBatchKey') == PlanStep(order, inventory, Planning(failures, plans, availableByBatchKey))
  {
    failures', plans', availableByBatchKey' := failures, plans, availableByBatchKey;
    var skuMrpKey := BuildSkuMrpKey(order.skuCode, order.mrp);
    var batches := if skuMrpKey in inventory then inventory[skuMrpKey] else [];
    var validBatches := SortByExpiry(batches);
    if validBatches == [] {
      failures' := failures' + [FailedFor(order.orderNumber, "No valid inventory available")];
    } else {
      var details, totalAllocatedNow, avail :=
        WalkShared(order.skuCode, order.mrp, validBatches, order.requestedQty - order.allocatedQty, availableByBatchKey');
      availableByBatchKey' := avail;
      if totalAllocatedNow == 0 {
        failures' := failures' + [FailedFor(order.orderNumber, "Insufficient stock for allocation")];
      } else {
        var deductRequests := DeductLines(order.skuCode, order.mrp, details);
        plans' := plans' + [OrderPlan(order, details, deductRequests, totalAllocatedNow)];
      }
    }
  }

  lemma PlanOrdersNext(ss: seq<OrderState>, inventory: map<Key, seq<Batch>>, i: int)
    requires 0 <= i < |ss|
    ensures PlanOrders(ss[..i + 1], inventory) == PlanStep(ss[i], inventory, PlanOrders(ss[..i], inventory))
  {
    assert ss[..i + 1][..i] == ss[..i];
  }

  /** persistAllocationForOrder: the plan's lines saved as ledger rows of the stored order,
      its allocated quantity and status updated, and the allocation reported. */
  method PersistAllocationForOrder(db: map<string, Order>, plan: OrderPlan) returns (allocation: AllocationResponse)
    requires OrderStore(db)
    requires plan.order.orderNumber in db && db[plan.order.orderNumber].State() == plan.order
    modifies db[plan.order.orderNumber]
    ensures Snapshot(db) == old(Snapshot(db))[plan.order.orderNumber := Recorded(plan.order, plan.details, plan.total)]
    ensures allocation == ResponseFor(Recorded(plan.order, plan.details, plan.total), plan.details)
  {
    var order := db[plan.order.orderNumber];
    order.Record(plan.details, plan.total);
    forall k | k in db ensures Snapshot(db)[k] == old(Snapshot(db))[plan.order.orderNumber := order.State()][k] {
      if k != plan.order.orderNumber {
        assert db[k].orderNumber != order.orderNumber;
      }
    }
    allocation := AllocationResponse(order.orderNumber, order.requestedQty, order.allocatedQty, order.status, plan.details);
  }

  /** The write-back loop: persistAllocationForOrder on each planned order's stored row, one
      result per plan, a failed write leaving that order as it was. */
  method CommitAll(db: map<string, Order>, plans: seq<OrderPlan>, fault: string -> Option<string>)
    returns (results: seq<BulkResult>)
    requires OrderStore(db)
    requires Distinct(PlanNumbers(plans))
    requires forall j :: 0 <= j < |plans| ==>
               plans[j].order.orderNumber in db && db[plans[j].order.orderNumber].State() == plans[j].order
    modifies db.Values
    ensures results == CommitPlans(plans, fault, old(Snapshot(db))).results
    ensures Snapshot(db) == CommitPlans(plans, fault, old(Snapshot(db))).states
  {
    ghost var states0 := Snapshot(db);
    results := [];
    var i := 0;
    while i < |plans|
      invariant 0 <= i <= |plans|
      invariant results == CommitPlans(plans[..i], fault, states0).results
      invariant Snapshot(db) == CommitPlans(plans[..i], fault, states0).states
    {
      var plan := plans[i];
      var n := plan.order.orderNumber;
      CommitReady(plans, fault, states0, i);
      if fault(n).None? {
        var allocation := PersistAllocationForOrder(db, plan);
        results := results + [BulkResult(Some(n), true, "Allocation completed", Some(allocation))];
      } else {
        results := results + [FailedFor(n, fault(n).value)];
      }
      i := i + 1;
    }
    assert plans[..i] == plans;
  }

  /** Before the write of plan i, its order is still as stored, and the write is one more
      step of the write-back. */
  lemma CommitReady(plans: seq<OrderPlan>, fault: string -> Option<string>, states: map<string, OrderState>, i: int)
    requires Distinct(PlanNumbers(plans))
    requires forall j :: 0 <= j < |plans| ==>
               plans[j].order.orderNumber in states && states[plans[j].order.orderNumber] == plans[j].order
    requires 0 <= i < |plans|
    ensures plans[i].order.orderNumber in CommitPlans(plans[..i], fault, states).states
    ensures CommitPlans(plans[..i], fault, states).states[plans[i].order.orderNumber] == plans[i].order
    ensures CommitPlans(plans[..i + 1], fault, states) == CommitStep(plans[i], fault, CommitPlans(plans[..i], fault, states))
  {
    var done := plans[..i];
    var n := plans[i].order.orderNumber;
    assert plans[..i + 1][..i] == done;
    assert n !in PlanNumbers(done) by {
      forall a | 0 <= a < i ensures PlanNumbers(done)[a] != n {
        assert PlanNumbers(done)[a] == PlanNumbers(plans)[a] && PlanNumbers(plans)[i] == n;
      }
    }
    CommitPlansKeepsOthers(done, fault, states);
  }

  /** allocateOrdersBulk over the stored orders: the response and the orders it leaves are
      those of BulkSpec on the orders as they were. */
  method AllocateOrdersBulk(db: map<string, Order>, orderNumbers: Option<seq<Option<string>>>,
                            available: seq<SkuMrpRequest> -> AvailableReply,
                            send: BulkOrdersDeductRequest -> DeductReply,
                            fault: string -> Option<string>)
    returns (response: BulkResponse)
    requires OrderStore(db)
    modifies db.Values
    ensures response == BulkSpec(orderNumbers, old(Snapshot(db)), available, send, fault).response
    ensures Snapshot(db) == BulkSpec(orderNumbers, old(Snapshot(db)), available, send, fault).states
  {
    ghost var states := Snapshot(db);
    if orderNumbers.None? || |orderNumbers.value| == 0 {
      return BulkResponse(0, 0, 0, []);
    }
    var ns := orderNumbers.value;
    var normalizedOrderNumbers := NormalizedOrderNumbers(ns);
    var results := CollectMissing(ns);
    if normalizedOrderNumbers == [] {
      return BulkResponse(|results|, 0, |results|, results);
    }
    var failures, allocatableOrders := ScreenOrders(db, normalizedOrderNumbers);
    results := results + failures;
    ScreenedFromStore(states, ns);
    response := AllocateScreened(db, results, allocatableOrders, available, send, fault);
  }

  /** allocateOrdersBulk from the allocatable orders on: the inventory query, the planning,
      the deduction and the write-back. */
  method AllocateScreened(db: map<string, Order>, screened: seq<BulkResult>, allocatableOrders: seq<OrderState>,
                          available: seq<SkuMrpRequest> -> AvailableReply,
                          send: BulkOrdersDeductRequest -> DeductReply,
                          fault: string -> Option<string>)
    returns (response: BulkResponse)
    requires OrderStore(db) && FromStore(Snapshot(db), allocatableOrders)
    modifies db.Values
    ensures response == AfterScreening(screened, allocatableOrders, old(Snapshot(db)), available, send, fault).response
    ensures Snapshot(db) == AfterScreening(screened, allocatableOrders, old(Snapshot(db)), available, send, fault).states
  {
    ghost var states := Snapshot(db);
    var results := screened;
    if allocatableOrders == [] {
      return Respond(results);
    }
    var queries := InventoryQueries(allocatableOrders);
    var inventoryBySkuMrp := GetBatchesBySkuAndMrpBulk(queries, available);
    if inventoryBySkuMrp.Failure? {
      var failed := FailAll(Numbers(allocatableOrders), inventoryBySkuMrp.error);
      return Respond(results + failed);
    }
    var planFailures, successfulPlans := PlanAll(allocatableOrders, inventoryBySkuMrp.value);
    PlansFromStore(states, allocatableOrders, inventoryBySkuMrp.value);
    response := AllocatePlanned(db, results + planFailures, successfulPlans, send, fault);
  }

  /** allocateOrdersBulk from the plans on: the one deduction call and the write-back. */
  method AllocatePlanned(db: map<string, Order>, planned: seq<BulkResult>, successfulPlans: seq<OrderPlan>,
                         send: BulkOrdersDeductRequest -> DeductReply,
                         fault: string -> Option<string>)
    returns (response: BulkResponse)
    requires OrderStore(db)
    requires Distinct(PlanNumbers(successfulPlans))
    requires forall j :: 0 <= j < |successfulPlans| ==>
               successfulPlans[j].order.orderNumber in db && db[successfulPlans[j].order.orderNumber].State() == successfulPlans[j].order
    modifies db.Values
    ensures response == AfterPlanning(planned, successfulPlans, old(Snapshot(db)), send, fault).response
    ensures Snapshot(db) == AfterPlanning(planned, successfulPlans, old(Snapshot(db)), send, fault).states
  {
    if successfulPlans == [] {
      return Respond(planned);
    }
    var deductAllocations := AllDeductLines(successfulPlans);
    var deduction := DeductInventoryBulk(deductAllocations, send);
    if deduction.Fail? {
      var failed := FailAll(PlanNumbers(successfulPlans), deduction.error);
      return Respond(planned + failed);
    }
    var committed := CommitAll(db, successfulPlans, fault);
    response := Respond(planned + committed);
  }
}
