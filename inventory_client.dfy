/** The inventory gateway client: the (SKU, MRP) key, the bulk availability query with its
    de-duplication of queries and collection of the response, the single lookup built on it,
    the grouping of flat batch rows, and the bulk deduction call. The HTTP exchange and the
    JSON parsing are replaced by reply oracles. */
module InventoryClient {
  import opened Wrappers
  import opened JavaText
  import opened Domain

  // ---------------------------------------------------------------------------
  // Keys

  /** The SKU part of a key: the trimmed, lower-cased SKU, or nothing for a null SKU. */
  function KeySku(skuCode: Option<string>): string {
    if skuCode.Some? then NormalizeSku(skuCode.value) else ""
  }

  /** buildKey(skuCode, mrp): the key whose text is the SKU part, "||", the price text. */
  function BuildKey(skuCode: Option<string>, mrp: MrpText): Key {
    Key(KeySku(skuCode), mrp)
  }

  /** Two key texts are equal exactly when the normalised SKUs and the price texts are
      equal: case and surrounding blanks of a SKU never matter, anything else does. */
  lemma BuildKeyTextEquality(s1: Option<string>, m1: MrpText, s2: Option<string>, m2: MrpText)
    ensures KeyText(BuildKey(s1, m1)) == KeyText(BuildKey(s2, m2)) <==> KeySku(s1) == KeySku(s2) && m1 == m2
  {
    KeyTextInjective(BuildKey(s1, m1), BuildKey(s2, m2));
  }

  /** A SKU and its normalised form give the same key. */
  lemma BuildKeyOfNormalizedSku(s: string, m: MrpText)
    ensures BuildKey(Some(s), m) == BuildKey(Some(NormalizeSku(s)), m)
  {
    NormalizeSkuIdempotent(s);
  }

  // ---------------------------------------------------------------------------
  // Query de-duplication

  /** OrderInventoryQuery: a (SKU, MRP) pair to ask the gateway about; either part may be null. */
  datatype OrderInventoryQuery = OrderInventoryQuery(skuCode: Option<string>, mrp: Option<MrpText>)

  /** InventorySkuMrpRequest: one entry of the availability request, with the SKU as given. */
  datatype SkuMrpRequest = SkuMrpRequest(sku: string, mrp: MrpText)

  /** The filter of the bulk query: a non-null query with a non-blank SKU and a non-null MRP. */
  predicate Queryable(q: Option<OrderInventoryQuery>) {
    q.Some? && q.value.skuCode.Some? && !IsBlank(q.value.skuCode.value) && q.value.mrp.Some?
  }

  function QueryKey(q: Option<OrderInventoryQuery>): Key
    requires Queryable(q)
  {
    BuildKey(q.value.skuCode, q.value.mrp.value)
  }

  function ToRequest(q: Option<OrderInventoryQuery>): SkuMrpRequest
    requires Queryable(q)
  {
    SkuMrpRequest(q.value.skuCode.value, q.value.mrp.value)
  }

  function RequestKey(r: SkuMrpRequest): Key {
    BuildKey(Some(r.sku), r.mrp)
  }

  function RequestKeys(rs: seq<SkuMrpRequest>): set<Key> {
    set r | r in rs :: RequestKey(r)
  }

  lemma RequestKeysAppend(rs: seq<SkuMrpRequest>, r: SkuMrpRequest)
    ensures RequestKeys(rs + [r]) == RequestKeys(rs) + {RequestKey(r)}
  {
    forall x | x in rs + [r] ensures x in rs || x == r {
    }
    assert r in rs + [r];
    forall x | x in rs ensures x in rs + [r] {
    }
  }

  /** The keys of the queries that pass the filter. */
  function QueryKeys(qs: seq<Option<OrderInventoryQuery>>): set<Key> {
    set i | 0 <= i < |qs| && Queryable(qs[i]) :: QueryKey(qs[i])
  }

  /** The collector into a LinkedHashMap keyed by buildKey that keeps the existing value on
      a collision, read back as its values: each query in turn is appended unless a request
      with its key is already there. */
  function DedupQueries(qs: seq<Option<OrderInventoryQuery>>): seq<SkuMrpRequest>
    decreases |qs|
  {
    if qs == [] then []
    else
      var kept := DedupQueries(qs[..|qs| - 1]);
      var q := qs[|qs| - 1];
      if Queryable(q) && QueryKey(q) !in RequestKeys(kept) then kept + [ToRequest(q)] else kept
  }

  /** Query j is the first occurrence of its key among the queries that pass the filter. */
  predicate IsFirstQuery(qs: seq<Option<OrderInventoryQuery>>, j: int) {
    && 0 <= j < |qs|
    && Queryable(qs[j])
    && forall i :: 0 <= i < j && Queryable(qs[i]) ==> QueryKey(qs[i]) != QueryKey(qs[j])
  }

  /** Reference definition: the requests of the first occurrences among the first n queries,
      in input order. */
  function FirstOccurrences(qs: seq<Option<OrderInventoryQuery>>, n: int): seq<SkuMrpRequest>
    requires 0 <= n <= |qs|
  {
    if n == 0 then []
    else FirstOccurrences(qs, n - 1) + (if IsFirstQuery(qs, n - 1) then [ToRequest(qs[n - 1])] else [])
  }

  lemma {:induction false} FirstOccurrencesOfPrefix(qs: seq<Option<OrderInventoryQuery>>, m: int, n: int)
    requires 0 <= n <= m <= |qs|
    ensures FirstOccurrences(qs[..m], n) == FirstOccurrences(qs, n)
  {
    if n > 0 {
      FirstOccurrencesOfPrefix(qs, m, n - 1);
      var p := qs[..m];
      assert forall i :: 0 <= i < m ==> p[i] == qs[i];
      assert IsFirstQuery(p, n - 1) == IsFirstQuery(qs, n - 1);
    }
  }

  /** The requests kept carry exactly the keys of the queries that pass the filter. */
  lemma {:induction false} DedupQueriesKeys(qs: seq<Option<OrderInventoryQuery>>)
    ensures RequestKeys(DedupQueries(qs)) == QueryKeys(qs)
    decreases |qs|
  {
    if qs != [] {
      var p := qs[..|qs| - 1];
      var q := qs[|qs| - 1];
      DedupQueriesKeys(p);
      var kept := DedupQueries(p);
      assert QueryKeys(qs) == QueryKeys(p) + (if Queryable(q) then {QueryKey(q)} else {}) by {
        forall k | k in QueryKeys(qs) ensures k in QueryKeys(p) + (if Queryable(q) then {QueryKey(q)} else {}) {
          var i :| 0 <= i < |qs| && Queryable(qs[i]) && QueryKey(qs[i]) == k;
          if i < |p| { assert p[i] == qs[i]; }
        }
        forall k | k in QueryKeys(p) ensures k in QueryKeys(qs) {
          var i :| 0 <= i < |p| && Queryable(p[i]) && QueryKey(p[i]) == k;
          assert qs[i] == p[i];
        }
        if Queryable(q) { assert QueryKey(qs[|qs| - 1]) in QueryKeys(qs); }
      }
      if Queryable(q) && QueryKey(q) !in RequestKeys(kept) {
        RequestKeysAppend(kept, ToRequest(q));
      }
    }
  }

  /** The last query is a first occurrence exactly when it passes the filter and its key
      is not among those of the queries before it. */
  lemma LastIsFirstQuery(qs: seq<Option<OrderInventoryQuery>>)
    requires qs != []
    ensures var j := |qs| - 1;
            IsFirstQuery(qs, j) <==> Queryable(qs[j]) && QueryKey(qs[j]) !in QueryKeys(qs[..j])
  {
    var j := |qs| - 1;
    var p := qs[..j];
    if Queryable(qs[j]) {
      if QueryKey(qs[j]) in QueryKeys(p) {
        var i :| 0 <= i < |p| && Queryable(p[i]) && QueryKey(p[i]) == QueryKey(qs[j]);
        assert p[i] == qs[i];
      } else {
        forall i | 0 <= i < j && Queryable(qs[i]) ensures QueryKey(qs[i]) != QueryKey(qs[j]) {
          assert p[i] == qs[i];
          assert QueryKey(p[i]) in QueryKeys(p);
        }
      }
    }
  }

  /** De-duplication keeps exactly the first occurrence of every key, in first-seen order. */
  lemma {:induction false} DedupQueriesKeepsFirstOccurrences(qs: seq<Option<OrderInventoryQuery>>)
    ensures DedupQueries(qs) == FirstOccurrences(qs, |qs|)
    decreases |qs|
  {
    if qs != [] {
      var j := |qs| - 1;
      var p := qs[..j];
      DedupQueriesKeepsFirstOccurrences(p);
      FirstOccurrencesOfPrefix(qs, j, j);
      DedupQueriesKeys(p);
      LastIsFirstQuery(qs);
    }
  }

  /** No two requests share a key. */
  predicate DistinctRequestKeys(rs: seq<SkuMrpRequest>) {
    forall i, j :: 0 <= i < j < |rs| ==> RequestKey(rs[i]) != RequestKey(rs[j])
  }

  /** No two requests of the de-duplicated list share a key. */
  lemma {:induction false} DedupQueriesDistinct(qs: seq<Option<OrderInventoryQuery>>)
    ensures DistinctRequestKeys(DedupQueries(qs))
    decreases |qs|
  {
    if qs != [] {
      var p := qs[..|qs| - 1];
      var q := qs[|qs| - 1];
      DedupQueriesDistinct(p);
      var kept := DedupQueries(p);
      if Queryable(q) && QueryKey(q) !in RequestKeys(kept) {
        var rs := kept + [ToRequest(q)];
        forall i, j | 0 <= i < j < |rs| ensures RequestKey(rs[i]) != RequestKey(rs[j]) {
          assert rs[i] == kept[i];
          if j < |kept| {
            assert rs[j] == kept[j];
            assert RequestKey(kept[i]) != RequestKey(kept[j]);
          } else {
            assert kept[i] in kept;
            assert RequestKey(kept[i]) in RequestKeys(kept);
            assert RequestKey(rs[j]) == QueryKey(q);
          }
        }
        assert DedupQueries(qs) == rs;
      }
    }
  }

  // ---------------------------------------------------------------------------
  // Response collection

  /** InventoryBatchesBySkuMrpResponse: the gateway's batches for one (SKU, MRP) pair. */
  datatype SkuMrpBatches = SkuMrpBatches(sku: Option<string>, mrp: Option<MrpText>, batches: Option<seq<Batch>>)

  /** The filter of the response collector: a non-null item with a non-null SKU and MRP. */
  predicate Collectable(item: Option<SkuMrpBatches>) {
    item.Some? && item.value.sku.Some? && item.value.mrp.Some?
  }

  function ItemKey(item: Option<SkuMrpBatches>): Key
    requires Collectable(item)
  {
    BuildKey(item.value.sku, item.value.mrp.value)
  }

  /** The batches of an item; a null list reads as empty. */
  function ItemBatches(item: Option<SkuMrpBatches>): seq<Batch>
    requires Collectable(item)
  {
    if item.value.batches.Some? then item.value.batches.value else []
  }

  /** Item i is the first collectable item with its key. */
  predicate IsFirstItem(items: seq<Option<SkuMrpBatches>>, i: int) {
    && 0 <= i < |items|
    && Collectable(items[i])
    && forall j :: 0 <= j < i && Collectable(items[j]) ==> ItemKey(items[j]) != ItemKey(items[i])
  }

  /** The collector of the response into a map keyed by buildKey, keeping the existing value
      on a collision: the first item of a key overrides whatever the later ones would give. */
  function CollectResponse(items: seq<Option<SkuMrpBatches>>): map<Key, seq<Batch>>
    decreases |items|
  {
    if items == [] then map[]
    else
      var rest := CollectResponse(items[1..]);
      if Collectable(items[0]) then rest[ItemKey(items[0]) := ItemBatches(items[0])] else rest
  }

  /** m holds, under the key of every item that is the first of its key, that item's batches. */
  predicate HoldsFirstItems(items: seq<Option<SkuMrpBatches>>, m: map<Key, seq<Batch>>) {
    forall i :: 0 <= i < |items| && IsFirstItem(items, i) ==> ItemKey(items[i]) in m && m[ItemKey(items[i])] == ItemBatches(items[i])
  }

  /** Every key of m is the key of some collectable item. */
  predicate OnlyItemKeys(items: seq<Option<SkuMrpBatches>>, m: map<Key, seq<Batch>>) {
    forall k :: k in m ==> exists i :: 0 <= i < |items| && IsFirstItem(items, i) && ItemKey(items[i]) == k
  }

  /** The collected map has a key exactly for each collectable item, and holds the batches of
      the first item with that key. */
  lemma {:induction false} CollectResponseKeepsFirst(items: seq<Option<SkuMrpBatches>>)
    ensures HoldsFirstItems(items, CollectResponse(items))
    ensures OnlyItemKeys(items, CollectResponse(items))
    decreases |items|
  {
    if items != [] {
      var rest := items[1..];
      CollectResponseKeepsFirst(rest);
      var m := CollectResponse(items);
      forall i | IsFirstItem(items, i)
        ensures ItemKey(items[i]) in m && m[ItemKey(items[i])] == ItemBatches(items[i])
      {
        if i > 0 {
          assert rest[i - 1] == items[i];
          forall j | 0 <= j < i - 1 && Collectable(rest[j]) ensures ItemKey(rest[j]) != ItemKey(rest[i - 1]) {
            assert rest[j] == items[j + 1];
          }
          assert IsFirstItem(rest, i - 1);
        }
      }
      forall k | k in m ensures exists i :: IsFirstItem(items, i) && ItemKey(items[i]) == k {
        if Collectable(items[0]) && k == ItemKey(items[0]) {
          assert IsFirstItem(items, 0);
        } else {
          var i :| 0 <= i < |rest| && IsFirstItem(rest, i) && ItemKey(rest[i]) == k;
          assert rest[i] == items[i + 1];
          forall j | 0 <= j < i + 1 && Collectable(items[j]) ensures ItemKey(items[j]) != k {
            if j > 0 {
              assert items[j] == rest[j - 1];
            }
          }
          assert IsFirstItem(items, i + 1);
        }
      }
    }
  }

  // ---------------------------------------------------------------------------
  // The availability query

  /** What the gateway's /available endpoint gives back: the parsed items, a failure the
      client already turned into an InventoryServiceException (error status with a body, error
      envelope, unexpected shape, unparseable body) carrying its message, or a transport error.
      An error status with an empty body is not a failure: the onStatus handler then yields
      nothing, the response is read as a normal one, and its missing body parses as no items,
      so the gateway's answer is Listed([]). */
  datatype AvailableReply =
    | Listed(items: seq<Option<SkuMrpBatches>>)
    | FetchRefused(message: string)
    | FetchUnreachable(detail: string)

  function ServiceRequestFailed(detail: string): string {
    "Inventory service request failed: " + detail
  }

  /** The request body of the availability call, or None when no call is made. */
  function AvailablePayload(queries: seq<Option<OrderInventoryQuery>>): (p: Option<seq<SkuMrpRequest>>)
    ensures p.None? <==> forall i :: 0 <= i < |queries| ==> !Queryable(queries[i])
    ensures p.Some? ==> p.value == DedupQueries(queries) && p.value != []
  {
    DedupQueriesKeys(queries);
    if queries == [] then None
    else
      var bulkQueries := DedupQueries(queries);
      if bulkQueries == [] then
        assert forall i :: 0 <= i < |queries| ==> !Queryable(queries[i]) by {
          forall i | 0 <= i < |queries| && Queryable(queries[i]) ensures QueryKey(queries[i]) in RequestKeys(bulkQueries) {
            assert QueryKey(queries[i]) in QueryKeys(queries);
          }
        }
        None
      else
        assert RequestKey(bulkQueries[0]) in QueryKeys(queries) by {
          assert bulkQueries[0] in bulkQueries;
        }
        Some(bulkQueries)
  }

  /** getBatchesBySkuAndMrpBulk: no call and an empty map when no query passes the filter;
      otherwise one call with the de-duplicated requests, whose reply is collected or whose
      failure becomes an InventoryServiceException message. */
  function GetBatchesBySkuAndMrpBulk(
    queries: seq<Option<OrderInventoryQuery>>,
    available: seq<SkuMrpRequest> -> AvailableReply): (r: Result<map<Key, seq<Batch>>, string>)
    ensures AvailablePayload(queries).None? ==> r == Success(map[])
    ensures AvailablePayload(queries).Some? ==>
              var reply := available(AvailablePayload(queries).value);
              && (reply.Listed? ==> r == Success(CollectResponse(reply.items)))
              && (reply.FetchRefused? ==> r == Failure(reply.message))
              && (reply.FetchUnreachable? ==> r == Failure(ServiceRequestFailed(reply.detail)))
  {
    match AvailablePayload(queries)
    case None => Success(map[])
    case Some(payload) =>
      match available(payload)
      case Listed(items) => Success(CollectResponse(items))
      case FetchRefused(message) => Failure(message)
      case FetchUnreachable(detail) => Failure(ServiceRequestFailed(detail))
  }

  /** When the call is made and answered, the bulk query maps the key of every item that is
      the first of its key to that item's batches, and has no other key. */
  lemma BulkQueryAnswers(queries: seq<Option<OrderInventoryQuery>>, available: seq<SkuMrpRequest> -> AvailableReply)
    requires exists i :: 0 <= i < |queries| && Queryable(queries[i])
    requires available(DedupQueries(queries)).Listed?
    ensures GetBatchesBySkuAndMrpBulk(queries, available).Success?
    ensures HoldsFirstItems(available(DedupQueries(queries)).items, GetBatchesBySkuAndMrpBulk(queries, available).value)
    ensures OnlyItemKeys(available(DedupQueries(queries)).items, GetBatchesBySkuAndMrpBulk(queries, available).value)
  {
    CollectResponseKeepsFirst(available(DedupQueries(queries)).items);
  }

  /** getBatchesBySkuAndMrp: the bulk query for one pair, then the entry under buildKey. */
  function GetBatchesBySkuAndMrp(
    skuCode: string, mrp: MrpText,
    available: seq<SkuMrpRequest> -> AvailableReply): Result<seq<Batch>, string>
  {
    match GetBatchesBySkuAndMrpBulk([Some(OrderInventoryQuery(Some(skuCode), Some(mrp)))], available)
    case Success(response) =>
      var key := BuildKey(Some(skuCode), mrp);
      Success(if key in response then response[key] else [])
    case Failure(message) => Failure(message)
  }

  /** The single lookup: a blank SKU gets an empty list without a call; otherwise the gateway
      is asked for exactly this pair and the answer is the batches of the first item whose
      normalised SKU and price match, or an empty list when no item matches. */
  lemma SingleLookup(skuCode: string, mrp: MrpText, available: seq<SkuMrpRequest> -> AvailableReply)
    ensures IsBlank(skuCode) ==> GetBatchesBySkuAndMrp(skuCode, mrp, available) == Success([])
    ensures !IsBlank(skuCode) ==>
              AvailablePayload([Some(OrderInventoryQuery(Some(skuCode), Some(mrp)))]) == Some([SkuMrpRequest(skuCode, mrp)])
    ensures !IsBlank(skuCode) && available([SkuMrpRequest(skuCode, mrp)]).Listed? ==>
              var items := available([SkuMrpRequest(skuCode, mrp)]).items;
              && (forall i :: IsFirstItem(items, i) && ItemKey(items[i]) == BuildKey(Some(skuCode), mrp) ==>
                    GetBatchesBySkuAndMrp(skuCode, mrp, available) == Success(ItemBatches(items[i])))
              && ((forall i :: 0 <= i < |items| && Collectable(items[i]) ==> ItemKey(items[i]) != BuildKey(Some(skuCode), mrp)) ==>
                    GetBatchesBySkuAndMrp(skuCode, mrp, available) == Success([]))
  {
    var qs := [Some(OrderInventoryQuery(Some(skuCode), Some(mrp)))];
    if !IsBlank(skuCode) {
      assert qs[..0] == [];
      assert DedupQueries(qs) == [SkuMrpRequest(skuCode, mrp)];
      var reply := available([SkuMrpRequest(skuCode, mrp)]);
      if reply.Listed? {
        var items := reply.items;
        var key := BuildKey(Some(skuCode), mrp);
        CollectResponseKeepsFirst(items);
        var m := CollectResponse(items);
        assert OnlyItemKeys(items, m);
        if key in m {
          var i :| IsFirstItem(items, i) && ItemKey(items[i]) == key;
        }
      }
    } else {
      assert !Queryable(qs[0]);
    }
  }

  // ---------------------------------------------------------------------------
  // Grouping flat batch rows

  /** InventoryFlatBatchRow: one row of a flat /available answer. */
  datatype FlatBatchRow =
    FlatBatchRow(sku: Option<string>, mrp: Option<MrpText>, batchNo: Option<string>, expiryDate: Date, quantity: Option<int>)

  /** The rows that are grouped: non-null, with a non-blank SKU and a non-null MRP. */
  predicate Groupable(row: Option<FlatBatchRow>) {
    row.Some? && row.value.sku.Some? && !IsBlank(row.value.sku.value) && row.value.mrp.Some?
  }

  function RowKey(row: Option<FlatBatchRow>): Key
    requires Groupable(row)
  {
    BuildKey(row.value.sku, row.value.mrp.value)
  }

  /** A grouped row adds a batch only when it has a batch number and a quantity. */
  predicate CarriesBatch(row: Option<FlatBatchRow>)
    requires Groupable(row)
  {
    row.value.batchNo.Some? && row.value.quantity.Some?
  }

  function RowBatch(row: Option<FlatBatchRow>): Batch
    requires Groupable(row) && CarriesBatch(row)
  {
    Batch(row.value.batchNo.value, row.value.expiryDate, row.value.mrp, row.value.quantity.value)
  }

  /** The keys of the grouped rows, each once, in first-seen order (the LinkedHashMap's order). */
  function GroupKeys(rows: seq<Option<FlatBatchRow>>): seq<Key>
    decreases |rows|
  {
    if rows == [] then []
    else
      var keys := GroupKeys(rows[..|rows| - 1]);
      var row := rows[|rows| - 1];
      if Groupable(row) && RowKey(row) !in keys then keys + [RowKey(row)] else keys
  }

  /** The batches of the rows of key k that carry one, in input order. */
  function BatchesFor(rows: seq<Option<FlatBatchRow>>, k: Key): seq<Batch>
    decreases |rows|
  {
    if rows == [] then []
    else
      var batches := BatchesFor(rows[..|rows| - 1], k);
      var row := rows[|rows| - 1];
      if Groupable(row) && RowKey(row) == k && CarriesBatch(row) then batches + [RowBatch(row)] else batches
  }

  /** Position of the first "||" in s, or |s| when there is none. */
  function SeparatorAt(s: string): (i: nat)
    ensures i <= |s|
  {
    if |s| < 2 then |s|
    else if s[0] == '|' && s[1] == '|' then 0
    else 1 + SeparatorAt(s[1..])
  }

  /** key.split("\\|\\|", 2)[0]: the text of the key before its first "||". */
  function SkuPart(k: Key): string {
    var text := KeyText(k);
    text[..SeparatorAt(text)]
  }

  /** The rows mapFlatBatchRows emits: one per key in first-seen order, carrying the text of
      the key before its first "||", the price of the key and the key's batches. */
  function GroupFlatRows(rows: seq<Option<FlatBatchRow>>): seq<SkuMrpBatches> {
    var keys := GroupKeys(rows);
    seq(|keys|, i requires 0 <= i < |keys| =>
      SkuMrpBatches(Some(SkuPart(keys[i])), Some(keys[i].mrp), Some(BatchesFor(rows, keys[i]))))
  }

  /** mapFlatBatchRows: the first loop fills the LinkedHashMaps grouped (its key order kept
      in order) and mrpByKey row by row; the second emits one response row per key. */
  method MapFlatBatchRows(rows: seq<Option<FlatBatchRow>>) returns (mapped: seq<SkuMrpBatches>)
    ensures mapped == GroupFlatRows(rows)
  {
    var order, grouped, mrpByKey := GroupRows(rows);
    mapped := [];
    var j := 0;
    while j < |order|
      invariant 0 <= j <= |order|
      invariant |mapped| == j
      invariant forall n :: 0 <= n < j ==> mapped[n] == GroupFlatRows(rows)[n]
    {
      var key := order[j];
      mapped := mapped + [SkuMrpBatches(Some(SkuPart(key)), Some(mrpByKey[key]), Some(grouped[key]))];
      j := j + 1;
    }
  }

  /** What the first loop of mapFlatBatchRows has built once it has noted the keys of
      keyRows and the batches of batchRows: the keys in first-seen order, each key's
      batches, and each key's price. */
  ghost predicate Grouping(keyRows: seq<Option<FlatBatchRow>>, batchRows: seq<Option<FlatBatchRow>>,
                           order: seq<Key>, grouped: map<Key, seq<Batch>>, mrpByKey: map<Key, MrpText>)
  {
    && order == GroupKeys(keyRows)
    && grouped.Keys == mrpByKey.Keys == set k | k in order
    && (forall k :: k in grouped ==> grouped[k] == BatchesFor(batchRows, k))
    && (forall k :: k in mrpByKey ==> mrpByKey[k] == k.mrp)
  }

  /** The first loop of mapFlatBatchRows. */
  method GroupRows(rows: seq<Option<FlatBatchRow>>)
    returns (order: seq<Key>, grouped: map<Key, seq<Batch>>, mrpByKey: map<Key, MrpText>)
    ensures order == GroupKeys(rows)
    ensures grouped.Keys == mrpByKey.Keys
    ensures forall k :: k in grouped <==> k in order
    ensures forall k :: k in grouped ==> grouped[k] == BatchesFor(rows, k)
    ensures forall k :: k in mrpByKey ==> mrpByKey[k] == k.mrp
  {
    order, grouped, mrpByKey := [], map[], map[];
    var i := 0;
    while i < |rows|
      invariant 0 <= i <= |rows|
      invariant Grouping(rows[..i], rows[..i], order, grouped, mrpByKey)
    {
      order, grouped, mrpByKey := GroupRow(rows, i, order, grouped, mrpByKey);
      i := i + 1;
    }
    assert rows[..i] == rows;
  }

  /** One pass of that loop: row i joins the grouping of the rows before it. */
  method GroupRow(rows: seq<Option<FlatBatchRow>>, i: int, order: seq<Key>,
                  grouped: map<Key, seq<Batch>>, mrpByKey: map<Key, MrpText>)
    returns (order': seq<Key>, grouped': map<Key, seq<Batch>>, mrpByKey': map<Key, MrpText>)
    requires 0 <= i < |rows|
    requires Grouping(rows[..i], rows[..i], order, grouped, mrpByKey)
    ensures Grouping(rows[..i + 1], rows[..i + 1], order', grouped', mrpByKey')
  {
    order', grouped', mrpByKey' := order, grouped, mrpByKey;
    if Groupable(rows[i]) {
      order', grouped', mrpByKey' := NoteKey(rows, i, order, grouped, mrpByKey);
    } else {
      GroupKeysStep(rows, i);
    }
    grouped' := AddRowBatch(rows, i, order', grouped', mrpByKey');
  }

  /** The add of a grouped row's batch to the group of its key, when the row carries one. */
  method AddRowBatch(rows: seq<Option<FlatBatchRow>>, i: int, order: seq<Key>,
                     grouped: map<Key, seq<Batch>>, mrpByKey: map<Key, MrpText>)
    returns (grouped': map<Key, seq<Batch>>)
    requires 0 <= i < |rows|
    requires Grouping(rows[..i + 1], rows[..i], order, grouped, mrpByKey)
    requires Groupable(rows[i]) ==> RowKey(rows[i]) in grouped
    ensures Grouping(rows[..i + 1], rows[..i + 1], order, grouped', mrpByKey)
  {
    grouped' := grouped;
    var row := rows[i];
    if Groupable(row) && CarriesBatch(row) {
      var key := RowKey(row);
      grouped' := grouped'[key := grouped'[key] + [RowBatch(row)]];
      assert grouped'.Keys == grouped.Keys;
    }
    forall k | k in grouped' ensures grouped'[k] == BatchesFor(rows[..i + 1], k) {
      BatchesForStep(rows, i, k);
    }
  }

  /** The putIfAbsent and computeIfAbsent of a grouped row: its key gets its price and an
      empty group if it has neither yet. */
  method NoteKey(rows: seq<Option<FlatBatchRow>>, i: int, order: seq<Key>,
                 grouped: map<Key, seq<Batch>>, mrpByKey: map<Key, MrpText>)
    returns (order': seq<Key>, grouped': map<Key, seq<Batch>>, mrpByKey': map<Key, MrpText>)
    requires 0 <= i < |rows| && Groupable(rows[i])
    requires Grouping(rows[..i], rows[..i], order, grouped, mrpByKey)
    ensures Grouping(rows[..i + 1], rows[..i], order', grouped', mrpByKey')
    ensures RowKey(rows[i]) in grouped'
  {
    order', grouped', mrpByKey' := order, grouped, mrpByKey;
    var row := rows[i];
    var key := RowKey(row);
    GroupKeysStep(rows, i);
    assert key.mrp == row.value.mrp.value;
    if key !in mrpByKey' {
      mrpByKey' := mrpByKey'[key := row.value.mrp.value];
    }
    if key !in grouped' {
      BatchesForUnseen(rows[..i], key);
      grouped' := grouped'[key := []];
      order' := order' + [key];
    }
  }

  /** One more row: its key joins the keys if it is new. */
  lemma GroupKeysStep(rows: seq<Option<FlatBatchRow>>, i: int)
    requires 0 <= i < |rows|
    ensures GroupKeys(rows[..i + 1])
            == if Groupable(rows[i]) && RowKey(rows[i]) !in GroupKeys(rows[..i])
               then GroupKeys(rows[..i]) + [RowKey(rows[i])] else GroupKeys(rows[..i])
  {
    assert rows[..i + 1][..i] == rows[..i];
  }

  /** One more row: its batch, if it carries one, joins the batches of its key. */
  lemma BatchesForStep(rows: seq<Option<FlatBatchRow>>, i: int, k: Key)
    requires 0 <= i < |rows|
    ensures BatchesFor(rows[..i + 1], k)
            == if Groupable(rows[i]) && RowKey(rows[i]) == k && CarriesBatch(rows[i])
               then BatchesFor(rows[..i], k) + [RowBatch(rows[i])] else BatchesFor(rows[..i], k)
  {
    assert rows[..i + 1][..i] == rows[..i];
  }

  /** A key not yet grouped has no batches. */
  lemma {:induction false} BatchesForUnseen(rows: seq<Option<FlatBatchRow>>, k: Key)
    requires k !in GroupKeys(rows)
    ensures BatchesFor(rows, k) == []
    decreases |rows|
  {
    if rows != [] {
      var p := rows[..|rows| - 1];
      assert GroupKeys(p) <= GroupKeys(rows);
      BatchesForUnseen(p, k);
    }
  }

  /** Some grouped row has key k. */
  predicate HasRowWithKey(rows: seq<Option<FlatBatchRow>>, k: Key) {
    exists i :: 0 <= i < |rows| && Groupable(rows[i]) && RowKey(rows[i]) == k
  }

  predicate DistinctKeys(keys: seq<Key>) {
    forall a, b :: 0 <= a < b < |keys| ==> keys[a] != keys[b]
  }

  /** Every grouped row's key gets a group, even one whose rows carry no batch, and no other
      key does; each key appears once. */
  lemma {:induction false} GroupKeysAreTheRowKeys(rows: seq<Option<FlatBatchRow>>)
    ensures forall k :: k in GroupKeys(rows) <==> HasRowWithKey(rows, k)
    ensures DistinctKeys(GroupKeys(rows))
    decreases |rows|
  {
    if rows != [] {
      var p := rows[..|rows| - 1];
      var last := rows[|rows| - 1];
      GroupKeysAreTheRowKeys(p);
      var kp := GroupKeys(p);
      var keys := GroupKeys(rows);
      forall k | k in keys ensures HasRowWithKey(rows, k) {
        if k in kp {
          assert HasRowWithKey(p, k);
          var i :| 0 <= i < |p| && Groupable(p[i]) && RowKey(p[i]) == k;
          assert rows[i] == p[i];
        } else {
          assert Groupable(rows[|rows| - 1]) && RowKey(rows[|rows| - 1]) == k;
        }
      }
      forall k | HasRowWithKey(rows, k) ensures k in keys {
        var i :| 0 <= i < |rows| && Groupable(rows[i]) && RowKey(rows[i]) == k;
        if i < |p| {
          assert p[i] == rows[i];
          assert HasRowWithKey(p, k);
        }
      }
      if Groupable(last) && RowKey(last) !in kp {
        forall a, b | 0 <= a < b < |keys| ensures keys[a] != keys[b] {
          assert keys[a] == kp[a];
          if b < |kp| {
            assert keys[b] == kp[b];
          } else {
            assert kp[a] in kp;
          }
        }
      }
    }
  }

  /** s holds no "||" and does not end in '|', so the first "||" of s + "||" + m is the
      appended one. */
  predicate SplitsCleanly(s: string) {
    && (forall i :: 0 <= i < |s| - 1 ==> !(s[i] == '|' && s[i + 1] == '|'))
    && (s != [] ==> s[|s| - 1] != '|')
  }

  lemma {:induction false} SeparatorAtJoined(s: string, m: string)
    requires SplitsCleanly(s)
    ensures SeparatorAt(s + "||" + m) == |s|
  {
    if s != [] {
      var t := s + "||" + m;
      assert t[0] == s[0];
      if |s| == 1 {
        assert t[1] == '|' && s[0] != '|';
      } else {
        assert t[1] == s[1];
        assert !(s[0] == '|' && s[1] == '|');
      }
      assert t[1..] == s[1..] + "||" + m;
      assert forall i :: 0 <= i < |s[1..]| ==> s[1..][i] == s[i + 1];
      SeparatorAtJoined(s[1..], m);
    }
  }

  /** The SKU text of a group is the normalised SKU of its rows when that holds no "||" and
      does not end in '|'. */
  lemma SkuPartOfCleanSku(k: Key)
    requires SplitsCleanly(k.sku)
    ensures SkuPart(k) == k.sku
  {
    SeparatorAtJoined(k.sku, k.mrp);
    assert KeyText(k)[..|k.sku|] == k.sku;
  }

  /** Every grouped row's normalised SKU splits cleanly at the key's separator. */
  predicate CleanSkus(rows: seq<Option<FlatBatchRow>>) {
    forall i :: 0 <= i < |rows| && Groupable(rows[i]) ==> SplitsCleanly(RowKey(rows[i]).sku)
  }

  /** The emitted rows, read back as the items of a response. */
  function GroupItems(rows: seq<Option<FlatBatchRow>>): seq<Option<SkuMrpBatches>> {
    var groups := GroupFlatRows(rows);
    seq(|groups|, n requires 0 <= n < |groups| => Some(groups[n]))
  }

  /** When every SKU splits cleanly, each emitted row is read back under the key it was grouped by,
      with that key's batches. */
  lemma GroupItemKeys(rows: seq<Option<FlatBatchRow>>)
    requires CleanSkus(rows)
    ensures var items := GroupItems(rows);
            |items| == |GroupKeys(rows)| &&
            forall a :: 0 <= a < |items| ==>
              && Collectable(items[a])
              && ItemKey(items[a]) == GroupKeys(rows)[a]
              && ItemBatches(items[a]) == BatchesFor(rows, GroupKeys(rows)[a])
  {
    var items := GroupItems(rows);
    var keys := GroupKeys(rows);
    GroupKeysAreTheRowKeys(rows);
    forall a | 0 <= a < |items| ensures Collectable(items[a]) && ItemKey(items[a]) == keys[a] {
      assert keys[a] in keys;
      assert HasRowWithKey(rows, keys[a]);
      var r :| 0 <= r < |rows| && Groupable(rows[r]) && RowKey(rows[r]) == keys[a];
      SkuPartOfCleanSku(keys[a]);
      NormalizeSkuIdempotent(rows[r].value.sku.value);
    }
  }

  /** Round trip: grouping flat rows whose SKUs split cleanly and collecting the groups as a
      response gives, for every grouped row, exactly the batches of the rows of its key, in
      input order, and no key without a grouped row. */
  lemma FlatRowsRoundTrip(rows: seq<Option<FlatBatchRow>>)
    requires CleanSkus(rows)
    ensures forall i :: 0 <= i < |rows| && Groupable(rows[i]) ==>
              RowKey(rows[i]) in CollectResponse(GroupItems(rows))
              && CollectResponse(GroupItems(rows))[RowKey(rows[i])] == BatchesFor(rows, RowKey(rows[i]))
    ensures forall k :: k in CollectResponse(GroupItems(rows)) ==> HasRowWithKey(rows, k)
  {
    var items := GroupItems(rows);
    var keys := GroupKeys(rows);
    GroupKeysAreTheRowKeys(rows);
    GroupItemKeys(rows);
    forall a | 0 <= a < |items| ensures IsFirstItem(items, a) {
      forall j | 0 <= j < a && Collectable(items[j]) ensures ItemKey(items[j]) != ItemKey(items[a]) {
        assert keys[j] != keys[a];
      }
    }
    CollectResponseKeepsFirst(items);
    var m := CollectResponse(items);
    forall i | 0 <= i < |rows| && Groupable(rows[i])
      ensures RowKey(rows[i]) in m && m[RowKey(rows[i])] == BatchesFor(rows, RowKey(rows[i]))
    {
      assert HasRowWithKey(rows, RowKey(rows[i]));
      var a :| 0 <= a < |keys| && keys[a] == RowKey(rows[i]);
      assert IsFirstItem(items, a);
    }
    forall k | k in m ensures HasRowWithKey(rows, k) {
      var a :| 0 <= a < |items| && IsFirstItem(items, a) && ItemKey(items[a]) == k;
      assert keys[a] in keys;
    }
  }

  // ---------------------------------------------------------------------------
  // The deduction call

  /** InventoryBulkOrdersDeductRequest: the deduction body. */
  datatype BulkOrdersDeductRequest = BulkOrdersDeductRequest(operation: string, items: seq<DeductLine>)

  /** What the gateway's /save endpoint gives back: a success status, an error status with
      its (possibly empty) body, or a transport error. */
  datatype DeductReply =
    | Deducted
    | DeductRejected(body: string)
    | DeductUnreachable(detail: string)

  /** deductInventoryBulk: the lines are sent as they are, under the operation "DEDUCT"; an
      error status with a body or a transport error becomes an InventoryServiceException
      message. An error status with an empty body passes: the onStatus handler then yields
      no exception, and the response is treated as a normal one. */
  function DeductInventoryBulk(items: seq<DeductLine>, send: BulkOrdersDeductRequest -> DeductReply): (r: Outcome<string>)
    ensures var reply := send(BulkOrdersDeductRequest("DEDUCT", items));
            && (r.Pass? <==> reply.Deducted? || (reply.DeductRejected? && reply.body == ""))
            && (reply.DeductRejected? && reply.body != "" ==> r == Fail("Inventory bulk deduction failed: " + reply.body))
            && (reply.DeductUnreachable? ==> r == Fail(ServiceRequestFailed(reply.detail)))
  {
    match send(BulkOrdersDeductRequest("DEDUCT", items))
    case Deducted => Pass
    case DeductRejected(body) =>
      if body == "" then Pass else Fail("Inventory bulk deduction failed: " + body)
    case DeductUnreachable(detail) => Fail(ServiceRequestFailed(detail))
  }
}
