/**
 * The inventory endpoints: bulk price update, bulk stock adjustment, the
 * per-product ledger balance, the low-stock report and the valuation.
 *
 * Every queryset is the role-scoped one; here it arrives already scoped, as
 * a sequence in queryset order. Quantities and prices are exact decimals.
 */
module InventoryViews {
  import opened Wrappers
  import opened Seqs
  import opened Money

  // ------------------------------------------------------------ products and prices

  datatype ProductRow = ProductRow(id: int, sku: string, name: string, costPrice: real, sellingPrice: real)

  /**
   * The `id` of an entry: missing or another falsy value; a truthy value the
   * id lookup converts to an integer (`7`, `"07"`); or one it cannot convert
   * (`"abc"`), on which the lookup raises a ValueError.
   */
  datatype IdField = Falsy | Converts(value: int) | Unconvertible

  /**
   * The `selling_price` of an entry: missing or null; a number; or a value
   * the decimal field cannot convert, on which the save raises.
   */
  datatype PriceField = Null | Amount(amount: real) | NotDecimal

  /** One entry of `updates`: an object, or anything else (a number, a string, a list), which has no `get`. */
  datatype PriceUpdate = NotAnObject | Entry(id: IdField, price: PriceField)

  /** An object entry that passes `if pid and price is not None`. */
  predicate WellFormed(u: PriceUpdate)
  {
    u.Entry? && !u.id.Falsy? && !u.price.Null?
  }

  /** An entry that makes the request raise before its product is looked up or saved. */
  predicate RaisesAt(u: PriceUpdate)
  {
    u.NotAnObject? || (WellFormed(u) && (u.id.Unconvertible? || u.price.NotDecimal?))
  }

  predicate HasProduct(rows: seq<ProductRow>, id: int)
  {
    exists i :: 0 <= i < |rows| && rows[i].id == id
  }

  /**
   * The price the database keeps for `selling_price` (`decimal_places=2`):
   * rounded to paise, an exact half paisa away from zero, as PostgreSQL's
   * `numeric` does.
   */
  function StoredPrice(price: real): (r: real)
    ensures price - 0.005 <= r <= price + 0.005
    ensures (r * 100.0).Floor as real == r * 100.0
  {
    FromCents(RoundHalfUp(price))
  }

  /** Set the selling price of the product with that id. */
  function SetPrice(rows: seq<ProductRow>, id: int, price: real): (r: seq<ProductRow>)
    ensures |r| == |rows|
    ensures forall i :: 0 <= i < |rows| ==> r[i].id == rows[i].id
    ensures forall i :: 0 <= i < |rows| ==>
              r[i] == if rows[i].id == id then rows[i].(sellingPrice := price) else rows[i]
  {
    Map(rows, (x: ProductRow) => if x.id == id then x.(sellingPrice := price) else x)
  }

  /**
   * How the pass ends: it runs to the end (200), an object check refuses a
   * product (the 403), or an exception other than `DoesNotExist` escapes (a 500).
   */
  datatype Halt = Running | Forbidden | Raised

  /** The products, the ids reported so far, and how the pass has ended. */
  datatype PriceState = PriceState(rows: seq<ProductRow>, changed: seq<int>, halt: Halt)

  /**
   * `bulk_price_update` over the entries in order: entries that fail the
   * guard and products outside the scoped queryset are skipped. A refused
   * object check or an escaping exception ends the request; the saves made
   * before it stay, since the request is not atomic.
   */
  function PriceUpdates(rows: seq<ProductRow>, updates: seq<PriceUpdate>,
                        visible: int -> bool, allowed: int -> bool): (s: PriceState)
    ensures |s.rows| == |rows|
    ensures forall i :: 0 <= i < |rows| ==> s.rows[i].id == rows[i].id
    ensures forall c :: c in s.changed ==>
              HasProduct(rows, c) && visible(c) && allowed(c)
              && exists j :: 0 <= j < |updates| && WellFormed(updates[j]) && updates[j].id == Converts(c)
                             && updates[j].price.Amount?
    ensures s.halt == Raised ==> exists j :: 0 <= j < |updates| && RaisesAt(updates[j])
    decreases |updates|
  {
    if updates == [] then PriceState(rows, [], Running)
    else PriceStep(PriceUpdates(rows, updates[..|updates| - 1], visible, allowed), updates[|updates| - 1], visible, allowed)
  }

  /** One entry of the pass, after the entries before it have left the state `prev`. */
  function PriceStep(prev: PriceState, u: PriceUpdate, visible: int -> bool, allowed: int -> bool): PriceState
  {
    if prev.halt != Running then prev
    else if u.NotAnObject? then prev.(halt := Raised)
    else if !WellFormed(u) then prev
    else if u.id.Unconvertible? then prev.(halt := Raised)
    else
      var pid := u.id.value;
      if !(visible(pid) && HasProduct(prev.rows, pid)) then prev
      else if !allowed(pid) then prev.(halt := Forbidden)
      else if u.price.NotDecimal? then prev.(halt := Raised)
      else PriceState(SetPrice(prev.rows, pid, StoredPrice(u.price.amount)), prev.changed + [pid], Running)
  }

  /** A product no well-formed entry names keeps its price. */
  lemma {:induction false} UnnamedProductKeepsPrice(rows: seq<ProductRow>, updates: seq<PriceUpdate>,
                                                     visible: int -> bool, allowed: int -> bool, i: int)
    requires 0 <= i < |rows|
    requires forall j :: 0 <= j < |updates| && WellFormed(updates[j]) ==> updates[j].id != Converts(rows[i].id)
    ensures PriceUpdates(rows, updates, visible, allowed).rows[i] == rows[i]
    decreases |updates|
  {
    if updates != [] {
      UnnamedProductKeepsPrice(rows, updates[..|updates| - 1], visible, allowed, i);
    }
  }

  /**
   * After a pass that runs to the end, a reported product carries the stored
   * form of the price of the last well-formed entry naming it.
   */
  lemma {:induction false} LastEntryWins(rows: seq<ProductRow>, updates: seq<PriceUpdate>,
                                         visible: int -> bool, allowed: int -> bool, i: int, j: int)
    requires 0 <= i < |rows| && 0 <= j < |updates|
    requires PriceUpdates(rows, updates, visible, allowed).halt == Running
    requires rows[i].id in PriceUpdates(rows, updates, visible, allowed).changed
    requires WellFormed(updates[j]) && updates[j].id == Converts(rows[i].id)
    requires forall k :: j < k < |updates| && WellFormed(updates[k]) ==> updates[k].id != Converts(rows[i].id)
    ensures updates[j].price.Amount?
    ensures PriceUpdates(rows, updates, visible, allowed).rows[i].sellingPrice == StoredPrice(updates[j].price.amount)
    decreases |updates|
  {
    var n := |updates| - 1;
    var prev := PriceUpdates(rows, updates[..n], visible, allowed);
    if j == n {
      StepSets(prev, updates[n], visible, allowed, i);
    } else {
      StepKeeps(prev, updates[n], visible, allowed, i);
      assert updates[..n][j] == updates[j];
      LastEntryWins(rows, updates[..n], visible, allowed, i, j);
    }
  }

  /** A step that leaves the pass running and names a visible product sets its price. */
  lemma StepSets(prev: PriceState, u: PriceUpdate, visible: int -> bool, allowed: int -> bool, i: int)
    requires 0 <= i < |prev.rows| && visible(prev.rows[i].id)
    requires PriceStep(prev, u, visible, allowed).halt == Running
    requires WellFormed(u) && u.id == Converts(prev.rows[i].id)
    ensures u.price.Amount?
    ensures PriceStep(prev, u, visible, allowed).rows[i].sellingPrice == StoredPrice(u.price.amount)
  {
    assert HasProduct(prev.rows, prev.rows[i].id);
  }

  /** A running pass saves the price of a well-formed entry naming a visible, permitted product. */
  lemma StepSaves(prev: PriceState, u: PriceUpdate, visible: int -> bool, allowed: int -> bool, i: int)
    requires 0 <= i < |prev.rows| && prev.halt == Running
    requires visible(prev.rows[i].id) && allowed(prev.rows[i].id)
    requires WellFormed(u) && u.id == Converts(prev.rows[i].id) && u.price.Amount?
    ensures PriceStep(prev, u, visible, allowed)
            == PriceState(SetPrice(prev.rows, prev.rows[i].id, StoredPrice(u.price.amount)),
                          prev.changed + [prev.rows[i].id], Running)
  {
    assert HasProduct(prev.rows, prev.rows[i].id);
  }

  /** A step that leaves the pass running and does not name a product keeps its row and its report. */
  lemma StepKeeps(prev: PriceState, u: PriceUpdate, visible: int -> bool, allowed: int -> bool, i: int)
    requires 0 <= i < |prev.rows|
    requires PriceStep(prev, u, visible, allowed).halt == Running
    requires !WellFormed(u) || u.id != Converts(prev.rows[i].id)
    ensures var s := PriceStep(prev, u, visible, allowed);
            prev.halt == Running && s.rows[i] == prev.rows[i]
            && (prev.rows[i].id in s.changed ==> prev.rows[i].id in prev.changed)
  {
  }

  /** The request of the API test: one entry for a visible, permitted product sets its price and reports it. */
  lemma SinglePriceUpdate(rows: seq<ProductRow>, k: int, price: real, visible: int -> bool, allowed: int -> bool)
    requires 0 <= k < |rows| && rows[k].id != 0 && visible(rows[k].id) && allowed(rows[k].id)
    ensures var s := PriceUpdates(rows, [Entry(Converts(rows[k].id), Amount(price))], visible, allowed);
            s.halt == Running && s.changed == [rows[k].id] && s.rows[k].sellingPrice == StoredPrice(price)
  {
    var u := Entry(Converts(rows[k].id), Amount(price));
    var start := PriceState(rows, [], Running);
    assert PriceUpdates(rows, [], visible, allowed) == start;
    assert [u][..0] == [];
    StepSaves(start, u, visible, allowed, k);
    assert start.changed + [rows[k].id] == [rows[k].id];
  }

  /**
   * An id the lookup cannot convert ends the request with a 500, and the
   * price saved for the entry before it stays, rounded to paise.
   */
  lemma UnconvertibleIdKeepsEarlierSave(p: ProductRow, visible: int -> bool, allowed: int -> bool)
    requires visible(p.id) && allowed(p.id)
    ensures var s := PriceUpdates([p], [Entry(Converts(p.id), Amount(10.005)), Entry(Unconvertible, Amount(1.0))],
                                  visible, allowed);
            s.halt == Raised && s.rows[0].sellingPrice == 10.01
  {
    var us := [Entry(Converts(p.id), Amount(10.005)), Entry(Unconvertible, Amount(1.0))];
    assert us[..1] == [us[0]];
    assert us[..1][..0] == [];
    assert [p][0].id == p.id;
    assert HasProduct([p], p.id);
    assert 10.005 * 100.0 + 0.5 == 1001.0;
    assert RoundHalfUp(10.005) == 1001;
    assert PriceUpdates([p], [], visible, allowed) == PriceState([p], [], Running);
    var first := PriceUpdates([p], us[..1], visible, allowed);
    assert first == PriceState(SetPrice([p], p.id, StoredPrice(10.005)), [p.id], Running);
    assert first.rows[0].sellingPrice == 10.01;
    assert first.halt == Running;
  }

  class ProductTable {
    var rows: seq<ProductRow>

    constructor(rows: seq<ProductRow>)
      ensures this.rows == rows
    {
      this.rows := rows;
    }

    /** `bulk_price_update` with its three outcomes; the table keeps every save made before a 403 or a 500. */
    method BulkPriceUpdate(updates: seq<PriceUpdate>, visible: int -> bool, allowed: int -> bool)
      returns (r: PriceResponse)
      modifies this
      ensures var s := PriceUpdates(old(rows), updates, visible, allowed);
              && rows == s.rows
              && (r.Updated? <==> s.halt == Running)
              && (r == Refused <==> s.halt == Forbidden)
              && (r.Updated? ==> r.ids == s.changed)
    {
      var i := 0;
      var changed: seq<int> := [];
      ghost var start := rows;
      assert updates[..0] == [];
      while i < |updates|
        invariant 0 <= i <= |updates|
        invariant PriceUpdates(start, updates[..i], visible, allowed) == PriceState(rows, changed, Running)
        decreases |updates| - i
      {
        var u := updates[i];
        assert updates[..i + 1][..i] == updates[..i];
        if u.NotAnObject? {
          PriceUpdatesStopped(start, updates, i + 1, visible, allowed);
          return ServerError;
        }
        if !u.id.Falsy? && !u.price.Null? {
          if u.id.Unconvertible? {
            PriceUpdatesStopped(start, updates, i + 1, visible, allowed);
            return ServerError;
          }
          var pid := u.id.value;
          if visible(pid) && HasProduct(rows, pid) {
            if !allowed(pid) {
              PriceUpdatesStopped(start, updates, i + 1, visible, allowed);
              return Refused;
            }
            if u.price.NotDecimal? {
              PriceUpdatesStopped(start, updates, i + 1, visible, allowed);
              return ServerError;
            }
            rows := SetPrice(rows, pid, StoredPrice(u.price.amount));
            changed := changed + [pid];
          }
        }
        i := i + 1;
      }
      assert updates[..i] == updates;
      r := Updated(changed);
    }
  }

  /** The response of `bulk_price_update`. */
  datatype PriceResponse = Updated(ids: seq<int>) | Refused | ServerError

  /** Once the pass has ended, later entries change nothing. */
  lemma {:induction false} PriceUpdatesStopped(rows: seq<ProductRow>, updates: seq<PriceUpdate>, k: nat,
                                               visible: int -> bool, allowed: int -> bool)
    requires k <= |updates|
    requires PriceUpdates(rows, updates[..k], visible, allowed).halt != Running
    ensures PriceUpdates(rows, updates, visible, allowed) == PriceUpdates(rows, updates[..k], visible, allowed)
    decreases |updates| - k
  {
    if k < |updates| {
      assert updates[..k + 1][..k] == updates[..k];
      PriceUpdatesStopped(rows, updates, k + 1, visible, allowed);
    } else {
      assert updates[..k] == updates;
    }
  }

  // ------------------------------------------------------------ bulk adjustment

  /**
   * One entry of `adjustments`. `Malformed` is a missing product or an
   * unparsable quantity, both caught and skipped. `BadProduct` carries a
   * product id the line insert refuses (unknown, `null` or not an integer).
   * `SignallingNaN` is the quantity `sNaN`, whose comparison with 0 raises.
   */
  datatype Adjustment = Malformed | Adjust(product: int, quantity: real) | BadProduct(quantity: real) | SignallingNaN

  datatype StockLine = StockLine(product: int, quantity: real)

  datatype StockEntry = StockEntry(id: int, entryType: string, remarks: string, lines: seq<StockLine>)

  const AdjustType: string := "ADJUST"
  const BulkRemarks: string := "Bulk adjustment"

  predicate Applies(a: Adjustment)
  {
    a.Adjust? && a.quantity != 0.0
  }

  /** The stock lines of the applicable adjustments, in order. */
  function AdjustLines(adjs: seq<Adjustment>): (r: seq<StockLine>)
    ensures |r| <= |adjs|
    decreases |adjs|
  {
    if adjs == [] then []
    else
      var a := adjs[|adjs| - 1];
      AdjustLines(adjs[..|adjs| - 1]) + if Applies(a) then [StockLine(a.product, a.quantity)] else []
  }

  /** One ADJUST entry per line, numbered from `first`. */
  function NewEntries(lines: seq<StockLine>, first: int): (r: seq<StockEntry>)
    ensures |r| == |lines|
    ensures forall i :: 0 <= i < |lines| ==> r[i] == StockEntry(first + i, AdjustType, BulkRemarks, [lines[i]])
  {
    seq(|lines|, i requires 0 <= i < |lines| => StockEntry(first + i, AdjustType, BulkRemarks, [lines[i]]))
  }

  function EntryId(e: StockEntry): int { e.id }

  /** An adjustment that makes the request fail: an unusable product with a non-zero quantity, or `sNaN`. */
  predicate Fails(a: Adjustment)
  {
    (a.BadProduct? && a.quantity != 0.0) || a.SignallingNaN?
  }

  /** The position of the first failing adjustment, or the length when none fails. */
  function FirstFailure(adjs: seq<Adjustment>): (k: nat)
    ensures k <= |adjs|
    ensures forall j :: 0 <= j < k ==> !Fails(adjs[j])
    ensures k < |adjs| ==> Fails(adjs[k])
  {
    if adjs == [] then 0 else if Fails(adjs[0]) then 0 else 1 + FirstFailure(adjs[1..])
  }

  /** The first failure is the first position that fails. */
  lemma FirstFailureAt(adjs: seq<Adjustment>, i: nat)
    requires i <= |adjs| && forall j :: 0 <= j < i ==> !Fails(adjs[j])
    requires i < |adjs| ==> Fails(adjs[i])
    ensures FirstFailure(adjs) == i
  {
  }

  /** The response: `201` with the ids created, or the server error of a failed insert. */
  datatype BulkResponse = Created(ids: seq<int>) | BulkFailed

  lemma NewEntriesSnoc(lines: seq<StockLine>, l: StockLine, first: int)
    ensures NewEntries(lines + [l], first)
            == NewEntries(lines, first) + [StockEntry(first + |lines|, AdjustType, BulkRemarks, [l])]
  {
  }

  /** The ids handed out are consecutive from `first`. */
  lemma EntryIdsConsecutive(lines: seq<StockLine>, first: int)
    ensures forall i :: 0 <= i < |lines| ==> Map(NewEntries(lines, first), EntryId)[i] == first + i
  {
  }

  /** The stock entries on record; new ones take the next free id. */
  class StockEntryBook {
    var entries: seq<StockEntry>
    var nextId: int

    predicate Valid()
      reads this
    {
      forall e :: e in entries ==> e.id < nextId
    }

    constructor()
      ensures entries == [] && Valid()
    {
      entries := [];
      nextId := 1;
    }

    /** `StockEntry.objects.create(...)` followed, when given, by its one line. */
    method AddEntry(lines: seq<StockLine>) returns (id: int)
      requires Valid()
      modifies this
      ensures Valid()
      ensures entries == old(entries) + [StockEntry(old(nextId), AdjustType, BulkRemarks, lines)]
      ensures nextId == old(nextId) + 1 && id == old(nextId)
    {
      id := nextId;
      entries := entries + [StockEntry(id, AdjustType, BulkRemarks, lines)];
      nextId := nextId + 1;
    }

    /**
     * `bulk_adjust`: one ADJUST entry with a single line per well-formed,
     * non-zero adjustment, in order. Nothing is rolled back: at the first
     * failing adjustment the entries made so far stay, an unusable product
     * also leaves its new entry without a line, and the response is the
     * server error.
     */
    method BulkAdjust(adjs: seq<Adjustment>) returns (r: BulkResponse)
      requires Valid()
      modifies this
      ensures Valid()
      ensures var k := FirstFailure(adjs);
              var made := NewEntries(AdjustLines(adjs[..k]), old(nextId));
              var orphan := if k < |adjs| && adjs[k].BadProduct?
                            then [StockEntry(old(nextId) + |made|, AdjustType, BulkRemarks, [])] else [];
              && entries == old(entries) + made + orphan
              && nextId == old(nextId) + |made| + |orphan|
              && r == if k < |adjs| then BulkFailed else Created(Map(made, EntryId))
      ensures forall e :: e in old(entries) ==> e.id < old(nextId)
    {
      var k, created := AdjustUntilFailure(adjs);
      if k == |adjs| {
        r := Created(created);
      } else {
        if adjs[k].BadProduct? {
          var _ := AddEntry([]);
        }
        r := BulkFailed;
      }
    }

    /** The loop of `bulk_adjust` up to the first failing adjustment. */
    method AdjustUntilFailure(adjs: seq<Adjustment>) returns (k: nat, created: seq<int>)
      requires Valid()
      modifies this
      ensures Valid()
      ensures k == FirstFailure(adjs)
      ensures entries == old(entries) + NewEntries(AdjustLines(adjs[..k]), old(nextId))
      ensures nextId == old(nextId) + |AdjustLines(adjs[..k])|
      ensures created == Map(NewEntries(AdjustLines(adjs[..k]), old(nextId)), EntryId)
    {
      created := [];
      ghost var start := entries;
      ghost var first := nextId;
      k := 0;
      assert adjs[..0] == [];
      while k < |adjs| && !Fails(adjs[k])
        invariant 0 <= k <= |adjs|
        invariant forall j :: 0 <= j < k ==> !Fails(adjs[j])
        invariant entries == start + NewEntries(AdjustLines(adjs[..k]), first)
        invariant created == Map(NewEntries(AdjustLines(adjs[..k]), first), EntryId)
        invariant nextId == first + |AdjustLines(adjs[..k])|
        invariant Valid()
        decreases |adjs| - k
      {
        var a := adjs[k];
        ghost var lines := AdjustLines(adjs[..k]);
        assert adjs[..k + 1][..k] == adjs[..k];
        if a.Adjust? && a.quantity != 0.0 {
          var l := StockLine(a.product, a.quantity);
          assert AdjustLines(adjs[..k + 1]) == lines + [l];
          NewEntriesSnoc(lines, l, first);
          MapSnoc(NewEntries(lines, first), StockEntry(nextId, AdjustType, BulkRemarks, [l]), EntryId);
          var id := AddEntry([l]);
          created := created + [id];
        } else {
          assert AdjustLines(adjs[..k + 1]) == lines + [];
          assert lines + [] == lines;
        }
        k := k + 1;
      }
      FirstFailureAt(adjs, k);
    }
  }

  /** The adjustments of the API test: one entry of quantity 2 creates exactly one stock entry. */
  lemma OneAdjustmentOneEntry(product: int)
    ensures AdjustLines([Adjust(product, 2.0)]) == [StockLine(product, 2.0)]
  {
    assert [Adjust(product, 2.0)][..0] == [];
  }

  /** Malformed entries and zero quantities create nothing. */
  lemma {:induction false} NothingToApply(adjs: seq<Adjustment>)
    requires forall a :: a in adjs ==> !Applies(a)
    ensures AdjustLines(adjs) == []
    decreases |adjs|
  {
    if adjs != [] {
      NothingToApply(adjs[..|adjs| - 1]);
    }
  }

  // ------------------------------------------------------------ ledger balances

  datatype LedgerRow = LedgerRow(product: int, qtyChange: real)

  /** `Sum('qty_change')` over one product's ledger rows. */
  function BalanceOf(ledger: seq<LedgerRow>, product: int): real
  {
    Sum(Filter(ledger, (r: LedgerRow) => r.product == product), (r: LedgerRow) => r.qtyChange)
  }

  /** Whether the ledger holds a movement of that product. */
  predicate Moves(ledger: seq<LedgerRow>, product: int)
  {
    exists i :: 0 <= i < |ledger| && ledger[i].product == product
  }

  /**
   * The products with a movement, each once, in the order of their first
   * movement: the `GROUP BY product` key column.
   */
  function LedgerProducts(ledger: seq<LedgerRow>): (r: seq<int>)
    ensures Distinct(r)
    ensures forall p :: p in r <==> Moves(ledger, p)
  {
    var ids := Map(ledger, (r: LedgerRow) => r.product);
    assert forall p :: p in ids <==> Moves(ledger, p) by {
      forall p | Moves(ledger, p) ensures p in ids {
        var i :| 0 <= i < |ledger| && ledger[i].product == p;
        assert ids[i] == p;
      }
    }
    Dedup(ids)
  }

  datatype StockBalance = StockBalance(product: int, balance: real)

  /** The name a stock row is ordered by: that of its product. */
  function ProductName(name: int -> string): StockBalance -> string
  {
    (b: StockBalance) => name(b.product)
  }

  /** The row `current_stock` reports for a product with a movement. */
  predicate StockRowOf(ledger: seq<LedgerRow>, b: StockBalance)
  {
    Moves(ledger, b.product) && b.balance == BalanceOf(ledger, b.product)
  }

  /** The rows before ordering, one per ledger product. */
  function StockRows(ledger: seq<LedgerRow>): (rows: seq<StockBalance>)
    ensures |rows| == |LedgerProducts(ledger)|
    ensures Distinct(rows)
    ensures forall b :: b in rows <==> StockRowOf(ledger, b)
  {
    var keys := LedgerProducts(ledger);
    var rows := Map(keys, (p: int) => StockBalance(p, BalanceOf(ledger, p)));
    forall i, j | 0 <= i < j < |rows| ensures rows[i] != rows[j] {
      assert rows[i].product == keys[i] && rows[j].product == keys[j];
    }
    forall b | StockRowOf(ledger, b) ensures b in rows {
      var k :| 0 <= k < |keys| && keys[k] == b.product;
      assert rows[k] == b;
    }
    rows
  }

  /** Rows with distinct contents that each depend only on their product name distinct products. */
  lemma DistinctRowsDistinctProducts(ledger: seq<LedgerRow>, r: seq<StockBalance>)
    requires Distinct(r) && forall b :: b in r ==> StockRowOf(ledger, b)
    ensures forall i, j :: 0 <= i < j < |r| ==> r[i].product != r[j].product
  {
    forall i, j | 0 <= i < j < |r| ensures r[i].product != r[j].product {
      assert r[i] in r && r[j] in r;
    }
  }

  /**
   * `current_stock`: one row per product on the ledger with its summed
   * movements. `order_by('product')` follows the `Product` model's default
   * ordering, so the rows are ordered by product name; `name` gives each
   * product's name.
   */
  function CurrentStock(ledger: seq<LedgerRow>, name: int -> string): (r: seq<StockBalance>)
    ensures forall i :: 0 <= i < |r| - 1 ==> LexLe(name(r[i].product), name(r[i + 1].product))
    ensures forall i, j :: 0 <= i < j < |r| ==> r[i].product != r[j].product
    ensures forall b :: b in r <==> StockRowOf(ledger, b)
    ensures |r| == |LedgerProducts(ledger)|
  {
    var rows := StockRows(ledger);
    var r := SortBy(rows, ProductName(name));
    SortedByName(r, name);
    SortByDistinct(rows, ProductName(name));
    SameRows(ledger, rows, r);
    r
  }

  lemma SortedByName(r: seq<StockBalance>, name: int -> string)
    requires SortedBy(r, ProductName(name))
    ensures forall i :: 0 <= i < |r| - 1 ==> LexLe(name(r[i].product), name(r[i + 1].product))
  {
  }

  /** A reordering of the rows, without repeats, holds one row per ledger product. */
  lemma SameRows(ledger: seq<LedgerRow>, rows: seq<StockBalance>, r: seq<StockBalance>)
    requires multiset(r) == multiset(rows) && Distinct(r)
    requires forall b :: b in rows <==> StockRowOf(ledger, b)
    ensures forall b :: b in r <==> StockRowOf(ledger, b)
    ensures forall i, j :: 0 <= i < j < |r| ==> r[i].product != r[j].product
  {
    assert forall b :: b in r <==> b in multiset(rows);
    DistinctRowsDistinctProducts(ledger, r);
  }

  /** A product's balance moves by exactly the movements appended for it. */
  lemma BalanceAppend(ledger: seq<LedgerRow>, more: seq<LedgerRow>, product: int)
    ensures BalanceOf(ledger + more, product) == BalanceOf(ledger, product) + BalanceOf(more, product)
  {
    var p := (r: LedgerRow) => r.product == product;
    FilterAppend(ledger, more, p);
    SumAppend(Filter(ledger, p), Filter(more, p), (r: LedgerRow) => r.qtyChange);
  }

  // ------------------------------------------------------------ low stock

  datatype InventoryRow = InventoryRow(product: int, sku: string, name: string, reorderLevel: real)

  datatype LowRow = LowRow(product: int, sku: string, name: string, balance: real)

  /** `Decimal(request.query_params.get('threshold', '0'))`. */
  datatype Threshold = Absent | Unparsable | NotANumber | Number(value: real)

  /** Whether the row reaches the comparison with the threshold: a ledger product under a non-zero reorder level. */
  predicate BelowReorder(inv: InventoryRow, ledger: seq<LedgerRow>)
  {
    Moves(ledger, inv.product) && inv.reorderLevel != 0.0 && BalanceOf(ledger, inv.product) <= inv.reorderLevel
  }

  predicate IsLow(inv: InventoryRow, ledger: seq<LedgerRow>, t: real)
  {
    BelowReorder(inv, ledger) && BalanceOf(ledger, inv.product) <= t
  }

  /** The report rows for a numeric threshold, in inventory order. */
  function LowRows(inventory: seq<InventoryRow>, ledger: seq<LedgerRow>, t: real): (r: seq<LowRow>)
    ensures |r| <= |inventory|
    decreases |inventory|
  {
    if inventory == [] then []
    else
      var x := inventory[|inventory| - 1];
      LowRows(inventory[..|inventory| - 1], ledger, t)
        + if IsLow(x, ledger, t) then [LowRow(x.product, x.sku, x.name, BalanceOf(ledger, x.product))] else []
  }

  /** Each reported row is a low inventory row with its balance, and every low row is reported. */
  lemma {:induction false} LowRowsExact(inventory: seq<InventoryRow>, ledger: seq<LedgerRow>, t: real)
    ensures forall l :: l in LowRows(inventory, ledger, t) <==>
              exists x :: x in inventory && IsLow(x, ledger, t)
                          && l == LowRow(x.product, x.sku, x.name, BalanceOf(ledger, x.product))
    decreases |inventory|
  {
    if inventory != [] {
      var init := inventory[..|inventory| - 1];
      LowRowsExact(init, ledger, t);
      assert inventory == init + [inventory[|inventory| - 1]];
    }
  }

  /**
   * `low_stock`: `Err` is the server error of an unparsable threshold, or of
   * a NaN threshold once some row reaches the comparison with it.
   */
  method LowStock(inventory: seq<InventoryRow>, ledger: seq<LedgerRow>, threshold: Threshold)
    returns (r: Result<seq<LowRow>, ()>)
    ensures threshold == Unparsable ==> r.Err?
    ensures threshold == NotANumber ==> (r.Err? <==> exists x :: x in inventory && BelowReorder(x, ledger))
    ensures threshold == Absent ==> r == Ok(LowRows(inventory, ledger, 0.0))
    ensures threshold.Number? ==> r == Ok(LowRows(inventory, ledger, threshold.value))
  {
    if threshold == Unparsable {
      return Err(());
    }
    var t := if threshold.Number? then threshold.value else 0.0;
    var low: seq<LowRow> := [];
    var i := 0;
    while i < |inventory|
      invariant 0 <= i <= |inventory|
      invariant low == LowRows(inventory[..i], ledger, t)
      invariant threshold == NotANumber ==> forall x :: x in inventory[..i] ==> !BelowReorder(x, ledger)
      decreases |inventory| - i
    {
      var x := inventory[i];
      assert inventory[..i + 1][..i] == inventory[..i];
      assert inventory[..i + 1] == inventory[..i] + [x];
      if Moves(ledger, x.product) {
        var bal := BalanceOf(ledger, x.product);
        if x.reorderLevel != 0.0 && bal <= x.reorderLevel {
          if threshold == NotANumber {
            assert x in inventory && BelowReorder(x, ledger);
            return Err(());
          }
          if bal <= t {
            low := low + [LowRow(x.product, x.sku, x.name, bal)];
          }
        }
      }
      i := i + 1;
    }
    assert inventory[..i] == inventory;
    r := Ok(low);
  }

  /** With no threshold given, only products at or below zero are reported. */
  lemma DefaultThresholdReportsEmptyStock(inv: InventoryRow, ledger: seq<LedgerRow>)
    ensures IsLow(inv, ledger, 0.0) <==> BelowReorder(inv, ledger) && BalanceOf(ledger, inv.product) <= 0.0
  {
  }

  /** Raising the threshold can only add products to the report. */
  lemma LowStockMonotone(inv: InventoryRow, ledger: seq<LedgerRow>, t: real, t2: real)
    requires t <= t2 && IsLow(inv, ledger, t)
    ensures IsLow(inv, ledger, t2)
  {
  }

  // ------------------------------------------------------------ valuation

  datatype ValuationRow = ValuationRow(product: int, sku: string, qty: real, value: real)

  function ValueOf(p: int, ledger: seq<LedgerRow>, catalog: map<int, ProductRow>): ValuationRow
    requires p in catalog
  {
    var qty := BalanceOf(ledger, p);
    ValuationRow(p, catalog[p].sku, qty, qty * catalog[p].costPrice)
  }

  /** Every ledger row names a catalogue product (the ledger's foreign key). */
  predicate Catalogued(ledger: seq<LedgerRow>, catalog: map<int, ProductRow>)
  {
    forall i :: 0 <= i < |ledger| ==> ledger[i].product in catalog
  }

  /**
   * `valuation`: for each product on the ledger (in the order of its first movement here),
   * its summed quantity and quantity × cost price.
   */
  method Valuation(ledger: seq<LedgerRow>, catalog: map<int, ProductRow>) returns (data: seq<ValuationRow>)
    requires Catalogued(ledger, catalog)
    ensures |data| == |LedgerProducts(ledger)|
    ensures forall i :: 0 <= i < |data| ==>
              LedgerProducts(ledger)[i] in catalog && data[i] == ValueOf(LedgerProducts(ledger)[i], ledger, catalog)
  {
    var keys := LedgerProducts(ledger);
    data := [];
    var i := 0;
    while i < |keys|
      invariant 0 <= i <= |keys|
      invariant |data| == i
      invariant forall k :: 0 <= k < i ==> keys[k] in catalog && data[k] == ValueOf(keys[k], ledger, catalog)
      decreases |keys| - i
    {
      var p := keys[i];
      assert p in keys;
      var j :| 0 <= j < |ledger| && ledger[j].product == p;
      data := data + [ValueOf(p, ledger, catalog)];
      i := i + 1;
    }
  }

  /**
   * The valuation lists the products of `current_stock`, each with the same
   * quantity; the two may list them in different orders.
   */
  lemma ValuationMatchesCurrentStock(ledger: seq<LedgerRow>, catalog: map<int, ProductRow>, name: int -> string,
                                     data: seq<ValuationRow>)
    requires Catalogued(ledger, catalog)
    requires |data| == |LedgerProducts(ledger)|
    requires forall i :: 0 <= i < |data| ==>
               LedgerProducts(ledger)[i] in catalog && data[i] == ValueOf(LedgerProducts(ledger)[i], ledger, catalog)
    ensures |data| == |CurrentStock(ledger, name)|
    ensures forall i :: 0 <= i < |data| ==> StockBalance(data[i].product, data[i].qty) in CurrentStock(ledger, name)
    ensures forall b :: b in CurrentStock(ledger, name) ==>
              exists i :: 0 <= i < |data| && b == StockBalance(data[i].product, data[i].qty)
    ensures forall i :: 0 <= i < |data| ==> data[i].value == data[i].qty * catalog[data[i].product].costPrice
  {
    ValuationRowsAreStockRows(ledger, catalog, data);
    StockRowsAreValued(ledger, catalog, name, data);
  }

  lemma ValuationRowsAreStockRows(ledger: seq<LedgerRow>, catalog: map<int, ProductRow>, data: seq<ValuationRow>)
    requires |data| == |LedgerProducts(ledger)|
    requires forall i :: 0 <= i < |data| ==>
               LedgerProducts(ledger)[i] in catalog && data[i] == ValueOf(LedgerProducts(ledger)[i], ledger, catalog)
    ensures forall i :: 0 <= i < |data| ==> StockRowOf(ledger, StockBalance(data[i].product, data[i].qty))
    ensures forall i :: 0 <= i < |data| ==>
              data[i].product in catalog && data[i].value == data[i].qty * catalog[data[i].product].costPrice
  {
    var keys := LedgerProducts(ledger);
    forall i | 0 <= i < |data|
      ensures StockRowOf(ledger, StockBalance(data[i].product, data[i].qty))
      ensures data[i].product in catalog && data[i].value == data[i].qty * catalog[data[i].product].costPrice
    {
      var p := keys[i];
      assert data[i] == ValueOf(p, ledger, catalog);
      assert data[i].product == p && data[i].qty == BalanceOf(ledger, p);
      assert data[i].value == data[i].qty * catalog[p].costPrice;
      assert p in keys;
    }
  }

  lemma StockRowsAreValued(ledger: seq<LedgerRow>, catalog: map<int, ProductRow>, name: int -> string,
                           data: seq<ValuationRow>)
    requires |data| == |LedgerProducts(ledger)|
    requires forall i :: 0 <= i < |data| ==>
               LedgerProducts(ledger)[i] in catalog && data[i] == ValueOf(LedgerProducts(ledger)[i], ledger, catalog)
    ensures forall b :: b in CurrentStock(ledger, name) ==>
              exists i :: 0 <= i < |data| && b == StockBalance(data[i].product, data[i].qty)
  {
    var keys := LedgerProducts(ledger);
    forall b | b in CurrentStock(ledger, name)
      ensures exists i :: 0 <= i < |data| && b == StockBalance(data[i].product, data[i].qty)
    {
      assert b.product in keys;
      var i :| 0 <= i < |keys| && keys[i] == b.product;
      assert b == StockBalance(data[i].product, data[i].qty);
    }
  }
}
