/**
 * Stock arithmetic: folding movements into a stock level, classifying alert
 * severity, validating manual adjustments, per-type movement statistics over a
 * date window, the stock report, sorting and grouping movements.
 */
module StockUtils {
  import opened Wrappers
  import opened Seqs
  import opened Types

  // ---------------------------------------------------------------------------
  // Current stock

  /** One step of the fold: deltas add or subtract, an adjustment overrides the running total. */
  function ApplyMovement(total: int, m: StockMovement): (r: int)
    ensures m.kind == Entrada ==> r - total == m.quantity
    ensures m.kind == Salida ==> total - r == m.quantity
    ensures m.kind == Ajuste ==> r == m.newStock
  {
    match m.kind
    case Entrada => total + m.quantity
    case Salida => total - m.quantity
    case Ajuste => m.newStock
  }

  /** Sum of `quantity` over the movements of one kind. */
  function SumQuantity(ms: seq<StockMovement>, kind: MovementType): int {
    if ms == [] then 0
    else SumQuantity(ms[..|ms| - 1], kind) + (if ms[|ms| - 1].kind == kind then ms[|ms| - 1].quantity else 0)
  }

  predicate NoAdjustments(ms: seq<StockMovement>) {
    forall i :: 0 <= i < |ms| ==> ms[i].kind != Ajuste
  }

  /**
   * The stock a list of movements leads to, folding left to right from 0.
   * Without adjustments it is the entradas minus the salidas.
   */
  function CalculateCurrentStock(ms: seq<StockMovement>): (r: int)
    ensures NoAdjustments(ms) ==> r == SumQuantity(ms, Entrada) - SumQuantity(ms, Salida)
  {
    if ms == [] then 0
    else ApplyMovement(CalculateCurrentStock(ms[..|ms| - 1]), ms[|ms| - 1])
  }

  /** Appending a movement applies exactly one more step to the previous stock. */
  lemma CurrentStockSnoc(ms: seq<StockMovement>, m: StockMovement)
    ensures CalculateCurrentStock(ms + [m]) == ApplyMovement(CalculateCurrentStock(ms), m)
  {
    assert (ms + [m])[..|ms|] == ms;
  }

  /**
   * With an adjustment at position k and none after it, the stock is that
   * adjustment's `newStock` plus the signed deltas that follow it.
   */
  lemma {:induction false} CurrentStockAfterLastAdjustment(ms: seq<StockMovement>, k: nat)
    requires k < |ms| && ms[k].kind == Ajuste
    requires forall j :: k < j < |ms| ==> ms[j].kind != Ajuste
    ensures CalculateCurrentStock(ms) == ms[k].newStock + SumQuantity(ms[k + 1..], Entrada) - SumQuantity(ms[k + 1..], Salida)
  {
    var n := |ms| - 1;
    if n == k {
      assert ms[k + 1..] == [];
    } else {
      CurrentStockAfterLastAdjustment(ms[..n], k);
      assert ms[..n][k + 1..] == ms[k + 1..n];
      assert ms[k + 1..][..|ms[k + 1..]| - 1] == ms[k + 1..n];
    }
  }

  /** Whatever precedes a list that contains an adjustment has no effect on its stock. */
  lemma {:induction false} CurrentStockIgnoresPrefix(before: seq<StockMovement>, ms: seq<StockMovement>)
    requires !NoAdjustments(ms)
    ensures CalculateCurrentStock(before + ms) == CalculateCurrentStock(ms)
  {
    var n := |ms| - 1;
    assert (before + ms)[..|before + ms| - 1] == before + ms[..n];
    if ms[n].kind != Ajuste {
      CurrentStockIgnoresPrefix(before, ms[..n]);
    }
  }

  // ---------------------------------------------------------------------------
  // Alert severity

  /** How serious an alert classification is: none < low < critical < out of stock. */
  function Severity(t: Option<AlertType>): nat {
    match t
    case None => 0
    case Some(StockBajo) => 1
    case Some(StockCritico) => 2
    case Some(SinStock) => 3
  }

  /**
   * The alert a stock level calls for. Zero stock is `sin_stock` whatever the
   * minimum; the comparison with `minStock * 0.5` is exact for integers as
   * `2 * currentStock <= minStock`.
   */
  function GetAlertType(currentStock: int, minStock: int): (r: Option<AlertType>)
    ensures currentStock == 0 <==> r == Some(SinStock)
    ensures r == Some(StockCritico) <==> currentStock != 0 && 2 * currentStock <= minStock
    ensures r == Some(StockBajo) <==> currentStock != 0 && minStock < 2 * currentStock && currentStock <= minStock
    ensures r == None <==> currentStock != 0 && minStock < 2 * currentStock && minStock < currentStock
  {
    if currentStock == 0 then Some(SinStock)
    else if 2 * currentStock <= minStock then Some(StockCritico)
    else if currentStock <= minStock then Some(StockBajo)
    else None
  }

  /** For positive stock the three bands are (0, min/2], (min/2, min] and above min. */
  lemma AlertTypeForPositiveStock(currentStock: int, minStock: int)
    requires 0 < currentStock
    ensures GetAlertType(currentStock, minStock) ==
      if 2 * currentStock <= minStock then Some(StockCritico)
      else if currentStock <= minStock then Some(StockBajo)
      else None
  {
  }

  /**
   * The zero test is an equality, not `<= 0`: a negative stock under a
   * non-negative minimum is classified `stock_critico`, not `sin_stock`.
   */
  lemma NegativeStockIsCritical(currentStock: int, minStock: int)
    requires currentStock < 0 <= minStock
    ensures GetAlertType(currentStock, minStock) == Some(StockCritico)
  {
  }

  /** Less stock never means a milder alert. */
  lemma SeverityAntitone(lower: int, higher: int, minStock: int)
    requires 0 <= lower <= higher
    ensures Severity(GetAlertType(higher, minStock)) <= Severity(GetAlertType(lower, minStock))
  {
  }

  // ---------------------------------------------------------------------------
  // Adjustment validation

  /** Characters `String.prototype.trim` removes: ECMAScript white space and line terminators. */
  predicate IsJsWhitespace(c: char) {
    c == '\t' || c == '\n' || c == '\U{000B}' || c == '\U{000C}' || c == '\r' || c == ' '
    || c == '\U{00A0}' || c == '\U{1680}' || ('\U{2000}' <= c <= '\U{200A}')
    || c == '\U{2028}' || c == '\U{2029}' || c == '\U{202F}' || c == '\U{205F}'
    || c == '\U{3000}' || c == '\U{FEFF}'
  }

  predicate AllWhitespace(s: string) {
    forall i :: 0 <= i < |s| ==> IsJsWhitespace(s[i])
  }

  /** `s` without its leading white space. */
  function TrimStart(s: string): (r: string)
    ensures |r| <= |s| && r == s[|s| - |r|..]
    ensures AllWhitespace(s[..|s| - |r|])
    ensures r == [] || !IsJsWhitespace(r[0])
  {
    if s == [] || !IsJsWhitespace(s[0]) then s
    else
      var r := TrimStart(s[1..]);
      assert s[..|s| - |r|] == [s[0]] + s[1..][..|s[1..]| - |r|];
      r
  }

  /** `s` without its trailing white space. */
  function TrimEnd(s: string): (r: string)
    ensures |r| <= |s| && r == s[..|r|]
    ensures AllWhitespace(s[|r|..])
    ensures r == [] || !IsJsWhitespace(r[|r| - 1])
  {
    if s == [] || !IsJsWhitespace(s[|s| - 1]) then s
    else
      var r := TrimEnd(s[..|s| - 1]);
      assert s[|r|..] == s[..|s| - 1][|r|..] + [s[|s| - 1]];
      r
  }

  /** `String.prototype.trim`: empty exactly when `s` is all white space, else bounded by non-space. */
  function Trim(s: string): (r: string)
    ensures |r| <= |s|
    ensures r == [] <==> AllWhitespace(s)
    ensures r != [] ==> !IsJsWhitespace(r[0]) && !IsJsWhitespace(r[|r| - 1])
    ensures exists i: nat :: PaddedAt(s, i, r)
  {
    var t := TrimStart(s);
    var r := TrimEnd(t);
    TrimIsInfix(s, t, r);
    TrimEmptyIffWhite(s, t, r);
    r
  }

  /** The trimmed string is empty exactly when everything was white space. */
  lemma TrimEmptyIffWhite(s: string, t: string, r: string)
    requires |t| <= |s| && t == s[|s| - |t|..] && AllWhitespace(s[..|s| - |t|])
    requires t == [] || !IsJsWhitespace(t[0])
    requires |r| <= |t| && r == t[..|r|] && AllWhitespace(t[|r|..])
    ensures r == [] <==> AllWhitespace(s)
  {
    assert s == s[..|s| - |t|] + t;
    if r == [] {
      assert t[|r|..] == t;
      AllWhitespaceConcat(s[..|s| - |t|], t);
    } else {
      assert r[0] == t[0] == s[|s| - |t|];
    }
  }

  /** `s` is `r` with all-white text before it (the first `i` characters) and after it. */
  predicate PaddedAt(s: string, i: nat, r: string) {
    i + |r| <= |s| && r == s[i..i + |r|] && AllWhitespace(s[..i]) && AllWhitespace(s[i + |r|..])
  }

  /** The trimmed string sits between an all-white prefix and an all-white suffix of `s`. */
  lemma TrimIsInfix(s: string, t: string, r: string)
    requires |t| <= |s| && t == s[|s| - |t|..] && AllWhitespace(s[..|s| - |t|])
    requires |r| <= |t| && r == t[..|r|] && AllWhitespace(t[|r|..])
    ensures exists i: nat :: PaddedAt(s, i, r)
  {
    var i := |s| - |t|;
    assert r == s[i..i + |r|] by {
      forall k | 0 <= k < |r| ensures r[k] == s[i + k] {
        assert r[k] == t[k] == s[i + k];
      }
    }
    assert s[i + |r|..] == t[|r|..] by {
      forall k | 0 <= k < |s| - (i + |r|) ensures s[i + |r|..][k] == t[|r|..][k] {}
    }
    assert PaddedAt(s, i, r);
  }

  lemma AllWhitespaceConcat(a: string, b: string)
    requires AllWhitespace(a) && AllWhitespace(b)
    ensures AllWhitespace(a + b)
  {
    forall i | 0 <= i < |a + b| ensures IsJsWhitespace((a + b)[i]) {
      if i < |a| { assert (a + b)[i] == a[i]; } else { assert (a + b)[i] == b[i - |a|]; }
    }
  }

  const NegativeStockMessage := "El stock no puede ser negativo"
  const MissingReasonMessage := "Debe proporcionar un motivo para el ajuste"
  const ShortReasonMessage := "El motivo debe tener al menos 3 caracteres"

  /** `{ isValid, error? }`. */
  datatype AdjustmentCheck = AdjustmentCheck(isValid: bool, error: Option<string>)

  /**
   * A manual adjustment is valid iff the new stock is not negative and the
   * trimmed reason has at least three characters; the first failing check, in
   * the order negative, missing, too short, gives the message.
   */
  function ValidateStockAdjustment(currentStock: int, newStock: int, reason: string): (r: AdjustmentCheck)
    ensures r.isValid <==> 0 <= newStock && Utf16Length(Trim(reason)) >= 3
    ensures r.isValid <==> r.error.None?
    ensures newStock < 0 ==> r.error == Some(NegativeStockMessage)
    ensures 0 <= newStock && AllWhitespace(reason) ==> r.error == Some(MissingReasonMessage)
    ensures 0 <= newStock && !AllWhitespace(reason) && Utf16Length(Trim(reason)) < 3 ==> r.error == Some(ShortReasonMessage)
  {
    if newStock < 0 then AdjustmentCheck(false, Some(NegativeStockMessage))
    else if Trim(reason) == [] then AdjustmentCheck(false, Some(MissingReasonMessage))
    else if Utf16Length(Trim(reason)) < 3 then AdjustmentCheck(false, Some(ShortReasonMessage))
    else AdjustmentCheck(true, None)
  }

  /** The current stock is passed for context only: it never changes the verdict. */
  lemma ValidationIgnoresCurrentStock(a: int, b: int, newStock: int, reason: string)
    ensures ValidateStockAdjustment(a, newStock, reason) == ValidateStockAdjustment(b, newStock, reason)
  {
  }

  /** A two-letter reason such as "ok" is too short, even for a positive new stock. */
  lemma TwoLetterReasonIsTooShort(currentStock: int, newStock: nat)
    ensures ValidateStockAdjustment(currentStock, newStock, "ok") == AdjustmentCheck(false, Some(ShortReasonMessage))
  {
    assert !IsJsWhitespace('o') && !IsJsWhitespace('k');
    assert !AllWhitespace("ok") by { assert !IsJsWhitespace("ok"[0]); }
  }

  /**
   * Two emoji make a long enough reason: each counts as two code units, so the
   * trimmed reason has length 4 although it holds two characters.
   */
  lemma TwoEmojiReasonIsLongEnough(currentStock: int, newStock: nat)
    ensures ValidateStockAdjustment(currentStock, newStock, "\U{1F600}\U{1F600}") == AdjustmentCheck(true, None)
  {
    var e := "\U{1F600}\U{1F600}";
    assert !IsJsWhitespace(e[0]) && !IsJsWhitespace(e[1]);
    assert Trim(e) == e by {
      assert TrimStart(e) == e;
      assert TrimEnd(e) == e;
    }
    assert Utf16Length(e) == 4 by {
      assert e[1..] == "\U{1F600}";
      assert e[1..][1..] == [];
    }
  }

  // ---------------------------------------------------------------------------
  // Movement statistics

  /** Inside the inclusive window; an absent bound leaves that side open. */
  predicate InWindow(m: StockMovement, startDate: Option<Time>, endDate: Option<Time>) {
    (startDate.None? || startDate.value <= m.createdAt) && (endDate.None? || m.createdAt <= endDate.value)
  }

  /** The movements `getMovementStats` keeps, in order. */
  function MovementsInWindow(ms: seq<StockMovement>, startDate: Option<Time>, endDate: Option<Time>): (r: seq<StockMovement>)
    ensures forall m :: m in r <==> m in ms && InWindow(m, startDate, endDate)
    ensures startDate.None? && endDate.None? ==> r == ms
  {
    Filter(ms, (m: StockMovement) => InWindow(m, startDate, endDate))
  }

  /** Sum of `|quantity|` over the movements of one kind. */
  function SumAbsQuantity(ms: seq<StockMovement>, kind: MovementType): nat {
    if ms == [] then 0
    else
      var q := ms[|ms| - 1].quantity;
      SumAbsQuantity(ms[..|ms| - 1], kind) + (if ms[|ms| - 1].kind == kind then (if q < 0 then -q else q) else 0)
  }

  /** Number of movements of one kind. */
  function CountOfKind(ms: seq<StockMovement>, kind: MovementType): nat {
    if ms == [] then 0
    else CountOfKind(ms[..|ms| - 1], kind) + (if ms[|ms| - 1].kind == kind then 1 else 0)
  }

  datatype MovementStats = MovementStats(
    totalEntradas: int,
    totalSalidas: int,
    totalAjustes: nat,
    cantidadEntradas: nat,
    cantidadSalidas: nat,
    cantidadAjustes: nat)

  /** Per-type totals and counts of a list of movements, each summed on its own. */
  function StatsOf(ms: seq<StockMovement>): MovementStats {
    MovementStats(
      SumQuantity(ms, Entrada), SumQuantity(ms, Salida), SumAbsQuantity(ms, Ajuste),
      CountOfKind(ms, Entrada), CountOfKind(ms, Salida), CountOfKind(ms, Ajuste))
  }

  /** Filter to the window, then accumulate every total and count in one pass. */
  method GetMovementStats(movements: seq<StockMovement>, startDate: Option<Time>, endDate: Option<Time>)
    returns (stats: MovementStats)
    ensures stats == StatsOf(MovementsInWindow(movements, startDate, endDate))
  {
    var kept := MovementsInWindow(movements, startDate, endDate);
    stats := MovementStats(0, 0, 0, 0, 0, 0);
    var i := 0;
    while i < |kept|
      invariant 0 <= i <= |kept|
      invariant stats == StatsOf(kept[..i])
    {
      var m := kept[i];
      assert kept[..i + 1][..i] == kept[..i];
      match m.kind {
        case Entrada =>
          stats := stats.(totalEntradas := stats.totalEntradas + m.quantity,
                          cantidadEntradas := stats.cantidadEntradas + 1);
        case Salida =>
          stats := stats.(totalSalidas := stats.totalSalidas + m.quantity,
                          cantidadSalidas := stats.cantidadSalidas + 1);
        case Ajuste =>
          stats := stats.(totalAjustes := stats.totalAjustes + (if m.quantity < 0 then -m.quantity else m.quantity),
                          cantidadAjustes := stats.cantidadAjustes + 1);
      }
      i := i + 1;
    }
    assert kept[..i] == kept;
  }

  /** The three counts together cover every movement counted. */
  lemma {:induction false} CountsCoverAll(ms: seq<StockMovement>)
    ensures CountOfKind(ms, Entrada) + CountOfKind(ms, Salida) + CountOfKind(ms, Ajuste) == |ms|
  {
    if ms != [] {
      CountsCoverAll(ms[..|ms| - 1]);
    }
  }

  /** Within the kept movements, the adjustments' total is at least their number when none is zero. */
  lemma {:induction false} AdjustmentTotalBoundsCount(ms: seq<StockMovement>)
    requires forall i :: 0 <= i < |ms| ==> ms[i].quantity != 0
    ensures CountOfKind(ms, Ajuste) <= SumAbsQuantity(ms, Ajuste)
  {
    if ms != [] {
      AdjustmentTotalBoundsCount(ms[..|ms| - 1]);
    }
  }

  // ---------------------------------------------------------------------------
  // Stock report

  const WeekMillis := 7 * 24 * 60 * 60 * 1000

  predicate IsActiveAlert(a: StockAlert) { a.isActive }
  predicate IsStockBajo(a: StockAlert) { a.kind == StockBajo }
  predicate IsStockCritico(a: StockAlert) { a.kind == StockCritico }
  predicate IsSinStock(a: StockAlert) { a.kind == SinStock }

  /** Every alert has exactly one of the three types. */
  lemma {:induction false} AlertTypesPartition(alerts: seq<StockAlert>)
    ensures Count(alerts, IsStockBajo) + Count(alerts, IsStockCritico) + Count(alerts, IsSinStock) == |alerts|
  {
    if alerts != [] {
      AlertTypesPartition(alerts[..|alerts| - 1]);
    }
  }

  /** Σ stock × costPrice over the catalog. */
  function StockValue(products: seq<Product>): real {
    if products == [] then 0.0
    else
      var p := products[|products| - 1];
      StockValue(products[..|products| - 1]) + p.stock as real * p.costPrice
  }

  /** Movements created within the last seven days before `now`. */
  function RecentMovementsSince(ms: seq<StockMovement>, now: Time): (r: seq<StockMovement>)
    ensures forall m :: m in r <==> m in ms && now - WeekMillis <= m.createdAt
  {
    Filter(ms, (m: StockMovement) => now - WeekMillis <= m.createdAt)
  }

  datatype StockReport = StockReport(
    totalProducts: nat,
    totalStockValue: real,
    lowStockProducts: nat,
    criticalStockProducts: nat,
    outOfStockProducts: nat,
    recentMovements: nat,
    activeAlerts: nat)

  /**
   * The report summary. Its three alert counts come from the active alerts
   * only and split them by type; `now` is the wall clock.
   */
  function GenerateStockReport(products: seq<Product>, movements: seq<StockMovement>, alerts: seq<StockAlert>, now: Time)
    : (r: StockReport)
    ensures r.totalProducts == |products|
    ensures r.lowStockProducts + r.criticalStockProducts + r.outOfStockProducts == r.activeAlerts <= |alerts|
    ensures r.activeAlerts == |Filter(alerts, IsActiveAlert)|
    ensures r.totalStockValue == StockValue(products)
    ensures r.lowStockProducts == Count(Filter(alerts, IsActiveAlert), IsStockBajo)
    ensures r.criticalStockProducts == Count(Filter(alerts, IsActiveAlert), IsStockCritico)
    ensures r.outOfStockProducts == Count(Filter(alerts, IsActiveAlert), IsSinStock)
    ensures r.recentMovements == |RecentMovementsSince(movements, now)| <= |movements|
  {
    var active := Filter(alerts, IsActiveAlert);
    AlertTypesPartition(active);
    StockReport(
      |products|,
      StockValue(products),
      Count(active, IsStockBajo),
      Count(active, IsStockCritico),
      Count(active, IsSinStock),
      |RecentMovementsSince(movements, now)|,
      |active|)
  }

  // ---------------------------------------------------------------------------
  // Sorting and grouping

  /** Newest first. */
  predicate SortedByDateDesc(ms: seq<StockMovement>) {
    forall i, j :: 0 <= i < j < |ms| ==> ms[i].createdAt >= ms[j].createdAt
  }

  lemma SortedTail(ms: seq<StockMovement>)
    requires ms != [] && SortedByDateDesc(ms)
    ensures SortedByDateDesc(ms[1..])
    ensures forall k :: 0 <= k < |ms[1..]| ==> ms[1..][k].createdAt <= ms[0].createdAt
  {
  }

  lemma SortedCons(x: StockMovement, rest: seq<StockMovement>)
    requires SortedByDateDesc(rest)
    requires forall y :: y in rest ==> y.createdAt <= x.createdAt
    ensures SortedByDateDesc([x] + rest)
  {
    var r := [x] + rest;
    forall i, j | 0 <= i < j < |r| ensures r[i].createdAt >= r[j].createdAt {
      assert r[j] == rest[j - 1];
      if i > 0 {
        assert r[i] == rest[i - 1];
      } else {
        assert rest[j - 1] in rest;
      }
    }
  }

  /** Insert `m` into a newest-first list, ahead of every movement no newer than it. */
  function InsertByDate(m: StockMovement, ms: seq<StockMovement>): (r: seq<StockMovement>)
    requires SortedByDateDesc(ms)
    ensures SortedByDateDesc(r)
    ensures multiset(r) == multiset(ms) + multiset{m}
  {
    if ms == [] || ms[0].createdAt <= m.createdAt then
      SortedCons(m, ms);
      [m] + ms
    else
      SortedTail(ms);
      var rest := InsertByDate(m, ms[1..]);
      assert multiset(ms) == multiset{ms[0]} + multiset(ms[1..]) by {
        assert ms == [ms[0]] + ms[1..];
      }
      assert forall y :: y in rest ==> y.createdAt <= ms[0].createdAt by {
        forall y | y in rest ensures y.createdAt <= ms[0].createdAt {
          assert y in multiset(rest);
          if y != m {
            assert y in multiset(ms[1..]);
          }
        }
      }
      SortedCons(ms[0], rest);
      assert multiset([ms[0]] + rest) == multiset{ms[0]} + multiset(rest);
      [ms[0]] + rest
  }

  /** A newest-first copy of the movements: a permutation of the input ordered by `createdAt`. */
  function SortMovementsByDate(ms: seq<StockMovement>): (r: seq<StockMovement>)
    ensures SortedByDateDesc(r)
    ensures multiset(r) == multiset(ms)
  {
    if ms == [] then []
    else
      assert ms == [ms[0]] + ms[1..];
      InsertByDate(ms[0], SortMovementsByDate(ms[1..]))
  }

  /** The movements of one product, in their stored order. */
  function MovementsOfProduct(ms: seq<StockMovement>, productId: Id): (r: seq<StockMovement>)
    ensures forall m :: m in r <==> m in ms && m.productId == productId
  {
    Filter(ms, (m: StockMovement) => m.productId == productId)
  }

  lemma MovementsOfProductSnoc(ms: seq<StockMovement>, m: StockMovement, productId: Id)
    ensures MovementsOfProduct(ms + [m], productId)
         == MovementsOfProduct(ms, productId) + (if m.productId == productId then [m] else [])
  {
    assert (ms + [m])[..|ms|] == ms;
  }

  /** The product ids that occur in a list of movements. */
  function ProductIds(ms: seq<StockMovement>): set<Id> {
    set m | m in ms :: m.productId
  }

  lemma ProductIdsSnoc(ms: seq<StockMovement>, m: StockMovement)
    ensures ProductIds(ms + [m]) == ProductIds(ms) + {m.productId}
  {
    assert m in ms + [m];
    assert forall x :: x in ms + [m] <==> x in ms || x == m;
  }

  /** `groups` holds one group per product of `ms`: exactly that product's movements, in order. */
  predicate GroupsOf(groups: map<Id, seq<StockMovement>>, ms: seq<StockMovement>) {
    groups.Keys == ProductIds(ms)
    && forall id :: id in groups ==> groups[id] == MovementsOfProduct(ms, id)
  }

  /** Pushing one more movement onto its product's group (creating the group first) keeps the grouping exact. */
  lemma GroupPush(groups: map<Id, seq<StockMovement>>, ms: seq<StockMovement>, m: StockMovement)
    requires GroupsOf(groups, ms)
    ensures GroupsOf(groups[m.productId := (if m.productId in groups then groups[m.productId] else []) + [m]], ms + [m])
  {
    var before := if m.productId in groups then groups[m.productId] else [];
    var g := groups[m.productId := before + [m]];
    assert before == MovementsOfProduct(ms, m.productId) by {
      if m.productId !in groups {
        assert m.productId !in ProductIds(ms);
      }
    }
    assert g.Keys == ProductIds(ms + [m]) by {
      ProductIdsSnoc(ms, m);
    }
    forall id | id in g ensures g[id] == MovementsOfProduct(ms + [m], id) {
      MovementsOfProductSnoc(ms, m, id);
      if id != m.productId {
        assert g[id] == groups[id];
      }
    }
  }

  /**
   * One group per product that has movements, each holding exactly that
   * product's movements in their original order.
   */
  method GroupMovementsByProduct(movements: seq<StockMovement>) returns (groups: map<Id, seq<StockMovement>>)
    ensures groups.Keys == ProductIds(movements)
    ensures forall id :: id in groups ==> groups[id] == MovementsOfProduct(movements, id)
  {
    groups := map[];
    var i := 0;
    while i < |movements|
      invariant 0 <= i <= |movements|
      invariant GroupsOf(groups, movements[..i])
    {
      var m := movements[i];
      assert movements[..i + 1] == movements[..i] + [m];
      GroupPush(groups, movements[..i], m);
      if m.productId !in groups {
        groups := groups[m.productId := []];
      }
      groups := groups[m.productId := groups[m.productId] + [m]];
      i := i + 1;
    }
    assert movements[..i] == movements;
  }
}
