/**
 * The stock ledger: movements, alerts, adjustments and per-product settings,
 * each kept newest first except the settings, which are replaced per product.
 *
 * The alert list keeps two invariants: ids are unique, and at most one alert
 * per (product, type) is active. The pure functions below say what each
 * operation does to a list; the store's methods are proved to do exactly that.
 */
module Stock {
  import opened Wrappers
  import opened Seqs
  import opened Types
  import opened StockUtils
  import Activities

  // ---------------------------------------------------------------------------
  // Movements

  /** A movement as callers hand it to `addMovement`: without id and timestamp. */
  datatype MovementDraft = MovementDraft(
    productId: Id,
    kind: MovementType,
    quantity: int,
    reason: string,
    reference: Option<string>,
    userId: Id,
    previousStock: int,
    newStock: int)

  function StampMovement(d: MovementDraft, id: Id, now: Time): (m: StockMovement)
    ensures m.id == id && m.createdAt == now && m.productId == d.productId && m.kind == d.kind
    ensures m.quantity == d.quantity && m.previousStock == d.previousStock && m.newStock == d.newStock
    ensures m.reason == d.reason && m.reference == d.reference && m.userId == d.userId
  {
    StockMovement(id, d.productId, d.kind, d.quantity, d.reason, d.reference, d.userId, now, d.previousStock, d.newStock)
  }

  /** The activity type a movement is logged under. */
  function ActivityTypeFor(kind: MovementType): Activities.ActivityType {
    match kind
    case Entrada => Activities.Ingreso
    case Salida => Activities.Egreso
    case Ajuste => Activities.CambioProducto
  }

  function MovementLabel(kind: MovementType): string {
    match kind
    case Entrada => "Entrada"
    case Salida => "Salida"
    case Ajuste => "Ajuste"
  }

  /** The activity `addMovement` appends to the activity log when one is registered. */
  function ActivityForMovement(m: StockMovement): (d: Activities.ActivityDraft)
    ensures d.description == MovementLabel(m.kind) + " de stock: " + m.reason
    ensures m.kind == Entrada ==> d.kind == Activities.Ingreso
    ensures m.kind == Salida ==> d.kind == Activities.Egreso
    ensures m.kind == Ajuste ==> d.kind == Activities.CambioProducto
    ensures d.amount == None && d.userId == None && d.metadata == None
  {
    Activities.ActivityDraft(ActivityTypeFor(m.kind), MovementLabel(m.kind) + " de stock: " + m.reason, None, None, None)
  }

  // ---------------------------------------------------------------------------
  // Alerts

  /** An alert as callers hand it to `createAlert`: without id and creation time. */
  datatype AlertDraft = AlertDraft(
    productId: Id,
    kind: AlertType,
    threshold: real,
    currentStock: int,
    isActive: bool,
    resolvedAt: Option<Time>)

  function StampAlert(d: AlertDraft, id: Id, now: Time): (a: StockAlert)
    ensures a.id == id && a.createdAt == now && a.productId == d.productId && a.kind == d.kind
    ensures a.threshold == d.threshold && a.currentStock == d.currentStock
    ensures a.isActive == d.isActive && a.resolvedAt == d.resolvedAt
  {
    StockAlert(id, d.productId, d.kind, d.threshold, d.currentStock, d.isActive, now, d.resolvedAt)
  }

  function AlertIds(alerts: seq<StockAlert>): set<Id> {
    set a | a in alerts :: a.id
  }

  function ActiveAlertIds(alerts: seq<StockAlert>): set<Id> {
    set a | a in alerts && a.isActive :: a.id
  }

  predicate UniqueAlertIds(alerts: seq<StockAlert>) {
    forall i, j :: 0 <= i < j < |alerts| ==> alerts[i].id != alerts[j].id
  }

  predicate AtMostOneActivePerKey(alerts: seq<StockAlert>) {
    forall i, j :: 0 <= i < j < |alerts| && alerts[i].isActive && alerts[j].isActive ==>
      alerts[i].productId != alerts[j].productId || alerts[i].kind != alerts[j].kind
  }

  predicate AlertsWellFormed(alerts: seq<StockAlert>) {
    UniqueAlertIds(alerts) && AtMostOneActivePerKey(alerts)
  }

  /** Holds of the active alerts of one (product, type) key. */
  function ActiveOfKey(productId: Id, kind: AlertType): StockAlert -> bool {
    (a: StockAlert) => a.isActive && a.productId == productId && a.kind == kind
  }

  /** The active alerts of one (product, type) key. */
  function ActiveAlertsFor(alerts: seq<StockAlert>, productId: Id, kind: AlertType): (r: seq<StockAlert>)
    ensures forall a :: a in r <==> a in alerts && a.isActive && a.productId == productId && a.kind == kind
  {
    Filter(alerts, ActiveOfKey(productId, kind))
  }

  /** Changing only alerts of type `k`, in place, leaves the active alerts of every other type as they were. */
  lemma {:induction false} ActiveAlertsForOtherKind(a: seq<StockAlert>, b: seq<StockAlert>, k: AlertType, productId: Id, kind: AlertType)
    requires |a| == |b| && kind != k
    requires forall i :: 0 <= i < |a| ==> b[i] == a[i] || (a[i].kind == k && b[i].kind == k)
    ensures ActiveAlertsFor(b, productId, kind) == ActiveAlertsFor(a, productId, kind)
  {
    if a != [] {
      var n := |a| - 1;
      ActiveAlertsForOtherKind(a[..n], b[..n], k, productId, kind);
      assert ActiveAlertsFor(a, productId, kind) == ActiveAlertsFor(a[..n], productId, kind)
        + (if ActiveOfKey(productId, kind)(a[n]) then [a[n]] else []);
      assert ActiveAlertsFor(b, productId, kind) == ActiveAlertsFor(b[..n], productId, kind)
        + (if ActiveOfKey(productId, kind)(b[n]) then [b[n]] else []);
    }
  }

  /** Position of the first active alert of a key, as `alerts.find` locates it. */
  function FindActiveAlert(alerts: seq<StockAlert>, productId: Id, kind: AlertType): (r: Option<nat>)
    ensures r.None? <==> forall i :: 0 <= i < |alerts| ==>
      !(alerts[i].isActive && alerts[i].productId == productId && alerts[i].kind == kind)
    ensures r.Some? ==> (r.value < |alerts| && alerts[r.value].isActive
      && alerts[r.value].productId == productId && alerts[r.value].kind == kind)
  {
    FindIndex(alerts, (a: StockAlert) => a.isActive && a.productId == productId && a.kind == kind)
  }

  /** Every alert carrying `id` gets the new `currentStock`; the rest are untouched. */
  function SetCurrentStockById(alerts: seq<StockAlert>, id: Id, currentStock: int): (r: seq<StockAlert>)
    ensures |r| == |alerts|
  {
    seq(|alerts|, k requires 0 <= k < |alerts| =>
      if alerts[k].id == id then alerts[k].(currentStock := currentStock) else alerts[k])
  }

  /** The alert list after `createAlert`: refresh the active alert of the key, or prepend a new one. */
  function AlertsAfterCreate(alerts: seq<StockAlert>, d: AlertDraft, id: Id, now: Time): (r: seq<StockAlert>)
    ensures |r| == |alerts| + (if FindActiveAlert(alerts, d.productId, d.kind).Some? then 0 else 1)
    ensures d.isActive ==> exists k :: 0 <= k < |r| && r[k].isActive && r[k].productId == d.productId
                                       && r[k].kind == d.kind && r[k].currentStock == d.currentStock
  {
    match FindActiveAlert(alerts, d.productId, d.kind)
    case Some(i) =>
      var r := SetCurrentStockById(alerts, alerts[i].id, d.currentStock);
      assert r[i].isActive && r[i].currentStock == d.currentStock;
      r
    case None =>
      var r := [StampAlert(d, id, now)] + alerts;
      assert r[0] == StampAlert(d, id, now);
      r
  }

  /** With unique ids, refreshing an alert changes that one alert's `currentStock` and nothing else. */
  lemma CreateAlertRefreshesOnlyTheMatch(alerts: seq<StockAlert>, d: AlertDraft, id: Id, now: Time)
    requires AlertsWellFormed(alerts)
    requires FindActiveAlert(alerts, d.productId, d.kind).Some?
    ensures var i := FindActiveAlert(alerts, d.productId, d.kind).value;
      AlertsAfterCreate(alerts, d, id, now) == alerts[i := alerts[i].(currentStock := d.currentStock)]
  {
    var i := FindActiveAlert(alerts, d.productId, d.kind).value;
    var r := AlertsAfterCreate(alerts, d, id, now);
    assert forall k :: 0 <= k < |alerts| && k != i ==> alerts[k].id != alerts[i].id;
    assert r == alerts[i := alerts[i].(currentStock := d.currentStock)];
  }

  /** Without an active alert of the key, exactly one new alert is prepended. */
  lemma CreateAlertInsertsWhenNoMatch(alerts: seq<StockAlert>, d: AlertDraft, id: Id, now: Time)
    requires ActiveAlertsFor(alerts, d.productId, d.kind) == []
    ensures AlertsAfterCreate(alerts, d, id, now) == [StampAlert(d, id, now)] + alerts
  {
  }

  /** `createAlert` keeps ids unique and at most one active alert per key. */
  lemma CreateAlertKeepsWellFormed(alerts: seq<StockAlert>, d: AlertDraft, id: Id, now: Time)
    requires AlertsWellFormed(alerts) && id !in AlertIds(alerts)
    ensures AlertsWellFormed(AlertsAfterCreate(alerts, d, id, now))
  {
    var r := AlertsAfterCreate(alerts, d, id, now);
    match FindActiveAlert(alerts, d.productId, d.kind)
    case Some(i) =>
      CreateAlertRefreshesOnlyTheMatch(alerts, d, id, now);
    case None =>
      assert forall k :: 0 <= k < |alerts| ==> alerts[k] in alerts;
      assert forall k :: 1 <= k < |r| ==> r[k] == alerts[k - 1];
  }

  /** `createAlert` never deactivates an alert. */
  lemma CreateAlertNeverResolves(alerts: seq<StockAlert>, d: AlertDraft, id: Id, now: Time)
    requires AlertsWellFormed(alerts)
    ensures ActiveAlertIds(alerts) <= ActiveAlertIds(AlertsAfterCreate(alerts, d, id, now))
  {
    var r := AlertsAfterCreate(alerts, d, id, now);
    forall x | x in ActiveAlertIds(alerts) ensures x in ActiveAlertIds(r) {
      var a :| a in alerts && a.isActive && a.id == x;
      var k :| 0 <= k < |alerts| && alerts[k] == a;
      match FindActiveAlert(alerts, d.productId, d.kind)
      case Some(i) =>
        CreateAlertRefreshesOnlyTheMatch(alerts, d, id, now);
        assert r[k] in r && r[k].isActive && r[k].id == x;
      case None =>
        assert r[k + 1] == a;
    }
  }

  /** In a well-formed list, an active alert is the only active alert of its key. */
  lemma {:induction false} ActiveAlertIsAloneInItsKey(alerts: seq<StockAlert>, i: nat)
    requires AtMostOneActivePerKey(alerts)
    requires i < |alerts| && alerts[i].isActive
    ensures ActiveAlertsFor(alerts, alerts[i].productId, alerts[i].kind) == [alerts[i]]
  {
    var n := |alerts| - 1;
    var pre := alerts[..n];
    var a := alerts[i];
    assert alerts == pre + [alerts[n]];
    if i == n {
      assert forall x :: x in pre ==> !(x.isActive && x.productId == a.productId && x.kind == a.kind);
    } else {
      ActiveAlertIsAloneInItsKey(pre, i);
    }
  }

  /**
   * Creating the same active alert twice leaves exactly one active alert of
   * that key, carrying the second call's stock.
   */
  lemma CreateAlertTwice(alerts: seq<StockAlert>, d1: AlertDraft, id1: Id, t1: Time, d2: AlertDraft, id2: Id, t2: Time)
    requires AlertsWellFormed(alerts) && id1 !in AlertIds(alerts)
    requires d1.isActive && d2.productId == d1.productId && d2.kind == d1.kind
    ensures var r := AlertsAfterCreate(AlertsAfterCreate(alerts, d1, id1, t1), d2, id2, t2);
      |ActiveAlertsFor(r, d1.productId, d1.kind)| == 1
      && ActiveAlertsFor(r, d1.productId, d1.kind)[0].currentStock == d2.currentStock
  {
    var r1 := AlertsAfterCreate(alerts, d1, id1, t1);
    CreateAlertKeepsWellFormed(alerts, d1, id1, t1);
    match FindActiveAlert(alerts, d1.productId, d1.kind) {
      case Some(i) =>
        CreateAlertRefreshesOnlyTheMatch(alerts, d1, id1, t1);
        assert r1[i].isActive && r1[i].productId == d1.productId && r1[i].kind == d1.kind;
      case None =>
        assert r1[0].isActive && r1[0].productId == d1.productId && r1[0].kind == d1.kind;
    }
    var j := FindActiveAlert(r1, d1.productId, d1.kind).value;
    CreateAlertRefreshesOnlyTheMatch(r1, d2, id2, t2);
    var r := AlertsAfterCreate(r1, d2, id2, t2);
    assert AtMostOneActivePerKey(r) by {
      assert forall k :: 0 <= k < |r| ==> r[k].isActive == r1[k].isActive && r[k].productId == r1[k].productId && r[k].kind == r1[k].kind;
    }
    ActiveAlertIsAloneInItsKey(r, j);
  }

  /** The alert list after `resolveAlert(id)`: every alert with that id is deactivated and stamped. */
  function AlertsAfterResolve(alerts: seq<StockAlert>, id: Id, now: Time): (r: seq<StockAlert>)
    ensures |r| == |alerts|
  {
    seq(|alerts|, k requires 0 <= k < |alerts| =>
      if alerts[k].id == id then alerts[k].(isActive := false, resolvedAt := Some(now)) else alerts[k])
  }

  /** Resolving removes exactly `id` from the active ids, keeps the record, and leaves the list well formed. */
  lemma ResolveAlertDeactivatesOnlyId(alerts: seq<StockAlert>, id: Id, now: Time)
    requires AlertsWellFormed(alerts)
    ensures var r := AlertsAfterResolve(alerts, id, now);
      AlertsWellFormed(r) && AlertIds(r) == AlertIds(alerts)
      && ActiveAlertIds(r) == ActiveAlertIds(alerts) - {id}
  {
    var r := AlertsAfterResolve(alerts, id, now);
    assert forall k :: 0 <= k < |r| ==> r[k].id == alerts[k].id;
    forall x | x in AlertIds(alerts) ensures x in AlertIds(r) {
      var k :| 0 <= k < |alerts| && alerts[k].id == x;
      assert r[k] in r;
    }
    forall x | x in ActiveAlertIds(alerts) - {id} ensures x in ActiveAlertIds(r) {
      var k :| 0 <= k < |alerts| && alerts[k].id == x && alerts[k].isActive;
      assert r[k] in r;
    }
  }

  /** Resolving touches only the alerts carrying `id`: each of them is deactivated and stamped with
      `now` and keeps every other field; every other alert is left exactly as it was. */
  lemma ResolveAlertStampsOnlyId(alerts: seq<StockAlert>, id: Id, now: Time)
    ensures var r := AlertsAfterResolve(alerts, id, now);
      forall k :: 0 <= k < |alerts| ==>
        if alerts[k].id == id then
          !r[k].isActive && r[k].resolvedAt == Some(now)
          && r[k] == alerts[k].(isActive := r[k].isActive, resolvedAt := r[k].resolvedAt)
        else r[k] == alerts[k]
  {
  }

  /** Resolving an id no alert has changes nothing. */
  lemma ResolveUnknownAlertIsNoop(alerts: seq<StockAlert>, id: Id, now: Time)
    requires id !in AlertIds(alerts)
    ensures AlertsAfterResolve(alerts, id, now) == alerts
  {
    assert forall k :: 0 <= k < |alerts| ==> alerts[k].id in AlertIds(alerts);
  }

  // ---------------------------------------------------------------------------
  // Adjustments

  /** An adjustment as callers hand it to `addAdjustment`: without id and timestamp. */
  datatype AdjustmentDraft = AdjustmentDraft(
    productId: Id,
    oldQuantity: int,
    newQuantity: int,
    difference: int,
    reason: string,
    notes: Option<string>,
    userId: Id)

  function StampAdjustment(d: AdjustmentDraft, id: Id, now: Time): (a: StockAdjustment)
    ensures a.id == id && a.createdAt == now && a.productId == d.productId
    ensures a.oldQuantity == d.oldQuantity && a.newQuantity == d.newQuantity && a.difference == d.difference
    ensures a.reason == d.reason && a.notes == d.notes && a.userId == d.userId
  {
    StockAdjustment(id, d.productId, d.oldQuantity, d.newQuantity, d.difference, d.reason, d.notes, d.userId, now)
  }

  /** The `ajuste` movement derived from an adjustment. */
  function AdjustmentMovement(adj: StockAdjustment): (d: MovementDraft)
    ensures d.productId == adj.productId && d.userId == adj.userId && d.reference == None
    ensures d.kind == Ajuste && 0 <= d.quantity
    ensures d.quantity == adj.difference || d.quantity == -adj.difference
    ensures d.previousStock == adj.oldQuantity && d.newStock == adj.newQuantity
    ensures d.reason == "Ajuste manual: " + adj.reason
  {
    MovementDraft(
      adj.productId, Ajuste,
      if adj.difference < 0 then -adj.difference else adj.difference,
      "Ajuste manual: " + adj.reason, None, adj.userId, adj.oldQuantity, adj.newQuantity)
  }

  /** Replaying the derived movement after any history yields the adjustment's new quantity. */
  lemma AdjustmentMovementSetsStock(history: seq<StockMovement>, adj: StockAdjustment, id: Id, now: Time)
    ensures CalculateCurrentStock(history + [StampMovement(AdjustmentMovement(adj), id, now)]) == adj.newQuantity
  {
    CurrentStockSnoc(history, StampMovement(AdjustmentMovement(adj), id, now));
  }

  // ---------------------------------------------------------------------------
  // Settings

  /** Settings as callers hand them to `updateStockSettings`: without the product id. */
  datatype SettingsDraft = SettingsDraft(minStock: int, maxStock: Option<int>, reorderPoint: int, alertEnabled: bool)

  function SettingsFor(productId: Id, d: SettingsDraft): (r: StockSettings)
    ensures r.productId == productId && r.minStock == d.minStock && r.maxStock == d.maxStock
    ensures r.reorderPoint == d.reorderPoint && r.alertEnabled == d.alertEnabled
  {
    StockSettings(productId, d.minStock, d.maxStock, d.reorderPoint, d.alertEnabled)
  }

  /** The rows of every other product, in order. */
  function OtherSettings(settings: seq<StockSettings>, productId: Id): (r: seq<StockSettings>)
    ensures forall s :: s in r <==> s in settings && s.productId != productId
  {
    Filter(settings, (s: StockSettings) => s.productId != productId)
  }

  /**
   * The settings after `updateStockSettings`: the other products' rows in their
   * order, then the one row of this product.
   */
  function SettingsAfterUpdate(settings: seq<StockSettings>, productId: Id, d: SettingsDraft): (r: seq<StockSettings>)
    ensures |r| > 0 && r[|r| - 1] == SettingsFor(productId, d)
    ensures forall k :: 0 <= k < |r| - 1 ==> r[k].productId != productId
    ensures forall s :: s in settings && s.productId != productId ==> s in r
    ensures forall s :: s in r ==> s in settings || s == SettingsFor(productId, d)
  {
    var others := OtherSettings(settings, productId);
    assert forall k :: 0 <= k < |others| ==> others[k] in others;
    others + [SettingsFor(productId, d)]
  }

  /** The settings row `getStockSettings` returns: the first one of the product. */
  function FindSettings(settings: seq<StockSettings>, productId: Id): (r: Option<StockSettings>)
    ensures r.None? <==> forall s :: s in settings ==> s.productId != productId
    ensures r.Some? ==> r.value in settings && r.value.productId == productId
    ensures r.Some? ==> (exists i :: 0 <= i < |settings| && settings[i] == r.value
                                 && forall j :: 0 <= j < i ==> settings[j].productId != productId)
  {
    Find(settings, (s: StockSettings) => s.productId == productId)
  }

  /** At most one settings row per product. */
  predicate UniqueSettings(settings: seq<StockSettings>) {
    forall i, j :: 0 <= i < j < |settings| ==> settings[i].productId != settings[j].productId
  }

  /** Dropping one product's rows keeps the remaining rows one per product. */
  lemma {:induction false} OtherSettingsStayUnique(settings: seq<StockSettings>, productId: Id)
    requires UniqueSettings(settings)
    ensures UniqueSettings(OtherSettings(settings, productId))
  {
    if settings != [] {
      var n := |settings| - 1;
      var prefix := settings[..n];
      assert UniqueSettings(prefix) by {
        assert forall k :: 0 <= k < n ==> prefix[k] == settings[k];
      }
      OtherSettingsStayUnique(prefix, productId);
      var f := OtherSettings(prefix, productId);
      assert settings[..n] == prefix;
      assert OtherSettings(settings, productId) == f + (if settings[n].productId != productId then [settings[n]] else []);
      forall k | 0 <= k < |f| ensures f[k].productId != settings[n].productId {
        assert f[k] in f;
        var m :| 0 <= m < n && prefix[m] == f[k];
      }
    }
  }

  /** `updateStockSettings` keeps one row per product. */
  lemma UpdateKeepsOneRowPerProduct(settings: seq<StockSettings>, productId: Id, d: SettingsDraft)
    requires UniqueSettings(settings)
    ensures UniqueSettings(SettingsAfterUpdate(settings, productId, d))
  {
    OtherSettingsStayUnique(settings, productId);
    var others := OtherSettings(settings, productId);
    var r := SettingsAfterUpdate(settings, productId, d);
    assert r == others + [SettingsFor(productId, d)];
    assert forall k :: 0 <= k < |others| ==> r[k] == others[k];
  }

  /** With one row per product, the lookup returns the product's row, wherever it sits. */
  lemma FindSettingsFindsTheRow(settings: seq<StockSettings>, k: nat)
    requires UniqueSettings(settings) && k < |settings|
    ensures FindSettings(settings, settings[k].productId) == Some(settings[k])
  {
    var found := FindSettings(settings, settings[k].productId);
    var i :| 0 <= i < |settings| && settings[i] == found.value
      && forall j :: 0 <= j < i ==> settings[j].productId != settings[k].productId;
  }

  /** After an update, looking the product up finds exactly the row just written. */
  lemma SettingsReadBack(settings: seq<StockSettings>, productId: Id, d: SettingsDraft)
    ensures FindSettings(SettingsAfterUpdate(settings, productId, d), productId) == Some(SettingsFor(productId, d))
  {
    var r := SettingsAfterUpdate(settings, productId, d);
    var found := FindSettings(r, productId);
    var k :| 0 <= k < |r| && r[k] == found.value;
  }

  // ---------------------------------------------------------------------------
  // Alert checks

  /** The threshold recorded with an alert of each type. */
  function Threshold(kind: AlertType, minStock: int): real {
    match kind
    case SinStock => 0.0
    case StockCritico => minStock as real * 0.5
    case StockBajo => minStock as real
  }

  /**
   * The alerts after `checkStockAlerts`: nothing without enabled settings,
   * otherwise one `createAlert` with the type `getAlertType` gives, if any.
   */
  function AlertsAfterCheck(alerts: seq<StockAlert>, settings: seq<StockSettings>, productId: Id, currentStock: int, id: Id, now: Time)
    : (r: seq<StockAlert>)
    ensures |alerts| <= |r| <= |alerts| + 1
    ensures var st := FindSettings(settings, productId);
      r != alerts ==> st.Some? && st.value.alertEnabled && GetAlertType(currentStock, st.value.minStock).Some?
    ensures var st := FindSettings(settings, productId);
      st.Some? && st.value.alertEnabled && GetAlertType(currentStock, st.value.minStock).Some? ==>
        exists k :: 0 <= k < |r| && r[k].isActive && r[k].productId == productId
                    && r[k].kind == GetAlertType(currentStock, st.value.minStock).value && r[k].currentStock == currentStock
  {
    match FindSettings(settings, productId)
    case None => alerts
    case Some(st) =>
      if !st.alertEnabled then alerts
      else match GetAlertType(currentStock, st.minStock)
        case None => alerts
        case Some(t) => AlertsAfterCreate(alerts, AlertDraft(productId, t, Threshold(t, st.minStock), currentStock, true, None), id, now)
  }

  /** Creating a zero-stock `sin_stock` alert leaves exactly one active one, and the critical alerts alone. */
  lemma CreateSinStockAlert(alerts: seq<StockAlert>, productId: Id, id: Id, now: Time)
    requires AlertsWellFormed(alerts) && id !in AlertIds(alerts)
    ensures var r := AlertsAfterCreate(alerts, AlertDraft(productId, SinStock, 0.0, 0, true, None), id, now);
      |ActiveAlertsFor(r, productId, SinStock)| == 1
      && ActiveAlertsFor(r, productId, SinStock)[0].currentStock == 0
      && ActiveAlertsFor(r, productId, StockCritico) == ActiveAlertsFor(alerts, productId, StockCritico)
  {
    var d := AlertDraft(productId, SinStock, 0.0, 0, true, None);
    var r := AlertsAfterCreate(alerts, d, id, now);
    CreateAlertKeepsWellFormed(alerts, d, id, now);
    var j: nat;
    match FindActiveAlert(alerts, productId, SinStock) {
      case Some(i) =>
        CreateAlertRefreshesOnlyTheMatch(alerts, d, id, now);
        j := i;
        ActiveAlertsForOtherKind(alerts, r, SinStock, productId, StockCritico);
      case None =>
        j := 0;
        assert r == [StampAlert(d, id, now)] + alerts;
        FilterConcat([StampAlert(d, id, now)], alerts, ActiveOfKey(productId, StockCritico));
    }
    ActiveAlertIsAloneInItsKey(r, j);
  }

  /** Zero stock under enabled settings raises an active `sin_stock` alert and no critical one. */
  lemma ZeroStockRaisesSinStock(alerts: seq<StockAlert>, settings: seq<StockSettings>, productId: Id, id: Id, now: Time)
    requires AlertsWellFormed(alerts) && id !in AlertIds(alerts)
    requires FindSettings(settings, productId).Some? && FindSettings(settings, productId).value.alertEnabled
    ensures var r := AlertsAfterCheck(alerts, settings, productId, 0, id, now);
      |ActiveAlertsFor(r, productId, SinStock)| == 1
      && ActiveAlertsFor(r, productId, SinStock)[0].currentStock == 0
      && ActiveAlertsFor(r, productId, StockCritico) == ActiveAlertsFor(alerts, productId, StockCritico)
  {
    var st := FindSettings(settings, productId).value;
    assert AlertsAfterCheck(alerts, settings, productId, 0, id, now)
      == AlertsAfterCreate(alerts, AlertDraft(productId, SinStock, 0.0, 0, true, None), id, now) by {
      assert GetAlertType(0, st.minStock) == Some(SinStock);
    }
    CreateSinStockAlert(alerts, productId, id, now);
  }

  /** Alert checks only ever add or refresh alerts: no active alert is resolved. */
  lemma CheckNeverResolves(alerts: seq<StockAlert>, settings: seq<StockSettings>, productId: Id, currentStock: int, id: Id, now: Time)
    requires AlertsWellFormed(alerts)
    ensures ActiveAlertIds(alerts) <= ActiveAlertIds(AlertsAfterCheck(alerts, settings, productId, currentStock, id, now))
  {
    match FindSettings(settings, productId)
    case None =>
    case Some(st) =>
      if st.alertEnabled {
        match GetAlertType(currentStock, st.minStock)
        case None =>
        case Some(t) =>
          CreateAlertNeverResolves(alerts, AlertDraft(productId, t, Threshold(t, st.minStock), currentStock, true, None), id, now);
      }
  }

  // ---------------------------------------------------------------------------
  // Summary

  datatype StockSummary = StockSummary(
    totalProducts: nat,
    lowStockProducts: nat,
    criticalStockProducts: nat,
    outOfStock: nat)

  /** How many movements `getRecentMovements` returns when called without a limit. */
  const DefaultRecentLimit := 10

  // ---------------------------------------------------------------------------
  // The store

  class StockStore {
    var movements: seq<StockMovement>
    var alerts: seq<StockAlert>
    var adjustments: seq<StockAdjustment>
    var settings: seq<StockSettings>

    ghost predicate Valid()
      reads this
    {
      AlertsWellFormed(alerts) && UniqueSettings(settings)
    }

    constructor ()
      ensures Valid()
      ensures movements == [] && alerts == [] && adjustments == [] && settings == []
    {
      movements := [];
      alerts := [];
      adjustments := [];
      settings := [];
    }

    /**
     * Prepends the movement with a fresh id and timestamp and, when an
     * activity log is registered, logs it there.
     */
    method AddMovement(d: MovementDraft, id: Id, now: Time, log: Activities.ActivityStore?, activityId: Id)
      modifies this, log
      ensures movements == [StampMovement(d, id, now)] + old(movements)
      ensures alerts == old(alerts) && adjustments == old(adjustments) && settings == old(settings)
      ensures log != null ==> (log.activities ==
        [Activities.StampActivity(ActivityForMovement(StampMovement(d, id, now)), activityId, now)] + old(log.activities))
      ensures log != null ==> log.status == Success && log.error == None
    {
      var m := StampMovement(d, id, now);
      movements := [m] + movements;
      if log != null {
        log.AddActivity(ActivityForMovement(m), activityId, now);
      }
    }

    /** The movements of one product, in stored order. */
    function GetMovementsByProduct(productId: Id): (r: seq<StockMovement>)
      reads this
      ensures forall m :: m in r <==> m in movements && m.productId == productId
    {
      MovementsOfProduct(movements, productId)
    }

    /**
     * Sorts the stored movements newest first, in place, and returns the
     * first `limit` of them (ten by default).
     */
    method GetRecentMovements(limit: Option<int>) returns (r: seq<StockMovement>)
      modifies this
      ensures movements == SortMovementsByDate(old(movements))
      ensures alerts == old(alerts) && adjustments == old(adjustments) && settings == old(settings)
      ensures SortedByDateDesc(r) && |r| <= |movements| && r == movements[..|r|]
      ensures 0 <= limit.GetOr(DefaultRecentLimit) ==>
        |r| == if limit.GetOr(DefaultRecentLimit) < |movements| then limit.GetOr(DefaultRecentLimit) else |movements|
    {
      var sorted := SortMovementsByDate(movements);
      movements := sorted;
      r := HeadSlice(sorted, limit.GetOr(DefaultRecentLimit));
      assert forall i :: 0 <= i < |r| ==> r[i] == sorted[i];
    }

    /** Refreshes the active alert of the same key, or prepends a new alert. */
    method CreateAlert(d: AlertDraft, id: Id, now: Time)
      requires Valid() && id !in AlertIds(alerts)
      modifies this
      ensures Valid()
      ensures alerts == AlertsAfterCreate(old(alerts), d, id, now)
      ensures movements == old(movements) && adjustments == old(adjustments) && settings == old(settings)
    {
      CreateAlertKeepsWellFormed(alerts, d, id, now);
      var existing := FindActiveAlert(alerts, d.productId, d.kind);
      if existing.Some? {
        alerts := SetCurrentStockById(alerts, alerts[existing.value].id, d.currentStock);
      } else {
        alerts := [StampAlert(d, id, now)] + alerts;
      }
    }

    /** Deactivates and stamps the alert(s) with this id; keeps them for history. */
    method ResolveAlert(id: Id, now: Time)
      requires Valid()
      modifies this
      ensures Valid()
      ensures alerts == AlertsAfterResolve(old(alerts), id, now)
      ensures movements == old(movements) && adjustments == old(adjustments) && settings == old(settings)
    {
      ResolveAlertDeactivatesOnlyId(alerts, id, now);
      alerts := AlertsAfterResolve(alerts, id, now);
    }

    function GetActiveAlerts(): (r: seq<StockAlert>)
      reads this
      ensures forall a :: a in r <==> a in alerts && a.isActive
    {
      Filter(alerts, IsActiveAlert)
    }

    function GetAlertsByProduct(productId: Id): (r: seq<StockAlert>)
      reads this
      ensures forall a :: a in r <==> a in alerts && a.productId == productId
    {
      Filter(alerts, (a: StockAlert) => a.productId == productId)
    }

    /**
     * Prepends the adjustment, then records its one derived `ajuste` movement
     * through `addMovement`.
     */
    method AddAdjustment(d: AdjustmentDraft, adjustmentId: Id, movementId: Id, now: Time,
                         log: Activities.ActivityStore?, activityId: Id)
      modifies this, log
      ensures adjustments == [StampAdjustment(d, adjustmentId, now)] + old(adjustments)
      ensures movements == [StampMovement(AdjustmentMovement(StampAdjustment(d, adjustmentId, now)), movementId, now)] + old(movements)
      ensures alerts == old(alerts) && settings == old(settings)
      ensures log != null ==> |log.activities| == |old(log.activities)| + 1
    {
      var adjustment := StampAdjustment(d, adjustmentId, now);
      adjustments := [adjustment] + adjustments;
      AddMovement(AdjustmentMovement(adjustment), movementId, now, log, activityId);
    }

    function GetAdjustmentsByProduct(productId: Id): (r: seq<StockAdjustment>)
      reads this
      ensures forall a :: a in r <==> a in adjustments && a.productId == productId
    {
      Filter(adjustments, (a: StockAdjustment) => a.productId == productId)
    }

    /** Replaces the product's settings row: the old row goes, the new one is appended. */
    method UpdateStockSettings(productId: Id, d: SettingsDraft)
      requires Valid()
      modifies this
      ensures Valid()
      ensures settings == SettingsAfterUpdate(old(settings), productId, d)
      ensures movements == old(movements) && alerts == old(alerts) && adjustments == old(adjustments)
    {
      UpdateKeepsOneRowPerProduct(settings, productId, d);
      settings := OtherSettings(settings, productId) + [SettingsFor(productId, d)];
    }

    function GetStockSettings(productId: Id): (r: Option<StockSettings>)
      reads this
      ensures r.None? <==> forall s :: s in settings ==> s.productId != productId
      ensures r.Some? ==> r.value in settings && r.value.productId == productId
      ensures r.Some? ==> (exists i :: 0 <= i < |settings| && settings[i] == r.value
                                   && forall j :: 0 <= j < i ==> settings[j].productId != productId)
    {
      FindSettings(settings, productId)
    }

    /**
     * Raises or refreshes the one alert the stock level calls for, testing
     * zero, then half the minimum, then the minimum.
     */
    method CheckStockAlerts(productId: Id, currentStock: int, alertId: Id, now: Time)
      requires Valid() && alertId !in AlertIds(alerts)
      modifies this
      ensures Valid()
      ensures alerts == AlertsAfterCheck(old(alerts), old(settings), productId, currentStock, alertId, now)
      ensures movements == old(movements) && adjustments == old(adjustments) && settings == old(settings)
    {
      var found := GetStockSettings(productId);
      assert found == FindSettings(old(settings), productId);
      if found.None? || !found.value.alertEnabled {
        return;
      }
      var minStock := found.value.minStock;
      ghost var before := alerts;
      if currentStock == 0 {
        var d := AlertDraft(productId, SinStock, 0.0, currentStock, true, None);
        assert GetAlertType(currentStock, minStock) == Some(SinStock);
        assert AlertsAfterCheck(before, settings, productId, currentStock, alertId, now) == AlertsAfterCreate(before, d, alertId, now);
        CreateAlert(d, alertId, now);
      } else if 2 * currentStock <= minStock {
        var d := AlertDraft(productId, StockCritico, minStock as real * 0.5, currentStock, true, None);
        assert GetAlertType(currentStock, minStock) == Some(StockCritico);
        assert AlertsAfterCheck(before, settings, productId, currentStock, alertId, now) == AlertsAfterCreate(before, d, alertId, now);
        CreateAlert(d, alertId, now);
      } else if currentStock <= minStock {
        var d := AlertDraft(productId, StockBajo, minStock as real, currentStock, true, None);
        assert GetAlertType(currentStock, minStock) == Some(StockBajo);
        assert AlertsAfterCheck(before, settings, productId, currentStock, alertId, now) == AlertsAfterCreate(before, d, alertId, now);
        CreateAlert(d, alertId, now);
      } else {
        assert GetAlertType(currentStock, minStock) == None;
      }
    }

    /**
     * Counts the settings rows as products and splits the active alerts by
     * type.
     */
    function GetStockSummary(): (r: StockSummary)
      reads this
      ensures r.totalProducts == |settings|
      ensures r.lowStockProducts == Count(GetActiveAlerts(), IsStockBajo)
      ensures r.criticalStockProducts == Count(GetActiveAlerts(), IsStockCritico)
      ensures r.outOfStock == Count(GetActiveAlerts(), IsSinStock)
      ensures r.lowStockProducts + r.criticalStockProducts + r.outOfStock == |GetActiveAlerts()|
    {
      var active := GetActiveAlerts();
      AlertTypesPartition(active);
      StockSummary(|settings|, Count(active, IsStockBajo), Count(active, IsStockCritico), Count(active, IsSinStock))
    }
  }
}
