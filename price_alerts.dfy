/** The price alerts of price_alerts.py, held in memory: creating an alert with its type
    checked, soft-deleting one, marking one triggered, and the trigger pass that compares the
    active, untriggered alerts with current prices and marks those whose threshold is crossed. */
module PriceAlerts {
  import opened Wrappers

  /** One stored alert. Times are clock readings passed in by the caller. */
  datatype PriceAlert = PriceAlert(
    id: nat, userId: nat, investmentId: Option<nat>, ticker: string, targetPrice: real,
    alertType: string, isActive: bool, isTriggered: bool, triggeredAt: Option<int>,
    phoneNumber: Option<string>)

  /** The record the trigger pass reports for a fired alert. */
  datatype TriggeredAlert = TriggeredAlert(
    id: nat, userId: nat, ticker: string, targetPrice: real, currentPrice: real,
    alertType: string, phoneNumber: Option<string>)

  datatype AlertError = InvalidAlertType

  predicate ValidType(alertType: string)
  {
    alertType == "above" || alertType == "below"
  }

  /** Alert ids are unique, as a primary key is. */
  predicate DistinctIds(alerts: seq<PriceAlert>)
  {
    forall i, j :: 0 <= i < j < |alerts| ==> alerts[i].id != alerts[j].id
  }

  /** The first alert with the id, as `filter_by(id=alert_id).first()` finds it. */
  function IndexOfId(alerts: seq<PriceAlert>, alertId: nat): (r: Option<nat>)
    ensures r.Some? ==> r.value < |alerts| && alerts[r.value].id == alertId
    ensures r.Some? ==> forall j :: 0 <= j < r.value ==> alerts[j].id != alertId
    ensures r.None? ==> forall j :: 0 <= j < |alerts| ==> alerts[j].id != alertId
  {
    if alerts == [] then None
    else if alerts[0].id == alertId then Some(0)
    else match IndexOfId(alerts[1..], alertId)
      case None => None
      case Some(i) => Some(i + 1)
  }

  /** The alerts after `delete_price_alert`: the alert with the id, if any, becomes inactive. */
  function Deactivated(alerts: seq<PriceAlert>, alertId: nat): seq<PriceAlert>
  {
    match IndexOfId(alerts, alertId)
    case None => alerts
    case Some(i) => alerts[i := alerts[i].(isActive := false)]
  }

  /** The alerts after `mark_alert_triggered`: the alert with the id, if any, is triggered at `now`. */
  function MarkedTriggered(alerts: seq<PriceAlert>, alertId: nat, now: int): seq<PriceAlert>
  {
    match IndexOfId(alerts, alertId)
    case None => alerts
    case Some(i) => alerts[i := alerts[i].(isTriggered := true, triggeredAt := Some(now))]
  }

  /** The trigger rule: an 'above' alert fires at or over its target, a 'below' alert at or under it. */
  predicate Fires(a: PriceAlert, price: real)
  {
    (a.alertType == "above" && price >= a.targetPrice) || (a.alertType == "below" && price <= a.targetPrice)
  }

  /** The alert is examined by the pass (active and not yet triggered), its ticker has a current
      price, and the rule fires at that price. */
  predicate FiresAt(a: PriceAlert, prices: map<string, real>)
  {
    a.isActive && !a.isTriggered && a.ticker in prices && Fires(a, prices[a.ticker])
  }

  /** One alert after the pass. */
  function Checked(a: PriceAlert, prices: map<string, real>, now: int): PriceAlert
  {
    if FiresAt(a, prices) then a.(isTriggered := true, triggeredAt := Some(now)) else a
  }

  /** All alerts after the pass. */
  function AfterCheck(alerts: seq<PriceAlert>, prices: map<string, real>, now: int): seq<PriceAlert>
  {
    seq(|alerts|, i requires 0 <= i < |alerts| => Checked(alerts[i], prices, now))
  }

  function Report(a: PriceAlert, price: real): TriggeredAlert
  {
    TriggeredAlert(a.id, a.userId, a.ticker, a.targetPrice, price, a.alertType, a.phoneNumber)
  }

  /** The reports of the pass, in scan order. */
  function Fired(alerts: seq<PriceAlert>, prices: map<string, real>): seq<TriggeredAlert>
  {
    if alerts == [] then []
    else
      var a := alerts[|alerts| - 1];
      Fired(alerts[..|alerts| - 1], prices) + (if FiresAt(a, prices) then [Report(a, prices[a.ticker])] else [])
  }

  /** The alert table, held in memory; `nextId` is the next primary key. */
  class AlertStore {
    var alerts: seq<PriceAlert>
    var nextId: nat

    /** Ids are unique and below the next key, and every stored type is 'above' or 'below'. */
    ghost predicate Valid()
      reads this
    {
      && DistinctIds(alerts)
      && (forall i :: 0 <= i < |alerts| ==> alerts[i].id < nextId && ValidType(alerts[i].alertType))
    }

    constructor()
      ensures Valid() && alerts == [] && nextId == 1
    {
      alerts := [];
      nextId := 1;
    }

    /** `create_price_alert`: rejects a type other than 'above' or 'below'; otherwise stores an
        active, untriggered alert under the next id and returns the id. */
    method CreatePriceAlert(userId: nat, ticker: string, targetPrice: real, alertType: string,
                            investmentId: Option<nat>, phoneNumber: Option<string>)
      returns (r: Result<nat, AlertError>)
      requires Valid()
      modifies this
      ensures Valid()
      ensures !ValidType(alertType) ==> r == Err(InvalidAlertType) && alerts == old(alerts) && nextId == old(nextId)
      ensures ValidType(alertType) ==>
        && r == Ok(old(nextId))
        && alerts == old(alerts) + [PriceAlert(old(nextId), userId, investmentId, ticker, targetPrice,
                                               alertType, true, false, None, phoneNumber)]
        && nextId == old(nextId) + 1
    {
      if alertType != "above" && alertType != "below" {
        return Err(InvalidAlertType);
      }
      var alert := PriceAlert(nextId, userId, investmentId, ticker, targetPrice, alertType, true, false, None, phoneNumber);
      alerts := alerts + [alert];
      r := Ok(nextId);
      nextId := nextId + 1;
    }

    /** `delete_price_alert`: a soft delete; false when no alert has the id. */
    method DeletePriceAlert(alertId: nat) returns (found: bool)
      requires Valid()
      modifies this
      ensures Valid()
      ensures found <==> IndexOfId(old(alerts), alertId).Some?
      ensures alerts == Deactivated(old(alerts), alertId) && nextId == old(nextId)
    {
      var index := IndexOfId(alerts, alertId);
      if index.None? {
        return false;
      }
      var i := index.value;
      alerts := alerts[i := alerts[i].(isActive := false)];
      found := true;
    }

    /** `mark_alert_triggered`: sets the flag and the time; false when no alert has the id. */
    method MarkAlertTriggered(alertId: nat, now: int) returns (found: bool)
      requires Valid()
      modifies this
      ensures Valid()
      ensures found <==> IndexOfId(old(alerts), alertId).Some?
      ensures alerts == MarkedTriggered(old(alerts), alertId, now) && nextId == old(nextId)
    {
      var index := IndexOfId(alerts, alertId);
      if index.None? {
        return false;
      }
      var i := index.value;
      alerts := alerts[i := alerts[i].(isTriggered := true, triggeredAt := Some(now))];
      found := true;
    }

    /** `check_price_alerts`: scans the alerts in order; an active, untriggered alert whose ticker
        has a price and whose rule fires is marked triggered at `now` and reported with that price. */
    method CheckPriceAlerts(prices: map<string, real>, now: int) returns (triggered: seq<TriggeredAlert>)
      requires Valid()
      modifies this
      ensures Valid()
      ensures alerts == AfterCheck(old(alerts), prices, now) && nextId == old(nextId)
      ensures triggered == Fired(old(alerts), prices)
    {
      var scanned;
      scanned, triggered := ScanAlerts(alerts, prices, now);
      AfterCheckKeepsIdentity(alerts, prices, now);
      alerts := scanned;
    }
  }

  /** The loop of `check_price_alerts` over the stored alerts in order: each alert that fires is
      marked triggered at `now` and its report appended. */
  method ScanAlerts(alerts: seq<PriceAlert>, prices: map<string, real>, now: int)
    returns (scanned: seq<PriceAlert>, triggered: seq<TriggeredAlert>)
    ensures scanned == AfterCheck(alerts, prices, now)
    ensures triggered == Fired(alerts, prices)
  {
    scanned := alerts;
    triggered := [];
    var i := 0;
    while i < |scanned|
      invariant 0 <= i <= |scanned| == |alerts|
      invariant forall j :: 0 <= j < i ==> scanned[j] == Checked(alerts[j], prices, now)
      invariant forall j :: i <= j < |scanned| ==> scanned[j] == alerts[j]
      invariant triggered == Fired(alerts[..i], prices)
    {
      var alert := scanned[i];
      assert alerts[..i + 1][..i] == alerts[..i];
      var isTriggered, currentPrice := CheckAlert(alert, prices);
      if isTriggered {
        scanned := scanned[i := alert.(isTriggered := true, triggeredAt := Some(now))];
        triggered := triggered + [Report(alert, currentPrice)];
      }
      i := i + 1;
    }
    assert alerts[..|alerts|] == alerts;
  }

  /** The loop body's test for one alert: skipped unless active, untriggered and priced; then the
      direction decides. */
  method CheckAlert(alert: PriceAlert, prices: map<string, real>) returns (isTriggered: bool, currentPrice: real)
    ensures isTriggered <==> FiresAt(alert, prices)
    ensures isTriggered ==> currentPrice == prices[alert.ticker]
  {
    isTriggered, currentPrice := false, 0.0;
    if alert.isActive && !alert.isTriggered && alert.ticker in prices {
      currentPrice := prices[alert.ticker];
      if alert.alertType == "above" && currentPrice >= alert.targetPrice {
        isTriggered := true;
      } else if alert.alertType == "below" && currentPrice <= alert.targetPrice {
        isTriggered := true;
      }
    }
  }

  /** The pass changes only the triggered flag and time: ids, types and the other fields stay. */
  lemma AfterCheckKeepsIdentity(alerts: seq<PriceAlert>, prices: map<string, real>, now: int)
    ensures |AfterCheck(alerts, prices, now)| == |alerts|
    ensures forall i :: 0 <= i < |alerts| ==>
      AfterCheck(alerts, prices, now)[i] == alerts[i].(isTriggered := AfterCheck(alerts, prices, now)[i].isTriggered,
                                                       triggeredAt := AfterCheck(alerts, prices, now)[i].triggeredAt)
    ensures DistinctIds(alerts) ==> DistinctIds(AfterCheck(alerts, prices, now))
  {
  }

  // ---------------------------------------------------------------------------
  // Properties of the trigger pass

  /** An alert that fires is marked triggered at `now`, stays active, and is reported with its price. */
  lemma FiringAlertMarked(alerts: seq<PriceAlert>, prices: map<string, real>, now: int, i: nat)
    requires i < |alerts| && FiresAt(alerts[i], prices)
    ensures AfterCheck(alerts, prices, now)[i] == alerts[i].(isTriggered := true, triggeredAt := Some(now))
    ensures AfterCheck(alerts, prices, now)[i].isActive
    ensures Report(alerts[i], prices[alerts[i].ticker]) in Fired(alerts, prices)
  {
    FiredMembers(alerts, prices, Report(alerts[i], prices[alerts[i].ticker]));
  }

  /** Reports come out in scan order: the reports of a table split in two are those of the first
      part followed by those of the second. */
  lemma {:induction false} FiredInScanOrder(first: seq<PriceAlert>, second: seq<PriceAlert>, prices: map<string, real>)
    ensures Fired(first + second, prices) == Fired(first, prices) + Fired(second, prices)
    ensures |Fired(first + second, prices)| <= |first| + |second|
    decreases |second|
  {
    if second == [] {
      assert first + second == first;
      FiredAtMostScanned(first, prices);
    } else {
      var n := |second| - 1;
      assert (first + second)[..|first + second| - 1] == first + second[..n];
      FiredInScanOrder(first, second[..n], prices);
      FiredAtMostScanned(first + second, prices);
    }
  }

  lemma {:induction false} FiredAtMostScanned(alerts: seq<PriceAlert>, prices: map<string, real>)
    ensures |Fired(alerts, prices)| <= |alerts|
  {
    if alerts != [] {
      FiredAtMostScanned(alerts[..|alerts| - 1], prices);
    }
  }


  /** A report is made exactly for each alert that fires, carrying that alert's current price. */
  lemma {:induction false} FiredMembers(alerts: seq<PriceAlert>, prices: map<string, real>, t: TriggeredAlert)
    ensures t in Fired(alerts, prices) <==>
      exists i :: 0 <= i < |alerts| && FiresAt(alerts[i], prices) && t == Report(alerts[i], prices[alerts[i].ticker])
  {
    if alerts != [] {
      var n := |alerts| - 1;
      var prefix := alerts[..n];
      FiredMembers(prefix, prices, t);
      if t in Fired(prefix, prices) {
        var i :| 0 <= i < n && FiresAt(prefix[i], prices) && t == Report(prefix[i], prices[prefix[i].ticker]);
        assert prefix[i] == alerts[i];
      }
      if exists i :: 0 <= i < |alerts| && FiresAt(alerts[i], prices) && t == Report(alerts[i], prices[alerts[i].ticker]) {
        var i :| 0 <= i < |alerts| && FiresAt(alerts[i], prices) && t == Report(alerts[i], prices[alerts[i].ticker]);
        if i < n {
          assert prefix[i] == alerts[i];
          assert t in Fired(prefix, prices);
        }
      }
    }
  }

  /** Every report's price crossed its alert's threshold in the alert's direction. */
  lemma ReportsCrossedThreshold(alerts: seq<PriceAlert>, prices: map<string, real>, t: TriggeredAlert)
    requires t in Fired(alerts, prices)
    ensures ValidType(t.alertType)
    ensures t.alertType == "above" ==> t.currentPrice >= t.targetPrice
    ensures t.alertType == "below" ==> t.currentPrice <= t.targetPrice
    ensures t.ticker in prices && t.currentPrice == prices[t.ticker]
  {
    FiredMembers(alerts, prices, t);
  }

  /** An alert that does not fire (inactive, already triggered, without a current price for its
      ticker, or on the wrong side of its target) is left as it was and is not reported. */
  lemma NotFiringUntouched(alerts: seq<PriceAlert>, prices: map<string, real>, now: int, i: nat)
    requires DistinctIds(alerts) && i < |alerts| && !FiresAt(alerts[i], prices)
    ensures AfterCheck(alerts, prices, now)[i] == alerts[i]
    ensures forall t :: t in Fired(alerts, prices) ==> t.id != alerts[i].id
  {
    forall t | t in Fired(alerts, prices) ensures t.id != alerts[i].id {
      FiredMembers(alerts, prices, t);
      var j :| 0 <= j < |alerts| && FiresAt(alerts[j], prices) && t == Report(alerts[j], prices[alerts[j].ticker]);
      assert j != i;
    }
  }

  /** An alert without a current price is never triggered. */
  lemma MissingTickerNeverTriggers(alerts: seq<PriceAlert>, prices: map<string, real>, now: int, i: nat)
    requires DistinctIds(alerts) && i < |alerts| && alerts[i].ticker !in prices
    ensures AfterCheck(alerts, prices, now)[i] == alerts[i]
    ensures forall t :: t in Fired(alerts, prices) ==> t.id != alerts[i].id
  {
    NotFiringUntouched(alerts, prices, now, i);
  }

  lemma {:induction false} NothingFiresAfterCheck(alerts: seq<PriceAlert>, prices: map<string, real>, now: int)
    ensures Fired(AfterCheck(alerts, prices, now), prices) == []
  {
    if alerts != [] {
      var n := |alerts| - 1;
      assert AfterCheck(alerts, prices, now)[..n] == AfterCheck(alerts[..n], prices, now);
      NothingFiresAfterCheck(alerts[..n], prices, now);
    }
  }

  /** Running the pass twice with the same prices: the second run reports nothing and changes
      nothing, since every alert that fired is now triggered and filtered out. */
  lemma CheckTwice(alerts: seq<PriceAlert>, prices: map<string, real>, now: int, later: int)
    ensures Fired(AfterCheck(alerts, prices, now), prices) == []
    ensures AfterCheck(AfterCheck(alerts, prices, now), prices, later) == AfterCheck(alerts, prices, now)
  {
    NothingFiresAfterCheck(alerts, prices, now);
  }

  /** After a soft delete the deleted alert never fires again; marking an alert triggered does the same. */
  lemma DeletedOrMarkedNeverFires(alerts: seq<PriceAlert>, alertId: nat, prices: map<string, real>, now: int)
    requires DistinctIds(alerts)
    ensures forall t :: t in Fired(Deactivated(alerts, alertId), prices) ==> t.id != alertId
    ensures forall t :: t in Fired(MarkedTriggered(alerts, alertId, now), prices) ==> t.id != alertId
  {
    match IndexOfId(alerts, alertId)
    case None =>
      forall t | t in Fired(alerts, prices) ensures t.id != alertId {
        FiredMembers(alerts, prices, t);
      }
    case Some(i) =>
      var deleted := Deactivated(alerts, alertId);
      var marked := MarkedTriggered(alerts, alertId, now);
      assert DistinctIds(deleted) && DistinctIds(marked) by {
        assert forall j :: 0 <= j < |alerts| ==> deleted[j].id == alerts[j].id == marked[j].id;
      }
      NotFiringUntouched(deleted, prices, now, i);
      NotFiringUntouched(marked, prices, now, i);
  }
}
