/** The Smart Alerts card on the dashboard: dismissing alerts and the count
    badge. */
module SmartAlerts {
  datatype AlertKind = Warning | Info | Success

  datatype Alert = Alert(id: string, kind: AlertKind, title: string, message: string, time: string)

  const InitialAlerts: seq<Alert> := [
    Alert("1", Warning, "Pest Alert",
          "Fall Armyworm detected in 5km radius. Take preventive measures.", "2 hours ago"),
    Alert("2", Info, "Govt Subsidy",
          "PM-Kisan verification due by Feb 15. Complete e-KYC now.", "1 day ago"),
    Alert("3", Success, "Market Update",
          "Cotton prices up 15% this week. Good time to sell.", "3 hours ago")
  ]

  /** `dismissAlert(id)`: every alert with that id goes, the rest keep their
      order. */
  function Dismiss(alerts: seq<Alert>, id: string): (r: seq<Alert>)
    ensures |r| <= |alerts|
    ensures forall a :: a in r <==> a in alerts && a.id != id
  {
    if |alerts| == 0 then []
    else
      var rest := Dismiss(alerts[1..], id);
      assert forall a :: a in alerts <==> a == alerts[0] || a in alerts[1..] by {
        assert alerts == [alerts[0]] + alerts[1..];
      }
      if alerts[0].id == id then rest else [alerts[0]] + rest
  }

  /** Dismissal works piece by piece, so the order of what stays is the
      order it had. */
  lemma {:induction false} DismissConcat(a: seq<Alert>, b: seq<Alert>, id: string)
    ensures Dismiss(a + b, id) == Dismiss(a, id) + Dismiss(b, id)
  {
    if |a| > 0 {
      assert (a + b)[0] == a[0];
      assert (a + b)[1..] == a[1..] + b;
      DismissConcat(a[1..], b, id);
      var tail := Dismiss(a[1..], id) + Dismiss(b, id);
      assert Dismiss(a + b, id) == if a[0].id == id then tail else [a[0]] + tail;
    } else {
      assert a + b == b;
    }
  }

  /** An unknown id changes nothing, and dismissing twice is dismissing
      once. */
  lemma {:induction false} DismissUnknown(alerts: seq<Alert>, id: string)
    requires forall k :: 0 <= k < |alerts| ==> alerts[k].id != id
    ensures Dismiss(alerts, id) == alerts
  {
    if |alerts| > 0 {
      DismissUnknown(alerts[1..], id);
      assert alerts == [alerts[0]] + alerts[1..];
    }
  }

  lemma DismissIdempotent(alerts: seq<Alert>, id: string)
    ensures Dismiss(Dismiss(alerts, id), id) == Dismiss(alerts, id)
  {
    var r := Dismiss(alerts, id);
    forall k | 0 <= k < |r| ensures r[k].id != id {
      assert r[k] in r;
    }
    DismissUnknown(r, id);
  }

  /** With distinct ids, dismissing a shown alert lowers the badge count by
      exactly one. */
  lemma {:induction false} DismissOne(alerts: seq<Alert>, id: string)
    requires forall j, k :: 0 <= j < k < |alerts| ==> alerts[j].id != alerts[k].id
    requires exists k :: 0 <= k < |alerts| && alerts[k].id == id
    ensures |Dismiss(alerts, id)| == |alerts| - 1
  {
    if alerts[0].id == id {
      assert forall k :: 0 <= k < |alerts[1..]| ==> alerts[1..][k].id != id by {
        forall k | 0 <= k < |alerts[1..]| ensures alerts[1..][k].id != id {
          assert alerts[1..][k] == alerts[k + 1];
        }
      }
      DismissUnknown(alerts[1..], id);
    } else {
      var k :| 0 <= k < |alerts| && alerts[k].id == id;
      assert alerts[1..][k - 1].id == id;
      DismissOne(alerts[1..], id);
    }
  }

  /** The badge shows the number of alerts left; the "All caught up!" line
      shows exactly when none is left. */
  function BadgeCount(alerts: seq<Alert>): (n: nat)
    ensures n == 0 <==> alerts == []
  {
    |alerts|
  }

  predicate AllCaughtUp(alerts: seq<Alert>) {
    |alerts| == 0
  }

  /** Dismissing the three initial alerts one by one empties the card. */
  lemma DismissAllInitial()
    ensures AllCaughtUp(Dismiss(Dismiss(Dismiss(InitialAlerts, "1"), "2"), "3"))
  {
    var a1 := Dismiss(InitialAlerts, "1");
    assert a1 == InitialAlerts[1..];
    var a2 := Dismiss(a1, "2");
    assert a2 == InitialAlerts[2..];
  }
}
