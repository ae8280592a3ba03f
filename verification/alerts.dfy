/** The live scan-alert feed: the push channel's connection flag and the
    newest-first buffer of at most fifty `scan_alert` events. */
module Alerts {
  import opened Wrappers

  /** How many alerts the buffer keeps. */
  const AlertLimit := 50

  /** A pushed `scan_alert` record, as far as the dashboard reads it. */
  datatype ScanAlert = ScanAlert(
    logId: string,
    userName: Option<string>,
    status: string,
    gateId: string,
    timestamp: string,
    vehicleNumber: Option<string>,
    purpose: Option<string>)

  datatype SocketState = SocketState(connected: bool, alerts: seq<ScanAlert>)

  function InitialSocket(): (r: SocketState)
    ensures !r.connected && r.alerts == []
  {
    SocketState(false, [])
  }

  function OnConnect(s: SocketState): (r: SocketState)
    ensures r.connected && r.alerts == s.alerts
  {
    s.(connected := true)
  }

  function OnDisconnect(s: SocketState): (r: SocketState)
    ensures !r.connected && r.alerts == s.alerts
  {
    s.(connected := false)
  }

  function Min(a: int, b: int): int {
    if a <= b then a else b
  }

  /** `prev => [data, ...prev].slice(0, 50)`. */
  function OnScanAlert(s: SocketState, a: ScanAlert): (r: SocketState)
    ensures r.connected == s.connected
    ensures |r.alerts| == Min(|s.alerts| + 1, AlertLimit)
    ensures r.alerts[0] == a
    // below the bound nothing is dropped
    ensures |s.alerts| < AlertLimit ==> r.alerts == [a] + s.alerts
    // at the bound only the oldest entries go, the rest keep their order
    ensures |s.alerts| >= AlertLimit ==> r.alerts == [a] + s.alerts[..AlertLimit - 1]
  {
    var grown := [a] + s.alerts;
    s.(alerts := grown[..Min(|grown|, AlertLimit)])
  }

  /** The alerts in the reverse of their arrival order. */
  function Reverse(xs: seq<ScanAlert>): (r: seq<ScanAlert>)
    ensures |r| == |xs|
    ensures forall k | 0 <= k < |xs| :: r[k] == xs[|xs| - 1 - k]
  {
    if |xs| == 0 then [] else [xs[|xs| - 1]] + Reverse(xs[..|xs| - 1])
  }

  /** The state after the alerts `arrivals` came in, oldest first. */
  function ReceiveAll(s: SocketState, arrivals: seq<ScanAlert>): SocketState
    decreases |arrivals|
  {
    if |arrivals| == 0 then s
    else OnScanAlert(ReceiveAll(s, arrivals[..|arrivals| - 1]), arrivals[|arrivals| - 1])
  }

  /** The buffer holds the newest arrivals newest first, followed by what was
      there before, cut to fifty: eviction follows arrival order alone. */
  lemma {:induction false} ReceiveAllKeepsNewest(s: SocketState, arrivals: seq<ScanAlert>)
    requires |s.alerts| <= AlertLimit
    ensures var all := Reverse(arrivals) + s.alerts;
            ReceiveAll(s, arrivals).alerts == all[..Min(|all|, AlertLimit)]
    ensures ReceiveAll(s, arrivals).connected == s.connected
    decreases |arrivals|
  {
    if |arrivals| > 0 {
      var n := |arrivals|;
      var prefix := arrivals[..n - 1];
      var last := arrivals[n - 1];
      ReceiveAllKeepsNewest(s, prefix);
      var before := Reverse(prefix) + s.alerts;
      var prev := ReceiveAll(s, prefix);
      assert prev.alerts == before[..Min(|before|, AlertLimit)];
      assert Reverse(arrivals) == [last] + Reverse(prefix);
      var all := Reverse(arrivals) + s.alerts;
      assert all == [last] + before;
      var r := OnScanAlert(prev, last);
      assert r.alerts == all[..Min(|all|, AlertLimit)] by {
        if |prev.alerts| < AlertLimit {
          assert prev.alerts == before;
          assert all[..Min(|all|, AlertLimit)] == all;
        } else {
          assert r.alerts == [last] + before[..AlertLimit - 1];
          assert all[..AlertLimit] == [last] + before[..AlertLimit - 1];
        }
      }
    }
  }

  /** From the empty buffer, the contents after any run of alerts are the
      last min(k, 50) of them in reverse arrival order. */
  lemma FromEmptyKeepsLastFifty(arrivals: seq<ScanAlert>)
    ensures var r := Reverse(arrivals);
            ReceiveAll(InitialSocket(), arrivals).alerts == r[..Min(|r|, AlertLimit)]
    ensures |ReceiveAll(InitialSocket(), arrivals).alerts| <= AlertLimit
  {
    ReceiveAllKeepsNewest(InitialSocket(), arrivals);
    assert Reverse(arrivals) + [] == Reverse(arrivals);
  }

  /** After more than fifty arrivals the first one is gone, unless it
      arrived again later. */
  lemma FirstEvictedAfterFiftyOne(arrivals: seq<ScanAlert>)
    requires |arrivals| > AlertLimit
    requires arrivals[0] !in arrivals[1..]
    ensures arrivals[0] !in ReceiveAll(InitialSocket(), arrivals).alerts
  {
    FromEmptyKeepsLastFifty(arrivals);
    var r := Reverse(arrivals);
    var kept := r[..AlertLimit];
    forall k | 0 <= k < AlertLimit
      ensures kept[k] != arrivals[0]
    {
      assert kept[k] == arrivals[|arrivals| - 1 - k];
      assert arrivals[|arrivals| - 1 - k] == arrivals[1..][|arrivals| - 2 - k];
    }
  }
}
