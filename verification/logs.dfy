/** The activity log page: a status filter and a search over the fetched
    logs, the status badge, and the shortened user id. */
module Logs {
  import opened Wrappers
  import opened JsText
  import Listing
  import UserQr

  datatype LogEntry = LogEntry(
    logId: string,
    userId: string,
    gateId: string,
    status: string,
    vehicleNumber: Option<string>,   // `None` when the log has none
    timestamp: string)

  /** The status select's "no filter" value. */
  const AllStatuses := "all"

  predicate StatusMatches(l: LogEntry, status: string) {
    l.status == status
  }

  /** The term occurs, ignoring ASCII case, in the gate id, the user id or
      the vehicle number when there is one. */
  predicate SearchMatches(l: LogEntry, term: string) {
    || ContainsIgnoringCase(l.gateId, term)
    || ContainsIgnoringCase(l.userId, term)
    || (l.vehicleNumber.Some? && ContainsIgnoringCase(l.vehicleNumber.value, term))
  }

  function StatusIs(status: string): LogEntry -> bool {
    l => StatusMatches(l, status)
  }

  function SearchFor(term: string): LogEntry -> bool {
    l => SearchMatches(l, term)
  }

  /** A log passes both criteria. */
  predicate Selected(l: LogEntry, status: string, term: string) {
    (status == AllStatuses || StatusMatches(l, status)) && (term == "" || SearchMatches(l, term))
  }

  /** `filterLogs`: the status filter first, then the search. */
  function FilterLogs(logs: seq<LogEntry>, status: string, term: string): (r: seq<LogEntry>)
    ensures forall l :: l in r <==> l in logs && Selected(l, status, term)
    ensures forall l :: multiset(r)[l] == if Selected(l, status, term) then multiset(logs)[l] else 0
    ensures status != AllStatuses ==> forall l | l in r :: l.status == status
    ensures status == AllStatuses && term == "" ==> r == logs
  {
    if status != AllStatuses && term != "" then
      Listing.KeepCounts(logs, StatusIs(status));
      Listing.KeepCounts(Listing.Keep(logs, StatusIs(status)), SearchFor(term));
      Listing.Keep(Listing.Keep(logs, StatusIs(status)), SearchFor(term))
    else if status != AllStatuses then
      Listing.KeepCounts(logs, StatusIs(status));
      Listing.Keep(logs, StatusIs(status))
    else if term != "" then
      Listing.KeepCounts(logs, SearchFor(term));
      Listing.Keep(logs, SearchFor(term))
    else
      logs
  }

  /** The same two filters with the search applied first. */
  function FilterLogsSearchFirst(logs: seq<LogEntry>, status: string, term: string): seq<LogEntry> {
    var bySearch := if term != "" then Listing.Keep(logs, SearchFor(term)) else logs;
    if status != AllStatuses then Listing.Keep(bySearch, StatusIs(status)) else bySearch
  }

  /** Which filter runs first makes no difference. */
  lemma FilterOrderIrrelevant(logs: seq<LogEntry>, status: string, term: string)
    ensures FilterLogs(logs, status, term) == FilterLogsSearchFirst(logs, status, term)
  {
    if status != AllStatuses && term != "" {
      Listing.KeepCommutes(logs, StatusIs(status), SearchFor(term));
    }
  }

  /** The filtered logs keep their order. */
  lemma FilterLogsIsSubsequence(logs: seq<LogEntry>, status: string, term: string)
    ensures Listing.IsSubsequence(FilterLogs(logs, status, term), logs)
  {
    var p, q := StatusIs(status), SearchFor(term);
    if status != AllStatuses && term != "" {
      Listing.KeepKeepIsSubsequence(logs, p, q);
    } else if status != AllStatuses {
      Listing.KeepIsSubsequence(logs, p);
    } else if term != "" {
      Listing.KeepIsSubsequence(logs, q);
    } else {
      assert Listing.Embedding(seq(|logs|, k => k), logs, logs);
    }
  }

  /** Filtering the filtered logs again with the same criteria changes
      nothing. */
  lemma FilterLogsIdempotent(logs: seq<LogEntry>, status: string, term: string)
    ensures FilterLogs(FilterLogs(logs, status, term), status, term) == FilterLogs(logs, status, term)
  {
    var r := FilterLogs(logs, status, term);
    assert forall k | 0 <= k < |r| :: r[k] in r;
    if status != AllStatuses {
      Listing.KeepAll(r, StatusIs(status));
    }
    if term != "" {
      Listing.KeepAll(r, SearchFor(term));
    }
  }

  /** Skipping the search for an empty term only saves work: searching for
      it would keep every log anyway. */
  lemma EmptySearchKeepsEverything(logs: seq<LogEntry>)
    ensures Listing.Keep(logs, SearchFor("")) == logs
  {
    assert Lower("") == "";
    forall k | 0 <= k < |logs|
      ensures SearchFor("")(logs[k])
    {
      EmptyOccursEverywhere(Lower(logs[k].gateId));
    }
    Listing.KeepAll(logs, SearchFor(""));
  }

  /** The three badges a log's status can show. */
  datatype Badge = Entry | Exit | Blocked

  /** `getStatusBadge`: `IN` is an entry, `OUT` an exit, anything else is
      shown as blocked. */
  function StatusBadge(status: string): (b: Badge)
    ensures b == Entry <==> status == "IN"
    ensures b == Exit <==> status == "OUT"
    ensures b == Blocked <==> status != "IN" && status != "OUT"
  {
    if status == "IN" then Entry else if status == "OUT" then Exit else Blocked
  }

  /** `user_id.substring(0, 8) + '...'`. */
  function ShortUserId(userId: string): (r: string)
    ensures |userId| >= 8 ==> |r| == 11 && r[..8] == userId[..8]
    ensures |userId| < 8 ==> |r| == |userId| + 3 && r[..|userId|] == userId
    ensures r[|r| - 3..] == "..."
  {
    (if |userId| >= 8 then userId[..8] else userId) + "..."
  }

  /** The backend's user ids are UUIDs. For those the shortened id is the
      first group followed by an ellipsis, and the cut after eight code
      points is the cut after eight UTF-16 code units. */
  lemma ShortUuidIsFirstGroup(u: string)
    requires UserQr.UuidShape(u)
    ensures ShortUserId(u) == SplitOn(u, '-')[0] + "..."
    ensures Utf16Length(u[..8]) == 8
  {
    var head := u[..8];
    assert forall k | 0 <= k < 8 :: head[k] == u[k] && UserQr.IsHex(u[k]);
    assert '-' !in head;
    assert u == head + ([u[8]] + u[9..]);
    SplitOnJoin(head, '-', u[9..]);
    Utf16LengthOfBmp(head);
  }
}
