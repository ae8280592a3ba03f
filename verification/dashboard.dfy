/** The dashboard: the security-role check shared with the side bar, the
    requests each kind of session makes, the live-alert avatar initials and
    the recent-log icon. */
module Dashboard {
  import opened Wrappers
  import opened JsText
  import Logs
  import Users

  /** `(user?.role || '').toLowerCase()` is `security` or `admin`; `role` is
      `None` when the user or the role is missing. */
  predicate IsSecurity(role: Option<string>) {
    var lowered := Lower(role.GetOr(""));
    lowered == "security" || lowered == "admin"
  }

  /** The check ignores ASCII case and accepts exactly the two roles. */
  lemma IsSecurityCases(role: Option<string>)
    ensures role.None? ==> !IsSecurity(role)
    ensures role.Some? ==> (IsSecurity(role) <==> Lower(role.value) in {"security", "admin"})
    ensures role.Some? ==> (IsSecurity(role) <==> IsSecurity(Some(Lower(role.value))))
    ensures IsSecurity(Some("Security")) && IsSecurity(Some("ADMIN")) && !IsSecurity(Some("Student"))
  {
    assert Lower("Security") == "security";
    assert Lower("ADMIN") == "admin";
    assert Lower("Student")[0] == 's';
    if role.Some? {
      LowerIdempotent(role.value);
    }
  }

  lemma LowerIdempotent(s: string)
    ensures Lower(Lower(s)) == Lower(s)
  {
  }

  /** The two `GET` paths `fetchDashboardData` issues together. */
  function DashboardRequests(role: Option<string>): (r: seq<string>)
    ensures |r| == 2 && r[1] == "/logs?limit=10"
    ensures r[0] == "/analytics" <==> IsSecurity(role)
    ensures r[0] == "/status/me" <==> !IsSecurity(role)
  {
    if IsSecurity(role) then ["/analytics", "/logs?limit=10"] else ["/status/me", "/logs?limit=10"]
  }

  /** Avatar initials of a live alert: `getUserInitials(alert.user?.name || 'Unknown')`. */
  function AlertInitials(userName: Option<string>): (r: string)
    ensures |r| <= 2
    ensures userName.Some? && userName.value != "" ==> r == Users.Initials(userName.value)
    ensures userName.None? || userName.value == "" ==> r == Users.Initials("Unknown")
  {
    Users.Initials(if userName.Some? && userName.value != "" then userName.value else "Unknown")
  }

  /** An alert without a user name shows `U`. */
  lemma NamelessAlertShowsU(userName: Option<string>)
    requires userName.None? || userName == Some("")
    ensures AlertInitials(userName) == "U"
  {
    var s := "Unknown";
    assert Users.WordStarts(s[1..], false) == "" by {
      assert s[1..] == "nknown";
      assert Users.WordStarts("nknown", false) == Users.WordStarts("known", false);
      assert Users.WordStarts("known", false) == Users.WordStarts("nown", false);
      assert Users.WordStarts("nown", false) == Users.WordStarts("own", false);
      assert Users.WordStarts("own", false) == Users.WordStarts("wn", false);
      assert Users.WordStarts("wn", false) == Users.WordStarts("n", false);
      assert Users.WordStarts("n", false) == Users.WordStarts("", false);
    }
    assert Users.WordStarts(s, true) == "U";
    assert Upper("U") == "U";
  }

  /** The icon beside a recent log. */
  datatype LogIcon = CheckIcon | ExitArrow

  function RecentLogIcon(status: string): (r: LogIcon)
    ensures r == CheckIcon <==> status == "IN"
  {
    if status == "IN" then CheckIcon else ExitArrow
  }

  /** The icon agrees with the badge on entries, and shows the exit arrow
      both for exits and for blocked scans. */
  lemma IconFollowsBadge(status: string)
    ensures RecentLogIcon(status) == CheckIcon <==> Logs.StatusBadge(status) == Logs.Entry
    ensures RecentLogIcon(status) == ExitArrow <==> Logs.StatusBadge(status) in {Logs.Exit, Logs.Blocked}
  {
  }
}
