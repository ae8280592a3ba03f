/** The side bar of the signed-in layout: which navigation list a session
    sees, which entry is highlighted, and each entry's test id. */
module Layout {
  import opened Wrappers
  import opened JsText
  import Dashboard

  datatype NavItem = NavItem(name: string, href: string)

  const NavSecurity: seq<NavItem> := [
    NavItem("Dashboard", "/dashboard"),
    NavItem("Analytics", "/analytics"),
    NavItem("Gates", "/gates"),
    NavItem("Scanner", "/scan"),
    NavItem("Users", "/users"),
    NavItem("Vehicles", "/vehicles"),
    NavItem("Activity Logs", "/logs"),
    NavItem("My Profile", "/profile"),
    NavItem("Settings", "/settings")
  ]

  const NavUser: seq<NavItem> := [
    NavItem("Dashboard", "/dashboard"),
    NavItem("Scanner", "/scan"),
    NavItem("Activity Logs", "/logs"),
    NavItem("My Profile", "/profile"),
    NavItem("Settings", "/settings")
  ]

  /** `isSecurity ? navSecurity : navUser`, with the role check the
      dashboard uses. */
  function Navigation(role: Option<string>): (r: seq<NavItem>)
    ensures r == NavSecurity <==> Dashboard.IsSecurity(role)
    ensures r == NavUser <==> !Dashboard.IsSecurity(role)
  {
    assert NavSecurity != NavUser by { assert |NavSecurity| != |NavUser|; }
    if Dashboard.IsSecurity(role) then NavSecurity else NavUser
  }

  /** Every entry an ordinary user sees is also offered to security staff,
      with the same name and target. */
  lemma UserNavWithinSecurityNav()
    ensures forall i | 0 <= i < |NavUser| :: NavUser[i] in NavSecurity
  {
    assert NavUser[0] == NavSecurity[0];
    assert NavUser[1] == NavSecurity[3];
    assert NavUser[2] == NavSecurity[6];
    assert NavUser[3] == NavSecurity[7];
    assert NavUser[4] == NavSecurity[8];
  }

  predicate HrefsDistinct(items: seq<NavItem>) {
    forall i, j | 0 <= i < j < |items| :: items[i].href != items[j].href
  }

  /** `location.pathname === item.href`. */
  predicate IsActive(pathname: string, item: NavItem) {
    pathname == item.href
  }

  /** Whatever the role and the path, at most one entry is highlighted. */
  lemma AtMostOneActive(role: Option<string>, pathname: string)
    ensures var nav := Navigation(role);
            forall i, j | 0 <= i < |nav| && 0 <= j < |nav| && IsActive(pathname, nav[i]) && IsActive(pathname, nav[j]) :: i == j
  {
    assert HrefsDistinct(NavSecurity);
    assert HrefsDistinct(NavUser);
  }

  /** `nav-${name.toLowerCase().replace(' ', '-')}`. */
  function TestId(name: string): (r: string)
    ensures |r| == |name| + 4 && r[..4] == "nav-"
  {
    "nav-" + ReplaceFirst(Lower(name), ' ', '-')
  }

  /** The test id is the lower-cased name with only its first space turned
      into a dash. */
  lemma TestIdShape(name: string)
    ensures IndexOf(name, ' ').None? ==> TestId(name) == "nav-" + Lower(name)
    ensures IndexOf(name, ' ').Some? ==> var i := IndexOf(name, ' ').value;
              TestId(name) == "nav-" + Lower(name[..i]) + "-" + Lower(name[i + 1..])
  {
    LowerKeepsSpaces(name);
    if IndexOf(name, ' ').Some? {
      TestIdAtSpace(name, IndexOf(name, ' ').value);
    }
  }

  lemma TestIdAtSpace(name: string, i: nat)
    requires IndexOf(Lower(name), ' ') == Some(i)
    ensures i < |name|
    ensures TestId(name) == "nav-" + Lower(name[..i]) + "-" + Lower(name[i + 1..])
  {
    var lowered := Lower(name);
    var replaced := ReplaceFirst(lowered, ' ', '-');
    assert replaced == lowered[..i] + "-" + lowered[i + 1..];
    LowerSlice(name, 0, i);
    LowerSlice(name, i + 1, |name|);
    assert name[0..i] == name[..i];
    assert name[i + 1..|name|] == name[i + 1..];
  }

  /** Only the first space of a name becomes a dash: whatever follows it,
      later spaces included, is just lower-cased. */
  lemma FirstSpaceOnly(a: string, b: string)
    requires ' ' !in a
    ensures TestId(a + " " + b) == "nav-" + Lower(a) + "-" + Lower(b)
  {
    var name := a + " " + b;
    assert name[|a|] == ' ';
    var i := IndexOf(name, ' ').value;
    assert i == |a|;
    TestIdShape(name);
    assert name[..i] == a;
    assert name[i + 1..] == b;
  }
}
