/** The user management page: a role filter and a search over the fetched
    users, the avatar initials and the role badge colour. */
module Users {
  import opened Wrappers
  import opened JsText
  import Listing
  import Badges

  datatype UserRecord = UserRecord(
    name: string,
    role: string,
    instituteId: Option<string>,   // `None` when the user has none
    phone: Option<string>)

  /** The role select's "no filter" value. */
  const AllRoles := "all"

  function RoleIs(role: string): UserRecord -> bool {
    (u: UserRecord) => u.role == role
  }

  /** Name and institute id are searched ignoring ASCII case; the phone
      number is searched as typed. */
  predicate SearchMatches(u: UserRecord, term: string) {
    || ContainsIgnoringCase(u.name, term)
    || (u.instituteId.Some? && ContainsIgnoringCase(u.instituteId.value, term))
    || (u.phone.Some? && Contains(u.phone.value, term))
  }

  function SearchFor(term: string): UserRecord -> bool {
    u => SearchMatches(u, term)
  }

  /** `filterUsers`: the role filter unless it is `all`, then the search
      unless the term is empty. */
  function FilterUsers(users: seq<UserRecord>, role: string, term: string): (r: seq<UserRecord>)
    ensures forall u :: u in r <==> u in users && (role == AllRoles || u.role == role) && (term == "" || SearchMatches(u, term))
    ensures forall u :: multiset(r)[u]
                        == if (role == AllRoles || u.role == role) && (term == "" || SearchMatches(u, term))
                           then multiset(users)[u] else 0
    ensures role == AllRoles && term == "" ==> r == users
    ensures Listing.IsSubsequence(r, users)
  {
    if role != AllRoles && term != "" then
      Listing.KeepKeepIsSubsequence(users, RoleIs(role), SearchFor(term));
      Listing.KeepCounts(users, RoleIs(role));
      Listing.KeepCounts(Listing.Keep(users, RoleIs(role)), SearchFor(term));
      Listing.Keep(Listing.Keep(users, RoleIs(role)), SearchFor(term))
    else if role != AllRoles then
      Listing.KeepIsSubsequence(users, RoleIs(role));
      Listing.KeepCounts(users, RoleIs(role));
      Listing.Keep(users, RoleIs(role))
    else if term != "" then
      Listing.KeepIsSubsequence(users, SearchFor(term));
      Listing.KeepCounts(users, SearchFor(term));
      Listing.Keep(users, SearchFor(term))
    else
      assert Listing.Embedding(seq(|users|, k => k), users, users);
      users
  }

  /** `n[0]` for each piece, joined: an empty piece contributes nothing. */
  function FirstChars(pieces: seq<string>): (r: string)
    ensures |r| <= |pieces|
  {
    if |pieces| == 0 then ""
    else (if |pieces[0]| > 0 then [pieces[0][0]] else "") + FirstChars(pieces[1..])
  }

  /** Reference definition: the characters of `s` that start a word, that
      is, follow a space (or, when `afterSpace`, the start of the text) and
      are not themselves a space. */
  function WordStarts(s: string, afterSpace: bool): string {
    if |s| == 0 then ""
    else if s[0] != ' ' && afterSpace then [s[0]] + WordStarts(s[1..], false)
    else WordStarts(s[1..], s[0] == ' ')
  }

  lemma {:induction false} FirstCharsAppend(a: seq<string>, b: seq<string>)
    ensures FirstChars(a + b) == FirstChars(a) + FirstChars(b)
  {
    if |a| > 0 {
      FirstCharsAppend(a[1..], b);
      assert (a + b)[1..] == a[1..] + b;
      assert (a + b)[0] == a[0];
    } else {
      assert a + b == b;
    }
  }

  /** Splitting on spaces and taking each piece's first character picks
      exactly the word starts. */
  lemma {:induction false} FirstCharsAreWordStarts(s: string)
    ensures FirstChars(SplitOn(s, ' ')) == WordStarts(s, true)
    ensures FirstChars(SplitOn(s, ' ')[1..]) == WordStarts(s, false)
  {
    if |s| > 0 {
      var rest := SplitOn(s[1..], ' ');
      FirstCharsAreWordStarts(s[1..]);
      if s[0] == ' ' {
        assert SplitOn(s, ' ') == [""] + rest;
        assert ([""] + rest)[1..] == rest;
        FirstCharsAppend([""], rest);
      } else {
        var pieces := [[s[0]] + rest[0]] + rest[1..];
        assert SplitOn(s, ' ') == pieces;
        assert pieces[1..] == rest[1..];
        FirstCharsAppend([[s[0]] + rest[0]], rest[1..]);
      }
    }
  }

  /** `getUserInitials`: the first characters of the space-separated words,
      upper-cased, at most two. */
  function Initials(name: string): (r: string)
    ensures |r| <= 2
    ensures forall k | 0 <= k < |r| :: !('a' <= r[k] <= 'z')
    ensures var starts := Upper(WordStarts(name, true));
            r == if |starts| <= 2 then starts else starts[..2]
  {
    FirstCharsAreWordStarts(name);
    var all := Upper(FirstChars(SplitOn(name, ' ')));
    if |all| <= 2 then all else all[..2]
  }

  /** The colour `getRoleBadgeColor` picks: one for each of the four listed
      roles, gray for any other. */
  function RoleTint(role: string): (t: Badges.Tint)
    ensures t == Badges.Blue <==> role == "Student"
    ensures t == Badges.Purple <==> role == "Professor"
    ensures t == Badges.Green <==> role == "Employee"
    ensures t == Badges.Orange <==> role == "Visitor"
    ensures t == Badges.Gray <==> role !in {"Student", "Professor", "Employee", "Visitor"}
  {
    match role
    case "Student" => Badges.Blue
    case "Professor" => Badges.Purple
    case "Employee" => Badges.Green
    case "Visitor" => Badges.Orange
    case _ => Badges.Gray
  }

  /** `getRoleBadgeColor`. */
  function RoleBadgeColor(role: string): string {
    Badges.Classes(RoleTint(role))
  }

  /** Two roles share a badge exactly when both are unlisted or they are the
      same role: a worker looks like any unlisted role. */
  lemma RoleBadgesDistinct(a: string, b: string)
    ensures RoleBadgeColor(a) == RoleBadgeColor(b)
            <==> a == b || (a !in {"Student", "Professor", "Employee", "Visitor"} && b !in {"Student", "Professor", "Employee", "Visitor"})
    ensures RoleBadgeColor("Worker") == RoleBadgeColor("Security")
  {
    Badges.ClassesInjective(RoleTint(a), RoleTint(b));
  }
}
