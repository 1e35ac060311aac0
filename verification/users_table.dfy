/** The admin users table: the search over name, e-mail and role, the role
    badge colour, and the paged view. */
module UsersTable {
  import opened Models
  import Text
  import Seqs
  import Pagination

  /** The search: name, e-mail or role. */
  predicate MatchesQuery(u: User, query: string)
  {
    Text.IncludesIgnoreCase(u.name, query)
    || Text.IncludesIgnoreCase(u.email, query)
    || Text.IncludesIgnoreCase(RoleName(u.role), query)
  }

  /** `filteredUsers`: kept iff the query matches, in order; an empty query
      keeps everyone. */
  function FilteredUsers(users: seq<User>, query: string): (r: seq<User>)
    ensures forall u :: u in r <==> u in users && MatchesQuery(u, query)
    ensures Seqs.IsSubsequence(r, users)
    ensures query == "" ==> r == users
  {
    Text.EmptyNeedleMatches();
    Seqs.FilterIsSubsequence(users, (u: User) => MatchesQuery(u, query));
    Seqs.Filter(users, (u: User) => MatchesQuery(u, query))
  }

  datatype BadgeColour = Purple | Green | Blue

  /** `getRoleBadgeClass(role)`: the role lower-cased, then admin is purple,
      farmer green and anything else blue. */
  function RoleBadge(role: string): (c: BadgeColour)
    ensures c == Purple <==> Text.ToLower(role) == "admin"
    ensures c == Green <==> Text.ToLower(role) == "farmer"
  {
    var r := Text.ToLower(role);
    if r == "admin" then Purple else if r == "farmer" then Green else Blue
  }

  /** The badge ignores letter case. */
  lemma RoleBadgeIgnoresCase(role: string)
    ensures RoleBadge(Text.ToLower(role)) == RoleBadge(role)
  {
    Text.ToLowerIdempotent(role);
  }

  /** The four roles of the data model: admins purple, farmers green, buyers
      and logistics blue. */
  lemma RoleBadgeOfRole(role: UserRole)
    ensures RoleBadge(RoleName(role)) == match role
                                         case AdminRole => Purple
                                         case FarmerRole => Green
                                         case _ => Blue
  {
    match role
    case AdminRole => Text.ToLowerOfLower("admin");
    case FarmerRole => Text.ToLowerOfLower("farmer");
    case BuyerRole =>
      Text.ToLowerOfLower("buyer");
      assert "buyer" != "admin" && "buyer" != "farmer";
    case LogisticsRole =>
      Text.ToLowerOfLower("logistics");
      assert "logistics" != "admin" && "logistics" != "farmer";
  }

  /** The card for a query and a page, with the page pulled back into range
      (see `Pagination.StalePageHidesMatches` for the code as written). */
  function View(users: seq<User>, query: string, page: int): (v: Pagination.PageView<User>)
    ensures v == Pagination.NoMatches <==> FilteredUsers(users, query) == []
  {
    var filtered := FilteredUsers(users, query);
    Pagination.ClampedRenderShowsMatches(filtered, page);
    Pagination.Render(filtered, Pagination.ClampedPage(page, Pagination.TotalPages(|filtered|)))
  }
}
