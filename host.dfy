/** The entities the admin add-on borrows from its host framework: sites,
    users with their groups, and the CMS's global page permissions, which tie
    a set of sites to one user or to one group. Only the attributes the
    access policy reads are kept. */
module Host {

  type SiteId = nat
  type UserId = nat
  type GroupId = nat

  /** The requesting user: `is_superuser` and the groups the user belongs to. */
  datatype User = User(id: UserId, isSuperuser: bool, groups: set<GroupId>)

  /** Whom a page permission is granted to. */
  datatype Grantee = ToUser(user: UserId) | ToGroup(group: GroupId)

  /** A global page permission: the grantee manages the given sites. */
  datatype PagePermission = PagePermission(grantee: Grantee, sites: set<SiteId>)

  /** The permission names `user`, either directly or through one of the
      user's groups. */
  predicate Grants(p: PagePermission, user: User)
    ensures Grants(p, user) && user.groups == {} ==> p.grantee == ToUser(user.id)
  {
    match p.grantee
    case ToUser(u) => u == user.id
    case ToGroup(g) => g in user.groups
  }

  /** Some page permission of `perms` names `user` (directly or through a
      group) and covers `site`. */
  predicate HoldsPermission(user: User, perms: seq<PagePermission>, site: SiteId)
  {
    exists p :: p in perms && Grants(p, user) && site in p.sites
  }

  /** The sites the user holds, built permission by permission: the union of
      the site sets of the permissions that reach the user. It is the same
      set as the one the joined lookup `HoldsPermission` describes. */
  function GrantedSites(user: User, perms: seq<PagePermission>): (r: set<SiteId>)
    ensures forall s :: s in r <==> HoldsPermission(user, perms, s)
    decreases |perms|
  {
    if perms == [] then {}
    else
      var init, last := perms[..|perms| - 1], perms[|perms| - 1];
      assert perms == init + [last];
      GrantedSites(user, init) + (if Grants(last, user) then last.sites else {})
  }

  /** The record's site set meets a site the user holds a permission on. */
  predicate ManagesSomeSite(user: User, perms: seq<PagePermission>, sites: set<SiteId>)
    ensures sites == {} || perms == [] ==> !ManagesSomeSite(user, perms, sites)
  {
    exists s :: s in sites && HoldsPermission(user, perms, s)
  }
}
