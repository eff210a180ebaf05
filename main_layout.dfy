/** The application shell: which views the logged-in user may open (the
    union of the views their stored roles allow), the navigation guard that
    reroutes everyone else to the welcome page, and the drawer of links.
    The view catalogue (class name to page title) is given; the order the
    stream sorts it in is an input already sorted by title. */
module Layout {
  import opened Common
  import opened Entities
  import opened Repositories
  import opened Security

  const AdminRole := "ADMIN"
  const WelcomeView := "com.sbtgdata.views.WelcomeView"

  /** The views anybody may open. */
  predicate IsPublicView(className: string)
  {
    Contains(className, "LoginView") || Contains(className, "RegisterView") || Contains(className, "WelcomeView")
  }

  /** One of the user's role names names a stored role that allows `view`;
      unknown roles and null view sets allow nothing. */
  predicate RolesAllow(roleDocs: map<string, Role>, userRoles: set<string>, view: string)
    requires RoleValid(roleDocs)
  {
    exists r :: r in userRoles && RoleByName(roleDocs, r).Some? &&
                RoleByName(roleDocs, r).value.allowedViews.Some? &&
                view in RoleByName(roleDocs, r).value.allowedViews.value
  }

  /** The stored user behind a session. */
  function SessionUser(authenticated: Option<UserDetails>, users: map<string, UserDoc>): (u: Option<UserDoc>)
    requires UserValid(users)
    ensures u.Some? <==> authenticated.Some? && EmailTaken(users, Some(authenticated.value.username))
    ensures u.Some? ==> u.value.email == Some(authenticated.value.username) && u.value in users.Values
  {
    if authenticated.Some? && EmailTaken(users, Some(authenticated.value.username))
    then UserByEmail(users, Some(authenticated.value.username))
    else None
  }

  /** getAllowedViewsForCurrentUser, as a membership test. */
  predicate MayOpen(roleDocs: map<string, Role>, user: Option<UserDoc>, view: string)
    requires RoleValid(roleDocs)
  {
    user.Some? && user.value.roles.Some? && RolesAllow(roleDocs, user.value.roles.value, view)
  }

  /** beforeEnter: public views pass, admins pass, everybody else passes
      exactly when one of their roles allows the target. */
  predicate Rerouted(target: string, isAdmin: bool, allowed: bool)
  {
    !IsPublicView(target) && !isAdmin && !allowed
  }

  /** The drawer's test for one catalogue entry. */
  predicate ShownInDrawer(className: string, isAdmin: bool, allowed: bool)
  {
    !IsPublicView(className) && !Contains(className, "RootView") &&
    !(Contains(className, "RoleManagementView") && !isAdmin) &&
    (isAdmin || allowed)
  }

  /** Every link the drawer shows leads to a view the guard lets through. */
  lemma DrawerLinksAreNavigable(className: string, isAdmin: bool, allowed: bool)
    requires ShownInDrawer(className, isAdmin, allowed)
    ensures !Rerouted(className, isAdmin, allowed)
  {
  }

  /** The role-management view is never shown to a non-admin, whatever
      their roles allow. */
  lemma RoleManagementOnlyForAdmins(className: string, allowed: bool)
    requires Contains(className, "RoleManagementView")
    ensures !ShownInDrawer(className, false, allowed)
    ensures !IsPublicView(className) && !Contains(className, "RootView") ==> ShownInDrawer(className, true, allowed)
  {
  }

  /** String.compareTo(...) <= 0: lexicographic order on characters, a
      prefix first. */
  predicate TitleLeq(a: string, b: string)
    decreases |a|
  {
    a == [] || (b != [] && (a[0] < b[0] || (a[0] == b[0] && TitleLeq(a[1..], b[1..]))))
  }

  predicate SortedByTitle(links: seq<(string, string)>)
  {
    forall i, j :: 0 <= i < j < |links| ==> TitleLeq(links[i].1, links[j].1)
  }

  /** The stream of catalogue entries: each entry once, sorted by title. */
  predicate ListsCatalogue(entries: seq<(string, string)>, views: map<string, string>)
  {
    (forall i :: 0 <= i < |entries| ==> entries[i].0 in views && views[entries[i].0] == entries[i].1) &&
    (forall k :: k in views ==> exists i :: 0 <= i < |entries| && entries[i].0 == k) &&
    (forall i, j :: 0 <= i < j < |entries| ==> entries[i].0 != entries[j].0)
  }

  class MainLayout {
    const securityService: SecurityService
    const roleRepository: RoleRepository
    /** ViewService.getAllViews(): view class name to page title. */
    const allViews: map<string, string>

    constructor (securityService: SecurityService, roleRepository: RoleRepository, allViews: map<string, string>)
      ensures this.securityService == securityService && this.roleRepository == roleRepository
      ensures this.allViews == allViews
    {
      this.securityService, this.roleRepository, this.allViews := securityService, roleRepository, allViews;
    }

    ghost predicate Valid()
      reads securityService, securityService.userService, securityService.userService.userRepository,
            securityService.userService.dataFlowRepository, roleRepository
    {
      securityService.userService.Valid() && roleRepository.Valid()
    }

    ghost function CurrentUser(): Option<UserDoc>
      requires Valid()
      reads securityService, securityService.userService, securityService.userService.userRepository,
            securityService.userService.dataFlowRepository, roleRepository
    {
      SessionUser(securityService.authenticated, securityService.userService.userRepository.docs)
    }

    /** The union of the allowed views of the current user's stored roles. */
    method GetAllowedViewsForCurrentUser() returns (allowed: set<string>)
      requires Valid()
      ensures forall v :: v in allowed <==> MayOpen(roleRepository.docs, CurrentUser(), v)
    {
      allowed := {};
      var user := securityService.GetCurrentUser();
      if user.Some? && user.value.roles.Some? {
        var roles := user.value.roles.value;
        var left := roles;
        while left != {}
          invariant left <= roles
          invariant forall v :: v in allowed <==> RolesAllow(roleRepository.docs, roles - left, v)
          decreases |left|
        {
          var roleName :| roleName in left;
          var role := roleRepository.FindByName(roleName);
          if role.Some? && role.value.allowedViews.Some? {
            allowed := allowed + role.value.allowedViews.value;
          }
          left := left - {roleName};
        }
      }
    }

    /** The navigation guard: whether entering `target` is rerouted to the
        welcome view. */
    method BeforeEnter(target: string) returns (rerouted: bool)
      requires Valid()
      ensures rerouted <==> Rerouted(target, securityService.HasRole(AdminRole),
                                     MayOpen(roleRepository.docs, CurrentUser(), target))
    {
      if IsPublicView(target) {
        return false;
      }
      if securityService.HasRole(AdminRole) {
        return false;
      }
      var allowed := GetAllowedViewsForCurrentUser();
      rerouted := target !in allowed;
    }

    /** The drawer's links, walked in title order. */
    method CreateDrawer(entries: seq<(string, string)>) returns (links: seq<(string, string)>)
      requires Valid()
      requires ListsCatalogue(entries, allViews) && SortedByTitle(entries)
      ensures SortedByTitle(links) && IsSubsequence(links, entries)
      ensures forall k, t :: (k, t) in links <==>
                k in allViews && t == allViews[k] &&
                ShownInDrawer(k, securityService.HasRole(AdminRole), MayOpen(roleRepository.docs, CurrentUser(), k))
    {
      var allowed := GetAllowedViewsForCurrentUser();
      var isAdmin := securityService.HasRole(AdminRole);
      ghost var shown := (e: (string, string)) => ShownInDrawer(e.0, isAdmin, e.0 in allowed);
      links := [];
      var i := 0;
      while i < |entries|
        invariant 0 <= i <= |entries|
        invariant links == Filter(entries[..i], shown)
      {
        FilterStep(entries, i, shown);
        assert shown(entries[i]) == ShownInDrawer(entries[i].0, isAdmin, entries[i].0 in allowed);
        if ShownInDrawer(entries[i].0, isAdmin, entries[i].0 in allowed) {
          links := links + [entries[i]];
        }
        i := i + 1;
      }
      assert entries[..i] == entries;
      DrawerLinks(entries, allViews, isAdmin, allowed);
    }
  }

  /** The drawer shows each catalogue entry that passes its test, with the
      entry's own title, and nothing else. */
  lemma DrawerLinks(entries: seq<(string, string)>, views: map<string, string>, isAdmin: bool, allowed: set<string>)
    requires ListsCatalogue(entries, views) && SortedByTitle(entries)
    ensures var links := Filter(entries, (e: (string, string)) => ShownInDrawer(e.0, isAdmin, e.0 in allowed));
            SortedByTitle(links) && IsSubsequence(links, entries) &&
            forall k, t :: (k, t) in links <==> k in views && t == views[k] && ShownInDrawer(k, isAdmin, k in allowed)
  {
    var shown := (e: (string, string)) => ShownInDrawer(e.0, isAdmin, e.0 in allowed);
    DrawerOrder(entries, shown);
    forall k, t | k in views && t == views[k]
      ensures (k, t) in entries
    {
      var i :| 0 <= i < |entries| && entries[i].0 == k;
      assert entries[i] == (k, t);
    }
  }

  /** The drawer keeps the catalogue's title order and is part of it. */
  lemma DrawerOrder(entries: seq<(string, string)>, shown: ((string, string)) -> bool)
    requires SortedByTitle(entries)
    ensures SortedByTitle(Filter(entries, shown)) && IsSubsequence(Filter(entries, shown), entries)
    ensures forall e :: e in Filter(entries, shown) <==> e in entries && shown(e)
  {
    FilterSpec(entries, shown);
    FilterKeepsSorted(entries, shown, (a: (string, string), b: (string, string)) => TitleLeq(a.1, b.1));
  }
}
