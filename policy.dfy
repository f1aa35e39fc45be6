/**
 * A saved dashboard of the backend and the policy that decides who may view,
 * change or delete it.
 */
module DashboardPolicy {
  import opened Types

  /** A row of `dashboards`; the layout and the widgets are kept as their JSON text. */
  datatype Dashboard = Dashboard(
    id: int,
    userId: int,
    name: string,
    description: Option<string>,
    layoutConfig: Option<string>,
    widgets: Option<string>,
    isDefault: bool,
    isShared: bool,
    shareToken: Option<string>)

  /** `view`: the owner, or anyone once the dashboard is shared. */
  predicate CanView(userId: int, d: Dashboard)
  {
    userId == d.userId || d.isShared
  }

  /** `update`: the owner only. */
  predicate CanUpdate(userId: int, d: Dashboard)
  {
    userId == d.userId
  }

  /** `delete`: the owner only. */
  predicate CanDelete(userId: int, d: Dashboard)
  {
    userId == d.userId
  }

  /** Whoever may change a dashboard may see it. */
  lemma UpdateImpliesView(userId: int, d: Dashboard)
    ensures CanUpdate(userId, d) ==> CanView(userId, d)
  {
  }

  /** Deleting and changing are allowed to the same users. */
  lemma DeleteAgreesWithUpdate(userId: int, d: Dashboard)
    ensures CanDelete(userId, d) <==> CanUpdate(userId, d)
  {
  }

  /** Someone other than the owner sees a dashboard only when it is shared, and never changes or deletes it. */
  lemma NonOwner(userId: int, d: Dashboard)
    requires userId != d.userId
    ensures CanView(userId, d) <==> d.isShared
    ensures !CanUpdate(userId, d) && !CanDelete(userId, d)
  {
  }

  /** Sharing opens a dashboard to every user, and the owner's rights do not depend on it. */
  lemma SharingOpensView(userId: int, d: Dashboard, shared: bool)
    ensures CanView(userId, d.(isShared := true))
    ensures CanUpdate(userId, d.(isShared := shared)) == CanUpdate(userId, d)
    ensures CanDelete(userId, d.(isShared := shared)) == CanDelete(userId, d)
  {
  }
}
