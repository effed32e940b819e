/** Page permissions as stored in the `permissions/pages` document, shared by the dev portal and the admin panel. */
module Permissions {
  import opened Wrappers

  /** Discord ids that always have full access. */
  const ADMIN_BYPASS_IDS: seq<string> := ["208699485570859009"]

  /**
   * A page's `permissions` object. A key that is absent from the document is
   * None; `approve` and `assign` exist only on pages that offer those actions.
   */
  datatype PagePerms = PagePerms(access: Option<seq<string>>, approve: Option<seq<string>>, assign: Option<seq<string>>)

  datatype Page = Page(name: string, path: string, permissions: Option<PagePerms>)

  type Pages = map<string, Page>

  /** Outcome of reading one document. */
  datatype Fetched<T> = Found(data: T) | Missing | Failed

  /** `roles.some(r => list.includes(r))`. */
  function AnyIn(roles: seq<string>, list: seq<string>): (b: bool)
    ensures b <==> exists i :: 0 <= i < |roles| && roles[i] in list
  {
    if roles == [] then false
    else roles[0] in list || AnyIn(roles[1..], list)
  }

  /** The role list under `key` of page `pageId`, read with `?.` and `|| []`. */
  function RoleList(pages: Pages, pageId: string, key: PermKey): (r: seq<string>)
    ensures (pageId !in pages || pages[pageId].permissions.None?) ==> r == []
    ensures pageId in pages && pages[pageId].permissions.Some? ==>
      var p := pages[pageId].permissions.value;
      var stored := match key case Access => p.access case Approve => p.approve case Assign => p.assign;
      (stored.Some? ==> r == stored.value) && (stored.None? ==> r == [])
  {
    if pageId in pages && pages[pageId].permissions.Some? then
      var p := pages[pageId].permissions.value;
      match key
      case Access => p.access.GetOr([])
      case Approve => p.approve.GetOr([])
      case Assign => p.assign.GetOr([])
    else []
  }

  datatype PermKey = Access | Approve | Assign
}
