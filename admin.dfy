/**
 * The admin panel: who may open it, and the edits it makes to the admin-user
 * list and to the page-permission dictionary.
 */
module Admin {
  import opened Wrappers
  import opened Seqs
  import opened Permissions
  import Text
  import GuildRoles

  /** The pages written when the permissions document does not exist yet. */
  const DEFAULT_PAGES: Pages := map[
    "devportal" := Page("Dev Portal", "/pages/devportal/", Some(PagePerms(Some([]), Some([]), Some([])))),
    "admin" := Page("Admin Panel", "/pages/admin/", Some(PagePerms(Some([]), None, None)))
  ]

  // ---------------------------------------------------------------------------
  // Access

  /** The roles on the admin page, when the pages document lists them. */
  predicate AdminRolesListed(pages: Fetched<Pages>) {
    && pages.Found?
    && "admin" in pages.data
    && pages.data["admin"].permissions.Some?
    && pages.data["admin"].permissions.value.access.Some?
  }

  /**
   * `checkAdminAccess`. `userId` is the stored user (None when absent),
   * `admins` the adminUsers document's `users`, `roles` the user's roles when
   * the roles request succeeded, `pages` the permissions document.
   */
  function CheckAdminAccess(hasToken: bool, userId: Option<string>, admins: Fetched<Option<seq<string>>>,
                            roles: Option<seq<string>>, pages: Fetched<Pages>): (granted: bool)
    ensures granted <==> (hasToken && userId.Some? && (
      || userId.value in ADMIN_BYPASS_IDS
      || (admins.Found? && userId.value in admins.data.GetOr([]))
      || (roles.Some? && AdminRolesListed(pages) &&
          exists r :: r in roles.value && r in pages.data["admin"].permissions.value.access.value)))
  {
    if !hasToken || userId.None? then false
    else if userId.value in ADMIN_BYPASS_IDS then true
    else if admins.Found? && userId.value in admins.data.GetOr([]) then true
    else if roles.None? || !AdminRolesListed(pages) then false
    else AnyIn(roles.value, pages.data["admin"].permissions.value.access.value)
  }

  // ---------------------------------------------------------------------------
  // The admin-user list

  ghost predicate NoDuplicates(ids: seq<string>) {
    forall i, j :: 0 <= i < j < |ids| ==> ids[i] != ids[j]
  }

  /** `loadAdminUsers`: the stored list, the bypass ids when there is none yet, unchanged on error. */
  function LoadedAdmins(previous: seq<string>, doc: Fetched<Option<seq<string>>>): (r: seq<string>)
    ensures doc.Missing? ==> r == ADMIN_BYPASS_IDS
    ensures doc.Failed? ==> r == previous
    ensures doc.Found? ==> r == doc.data.GetOr([])
  {
    match doc
    case Found(users) => users.GetOr([])
    case Missing => ADMIN_BYPASS_IDS
    case Failed => previous
  }

  datatype AddAdminOutcome = EmptyId | NotNumeric | AlreadyAdmin | AdminAdded

  /** `handleAddAdmin` on the list: the outcome and the new list. */
  function AddAdmin(admins: seq<string>, input: string): (r: (AddAdminOutcome, seq<string>))
    ensures var id := Text.Trim(input);
      && (r.0 == EmptyId <==> id == "")
      && (r.0 == NotNumeric <==> id != "" && !Text.AllDigits(id))
      && (r.0 == AlreadyAdmin <==> Text.AllDigits(id) && id in admins)
      && (r.0 == AdminAdded <==> Text.AllDigits(id) && id !in admins)
      && (r.0 == AdminAdded ==> r.1 == admins + [id])
      && (r.0 != AdminAdded ==> r.1 == admins)
  {
    var id := Text.Trim(input);
    if id == "" then (EmptyId, admins)
    else if !Text.AllDigits(id) then (NotNumeric, admins)
    else if id in admins then (AlreadyAdmin, admins)
    else (AdminAdded, admins + [id])
  }

  /** Every added id is a non-empty digit string, and a duplicate-free list stays so. */
  lemma AddAdminKeepsListClean(admins: seq<string>, input: string)
    ensures var r := AddAdmin(admins, input);
      && (forall i :: |admins| <= i < |r.1| ==> Text.AllDigits(r.1[i]))
      && (NoDuplicates(admins) ==> NoDuplicates(r.1))
  {
  }

  datatype RemoveAdminOutcome = Protected | Cancelled | AdminRemoved

  /** `removeAdmin`: `confirmed` is the answer to the confirmation dialog. */
  function RemoveAdmin(admins: seq<string>, id: string, confirmed: bool): (r: (RemoveAdminOutcome, seq<string>))
    ensures id in ADMIN_BYPASS_IDS ==> r == (Protected, admins)
    ensures id !in ADMIN_BYPASS_IDS && !confirmed ==> r == (Cancelled, admins)
    ensures id !in ADMIN_BYPASS_IDS && confirmed ==> r.0 == AdminRemoved
    ensures id !in r.1 || r.0 != AdminRemoved
    ensures forall x :: x in r.1 <==> x in admins && (x != id || r.0 != AdminRemoved)
    ensures multiset(r.1) <= multiset(admins)
  {
    if id in ADMIN_BYPASS_IDS then (Protected, admins)
    else if !confirmed then (Cancelled, admins)
    else (AdminRemoved, Filter(admins, (x: string) => x != id))
  }

  /** No removal ever takes out a bypass id. */
  lemma BypassIdsSurviveRemoval(admins: seq<string>, id: string, confirmed: bool)
    ensures forall b :: b in ADMIN_BYPASS_IDS && b in admins ==> b in RemoveAdmin(admins, id, confirmed).1
  {
  }

  /** Removing keeps the other ids in their order and with their multiplicities. */
  lemma RemoveKeepsOthersInOrder(admins: seq<string>, id: string)
    requires id !in ADMIN_BYPASS_IDS
    ensures forall x :: x != id ==>
      multiset(RemoveAdmin(admins, id, true).1)[x] == multiset(admins)[x]
    ensures RemoveAdmin(admins, id, true).1 == Filter(admins, (x: string) => x != id)
  {
    forall x | x != id ensures multiset(RemoveAdmin(admins, id, true).1)[x] == multiset(admins)[x] {
      FilterMultiset(admins, (y: string) => y != id, x);
    }
  }

  // ---------------------------------------------------------------------------
  // The page dictionary

  /**
   * Keys a plain JavaScript object inherits that survive lower-casing; the
   * `pagePermissions[pageId]` test finds them truthy on every dictionary.
   */
  const INHERITED_KEYS: set<string> := {"constructor", "__proto__"}

  /** `loadPermissions`: the stored pages, the defaults when there are none, unchanged on error. */
  function LoadedPages(previous: Pages, doc: Fetched<Pages>): (r: Pages)
    ensures doc.Missing? ==> r == DEFAULT_PAGES
    ensures doc.Failed? ==> r == previous
    ensures doc.Found? ==> r == doc.data
  {
    match doc
    case Found(pages) => pages
    case Missing => DEFAULT_PAGES
    case Failed => previous
  }

  /** The id `handleAddPage` uses: lower-cased, then trimmed, so it has no capitals and no surrounding whitespace. */
  function PageKey(raw: string): (k: string)
    ensures |k| <= |raw|
    ensures forall i :: 0 <= i < |k| ==> !('A' <= k[i] <= 'Z')
    ensures |k| > 0 ==> !Text.IsJsWhitespace(k[0]) && !Text.IsJsWhitespace(k[|k| - 1])
  {
    var low := Text.Lower(raw);
    assert forall m :: 0 <= m < |low| ==> !('A' <= low[m] <= 'Z');
    TrimKeepsNoCapitals(low);
    Text.Trim(low)
  }

  lemma TrimKeepsNoCapitals(s: string)
    requires forall m :: 0 <= m < |s| ==> !('A' <= s[m] <= 'Z')
    ensures var t := Text.Trim(s); |t| <= |s| && forall m :: 0 <= m < |t| ==> !('A' <= t[m] <= 'Z')
  {
    var t := Text.Trim(s);
    var i, j :| 0 <= i <= j <= |s| && t == s[i..j];
    forall m | 0 <= m < |t| ensures !('A' <= t[m] <= 'Z') {
      assert t[m] == s[i + m];
    }
  }

  /** An id typed in its stored form is stored unchanged: normalising twice is normalising once. */
  lemma PageKeyIdempotent(raw: string)
    ensures PageKey(PageKey(raw)) == PageKey(raw)
  {
    var k := PageKey(raw);
    Text.LowerOfLower(k);
    Text.TrimIdempotent(Text.Lower(raw));
  }

  /** The page `handleAddPage` creates: no access roles, and approve/assign only when asked for. */
  function NewPage(name: string, path: string, hasApprove: bool, hasAssign: bool): (p: Page)
    ensures p.name == name && p.path == path && p.permissions.Some?
    ensures p.permissions.value.access == Some([])
    ensures p.permissions.value.approve.Some? <==> hasApprove
    ensures p.permissions.value.assign.Some? <==> hasAssign
    ensures p.permissions.value.approve.Some? ==> p.permissions.value.approve.value == []
    ensures p.permissions.value.assign.Some? ==> p.permissions.value.assign.value == []
  {
    Page(name, path, Some(PagePerms(Some([]), if hasApprove then Some([]) else None, if hasAssign then Some([]) else None)))
  }

  /** `handleAddPage` on the dictionary; None when the id is taken. */
  function AddPage(pages: Pages, rawId: string, name: string, path: string, hasApprove: bool, hasAssign: bool)
    : (r: Option<Pages>)
    ensures var id := PageKey(rawId);
      && (r.None? <==> id in pages || id in INHERITED_KEYS)
      && (r.Some? ==> r.value.Keys == pages.Keys + {id})
      && (r.Some? ==> forall k :: k in pages ==> r.value[k] == pages[k])
      && (r.Some? ==> r.value[id].name == Text.Trim(name) && r.value[id].path == Text.Trim(path))
      && (r.Some? ==> r.value[id].permissions == Some(PagePerms(Some([]),
            if hasApprove then Some([]) else None, if hasAssign then Some([]) else None)))
  {
    var id := PageKey(rawId);
    if id in pages || id in INHERITED_KEYS then None
    else Some(pages[id := NewPage(Text.Trim(name), Text.Trim(path), hasApprove, hasAssign)])
  }

  /** `savePermissions`: replaces access, and approve/assign only where the page has them. */
  function SavePermissions(pages: Pages, pageId: string, access: seq<string>, approve: seq<string>, assign: seq<string>)
    : (r: Pages)
    ensures r.Keys == pages.Keys
    ensures forall k :: k in pages && k != pageId ==> r[k] == pages[k]
    ensures (pageId !in pages || pages[pageId].permissions.None?) ==> r == pages
    ensures pageId in pages && pages[pageId].permissions.Some? ==>
      && r[pageId].name == pages[pageId].name && r[pageId].path == pages[pageId].path
      && r[pageId].permissions.Some?
    ensures pageId in pages && pages[pageId].permissions.Some? && r[pageId].permissions.Some? ==>
      var old_ := pages[pageId].permissions.value;
      var new_ := r[pageId].permissions.value;
      && new_.access == Some(access)
      && new_.approve == (if old_.approve.Some? then Some(approve) else None)
      && new_.assign == (if old_.assign.Some? then Some(assign) else None)
  {
    if pageId !in pages || pages[pageId].permissions.None? then pages
    else
      var page := pages[pageId];
      var p := page.permissions.value;
      var perms := PagePerms(Some(access),
        if p.approve.Some? then Some(approve) else None,
        if p.assign.Some? then Some(assign) else None);
      pages[pageId := page.(permissions := Some(perms))]
  }

  /** Saving twice with the same selection is the same as saving once. */
  lemma SaveIdempotent(pages: Pages, pageId: string, access: seq<string>, approve: seq<string>, assign: seq<string>)
    ensures var once := SavePermissions(pages, pageId, access, approve, assign);
      SavePermissions(once, pageId, access, approve, assign) == once
  {
  }

  // ---------------------------------------------------------------------------
  // Role swatches

  /** Roles shown highest position first. */
  predicate ShownAbove(a: GuildRoles.RoleOut, b: GuildRoles.RoleOut) {
    a.position >= b.position
  }

  /** The panel's sort: a permutation by non-increasing position that keeps the order of equal positions. */
  function RolesForDisplay(roles: seq<GuildRoles.RoleOut>): (r: seq<GuildRoles.RoleOut>)
    ensures multiset(r) == multiset(roles)
    ensures forall i, j :: 0 <= i < j < |r| ==> r[i].position >= r[j].position
    ensures forall p :: Filter(r, GuildRoles.OutAtPosition(p)) == Filter(roles, GuildRoles.OutAtPosition(p))
  {
    assert TotalPreorder(ShownAbove);
    var r := Sort(roles, ShownAbove);
    assert forall i, j :: 0 <= i < j < |r| ==> ShownAbove(r[i], r[j]);
    DisplayStable(roles);
    r
  }

  lemma DisplayStable(roles: seq<GuildRoles.RoleOut>)
    requires TotalPreorder(ShownAbove)
    ensures forall p :: Filter(Sort(roles, ShownAbove), GuildRoles.OutAtPosition(p)) == Filter(roles, GuildRoles.OutAtPosition(p))
  {
    forall p ensures Filter(Sort(roles, ShownAbove), GuildRoles.OutAtPosition(p)) == Filter(roles, GuildRoles.OutAtPosition(p)) {
      DisplayStableAt(roles, p);
    }
  }

  lemma DisplayStableAt(roles: seq<GuildRoles.RoleOut>, p: int)
    requires TotalPreorder(ShownAbove)
    ensures Filter(Sort(roles, ShownAbove), GuildRoles.OutAtPosition(p)) == Filter(roles, GuildRoles.OutAtPosition(p))
  {
    var x := GuildRoles.RoleOut("", "", "", p, None);
    var level := LevelWith(ShownAbove, x);
    assert forall y :: level(y) == GuildRoles.OutAtPosition(p)(y);
    SortStable(roles, ShownAbove, x);
    FilterSameTest(Sort(roles, ShownAbove), level, GuildRoles.OutAtPosition(p));
    FilterSameTest(roles, level, GuildRoles.OutAtPosition(p));
  }

  /** The endpoint already sorts by position, so the panel's sort keeps its order. */
  lemma DisplayKeepsEndpointOrder(roles: seq<GuildRoles.DiscordRole>)
    ensures RolesForDisplay(GuildRoles.NormaliseRoles(roles, true)) == GuildRoles.NormaliseRoles(roles, true)
  {
    var out := GuildRoles.NormaliseRoles(roles, true);
    assert TotalPreorder(ShownAbove);
    assert SortedBy(out, ShownAbove);
    SortSorted(out, ShownAbove);
  }

  /**
   * The swatch expression as written, `color ? '#' + color.toString(16).padStart(6, '0') : '#99aab5'`,
   * applied to the string colour the roles endpoint returns (`toString` of a string ignores the radix).
   */
  function SwatchAsWritten(color: string): (s: string)
    ensures color == "" ==> s == GuildRoles.DEFAULT_COLOUR
    ensures color != "" ==> |s| == 1 + (if |color| >= 6 then |color| else 6) && s[0] == '#' && s[|s| - |color|..] == color
  {
    if color == "" then GuildRoles.DEFAULT_COLOUR else "#" + Text.PadStart(color, 6, '0')
  }

  /** As written, every swatch for an endpoint role starts with two '#' characters. */
  lemma SwatchAsWrittenDoublesHash(c: Option<nat>)
    ensures var s := SwatchAsWritten(GuildRoles.IntToHex(c));
      s == "#" + GuildRoles.IntToHex(c) && |s| >= 8 && s[0] == '#' && s[1] == '#'
  {
  }

  /** The swatch as intended: the endpoint's colour is already a CSS colour. */
  function Swatch(color: string): (s: string)
    ensures color != "" ==> s == color
  {
    if color == "" then GuildRoles.DEFAULT_COLOUR else color
  }

  /** The intended swatch is `'#'` and the colour's hex digits, or the default grey for no colour. */
  lemma SwatchIsColour(c: Option<nat>)
    ensures var s := Swatch(GuildRoles.IntToHex(c));
      && ((c.None? || c.value == 0) ==> s == "#99aab5")
      && (c.Some? && c.value > 0 ==> s[0] == '#' && Text.ParseHex(s[1..]) == c.value)
      && (c.Some? && c.value <= 0xFFFFFF ==> |s| == 7)
  {
  }

  // ---------------------------------------------------------------------------
  // The panel state

  class AdminPanel {
    var adminUsers: seq<string>
    var pagePermissions: Pages

    constructor ()
      ensures adminUsers == [] && pagePermissions == map[]
    {
      adminUsers := [];
      pagePermissions := map[];
    }

    method LoadAdminUsers(doc: Fetched<Option<seq<string>>>)
      modifies this`adminUsers
      ensures adminUsers == LoadedAdmins(old(adminUsers), doc)
    {
      adminUsers := LoadedAdmins(adminUsers, doc);
    }

    method LoadPermissions(doc: Fetched<Pages>)
      modifies this`pagePermissions
      ensures pagePermissions == LoadedPages(old(pagePermissions), doc)
    {
      pagePermissions := LoadedPages(pagePermissions, doc);
    }

    /** `handleAddAdmin`: validates the typed id and pushes it. */
    method HandleAddAdmin(input: string) returns (outcome: AddAdminOutcome)
      modifies this`adminUsers
      ensures (outcome, adminUsers) == AddAdmin(old(adminUsers), input)
    {
      var id := Text.Trim(input);
      if id == "" {
        return EmptyId;
      }
      if !Text.AllDigits(id) {
        return NotNumeric;
      }
      if id in adminUsers {
        return AlreadyAdmin;
      }
      adminUsers := adminUsers + [id];
      return AdminAdded;
    }

    method RemoveAdminUser(id: string, confirmed: bool) returns (outcome: RemoveAdminOutcome)
      modifies this`adminUsers
      ensures (outcome, adminUsers) == RemoveAdmin(old(adminUsers), id, confirmed)
    {
      var r := RemoveAdmin(adminUsers, id, confirmed);
      outcome := r.0;
      adminUsers := r.1;
    }

    /** `handleAddPage`: returns false when the id is taken. */
    method HandleAddPage(rawId: string, name: string, path: string, hasApprove: bool, hasAssign: bool)
      returns (added: bool)
      modifies this`pagePermissions
      ensures var r := AddPage(old(pagePermissions), rawId, name, path, hasApprove, hasAssign);
        added == r.Some? && pagePermissions == r.GetOr(old(pagePermissions))
    {
      var r := AddPage(pagePermissions, rawId, name, path, hasApprove, hasAssign);
      added := r.Some?;
      if added {
        pagePermissions := r.value;
      }
    }

    method Save(pageId: string, access: seq<string>, approve: seq<string>, assign: seq<string>)
      modifies this`pagePermissions
      ensures pagePermissions == SavePermissions(old(pagePermissions), pageId, access, approve, assign)
    {
      pagePermissions := SavePermissions(pagePermissions, pageId, access, approve, assign);
    }
  }
}
