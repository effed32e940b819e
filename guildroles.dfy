/**
 * Guild-role normalisation: the `/api/discord/guild-roles` handler and its
 * twin route in the Express server. Both drop `@everyone`, sort by position
 * (highest first) and encode each colour as a `#rrggbb` string.
 */
module GuildRoles {
  import opened Wrappers
  import opened Seqs
  import opened Http
  import Text

  /** A role as Discord returns it; `color` is an integer, absent for none. */
  datatype DiscordRole = DiscordRole(id: string, name: string, color: Option<nat>, position: int, permissions: string)

  /** A role as the endpoints return it. The server route has no `permissions` field. */
  datatype RoleOut = RoleOut(id: string, name: string, color: string, position: int, permissions: Option<string>)

  /** Discord's grey, used for roles without a colour. */
  const DEFAULT_COLOUR: string := "#99aab5"

  /** `intToHex`: `'#'` and the base-16 digits padded to six, or the default grey for 0 or none. */
  function IntToHex(c: Option<nat>): (s: string)
    ensures (c.None? || c.value == 0) ==> s == DEFAULT_COLOUR
    ensures c.Some? && c.value > 0 ==>
      && |s| >= 7 && s[0] == '#'
      && (forall i :: 1 <= i < |s| ==> Text.IsHexDigit(s[i]))
      && Text.ParseHex(s[1..]) == c.value
    ensures c.Some? && 0 < c.value <= 0xFFFFFF ==> |s| == 7
  {
    if c.None? || c.value == 0 then DEFAULT_COLOUR
    else
      var digits := Text.ToHex(c.value);
      var padded := Text.PadStart(digits, 6, '0');
      HexRoundTrip(c.value);
      "#" + padded
  }

  /** The padded digits read back as the colour, and stay within six digits up to 0xFFFFFF. */
  lemma HexRoundTrip(n: nat)
    ensures var p := Text.PadStart(Text.ToHex(n), 6, '0');
      && |p| >= 6
      && (forall i :: 0 <= i < |p| ==> Text.IsHexDigit(p[i]))
      && Text.ParseHex(p) == n
      && (n <= 0xFFFFFF ==> |p| == 6)
  {
    var d := Text.ToHex(n);
    var p := Text.PadStart(d, 6, '0');
    Text.ParseToHex(n);
    if |d| < 6 {
      assert p == Text.Repeat('0', 6 - |d|) + d;
      Text.ParseHexLeadingZeros(6 - |d|, d);
    }
    Text.ToHexLength(n, 6);
    assert Text.Pow16(6) == 0x1000000;
  }

  predicate NotEveryone(r: DiscordRole) {
    r.name != "@everyone"
  }

  predicate IsEveryone(r: DiscordRole) {
    r.name == "@everyone"
  }

  /** The comparator `b.position - a.position`: higher positions first. */
  predicate HigherFirst(a: DiscordRole, b: DiscordRole) {
    a.position >= b.position
  }

  function Project(r: DiscordRole, withPermissions: bool): RoleOut {
    RoleOut(r.id, r.name, IntToHex(r.color), r.position, if withPermissions then Some(r.permissions) else None)
  }

  function ProjectWith(withPermissions: bool): DiscordRole -> RoleOut {
    (r: DiscordRole) => Project(r, withPermissions)
  }

  function AtPosition(p: int): DiscordRole -> bool {
    (r: DiscordRole) => r.position == p
  }

  function OutAtPosition(p: int): RoleOut -> bool {
    (r: RoleOut) => r.position == p
  }

  /**
   * The sort step: a permutation ordered by non-increasing position, and
   * stable: roles sharing a position keep their upstream order.
   */
  function ByPosition(rs: seq<DiscordRole>): (r: seq<DiscordRole>)
    ensures multiset(r) == multiset(rs)
    ensures forall i, j :: 0 <= i < j < |r| ==> r[i].position >= r[j].position
    ensures forall p :: Filter(r, AtPosition(p)) == Filter(rs, AtPosition(p))
  {
    assert TotalPreorder(HigherFirst);
    var r := Sort(rs, HigherFirst);
    assert forall i, j :: 0 <= i < j < |r| ==> HigherFirst(r[i], r[j]);
    ByPositionStable(rs);
    r
  }

  lemma ByPositionStable(rs: seq<DiscordRole>)
    requires TotalPreorder(HigherFirst)
    ensures forall p :: Filter(Sort(rs, HigherFirst), AtPosition(p)) == Filter(rs, AtPosition(p))
  {
    forall p ensures Filter(Sort(rs, HigherFirst), AtPosition(p)) == Filter(rs, AtPosition(p)) {
      ByPositionStableAt(rs, p);
    }
  }

  lemma ByPositionStableAt(rs: seq<DiscordRole>, p: int)
    requires TotalPreorder(HigherFirst)
    ensures Filter(Sort(rs, HigherFirst), AtPosition(p)) == Filter(rs, AtPosition(p))
  {
    var x := DiscordRole("", "", None, p, "");
    var level := LevelWith(HigherFirst, x);
    assert forall y :: level(y) == AtPosition(p)(y);
    SortStable(rs, HigherFirst, x);
    FilterSameTest(Sort(rs, HigherFirst), level, AtPosition(p));
    FilterSameTest(rs, level, AtPosition(p));
  }

  /** The `filter`/`sort`/`map` chain. */
  function NormaliseRoles(roles: seq<DiscordRole>, withPermissions: bool): (out: seq<RoleOut>)
    ensures |out| + |Filter(roles, IsEveryone)| == |roles|
    ensures forall i :: 0 <= i < |out| ==> out[i].name != "@everyone"
    ensures forall i, j :: 0 <= i < j < |out| ==> out[i].position >= out[j].position
    ensures forall i :: 0 <= i < |out| ==>
      exists r :: r in roles && r.name != "@everyone" && out[i] == Project(r, withPermissions)
    ensures forall r :: r in roles && r.name != "@everyone" ==> Project(r, withPermissions) in out
    ensures forall p :: Filter(out, OutAtPosition(p)) == Map(Filter(Filter(roles, NotEveryone), AtPosition(p)), ProjectWith(withPermissions))
  {
    var kept := Filter(roles, NotEveryone);
    var sorted := ByPosition(kept);
    var out := Map(sorted, ProjectWith(withPermissions));
    NormaliseFacts(roles, withPermissions, kept, sorted, out);
    NormaliseStable(kept, sorted, withPermissions);
    out
  }

  lemma NormaliseFacts(roles: seq<DiscordRole>, withPermissions: bool, kept: seq<DiscordRole>,
                       sorted: seq<DiscordRole>, out: seq<RoleOut>)
    requires kept == Filter(roles, NotEveryone)
    requires sorted == ByPosition(kept)
    requires out == Map(sorted, ProjectWith(withPermissions))
    ensures |out| + |Filter(roles, IsEveryone)| == |roles|
    ensures forall i :: 0 <= i < |out| ==>
      exists r :: r in roles && r.name != "@everyone" && out[i] == Project(r, withPermissions)
    ensures forall r :: r in roles && r.name != "@everyone" ==> Project(r, withPermissions) in out
  {
    FilterComplement(roles, NotEveryone, IsEveryone);
    assert |sorted| == |kept| by {
      assert |multiset(sorted)| == |multiset(kept)|;
    }
    SameMembers(sorted, kept);
    forall i | 0 <= i < |out|
      ensures exists r :: r in roles && r.name != "@everyone" && out[i] == Project(r, withPermissions)
    {
      assert sorted[i] in kept;
      assert out[i] == Project(sorted[i], withPermissions);
    }
    forall r | r in roles && r.name != "@everyone"
      ensures Project(r, withPermissions) in out
    {
      assert r in kept;
      var i :| 0 <= i < |sorted| && sorted[i] == r;
      assert out[i] == Project(r, withPermissions);
    }
  }

  lemma NormaliseStable(kept: seq<DiscordRole>, sorted: seq<DiscordRole>, withPermissions: bool)
    requires sorted == ByPosition(kept)
    ensures forall p :: Filter(Map(sorted, ProjectWith(withPermissions)), OutAtPosition(p)) == Map(Filter(kept, AtPosition(p)), ProjectWith(withPermissions))
  {
    forall p ensures Filter(Map(sorted, ProjectWith(withPermissions)), OutAtPosition(p)) == Map(Filter(kept, AtPosition(p)), ProjectWith(withPermissions)) {
      NormaliseStableAt(kept, sorted, withPermissions, p);
    }
  }

  /** Projection keeps positions, so each position's roles come out in their upstream order. */
  lemma NormaliseStableAt(kept: seq<DiscordRole>, sorted: seq<DiscordRole>, withPermissions: bool, p: int)
    requires sorted == ByPosition(kept)
    ensures Filter(Map(sorted, ProjectWith(withPermissions)), OutAtPosition(p)) == Map(Filter(kept, AtPosition(p)), ProjectWith(withPermissions))
  {
    var f := ProjectWith(withPermissions);
    assert forall r :: AtPosition(p)(r) == OutAtPosition(p)(f(r));
    MapFilter(sorted, f, OutAtPosition(p), AtPosition(p));
    assert Filter(sorted, AtPosition(p)) == Filter(kept, AtPosition(p));
  }

  /** The server route returns the endpoint's roles, minus the `permissions` field. */
  lemma TwinRoutesAgree(roles: seq<DiscordRole>)
    ensures |NormaliseRoles(roles, false)| == |NormaliseRoles(roles, true)|
    ensures forall i :: 0 <= i < |NormaliseRoles(roles, true)| ==>
      NormaliseRoles(roles, false)[i] == NormaliseRoles(roles, true)[i].(permissions := None)
  {
  }

  datatype RolesReply = RolesReply(status: nat, error: Option<string>, roles: Option<seq<RoleOut>>)

  /** The `/api/discord/guild-roles` handler. */
  function ApiGuildRoles(verb: Method, hasBotToken: bool, upstream: Upstream<seq<DiscordRole>>): (r: RolesReply)
    ensures verb == Options ==> r.status == 200 && r.roles.None?
    ensures verb != Options && verb != Get ==> r.status == 405 && r.roles.None?
    ensures verb == Get && !hasBotToken ==> r.status == 503 && r.roles == Some([])
    ensures verb == Get && hasBotToken && !upstream.Ok? ==> r.status == 500 && r.roles == Some([])
    ensures verb == Get && hasBotToken && upstream.Ok? ==>
      r.status == 200 && r.roles == Some(NormaliseRoles(upstream.body, true))
  {
    if verb == Options then RolesReply(200, None, None)
    else if verb != Get then RolesReply(405, Some("Method not allowed"), None)
    else if !hasBotToken then RolesReply(503, Some("Bot token not configured"), Some([]))
    else match upstream
      case NotOk(_) => RolesReply(500, Some("Failed to fetch guild roles"), Some([]))
      case Threw(_) => RolesReply(500, Some("Failed to get guild roles"), Some([]))
      case Ok(roles) => RolesReply(200, None, Some(NormaliseRoles(roles, true)))
  }

  /** The Express server's `/api/discord/guild-roles` route (GET only). */
  function ServerGuildRoles(hasBotToken: bool, upstream: Upstream<seq<DiscordRole>>): (r: RolesReply)
    ensures !hasBotToken ==> r.status == 503 && r.roles == Some([])
    ensures hasBotToken && upstream.NotOk? ==> r.status == upstream.status && r.roles.None?
    ensures hasBotToken && upstream.Threw? ==> r.status == 500 && r.roles.None?
    ensures hasBotToken && upstream.Ok? ==>
      r.status == 200 && r.roles == Some(NormaliseRoles(upstream.body, false))
  {
    if !hasBotToken then RolesReply(503, Some("Bot token not configured"), Some([]))
    else match upstream
      case NotOk(s) => RolesReply(s, Some("Failed to fetch guild roles"), None)
      case Threw(_) => RolesReply(500, Some("Failed to get guild roles"), None)
      case Ok(roles) => RolesReply(200, None, Some(NormaliseRoles(roles, false)))
  }
}
