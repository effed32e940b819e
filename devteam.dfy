/** The `/api/discord-dev-team` handler: guild members holding any of the requested roles. */
module DevTeam {
  import opened Wrappers
  import opened Seqs
  import opened Http
  import Permissions
  import Text

  datatype DiscordUser = DiscordUser(id: string, username: string, globalName: Option<string>, avatar: Option<string>)

  datatype GuildMember = GuildMember(user: DiscordUser, nick: Option<string>, roles: seq<string>)

  datatype DevMember = DevMember(id: string, username: string, displayName: string, avatar: Option<string>, roles: seq<string>)

  /** `roles ? roles.split(',') : []`. */
  function RoleIds(query: Option<string>): (ids: seq<string>)
    ensures ids == [] <==> query.None? || query.value == ""
    ensures ids != [] ==> Text.Join(ids, ',') == query.value
    ensures forall i :: 0 <= i < |ids| ==> ',' !in ids[i]
  {
    if query.None? || query.value == "" then []
    else
      Text.JoinSplit(query.value, ',');
      Text.Split(query.value, ',')
  }

  /** `nick || global_name || username`. */
  function DisplayName(m: GuildMember): string {
    Text.OrElse(m.nick, Text.OrElse(m.user.globalName, m.user.username))
  }

  /** The CDN URL of an avatar hash, or null without one. */
  function AvatarUrl(u: DiscordUser): (url: Option<string>)
    ensures url.Some? <==> u.avatar.Some? && u.avatar.value != ""
  {
    if u.avatar.Some? && u.avatar.value != "" then
      Some("https://cdn.discordapp.com/avatars/" + u.id + "/" + u.avatar.value + ".png")
    else None
  }

  function KeptRoles(roles: seq<string>, ids: seq<string>): (r: seq<string>)
    ensures forall x :: x in r <==> x in roles && x in ids
  {
    Filter(roles, (x: string) => x in ids)
  }

  function Project(m: GuildMember, ids: seq<string>): DevMember {
    DevMember(m.user.id, m.user.username, DisplayName(m), AvatarUrl(m.user), KeptRoles(m.roles, ids))
  }

  function Requested(ids: seq<string>): GuildMember -> bool {
    (m: GuildMember) => Permissions.AnyIn(m.roles, ids)
  }

  function ProjectFor(ids: seq<string>): GuildMember -> DevMember {
    (m: GuildMember) => Project(m, ids)
  }

  /** Reference definition: one pass that keeps and projects, in input order. */
  function Selected(members: seq<GuildMember>, ids: seq<string>): seq<DevMember> {
    if members == [] then []
    else if exists r :: r in members[0].roles && r in ids then [Project(members[0], ids)] + Selected(members[1..], ids)
    else Selected(members[1..], ids)
  }

  /** The `filter`/`map` chain. */
  function DevMembers(members: seq<GuildMember>, ids: seq<string>): (out: seq<DevMember>)
    ensures out == Selected(members, ids)
    ensures |out| <= |members|
    ensures forall i :: 0 <= i < |out| ==> out[i].roles != [] && forall x :: x in out[i].roles ==> x in ids
    ensures forall m :: m in members && (exists r :: r in m.roles && r in ids) ==> Project(m, ids) in out
    ensures forall o :: o in out ==> exists m :: m in members && (exists r :: r in m.roles && r in ids) && o == Project(m, ids)
  {
    var out := Map(Filter(members, Requested(ids)), ProjectFor(ids));
    SelectedIsFilterMap(members, ids);
    SelectedMembers(members, ids);
    out
  }

  lemma {:induction false} SelectedIsFilterMap(members: seq<GuildMember>, ids: seq<string>)
    ensures Map(Filter(members, Requested(ids)), ProjectFor(ids)) == Selected(members, ids)
    decreases |members|
  {
    if members != [] {
      SelectedIsFilterMap(members[1..], ids);
      var kept := Filter(members[1..], Requested(ids));
      if Requested(ids)(members[0]) {
        assert Filter(members, Requested(ids)) == [members[0]] + kept;
        MapPrepend(members[0], kept, ProjectFor(ids));
      } else {
        assert Filter(members, Requested(ids)) == kept;
      }
    }
  }

  lemma {:induction false} SelectedMembers(members: seq<GuildMember>, ids: seq<string>)
    ensures |Selected(members, ids)| <= |members|
    ensures forall o :: o in Selected(members, ids) <==>
      exists m :: m in members && (exists r :: r in m.roles && r in ids) && o == Project(m, ids)
    ensures forall o :: o in Selected(members, ids) ==> o.roles != [] && forall x :: x in o.roles ==> x in ids
    decreases |members|
  {
    if members != [] {
      SelectedMembers(members[1..], ids);
      assert members == [members[0]] + members[1..];
      if exists r :: r in members[0].roles && r in ids {
        var r :| r in members[0].roles && r in ids;
        assert r in Project(members[0], ids).roles;
      }
    }
  }

  datatype DevTeamReply = DevTeamReply(status: nat, error: Option<string>, members: Option<seq<DevMember>>)

  /** The handler; `upstream` is the guild member listing. */
  function ApiDevTeam(verb: Method, hasBotToken: bool, query: Option<string>, upstream: Upstream<seq<GuildMember>>)
    : (r: DevTeamReply)
    ensures verb == Options ==> r.status == 200 && r.members.None?
    ensures verb != Options && verb != Get ==> r.status == 405 && r.members.None?
    ensures verb == Get && !hasBotToken ==> r.status == 503 && r.members == Some([])
    ensures r.status == 400 <==> verb == Get && hasBotToken && (query.None? || query.value == "")
    ensures r.status == 400 ==> r.members == Some([])
    ensures verb == Get && hasBotToken && RoleIds(query) != [] && !upstream.Ok? ==> r.status == 500 && r.members == Some([])
    ensures verb == Get && hasBotToken && RoleIds(query) != [] && upstream.Ok? ==>
      r.status == 200 && r.members == Some(DevMembers(upstream.body, RoleIds(query)))
  {
    if verb == Options then DevTeamReply(200, None, None)
    else if verb != Get then DevTeamReply(405, Some("Method not allowed"), None)
    else if !hasBotToken then DevTeamReply(503, Some("Bot token not configured"), Some([]))
    else
      var ids := RoleIds(query);
      if ids == [] then DevTeamReply(400, Some("No role IDs provided"), Some([]))
      else match upstream
        case NotOk(_) => DevTeamReply(500, Some("Failed to fetch guild members"), Some([]))
        case Threw(_) => DevTeamReply(500, Some("Failed to get dev team"), Some([]))
        case Ok(all) => DevTeamReply(200, None, Some(DevMembers(all, ids)))
  }

  /** The display name is the first of nick, global name and username that is present and non-empty. */
  lemma DisplayNameFallback(m: GuildMember)
    ensures m.nick.Some? && m.nick.value != "" ==> DisplayName(m) == m.nick.value
    ensures (m.nick.None? || m.nick.value == "") && m.user.globalName.Some? && m.user.globalName.value != "" ==>
      DisplayName(m) == m.user.globalName.value
    ensures (m.nick.None? || m.nick.value == "") && (m.user.globalName.None? || m.user.globalName.value == "") ==>
      DisplayName(m) == m.user.username
  {
  }
}
