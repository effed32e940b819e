/**
 * The dev portal's kanban rules: access flags, the order value a dropped card
 * gets, the approval guard, board filtering and sorting, new-task ordering,
 * the team list merged from tasks, comment counts and relative times.
 */
module DevPortal {
  import opened Wrappers
  import opened Seqs
  import opened Permissions
  import Text

  // ---------------------------------------------------------------------------
  // Access

  /** The four role lists loaded from the permissions document. */
  datatype RoleLists = RoleLists(dev: seq<string>, approve: seq<string>, assign: seq<string>, admin: seq<string>)

  const NO_ROLE_LISTS: RoleLists := RoleLists([], [], [], [])

  /** `loadPermissions`: a found document is read, a missing one keeps the lists, a failed read empties them. */
  function LoadRoleLists(previous: RoleLists, doc: Fetched<Pages>): (r: RoleLists)
    ensures doc.Missing? ==> r == previous
    ensures doc.Failed? ==> r == NO_ROLE_LISTS
  {
    match doc
    case Found(pages) =>
      RoleLists(RoleList(pages, "devportal", Access), RoleList(pages, "devportal", Approve),
                RoleList(pages, "devportal", Assign), RoleList(pages, "admin", Access))
    case Missing => previous
    case Failed => NO_ROLE_LISTS
  }

  /** The list stored under `key` of a page's permissions, when the page and the list are both there. */
  predicate Stores(pages: Pages, pageId: string, key: PermKey, roles: seq<string>) {
    && pageId in pages && pages[pageId].permissions.Some?
    && var p := pages[pageId].permissions.value;
       match key
       case Access => p.access == Some(roles)
       case Approve => p.approve == Some(roles)
       case Assign => p.assign == Some(roles)
  }

  /**
   * A found document supplies all four lists: a list the document stores is
   * taken as it is, and a list it lacks (or a missing page entry) gives no roles.
   */
  lemma LoadedListsComeFromDocument(previous: RoleLists, pages: Pages)
    ensures var r := LoadRoleLists(previous, Found(pages));
      && (forall roles :: Stores(pages, "devportal", Access, roles) ==> r.dev == roles)
      && (forall roles :: Stores(pages, "devportal", Approve, roles) ==> r.approve == roles)
      && (forall roles :: Stores(pages, "devportal", Assign, roles) ==> r.assign == roles)
      && (forall roles :: Stores(pages, "admin", Access, roles) ==> r.admin == roles)
      && ((forall roles :: !Stores(pages, "devportal", Access, roles)) ==> r.dev == [])
      && ((forall roles :: !Stores(pages, "devportal", Approve, roles)) ==> r.approve == [])
      && ((forall roles :: !Stores(pages, "devportal", Assign, roles)) ==> r.assign == [])
      && ((forall roles :: !Stores(pages, "admin", Access, roles)) ==> r.admin == [])
  {
    var r := LoadRoleLists(previous, Found(pages));
    if forall roles :: !Stores(pages, "devportal", Access, roles) {
      if "devportal" in pages && pages["devportal"].permissions.Some? {
        var acc := pages["devportal"].permissions.value.access;
        if acc.Some? { assert Stores(pages, "devportal", Access, acc.value); }
      }
    }
    if forall roles :: !Stores(pages, "devportal", Approve, roles) {
      if "devportal" in pages && pages["devportal"].permissions.Some? {
        var ap := pages["devportal"].permissions.value.approve;
        if ap.Some? { assert Stores(pages, "devportal", Approve, ap.value); }
      }
    }
    if forall roles :: !Stores(pages, "devportal", Assign, roles) {
      if "devportal" in pages && pages["devportal"].permissions.Some? {
        var as_ := pages["devportal"].permissions.value.assign;
        if as_.Some? { assert Stores(pages, "devportal", Assign, as_.value); }
      }
    }
    if forall roles :: !Stores(pages, "admin", Access, roles) {
      if "admin" in pages && pages["admin"].permissions.Some? {
        var acc := pages["admin"].permissions.value.access;
        if acc.Some? { assert Stores(pages, "admin", Access, acc.value); }
      }
    }
  }

  datatype Flags = Flags(isAdmin: bool, hasAccess: bool, canApprove: bool, canAssign: bool)

  /** The flags `checkAccess` computes from the user's id and roles. */
  function AccessFlags(userId: string, roles: seq<string>, lists: RoleLists): (f: Flags)
    ensures f.isAdmin <==> userId in ADMIN_BYPASS_IDS || exists r :: r in roles && r in lists.admin
    ensures f.hasAccess <==> f.isAdmin || exists r :: r in roles && r in lists.dev
    ensures f.canApprove <==> f.isAdmin || exists r :: r in roles && r in lists.approve
    ensures f.canAssign <==> f.isAdmin || exists r :: r in roles && r in lists.assign
    ensures f.isAdmin ==> f.hasAccess && f.canApprove && f.canAssign
  {
    var isAdmin := userId in ADMIN_BYPASS_IDS || AnyIn(roles, lists.admin);
    Flags(isAdmin, AnyIn(roles, lists.dev) || isAdmin,
          isAdmin || AnyIn(roles, lists.approve), isAdmin || AnyIn(roles, lists.assign))
  }

  /** When permissions cannot be read, only bypass users get in, and then with every right. */
  lemma FailedLoadOnlyBypass(previous: RoleLists, userId: string, roles: seq<string>)
    ensures var f := AccessFlags(userId, roles, LoadRoleLists(previous, Failed));
      && (f.hasAccess <==> userId in ADMIN_BYPASS_IDS)
      && f.canApprove == f.hasAccess && f.canAssign == f.hasAccess
  {
  }

  // ---------------------------------------------------------------------------
  // Tasks

  datatype Column = Todo | InProgress | Review | Completed

  datatype Person = Person(id: string, username: string, avatar: Option<string>)

  /** `assignedTo`: absent, a single person (older tasks) or a list. */
  datatype Assigned = Unset | One(person: Person) | Many(people: seq<Person>)

  datatype Task = Task(
    id: string,
    title: string,
    description: string,
    status: Column,
    priority: string,
    workType: string,
    order: Option<real>,
    createdBy: Option<Person>,
    assignedTo: Assigned,
    commentCount: Option<nat>,
    attachments: seq<string>)

  datatype Member = Member(id: string, username: string, avatar: Option<string>, canApprove: bool)

  datatype User = User(id: string, username: string, displayName: Option<string>, avatar: Option<string>)

  /** `displayName || username`. */
  function DisplayName(u: User): string {
    Text.OrElse(u.displayName, u.username)
  }

  /** `Array.isArray(a) ? a : (a ? [a] : [])`. */
  function Assignees(a: Assigned): seq<Person> {
    match a
    case Unset => []
    case One(p) => [p]
    case Many(ps) => ps
  }

  /** `tasks.find(t => t.id === id)`, as a position. */
  function FindTask(ts: seq<Task>, id: string): (r: Option<nat>)
    ensures r.Some? ==> r.value < |ts| && ts[r.value].id == id &&
                        forall j :: 0 <= j < r.value ==> ts[j].id != id
    ensures r.None? <==> forall j :: 0 <= j < |ts| ==> ts[j].id != id
  {
    if ts == [] then None
    else if ts[0].id == id then Some(0)
    else match FindTask(ts[1..], id)
      case Some(k) => Some(k + 1)
      case None => None
  }

  // ---------------------------------------------------------------------------
  // Dropping a card

  /** `tasks.find(t => t.id === id)?.order`. */
  function OrderOf(ts: seq<Task>, id: string): Option<real> {
    match FindTask(ts, id)
    case Some(k) => ts[k].order
    case None => None
  }

  /** The orders of the cards in the target column, the dragged card excluded. */
  function CardOrders(ts: seq<Task>, cardIds: seq<string>): (r: seq<Option<real>>)
    ensures |r| == |cardIds| && forall i :: 0 <= i < |cardIds| ==> r[i] == OrderOf(ts, cardIds[i])
  {
    seq(|cardIds|, i requires 0 <= i < |cardIds| => OrderOf(ts, cardIds[i]))
  }

  /**
   * The order a dropped card gets. `at` is the position, among the column's
   * other cards, of the card it is dropped in front of; None drops it last.
   */
  function DropOrder(orders: seq<Option<real>>, at: Option<nat>): (o: real)
    requires at.Some? ==> at.value < |orders|
    ensures |orders| == 0 ==> o == 1000.0
    ensures |orders| > 0 && at.None? ==> o == orders[|orders| - 1].GetOr(1000.0) + 1000.0
    ensures |orders| > 0 && at.None? ==> o > orders[|orders| - 1].GetOr(1000.0)
    ensures at == Some(0) ==> o == orders[0].GetOr(1000.0) / 2.0
    ensures at == Some(0) && orders[0].GetOr(1000.0) > 0.0 ==> 0.0 < o < orders[0].GetOr(1000.0)
    ensures at.Some? && at.value > 0 ==>
      var before := orders[at.value - 1].GetOr(0.0);
      var after := orders[at.value].GetOr(1000.0);
      o == (before + after) / 2.0 && (before < after ==> before < o < after)
  {
    if |orders| == 0 then 1000.0
    else match at
      case None => orders[|orders| - 1].GetOr(1000.0) + 1000.0
      case Some(i) =>
        var after := orders[i].GetOr(1000.0);
        if i == 0 then after / 2.0
        else (orders[i - 1].GetOr(0.0) + after) / 2.0
  }

  /** Only a user who may approve can move a task from review to completed. */
  predicate ApprovalBlocked(ts: seq<Task>, id: string, newStatus: Column, canApprove: bool) {
    match FindTask(ts, id)
    case Some(k) => ts[k].status == Review && newStatus == Completed && !canApprove
    case None => false
  }

  /**
   * The guard of `handleDrop`: a drop is refused only when a review card goes to
   * completed without the approve right, so an approver is never refused and a
   * review card completed by a drop that goes through was moved by an approver.
   */
  lemma ApprovalGuard(ts: seq<Task>, id: string, newStatus: Column, canApprove: bool)
    ensures ApprovalBlocked(ts, id, newStatus, canApprove) ==>
      && !canApprove && newStatus == Completed
      && FindTask(ts, id).Some? && ts[FindTask(ts, id).value].status == Review
    ensures canApprove ==> !ApprovalBlocked(ts, id, newStatus, canApprove)
    ensures newStatus != Completed ==> !ApprovalBlocked(ts, id, newStatus, canApprove)
    ensures (FindTask(ts, id).Some? && ts[FindTask(ts, id).value].status == Review && newStatus == Completed &&
             !ApprovalBlocked(ts, id, newStatus, canApprove)) ==> canApprove
  {
  }

  /** The task list after the local update of a drop: the found task takes the new column and order. */
  function Moved(ts: seq<Task>, id: string, newStatus: Column, order: real): (r: seq<Task>)
    ensures |r| == |ts|
    ensures FindTask(ts, id).None? ==> r == ts
    ensures FindTask(ts, id).Some? ==>
      var k := FindTask(ts, id).value;
      && r[k] == ts[k].(status := newStatus, order := Some(order))
      && forall j :: 0 <= j < |ts| && j != k ==> r[j] == ts[j]
  {
    match FindTask(ts, id)
    case Some(k) => ts[k := ts[k].(status := newStatus, order := Some(order))]
    case None => ts
  }

  datatype DropOutcome = NotDragging | Rejected | Dropped(order: real)

  // ---------------------------------------------------------------------------
  // Board filtering and sorting

  datatype AssigneeFilter = Everyone | Mine | Unassigned

  /** The three filter selects; an empty string selects everything. */
  datatype BoardFilter = BoardFilter(assignee: AssigneeFilter, workType: string, priority: string)

  const NO_FILTER: BoardFilter := BoardFilter(Everyone, "", "")

  predicate AssignedTo(t: Task, me: string) {
    exists p :: p in Assignees(t.assignedTo) && p.id == me
  }

  predicate Shown(t: Task, me: string, f: BoardFilter) {
    && (f.assignee == Mine ==> AssignedTo(t, me))
    && (f.assignee == Unassigned ==> |Assignees(t.assignedTo)| == 0)
    && (f.workType != "" ==> t.workType == f.workType)
    && (f.priority != "" ==> t.priority == f.priority)
  }

  /** Reference definition: one pass keeping the shown tasks in order. */
  function Visible(ts: seq<Task>, me: string, f: BoardFilter): seq<Task> {
    if ts == [] then []
    else if Shown(ts[0], me, f) then [ts[0]] + Visible(ts[1..], me, f)
    else Visible(ts[1..], me, f)
  }

  predicate MatchesAssignee(t: Task, me: string, a: AssigneeFilter) {
    match a
    case Everyone => true
    case Mine => AssignedTo(t, me)
    case Unassigned => |Assignees(t.assignedTo)| == 0
  }

  function AssigneeTest(me: string, a: AssigneeFilter): Task -> bool {
    (t: Task) => MatchesAssignee(t, me, a)
  }

  function WorkTypeTest(w: string): Task -> bool {
    (t: Task) => w == "" || t.workType == w
  }

  function PriorityTest(p: string): Task -> bool {
    (t: Task) => p == "" || t.priority == p
  }

  function ShownTest(me: string, f: BoardFilter): Task -> bool {
    (t: Task) => Shown(t, me, f)
  }

  /** The three filters of `renderKanbanBoard`, applied one after the other when selected. */
  function FilterTasks(ts: seq<Task>, me: string, f: BoardFilter): (r: seq<Task>)
    ensures r == Visible(ts, me, f)
    ensures forall t :: t in r <==> t in ts && Shown(t, me, f)
    ensures f.assignee == Unassigned ==> forall i :: 0 <= i < |r| ==> Assignees(r[i].assignedTo) == []
    ensures f == NO_FILTER ==> r == ts
  {
    var a := if f.assignee == Everyone then ts else Filter(ts, AssigneeTest(me, f.assignee));
    var b := if f.workType == "" then a else Filter(a, WorkTypeTest(f.workType));
    var c := if f.priority == "" then b else Filter(b, PriorityTest(f.priority));
    FilterStages(ts, me, f, a, b, c);
    FilteredIsVisible(ts, me, f, c);
    c
  }

  lemma FilteredIsVisible(ts: seq<Task>, me: string, f: BoardFilter, c: seq<Task>)
    requires c == Filter(ts, ShownTest(me, f))
    ensures c == Visible(ts, me, f)
    ensures forall t :: t in c <==> t in ts && Shown(t, me, f)
    ensures f.assignee == Unassigned ==> forall i :: 0 <= i < |c| ==> Assignees(c[i].assignedTo) == []
  {
    VisibleIsFilter(ts, me, f);
    VisibleMembers(ts, me, f);
    assert forall i :: 0 <= i < |c| ==> c[i] in c;
  }

  /** Each selected stage filters; an unselected stage keeps everything, which is the same as filtering. */
  lemma FilterStages(ts: seq<Task>, me: string, f: BoardFilter, a: seq<Task>, b: seq<Task>, c: seq<Task>)
    requires a == if f.assignee == Everyone then ts else Filter(ts, AssigneeTest(me, f.assignee))
    requires b == if f.workType == "" then a else Filter(a, WorkTypeTest(f.workType))
    requires c == if f.priority == "" then b else Filter(b, PriorityTest(f.priority))
    ensures c == Filter(ts, ShownTest(me, f))
  {
    if f.assignee == Everyone { FilterAll(ts, AssigneeTest(me, f.assignee)); }
    if f.workType == "" { FilterAll(a, WorkTypeTest(f.workType)); }
    if f.priority == "" { FilterAll(b, PriorityTest(f.priority)); }
    ThreeFilters(ts, me, f);
  }

  lemma ThreeFilters(ts: seq<Task>, me: string, f: BoardFilter)
    ensures Filter(Filter(Filter(ts, AssigneeTest(me, f.assignee)), WorkTypeTest(f.workType)),
                   PriorityTest(f.priority)) == Filter(ts, ShownTest(me, f))
  {
    var pa := AssigneeTest(me, f.assignee);
    var pw := WorkTypeTest(f.workType);
    var paw := (t: Task) => pa(t) && pw(t);
    FilterTwice(ts, pa, pw, paw);
    FilterTwice(ts, paw, PriorityTest(f.priority), ShownTest(me, f));
  }

  lemma {:induction false} VisibleIsFilter(ts: seq<Task>, me: string, f: BoardFilter)
    ensures Visible(ts, me, f) == Filter(ts, ShownTest(me, f))
    decreases |ts|
  {
    if ts != [] {
      VisibleIsFilter(ts[1..], me, f);
    }
  }

  lemma {:induction false} VisibleMembers(ts: seq<Task>, me: string, f: BoardFilter)
    ensures forall t :: t in Visible(ts, me, f) <==> t in ts && Shown(t, me, f)
    decreases |ts|
  {
    if ts != [] {
      VisibleMembers(ts[1..], me, f);
      assert ts == [ts[0]] + ts[1..];
    }
  }

  /** The comparator `(a.order ?? Infinity) - (b.order ?? Infinity)`: a missing order sorts last. */
  predicate OrderLe(a: Task, b: Task) {
    match (a.order, b.order)
    case (_, None) => true
    case (None, Some(_)) => false
    case (Some(x), Some(y)) => x <= y
  }

  lemma OrderLeIsPreorder()
    ensures TotalPreorder(OrderLe)
  {
  }

  /** The board's (stable) sort by order. */
  function SortTasks(ts: seq<Task>): (r: seq<Task>)
    ensures multiset(r) == multiset(ts)
    ensures forall i, j :: 0 <= i < j < |r| && r[i].order.None? ==> r[j].order.None?
    ensures forall i, j :: 0 <= i < j < |r| && r[i].order.Some? && r[j].order.Some? ==>
      r[i].order.value <= r[j].order.value
  {
    OrderLeIsPreorder();
    var r := Sort(ts, OrderLe);
    assert forall i, j :: 0 <= i < j < |r| ==> OrderLe(r[i], r[j]);
    r
  }

  /** The board shows the shown tasks, sorted; with no filter the task list itself is sorted in place. */
  function Board(ts: seq<Task>, me: string, f: BoardFilter): (r: seq<Task>)
    ensures multiset(r) == multiset(Visible(ts, me, f))
    ensures forall t :: t in r <==> t in ts && Shown(t, me, f)
    ensures forall i, j :: 0 <= i < j < |r| && r[i].order.None? ==> r[j].order.None?
    ensures forall i, j :: 0 <= i < j < |r| && r[i].order.Some? && r[j].order.Some? ==>
      r[i].order.value <= r[j].order.value
  {
    var shown := FilterTasks(ts, me, f);
    var r := SortTasks(shown);
    SameMembers(r, shown);
    r
  }

  /** The `counts[status]++` tally of one column. */
  function ColumnCount(board: seq<Task>, c: Column): (n: nat)
    ensures n <= |board|
    ensures n == 0 <==> forall i :: 0 <= i < |board| ==> board[i].status != c
  {
    if board == [] then 0
    else (if board[0].status == c then 1 else 0) + ColumnCount(board[1..], c)
  }

  /** Every card lands in exactly one of the four columns. */
  lemma {:induction false} ColumnCountsAddUp(board: seq<Task>)
    ensures ColumnCount(board, Todo) + ColumnCount(board, InProgress) +
            ColumnCount(board, Review) + ColumnCount(board, Completed) == |board|
    decreases |board|
  {
    if board != [] {
      ColumnCountsAddUp(board[1..]);
    }
  }

  // ---------------------------------------------------------------------------
  // New tasks

  /** `todo.reduce((max, t) => Math.max(max, t.order ?? 0), 0)` over the todo tasks. */
  function MaxTodoOrder(ts: seq<Task>): (m: real)
    ensures m >= 0.0
    ensures forall t :: t in ts && t.status == Todo && t.order.Some? ==> t.order.value <= m
    ensures m == 0.0 || exists t :: t in ts && t.status == Todo && t.order == Some(m)
  {
    if ts == [] then 0.0
    else
      var rest := MaxTodoOrder(ts[1..]);
      assert ts == [ts[0]] + ts[1..];
      if ts[0].status == Todo && ts[0].order.GetOr(0.0) > rest then ts[0].order.GetOr(0.0) else rest
  }

  /** What the new-task form submits. */
  datatype TaskInput = TaskInput(
    title: string,
    description: Option<string>,
    priority: Option<string>,
    workType: Option<string>,
    assigneeIds: seq<string>)

  /** The fields `getAssigneesFromIds` copies from a team member. */
  function AsPerson(m: Member): (p: Person)
    ensures p.id == m.id && p.username == m.username && p.avatar == m.avatar
  {
    Person(m.id, m.username, m.avatar)
  }

  /** The test the final `filter(Boolean)` applies: `find` found a member with the id. */
  function KnownIn(team: seq<Member>): string -> bool {
    id => FindMember(team, id).Some?
  }

  /** The projection of the first member with the id (an unknown id, never passed, gives a bare placeholder). */
  function FirstMemberAs(team: seq<Member>): string -> Person {
    id => match FindMember(team, id) case Some(k) => AsPerson(team[k]) case None => Person(id, "", None)
  }

  /**
   * `getAssigneesFromIds`: for each known id in order, the projection of the
   * first team member with that id; unknown ids are dropped.
   */
  function AssigneesFromIds(team: seq<Member>, ids: seq<string>): (ps: seq<Person>)
    ensures ps == Map(Filter(ids, KnownIn(team)), FirstMemberAs(team))
  {
    if ids == [] then []
    else
      var rest := AssigneesFromIds(team, ids[1..]);
      AssigneesUnfold(team, ids);
      match FindMember(team, ids[0])
      case Some(k) => [AsPerson(team[k])] + rest
      case None => rest
  }

  /** One step of the filter-then-map: the first id contributes its member when it is known. */
  lemma AssigneesUnfold(team: seq<Member>, ids: seq<string>)
    requires ids != []
    ensures var known := KnownIn(team); var f := FirstMemberAs(team);
      Map(Filter(ids, known), f) ==
        match FindMember(team, ids[0])
        case Some(k) => [AsPerson(team[k])] + Map(Filter(ids[1..], known), f)
        case None => Map(Filter(ids[1..], known), f)
  {
    var known := KnownIn(team);
    var f := FirstMemberAs(team);
    assert ids == [ids[0]] + ids[1..];
    if known(ids[0]) {
      assert Filter(ids, known) == [ids[0]] + Filter(ids[1..], known);
      MapPrepend(ids[0], Filter(ids[1..], known), f);
    } else {
      assert Filter(ids, known) == Filter(ids[1..], known);
    }
  }

  /**
   * No more assignees than ids, each the projection of a team member; when
   * every id is known, one assignee per id, in id order.
   */
  lemma AssigneesFromIdsFacts(team: seq<Member>, ids: seq<string>)
    ensures var ps := AssigneesFromIds(team, ids);
      && |ps| <= |ids|
      && (forall p :: p in ps ==> exists m :: m in team && p == AsPerson(m))
      && ((forall i :: 0 <= i < |ids| ==> exists m :: m in team && m.id == ids[i]) ==>
            |ps| == |ids| && forall i :: 0 <= i < |ids| ==> ps[i].id == ids[i])
  {
    var ps := AssigneesFromIds(team, ids);
    var known := Filter(ids, KnownIn(team));
    forall p | p in ps ensures exists m :: m in team && p == AsPerson(m) {
      var i :| 0 <= i < |ps| && ps[i] == p;
      assert KnownIn(team)(known[i]);
      var k := FindMember(team, known[i]).value;
      assert p == AsPerson(team[k]);
    }
    if forall i :: 0 <= i < |ids| ==> exists m :: m in team && m.id == ids[i] {
      forall i | 0 <= i < |ids| ensures KnownIn(team)(ids[i]) {
        var m :| m in team && m.id == ids[i];
      }
      FilterAll(ids, KnownIn(team));
    }
  }

  /** `teamMembers.find(m => m.id === id)`, as a position: the first member with that id. */
  function FindMember(team: seq<Member>, id: string): (r: Option<nat>)
    ensures r.Some? ==> r.value < |team| && team[r.value].id == id
    ensures r.Some? ==> forall j :: 0 <= j < r.value ==> team[j].id != id
    ensures r.None? <==> forall m :: m in team ==> m.id != id
  {
    if team == [] then None
    else if team[0].id == id then Some(0)
    else match FindMember(team[1..], id)
      case Some(k) => Some(k + 1)
      case None => None
  }

  /** The task `createTask` stores; `newId` is the id the store assigns. */
  function NewTask(newId: string, ts: seq<Task>, user: User, team: seq<Member>, input: TaskInput): (t: Task)
    ensures t.id == newId && t.title == input.title
    ensures t.status == Todo && t.commentCount == Some(0) && t.attachments == []
    ensures t.order == Some(MaxTodoOrder(ts) + 1000.0)
    ensures t.order.Some? && t.order.value >= 1000.0
    ensures forall u :: u in ts && u.status == Todo && u.order.Some? ==> u.order.value < t.order.value
    ensures t.description == Text.OrElse(input.description, "")
    ensures t.priority == Text.OrElse(input.priority, "medium")
    ensures t.workType == Text.OrElse(input.workType, "")
    ensures t.createdBy == Some(Person(user.id, DisplayName(user), user.avatar))
    ensures t.assignedTo == Many(AssigneesFromIds(team, input.assigneeIds))
  {
    var maxOrder := MaxTodoOrder(ts);
    var assignees := if |input.assigneeIds| > 0 then AssigneesFromIds(team, input.assigneeIds) else [];
    assert input.assigneeIds == [] ==> AssigneesFromIds(team, input.assigneeIds) == [];
    Task(newId, input.title, Text.OrElse(input.description, ""), Todo, Text.OrElse(input.priority, "medium"),
         Text.OrElse(input.workType, ""), Some(maxOrder + 1000.0),
         Some(Person(user.id, DisplayName(user), user.avatar)), Many(assignees), Some(0), [])
  }

  // ---------------------------------------------------------------------------
  // Comment counts

  /** `(commentCount || 0) + 1`. */
  function CountAfterAdd(c: Option<nat>): (n: nat)
    ensures n == c.GetOr(0) + 1
  {
    (if c.None? || c.value == 0 then 0 else c.value) + 1
  }

  /** `Math.max((commentCount || 1) - 1, 0)`. */
  function CountAfterDelete(c: Option<nat>): (n: nat)
    ensures n == if c.GetOr(0) == 0 then 0 else c.GetOr(0) - 1
  {
    var k: int := (if c.None? || c.value == 0 then 1 else c.value) - 1;
    if k > 0 then k else 0
  }

  /** The `commentCount` update a comment handler sends to the task's document. */
  datatype CountWrite = CountWrite(taskId: string, count: nat)

  /**
   * `addComment` as written: with a task open and a non-blank comment, it
   * writes one more than the count of the task object captured when the
   * panel was opened.
   */
  function AddCommentWrite(selected: Option<Task>, content: string): (w: Option<CountWrite>)
    ensures w.None? <==> selected.None? || Text.Trim(content) == []
    ensures w.Some? ==> w.value == CountWrite(selected.value.id, selected.value.commentCount.GetOr(0) + 1)
  {
    if selected.None? || Text.Trim(content) == [] then None
    else Some(CountWrite(selected.value.id, CountAfterAdd(selected.value.commentCount)))
  }

  /**
   * `deleteComment` as written: with a task open and a comment id, it writes
   * one less than the captured count, never below 0.
   */
  function DeleteCommentWrite(selected: Option<Task>, commentId: string): (w: Option<CountWrite>)
    ensures w.None? <==> selected.None? || commentId == []
    ensures w.Some? ==> w.value.taskId == selected.value.id
    ensures w.Some? ==> w.value.count == if selected.value.commentCount.GetOr(0) == 0 then 0
                                         else selected.value.commentCount.GetOr(0) - 1
  {
    if selected.None? || commentId == [] then None
    else Some(CountWrite(selected.value.id, CountAfterDelete(selected.value.commentCount)))
  }

  /** The task documents after a count write: the task with that id takes the count, all else stays. */
  function Written(ts: seq<Task>, w: CountWrite): (r: seq<Task>)
    ensures |r| == |ts|
    ensures forall i :: 0 <= i < |ts| && ts[i].id == w.taskId ==> r[i] == ts[i].(commentCount := Some(w.count))
    ensures forall i :: 0 <= i < |ts| && ts[i].id != w.taskId ==> r[i] == ts[i]
  {
    seq(|ts|, i requires 0 <= i < |ts| =>
      if ts[i].id == w.taskId then ts[i].(commentCount := Some(w.count)) else ts[i])
  }

  /**
   * As written, both handlers read the captured count, which the task listener
   * never refreshes: within one panel session every add writes the same count,
   * and a delete after an add writes two less than that add did.
   */
  lemma StaleCountSession(selected: Task, content: string, another: string, commentId: string)
    requires Text.Trim(content) != [] && Text.Trim(another) != [] && commentId != []
    requires selected.commentCount.GetOr(0) >= 1
    ensures var add := AddCommentWrite(Some(selected), content);
      var again := AddCommentWrite(Some(selected), another);
      var del := DeleteCommentWrite(Some(selected), commentId);
      && add.Some? && again.Some? && del.Some?
      && again.value.count == add.value.count
      && del.value.count + 2 == add.value.count
  {
  }

  /** A task with 3 comments, opened once: adding writes 4, deleting then writes 2 rather than 3. */
  lemma StaleCountExample(selected: Task)
    requires selected.commentCount == Some(3)
    ensures AddCommentWrite(Some(selected), "ok") == Some(CountWrite(selected.id, 4))
    ensures DeleteCommentWrite(Some(selected), "c1") == Some(CountWrite(selected.id, 2))
  {
    assert Text.Trim("ok") == "ok" by {
      assert Text.SkipLeading("ok", 0) == 0;
      assert Text.SkipTrailing("ok", 0, 2) == 2;
    }
  }

  /** The stored count of the task with that id, as the listener last delivered it. */
  function CurrentCount(ts: seq<Task>, id: string): (c: Option<nat>)
    ensures FindTask(ts, id).None? ==> c.None?
    ensures FindTask(ts, id).Some? ==> c == ts[FindTask(ts, id).value].commentCount
  {
    match FindTask(ts, id)
    case Some(k) => ts[k].commentCount
    case None => None
  }

  /** The intended increment: one more than the task's current stored count. */
  function FreshAddWrite(ts: seq<Task>, id: string): (w: CountWrite)
    ensures w == CountWrite(id, CurrentCount(ts, id).GetOr(0) + 1)
  {
    CountWrite(id, CountAfterAdd(CurrentCount(ts, id)))
  }

  /** The intended decrement: one less than the task's current stored count, never below 0. */
  function FreshDeleteWrite(ts: seq<Task>, id: string): (w: CountWrite)
    ensures w.taskId == id
    ensures w.count == if CurrentCount(ts, id).GetOr(0) == 0 then 0 else CurrentCount(ts, id).GetOr(0) - 1
  {
    CountWrite(id, CountAfterDelete(CurrentCount(ts, id)))
  }

  /** After a write, the task with that id reads back the written count. */
  lemma {:induction false} WrittenReadsBack(ts: seq<Task>, w: CountWrite)
    requires FindTask(ts, w.taskId).Some?
    ensures CurrentCount(Written(ts, w), w.taskId) == Some(w.count)
  {
    var r := Written(ts, w);
    var k := FindTask(ts, w.taskId).value;
    assert r[k].id == w.taskId;
    assert forall j :: 0 <= j < k ==> r[j].id != w.taskId;
    FindTaskIs(r, w.taskId, k);
  }

  lemma {:induction false} FindTaskIs(ts: seq<Task>, id: string, k: nat)
    requires k < |ts| && ts[k].id == id && forall j :: 0 <= j < k ==> ts[j].id != id
    ensures FindTask(ts, id) == Some(k)
  {
    assert FindTask(ts, id).Some?;
  }

  /** With the counts read fresh, deleting a comment right after adding one restores the count. */
  lemma DeleteUndoesAdd(ts: seq<Task>, id: string)
    requires FindTask(ts, id).Some?
    ensures FreshDeleteWrite(Written(ts, FreshAddWrite(ts, id)), id).count == CurrentCount(ts, id).GetOr(0)
  {
    WrittenReadsBack(ts, FreshAddWrite(ts, id));
  }

  /** With the counts read fresh, two adds count two comments. */
  lemma AddTwiceCountsTwo(ts: seq<Task>, id: string)
    requires FindTask(ts, id).Some?
    ensures FreshAddWrite(Written(ts, FreshAddWrite(ts, id)), id).count == CurrentCount(ts, id).GetOr(0) + 2
  {
    WrittenReadsBack(ts, FreshAddWrite(ts, id));
  }

  // ---------------------------------------------------------------------------
  // Relative time

  datatype Ago = JustNow | MinutesAgo(n: nat) | HoursAgo(n: nat) | DaysAgo(n: nat) | OnDate

  /** `getTimeAgo` on the milliseconds elapsed; the date format itself is not modelled. */
  function TimeAgo(elapsedMs: int): (a: Ago)
    ensures a.JustNow? <==> elapsedMs < 60000
    ensures a.MinutesAgo? ==> 1 <= a.n < 60 && a.n * 60000 <= elapsedMs < (a.n + 1) * 60000
    ensures a.HoursAgo? ==> 1 <= a.n < 24 && a.n * 3600000 <= elapsedMs < (a.n + 1) * 3600000
    ensures a.DaysAgo? ==> 1 <= a.n < 7 && a.n * 86400000 <= elapsedMs < (a.n + 1) * 86400000
    ensures a.OnDate? <==> elapsedMs >= 604800000
  {
    var seconds := elapsedMs / 1000;
    if seconds < 60 then JustNow
    else if seconds < 3600 then MinutesAgo(seconds / 60)
    else if seconds < 86400 then HoursAgo(seconds / 3600)
    else if seconds < 604800 then DaysAgo(seconds / 86400)
    else OnDate
  }

  // ---------------------------------------------------------------------------
  // The team list merged from tasks (a JavaScript Map keyed by member id)

  ghost predicate UniqueIds(m: seq<Member>) {
    forall i, j :: 0 <= i < j < |m| ==> m[i].id != m[j].id
  }

  /** `userMap.set(v.id, v)`: overwrite in place when the key exists, else append. */
  function MapSet(m: seq<Member>, v: Member): (r: seq<Member>)
    ensures FindMember(m, v.id).Some? ==> r == m[FindMember(m, v.id).value := v]
    ensures FindMember(m, v.id).None? ==> r == m + [v]
  {
    match FindMember(m, v.id)
    case Some(k) => m[k := v]
    case None => m + [v]
  }

  /** The map after setting every member of the loaded team, in order. */
  function Seeded(team: seq<Member>): seq<Member>
    decreases |team|
  {
    if team == [] then [] else MapSet(Seeded(team[..|team| - 1]), team[|team| - 1])
  }

  function WithUser(m: seq<Member>, user: User, canApprove: bool): seq<Member> {
    if FindMember(m, user.id).Some? then m
    else m + [Member(user.id, DisplayName(user), user.avatar, canApprove)]
  }

  /** A person found on a task joins with `canApprove: false` unless already present. */
  function AddIfAbsent(m: seq<Member>, p: Person): seq<Member> {
    if FindMember(m, p.id).Some? then m else m + [Member(p.id, p.username, p.avatar, false)]
  }

  function AddPeople(m: seq<Member>, ps: seq<Person>): seq<Member>
    decreases |ps|
  {
    if ps == [] then m else AddIfAbsent(AddPeople(m, ps[..|ps| - 1]), ps[|ps| - 1])
  }

  function AddTask(m: seq<Member>, t: Task): seq<Member> {
    var withCreator := if t.createdBy.Some? then AddIfAbsent(m, t.createdBy.value) else m;
    AddPeople(withCreator, Assignees(t.assignedTo))
  }

  function AddTasks(m: seq<Member>, ts: seq<Task>): seq<Member>
    decreases |ts|
  {
    if ts == [] then m else AddTask(AddTasks(m, ts[..|ts| - 1]), ts[|ts| - 1])
  }

  /** The specification of `updateTeamFromTasks`. */
  function MergedTeam(team: seq<Member>, user: User, canApprove: bool, ts: seq<Task>): seq<Member> {
    AddTasks(WithUser(Seeded(team), user, canApprove), ts)
  }

  // Facts about the merge.

  lemma MapSetUnique(m: seq<Member>, v: Member)
    requires UniqueIds(m)
    ensures UniqueIds(MapSet(m, v))
  {
  }

  lemma {:induction false} SeededUnique(team: seq<Member>)
    ensures UniqueIds(Seeded(team))
    decreases |team|
  {
    if team != [] {
      SeededUnique(team[..|team| - 1]);
      MapSetUnique(Seeded(team[..|team| - 1]), team[|team| - 1]);
    }
  }

  /** Ids of the seeded map are ids of the loaded team. */
  lemma {:induction false} SeededIds(team: seq<Member>)
    ensures forall x :: x in Seeded(team) ==> exists y :: y in team && y.id == x.id
    decreases |team|
  {
    if team != [] {
      var init := team[..|team| - 1];
      SeededIds(init);
      forall x | x in Seeded(team) ensures exists y :: y in team && y.id == x.id {
        if x == team[|team| - 1] {
        } else {
          assert x in Seeded(init);
          var y :| y in init && y.id == x.id;
          assert y in team;
        }
      }
    }
  }

  /** With unique ids the seeded map is the team itself. */
  lemma {:induction false} SeededIsTeam(team: seq<Member>)
    requires UniqueIds(team)
    ensures Seeded(team) == team
    decreases |team|
  {
    if team != [] {
      var init := team[..|team| - 1];
      SeededIsTeam(init);
      assert forall m :: m in init ==> m.id != team[|team| - 1].id;
      assert init + [team[|team| - 1]] == team;
    }
  }

  /** `r` keeps `m` as its prefix and every member it adds lacks approval rights. */
  ghost predicate Extends(r: seq<Member>, m: seq<Member>) {
    |r| >= |m| && r[..|m|] == m && forall k :: |m| <= k < |r| ==> !r[k].canApprove
  }

  lemma ExtendsTrans(a: seq<Member>, b: seq<Member>, c: seq<Member>)
    requires Extends(b, a) && Extends(c, b)
    ensures Extends(c, a)
  {
    assert c[..|a|] == c[..|b|][..|a|];
  }

  lemma AddIfAbsentExtends(m: seq<Member>, p: Person)
    ensures Extends(AddIfAbsent(m, p), m)
  {
  }

  lemma {:induction false} AddPeopleExtends(m: seq<Member>, ps: seq<Person>)
    ensures Extends(AddPeople(m, ps), m)
    decreases |ps|
  {
    if ps != [] {
      var prev := AddPeople(m, ps[..|ps| - 1]);
      AddPeopleExtends(m, ps[..|ps| - 1]);
      AddIfAbsentExtends(prev, ps[|ps| - 1]);
      ExtendsTrans(m, prev, AddPeople(m, ps));
    }
  }

  lemma AddTaskExtends(m: seq<Member>, t: Task)
    ensures Extends(AddTask(m, t), m)
  {
    var withCreator := if t.createdBy.Some? then AddIfAbsent(m, t.createdBy.value) else m;
    if t.createdBy.Some? {
      AddIfAbsentExtends(m, t.createdBy.value);
    }
    assert Extends(withCreator, m);
    AddPeopleExtends(withCreator, Assignees(t.assignedTo));
    ExtendsTrans(m, withCreator, AddTask(m, t));
  }

  lemma {:induction false} AddTasksExtends(m: seq<Member>, ts: seq<Task>)
    ensures Extends(AddTasks(m, ts), m)
    decreases |ts|
  {
    if ts != [] {
      var prev := AddTasks(m, ts[..|ts| - 1]);
      AddTasksExtends(m, ts[..|ts| - 1]);
      AddTaskExtends(prev, ts[|ts| - 1]);
      ExtendsTrans(m, prev, AddTasks(m, ts));
    }
  }

  lemma AddIfAbsentUnique(m: seq<Member>, p: Person)
    requires UniqueIds(m)
    ensures UniqueIds(AddIfAbsent(m, p))
  {
  }

  lemma {:induction false} AddPeopleUnique(m: seq<Member>, ps: seq<Person>)
    requires UniqueIds(m)
    ensures UniqueIds(AddPeople(m, ps))
    decreases |ps|
  {
    if ps != [] {
      AddPeopleUnique(m, ps[..|ps| - 1]);
      AddIfAbsentUnique(AddPeople(m, ps[..|ps| - 1]), ps[|ps| - 1]);
    }
  }

  lemma {:induction false} AddTasksUnique(m: seq<Member>, ts: seq<Task>)
    requires UniqueIds(m)
    ensures UniqueIds(AddTasks(m, ts))
    decreases |ts|
  {
    if ts != [] {
      var prev := AddTasks(m, ts[..|ts| - 1]);
      AddTasksUnique(m, ts[..|ts| - 1]);
      var t := ts[|ts| - 1];
      if t.createdBy.Some? {
        AddIfAbsentUnique(prev, t.createdBy.value);
      }
      var withCreator := if t.createdBy.Some? then AddIfAbsent(prev, t.createdBy.value) else prev;
      AddPeopleUnique(withCreator, Assignees(t.assignedTo));
    }
  }

  /** After the merge no id appears twice. */
  lemma MergedTeamUnique(team: seq<Member>, user: User, canApprove: bool, ts: seq<Task>)
    ensures UniqueIds(MergedTeam(team, user, canApprove, ts))
  {
    SeededUnique(team);
    AddTasksUnique(WithUser(Seeded(team), user, canApprove), ts);
  }

  /** After the merge the current user is a member. */
  lemma MergedTeamHasUser(team: seq<Member>, user: User, canApprove: bool, ts: seq<Task>)
    ensures exists k :: (0 <= k < |MergedTeam(team, user, canApprove, ts)| &&
      MergedTeam(team, user, canApprove, ts)[k].id == user.id)
  {
    var base := WithUser(Seeded(team), user, canApprove);
    var r := MergedTeam(team, user, canApprove, ts);
    AddTasksExtends(base, ts);
    var u :| 0 <= u < |base| && base[u].id == user.id;
    assert r[..|base|][u] == base[u];
  }

  /** A loaded team with unique ids stays at the front of the list, unchanged and in order. */
  lemma MergedTeamKeepsTeam(team: seq<Member>, user: User, canApprove: bool, ts: seq<Task>)
    requires UniqueIds(team)
    ensures |MergedTeam(team, user, canApprove, ts)| >= |team|
    ensures MergedTeam(team, user, canApprove, ts)[..|team|] == team
  {
    var base := WithUser(Seeded(team), user, canApprove);
    var r := MergedTeam(team, user, canApprove, ts);
    SeededIsTeam(team);
    AddTasksExtends(base, ts);
    assert base[..|team|] == team;
    assert r[..|team|] == r[..|base|][..|team|];
  }

  /** Everyone who is neither from the loaded team nor the current user joins without approval rights. */
  lemma MergedNewcomersCannotApprove(team: seq<Member>, user: User, canApprove: bool, ts: seq<Task>)
    ensures forall x :: (x in MergedTeam(team, user, canApprove, ts) && x.id != user.id &&
      (forall y :: y in team ==> y.id != x.id)) ==> !x.canApprove
  {
    var seeded := Seeded(team);
    var base := WithUser(seeded, user, canApprove);
    var r := MergedTeam(team, user, canApprove, ts);
    AddTasksExtends(base, ts);
    SeededIds(team);
    forall x | x in r && x.id != user.id && (forall y :: y in team ==> y.id != x.id)
      ensures !x.canApprove
    {
      var k :| 0 <= k < |r| && r[k] == x;
      if k < |base| {
        assert x == r[..|base|][k] == base[k];
        if k < |seeded| {
          assert false;
        }
      }
    }
  }

  /** The first `forEach` of `updateTeamFromTasks`: every loaded member is set in the map, in order. */
  method SeedMap(team: seq<Member>) returns (m: seq<Member>)
    ensures m == Seeded(team)
  {
    m := [];
    for i := 0 to |team|
      invariant m == Seeded(team[..i])
    {
      assert team[..i + 1][..i] == team[..i];
      m := MapSet(m, team[i]);
    }
    assert team[..|team|] == team;
  }

  /** The inner `forEach` over a task's assignees: each one not yet in the map joins without approval rights. */
  method AddMissing(m0: seq<Member>, people: seq<Person>) returns (m: seq<Member>)
    ensures m == AddPeople(m0, people)
  {
    m := m0;
    for j := 0 to |people|
      invariant m == AddPeople(m0, people[..j])
    {
      assert people[..j + 1][..j] == people[..j];
      if FindMember(m, people[j].id).None? {
        m := m + [Member(people[j].id, people[j].username, people[j].avatar, false)];
      }
    }
    assert people[..|people|] == people;
  }

  // ---------------------------------------------------------------------------
  // The page state

  class Portal {
    var currentUser: User
    var flags: Flags
    var tasks: seq<Task>
    var teamMembers: seq<Member>
    var filter: BoardFilter
    /** `selectedTask`: the task object captured when the detail panel was opened. */
    var selectedTask: Option<Task>

    constructor (user: User)
      ensures currentUser == user && flags == Flags(false, false, false, false)
      ensures tasks == [] && teamMembers == [] && filter == NO_FILTER && selectedTask == None
    {
      currentUser := user;
      flags := Flags(false, false, false, false);
      tasks := [];
      teamMembers := [];
      filter := NO_FILTER;
      selectedTask := None;
    }

    /**
     * The task listener's callback: `tasks` becomes the delivered documents,
     * then the team is rebuilt and the board re-rendered. The open panel's
     * task is not touched.
     */
    method ReceiveSnapshot(docs: seq<Task>)
      modifies this`tasks, this`teamMembers
      ensures teamMembers == MergedTeam(old(teamMembers), currentUser, flags.canApprove, docs)
      ensures filter == NO_FILTER ==> tasks == Board(docs, currentUser.id, filter)
      ensures filter != NO_FILTER ==> tasks == docs
    {
      tasks := docs;
      UpdateTeamFromTasks();
      var board := RenderKanbanBoard();
    }

    /** `openTaskDetail`: captures the first task with that id; an unknown id leaves the panel as it was. */
    method OpenTaskDetail(taskId: string)
      modifies this`selectedTask
      ensures FindTask(tasks, taskId).Some? ==> selectedTask == Some(tasks[FindTask(tasks, taskId).value])
      ensures FindTask(tasks, taskId).None? ==> selectedTask == old(selectedTask)
    {
      var k := FindTask(tasks, taskId);
      if k.Some? {
        selectedTask := Some(tasks[k.value]);
      }
    }

    /** `closeTaskDetail`. */
    method CloseTaskDetail()
      modifies this`selectedTask
      ensures selectedTask == None
    {
      selectedTask := None;
    }

    /** `addComment`: the count write it sends, if any, computed from the captured task. */
    method AddComment(content: string) returns (w: Option<CountWrite>)
      ensures w == AddCommentWrite(selectedTask, content)
      ensures w.Some? ==> w.value.taskId == selectedTask.value.id
    {
      if selectedTask.None? || Text.Trim(content) == [] {
        return None;
      }
      var t := selectedTask.value;
      w := Some(CountWrite(t.id, CountAfterAdd(t.commentCount)));
    }

    /** `deleteComment`: the count write it sends, if any, computed from the captured task. */
    method DeleteComment(commentId: string) returns (w: Option<CountWrite>)
      ensures w == DeleteCommentWrite(selectedTask, commentId)
      ensures w.Some? ==> w.value.taskId == selectedTask.value.id
    {
      if selectedTask.None? || commentId == [] {
        return None;
      }
      var t := selectedTask.value;
      w := Some(CountWrite(t.id, CountAfterDelete(t.commentCount)));
    }

    /** The decision part of `checkAccess`. */
    method CheckAccess(roles: seq<string>, lists: RoleLists) returns (granted: bool)
      modifies this`flags
      ensures flags == AccessFlags(currentUser.id, roles, lists)
      ensures granted == flags.hasAccess
    {
      flags := AccessFlags(currentUser.id, roles, lists);
      granted := flags.hasAccess;
    }

    /** `renderKanbanBoard`: the cards shown; the unfiltered board sorts `tasks` itself. */
    method RenderKanbanBoard() returns (board: seq<Task>)
      modifies this`tasks
      ensures board == Board(old(tasks), currentUser.id, filter)
      ensures filter == NO_FILTER ==> tasks == board
      ensures filter != NO_FILTER ==> tasks == old(tasks)
    {
      var shown := FilterTasks(tasks, currentUser.id, filter);
      board := SortTasks(shown);
      if filter == NO_FILTER {
        tasks := board;
      }
    }

    /** `handleDrop`, with the drop position given as an index among the column's other cards. */
    method HandleDrop(dragged: Option<string>, newStatus: Column, cardIds: seq<string>, at: Option<nat>)
      returns (outcome: DropOutcome)
      requires at.Some? ==> at.value < |cardIds|
      modifies this`tasks
      ensures dragged.None? ==> outcome == NotDragging && tasks == old(tasks)
      ensures dragged.Some? && ApprovalBlocked(old(tasks), dragged.value, newStatus, flags.canApprove) ==>
        outcome == Rejected && tasks == old(tasks)
      ensures dragged.Some? && !ApprovalBlocked(old(tasks), dragged.value, newStatus, flags.canApprove) ==>
        var o := DropOrder(CardOrders(old(tasks), cardIds), at);
        && outcome == Dropped(o)
        && (FindTask(old(tasks), dragged.value).None? ==> tasks == old(tasks))
        && (FindTask(old(tasks), dragged.value).Some? && filter == NO_FILTER ==>
              tasks == SortTasks(Moved(old(tasks), dragged.value, newStatus, o)))
        && (FindTask(old(tasks), dragged.value).Some? && filter != NO_FILTER ==>
              tasks == Moved(old(tasks), dragged.value, newStatus, o))
    {
      if dragged.None? {
        return NotDragging;
      }
      var id := dragged.value;
      if ApprovalBlocked(tasks, id, newStatus, flags.canApprove) {
        return Rejected;
      }
      var o := DropOrder(CardOrders(tasks, cardIds), at);
      if FindTask(tasks, id).Some? {
        tasks := Moved(tasks, id, newStatus, o);
        // The re-render's only effect on the state: the unfiltered board sorts `tasks` in place.
        if filter == NO_FILTER {
          tasks := SortTasks(tasks);
        }
      }
      return Dropped(o);
    }

    /** `updateTeamFromTasks`: rebuilds the team list through a map keyed by id. */
    method UpdateTeamFromTasks()
      modifies this`teamMembers
      ensures teamMembers == MergedTeam(old(teamMembers), currentUser, flags.canApprove, tasks)
    {
      var m := SeedMap(teamMembers);
      if FindMember(m, currentUser.id).None? {
        m := m + [Member(currentUser.id, DisplayName(currentUser), currentUser.avatar, flags.canApprove)];
      }
      ghost var base := m;
      for i := 0 to |tasks|
        invariant m == AddTasks(base, tasks[..i])
      {
        var t := tasks[i];
        if t.createdBy.Some? && FindMember(m, t.createdBy.value.id).None? {
          var p := t.createdBy.value;
          m := m + [Member(p.id, p.username, p.avatar, false)];
        }
        m := AddMissing(m, Assignees(t.assignedTo));
        assert tasks[..i + 1][..i] == tasks[..i];
      }
      assert tasks[..|tasks|] == tasks;
      teamMembers := m;
    }
  }
}
