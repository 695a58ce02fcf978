/**
 * The database tables as one in-memory object: departments, LINE users keyed by
 * their LINE id, tickets, ticket history and admins. Generated ids come from
 * one counter; every table keeps the ids it holds below it.
 */
module Store {
  import opened Wrappers

  datatype User = User(
    id: nat,
    lineUserId: string,
    displayName: string,
    pictureUrl: Option<string>,
    statusMessage: Option<string>,
    firstSeenAt: int,
    lastSeenAt: int,
    ticketCount: nat)

  datatype Ticket = Ticket(
    id: nat,
    ticketNumber: string,
    userId: nat,
    nickname: string,
    departmentId: string,
    phone: Option<string>,
    locationBuilding: string,
    locationFloor: string,
    locationRoom: string,
    locationDetail: Option<string>,
    category: string,
    issueTitle: string,
    issueDescription: Option<string>,
    priority: string,
    status: string,
    assignedTo: Option<string>,
    comment: Option<string>,
    cancellationReason: Option<string>,
    notifyUser: Option<bool>,
    completedAt: Option<int>,
    cancelledAt: Option<int>,
    isDeleted: bool,
    createdAt: int)

  datatype HistoryRow = HistoryRow(
    id: nat,
    ticketId: nat,
    adminId: Option<nat>,
    action: string,
    oldValue: Option<string>,
    newValue: Option<string>,
    comment: Option<string>,
    notifyUser: Option<bool>,
    createdAt: int)

  datatype Admin = Admin(
    id: nat,
    email: string,
    username: string,
    password: string,
    fullName: string,
    role: string,
    isActive: bool,
    createdAt: int,
    updatedAt: int)

  /** The number of tickets owned by the user with id `uid`. */
  function OwnedCount(tickets: seq<Ticket>, uid: nat): nat {
    if tickets == [] then 0
    else OwnedCount(tickets[..|tickets| - 1], uid) + (if tickets[|tickets| - 1].userId == uid then 1 else 0)
  }

  /** Replacing a ticket by one with the same owner keeps every user's count. */
  lemma {:induction false} OwnedCountUpdate(tickets: seq<Ticket>, i: nat, t: Ticket, uid: nat)
    requires i < |tickets| && t.userId == tickets[i].userId
    ensures OwnedCount(tickets[i := t], uid) == OwnedCount(tickets, uid)
  {
    var n := |tickets|;
    if i < n - 1 {
      assert tickets[i := t][..n - 1] == tickets[..n - 1][i := t];
      OwnedCountUpdate(tickets[..n - 1], i, t, uid);
    } else {
      assert tickets[i := t][..n - 1] == tickets[..n - 1];
    }
  }

  /** A user id no ticket refers to owns nothing. */
  lemma {:induction false} OwnedCountNone(tickets: seq<Ticket>, uid: nat)
    requires forall i :: 0 <= i < |tickets| ==> tickets[i].userId != uid
    ensures OwnedCount(tickets, uid) == 0
  {
    if tickets != [] {
      OwnedCountNone(tickets[..|tickets| - 1], uid);
    }
  }

  /** Every user's `ticketCount` is the number of tickets the user owns. */
  ghost predicate CountsMatch(users: map<string, User>, tickets: seq<Ticket>) {
    forall k :: k in users ==> users[k].ticketCount == OwnedCount(tickets, users[k].id)
  }

  /** Users are stored under their own LINE id, and no two users share an id. */
  ghost predicate UsersWellKeyed(users: map<string, User>, nextId: nat) {
    (forall k :: k in users ==> users[k].lineUserId == k && users[k].id < nextId)
    && (forall k, k' :: k in users && k' in users && k != k' ==> users[k].id != users[k'].id)
  }

  /** Tickets have distinct ids below the counter and belong to ids the counter has handed out. */
  ghost predicate TicketsWellFormed(tickets: seq<Ticket>, nextId: nat) {
    (forall i :: 0 <= i < |tickets| ==> tickets[i].id < nextId && tickets[i].userId < nextId)
    && (forall i, j :: 0 <= i < j < |tickets| ==> tickets[i].id != tickets[j].id)
  }

  /** Admins have distinct ids below the counter, distinct e-mails and distinct usernames. */
  ghost predicate AdminsUnique(admins: seq<Admin>, nextId: nat) {
    (forall i :: 0 <= i < |admins| ==> admins[i].id < nextId)
    && (forall i, j :: 0 <= i < j < |admins| ==>
          admins[i].id != admins[j].id && admins[i].email != admins[j].email && admins[i].username != admins[j].username)
  }

  /** The first admin that passes `test`, as `findUnique`/`findFirst` with that `where` returns it. */
  function FirstAdmin(admins: seq<Admin>, test: Admin -> bool): (r: Option<Admin>)
    ensures r.Some? ==> r.value in admins && test(r.value)
    ensures r.None? ==> forall i :: 0 <= i < |admins| ==> !test(admins[i])
  {
    if admins == [] then None
    else if test(admins[0]) then Some(admins[0])
    else FirstAdmin(admins[1..], test)
  }

  /** `findUnique({where: {email}})`. */
  function AdminByEmail(admins: seq<Admin>, email: string): Option<Admin> {
    FirstAdmin(admins, (a: Admin) => a.email == email)
  }

  /** `findUnique({where: {id}})`. */
  function AdminById(admins: seq<Admin>, id: nat): Option<Admin> {
    FirstAdmin(admins, (a: Admin) => a.id == id)
  }

  /** `findFirst({where: {OR: [{email}, {username}]}})`. */
  function AdminByEmailOrUsername(admins: seq<Admin>, email: string, username: string): Option<Admin> {
    FirstAdmin(admins, (a: Admin) => a.email == email || a.username == username)
  }

  /** With unique e-mails, the lookup finds the one admin that has it. */
  lemma AdminByEmailUnique(admins: seq<Admin>, nextId: nat, i: nat)
    requires AdminsUnique(admins, nextId) && i < |admins|
    ensures AdminByEmail(admins, admins[i].email) == Some(admins[i])
  {
    var r := AdminByEmail(admins, admins[i].email);
    var j :| 0 <= j < |admins| && admins[j] == r.value;
    assert j == i;
  }

  /** The contents of all tables at one moment. */
  datatype Tables = Tables(
    departments: set<string>,
    users: map<string, User>,
    tickets: seq<Ticket>,
    history: seq<HistoryRow>,
    admins: seq<Admin>,
    nextId: nat)

  /** The invariant every operation keeps. */
  ghost predicate ValidTables(s: Tables) {
    UsersWellKeyed(s.users, s.nextId)
    && TicketsWellFormed(s.tickets, s.nextId)
    && (forall i :: 0 <= i < |s.history| ==> s.history[i].id < s.nextId)
    && AdminsUnique(s.admins, s.nextId)
    && CountsMatch(s.users, s.tickets)
  }

  /**
   * What the ticket table accepts in the `data` of an update. The table's
   * definition is not part of this model, so whether it has `comment` and
   * `notifyUser` columns, and whether its `status` column is the enumeration
   * {pending, in_progress, completed, cancelled} or free text, are parameters.
   * `assignedTo` is the foreign key of the `assignedToAdmin` relation: it must
   * name an admin, written as `adminKey` renders the admin's id.
   * `numberIsUnique` says whether `ticketNumber` carries a unique constraint,
   * so that inserting a number already stored fails.
   */
  datatype TicketSchema = TicketSchema(hasComment: bool, hasNotifyUser: bool, statusIsEnum: bool, adminKey: nat -> string,
                                       numberIsUnique: bool)

  const TicketStatuses: set<string> := {"pending", "in_progress", "completed", "cancelled"}

  /**
   * A table of this shape accepts an update setting `status`, `assignedTo`,
   * `comment` and `notifyUser` as given (None: not in `data`) while the admin
   * table holds `admins`.
   */
  predicate AcceptsUpdate(schema: TicketSchema, admins: seq<Admin>, status: Option<string>, assignedTo: Option<string>,
                          comment: Option<string>, notifyUser: Option<bool>) {
    (comment.None? || schema.hasComment)
    && (notifyUser.None? || schema.hasNotifyUser)
    && (status.None? || !schema.statusIsEnum || status.value in TicketStatuses)
    && (assignedTo.None? || exists i :: 0 <= i < |admins| && schema.adminKey(admins[i].id) == assignedTo.value)
  }

  /** The database the services share; its methods are the inserts and updates they issue. */
  class Db {
    const schema: TicketSchema
    var departments: set<string>
    var users: map<string, User>
    var tickets: seq<Ticket>
    var history: seq<HistoryRow>
    var admins: seq<Admin>
    var nextId: nat

    function State(): Tables
      reads this
    {
      Tables(departments, users, tickets, history, admins, nextId)
    }

    ghost predicate Valid()
      reads this
    {
      ValidTables(State())
    }

    constructor (departments: set<string>, schema: TicketSchema)
      ensures Valid()
      ensures State() == Tables(departments, map[], [], [], [], 0)
      ensures this.schema == schema
    {
      this.schema := schema;
      this.departments := departments;
      users := map[];
      tickets := [];
      history := [];
      admins := [];
      nextId := 0;
    }

    /** `user.create`: the row gets the next id and is stored under its LINE id. */
    method CreateUser(u: User) returns (row: User)
      modifies this
      ensures row == u.(id := old(nextId))
      ensures State() == old(State()).(users := old(users)[u.lineUserId := row], nextId := old(nextId) + 1)
    {
      row := u.(id := nextId);
      users := users[u.lineUserId := row];
      nextId := nextId + 1;
    }

    /** `user.update({where: {lineUserId}})`. */
    method UpdateUser(lineUserId: string, u: User)
      modifies this
      ensures State() == old(State()).(users := old(users)[lineUserId := u])
    {
      users := users[lineUserId := u];
    }

    /** `ticket.create`: the row gets the next id. */
    method CreateTicket(t: Ticket) returns (row: Ticket)
      modifies this
      ensures row == t.(id := old(nextId))
      ensures State() == old(State()).(tickets := old(tickets) + [row], nextId := old(nextId) + 1)
    {
      row := t.(id := nextId);
      tickets := tickets + [row];
      nextId := nextId + 1;
    }

    /** `ticket.update` of the row at index `i`. */
    method UpdateTicket(i: nat, t: Ticket)
      requires i < |tickets|
      modifies this
      ensures State() == old(State()).(tickets := old(tickets)[i := t])
    {
      tickets := tickets[i := t];
    }

    /** `ticketHistory.create`: the row gets the next id. */
    method CreateHistory(h: HistoryRow) returns (row: HistoryRow)
      modifies this
      ensures row == h.(id := old(nextId))
      ensures State() == old(State()).(history := old(history) + [row], nextId := old(nextId) + 1)
    {
      row := h.(id := nextId);
      history := history + [row];
      nextId := nextId + 1;
    }

    /** `admin.create`: the row gets the next id. */
    method CreateAdmin(a: Admin) returns (row: Admin)
      modifies this
      ensures row == a.(id := old(nextId))
      ensures State() == old(State()).(admins := old(admins) + [row], nextId := old(nextId) + 1)
    {
      row := a.(id := nextId);
      admins := admins + [row];
      nextId := nextId + 1;
    }
  }
}
