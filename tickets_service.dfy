/**
 * The ticket service: creating a ticket (with the user's get-or-create, the
 * ticket number, the `created` history row and the ticket counter), listing
 * with filters and pagination, reading one ticket, updating it (with its
 * `status_changed` history row) and listing one LINE user's tickets.
 */
module TicketsService {
  import opened Wrappers
  import opened HttpErrors
  import opened Store
  import opened TicketDtos
  import TicketNumbers
  import Strings
  import Decimal

  /** Every stored ticket number in table order, soft-deleted tickets included: the generator's search does not filter them. */
  function Numbers(tickets: seq<Ticket>): (r: seq<string>)
    ensures |r| == |tickets| && forall i :: 0 <= i < |r| ==> r[i] == tickets[i].ticketNumber
  {
    seq(|tickets|, i requires 0 <= i < |tickets| => tickets[i].ticketNumber)
  }

  /** What an operation leaves in the tables, and what it returns or throws. */
  datatype Effect<T> = Effect(state: Tables, result: Result<T, Thrown>)

  /** `create` returns the ticket with its user as the ticket insert read it. */
  datatype Created = Created(ticket: Ticket, user: User)

  /** The user row after the get-or-create step: a new user named after the nickname, or the known one seen again. */
  function Owner(s: Tables, dto: CreateTicketDto, now: int): User {
    if dto.lineUserId in s.users then s.users[dto.lineUserId].(lastSeenAt := now)
    else User(s.nextId, dto.lineUserId, dto.nickname, None, None, now, now, 0)
  }

  /** The inserted ticket: the body's fields, the generated number, status 'pending'. */
  function NewTicket(id: nat, number: string, userId: nat, dto: CreateTicketDto, now: int): Ticket {
    Ticket(id, number, userId, dto.nickname, dto.departmentId, dto.phone, dto.locationBuilding,
           dto.locationFloor, dto.locationRoom, dto.locationDetail, dto.category, dto.issueTitle,
           dto.issueDescription, PriorityOf(dto), "pending", None, None, None, None, None, None, false, now)
  }

  /** What `ticket.create` throws when the table's unique `ticketNumber` already holds the number. */
  const DuplicateNumber: Thrown := Error("Unique constraint failed on the fields: (`ticketNumber`)")

  /**
   * The whole of `create` on the tables `s` of shape `schema`; `now` is the clock
   * and `prefix` the `REP-YYYYMMDD` prefix of its UTC date (`TicketNumbers.DayPrefix`).
   * The user row is written before the ticket insert, so a refused insert keeps it.
   */
  function CreateEffect(s: Tables, schema: TicketSchema, dto: CreateTicketDto, now: int, prefix: string): Effect<Created> {
    if dto.departmentId !in s.departments then Effect(s, Failure(BadRequest("Department not found")))
    else
      var owner := Owner(s, dto, now);
      var ticketId := if dto.lineUserId in s.users then s.nextId else s.nextId + 1;
      var touched := s.(users := s.users[dto.lineUserId := owner], nextId := ticketId);
      var number := TicketNumbers.NextNumber(Numbers(s.tickets), prefix);
      if schema.numberIsUnique && number in Numbers(s.tickets) then Effect(touched, Failure(DuplicateNumber))
      else
        var ticket := NewTicket(ticketId, number, owner.id, dto, now);
        var row := HistoryRow(ticketId + 1, ticketId, None, "created", None, None, Some("Ticket created"), None, now);
        Effect(touched.(users := s.users[dto.lineUserId := owner.(ticketCount := owner.ticketCount + 1)],
                        tickets := s.tickets + [ticket],
                        history := s.history + [row],
                        nextId := ticketId + 2),
               Success(Created(ticket, owner)))
  }

  /** The ticket insert can go through: the column is not unique, or the generated number is not stored yet. */
  predicate NumberFits(s: Tables, schema: TicketSchema, prefix: string) {
    !schema.numberIsUnique || TicketNumbers.NextNumber(Numbers(s.tickets), prefix) !in Numbers(s.tickets)
  }

  /** An unknown department is rejected before anything is written. */
  lemma CreateUnknownDepartment(s: Tables, schema: TicketSchema, dto: CreateTicketDto, now: int, prefix: string)
    requires dto.departmentId !in s.departments
    ensures CreateEffect(s, schema, dto, now, prefix) == Effect(s, Failure(BadRequest("Department not found")))
  {
  }

  /**
   * When the number fits, a `create` for a known department adds exactly one
   * ticket (status 'pending', the generated number, owned by the body's LINE user)
   * and exactly one 'created' history row for it, and touches no other table.
   */
  lemma CreateAddsOneTicket(s: Tables, schema: TicketSchema, dto: CreateTicketDto, now: int, prefix: string)
    requires dto.departmentId in s.departments && NumberFits(s, schema, prefix)
    ensures var e := CreateEffect(s, schema, dto, now, prefix);
      e.result.Success?
      && var t := e.result.value.ticket;
      e.state.tickets == s.tickets + [t]
      && t.status == "pending" && t.ticketNumber == TicketNumbers.NextNumber(Numbers(s.tickets), prefix)
      && t.userId == e.state.users[dto.lineUserId].id && !t.isDeleted
      && |e.state.history| == |s.history| + 1 && e.state.history[..|s.history|] == s.history
      && e.state.history[|s.history|].ticketId == t.id
      && e.state.history[|s.history|].action == "created"
      && e.state.history[|s.history|].comment == Some("Ticket created")
      && e.state.admins == s.admins && e.state.departments == s.departments
  {
    var e := CreateEffect(s, schema, dto, now, prefix);
    assert e.state.history[..|s.history|] == s.history;
  }

  /**
   * When the column is unique and the generated number is already stored, the
   * ticket insert throws a non-HTTP error: the user row written before it stays
   * (created, or with `lastSeenAt` refreshed) but no ticket, no history row and no
   * count increment are written.
   */
  lemma CreateDuplicateRefused(s: Tables, schema: TicketSchema, dto: CreateTicketDto, now: int, prefix: string)
    requires dto.departmentId in s.departments && !NumberFits(s, schema, prefix)
    ensures var e := CreateEffect(s, schema, dto, now, prefix);
      e.result == Failure(DuplicateNumber) && !DuplicateNumber.Http?
      && e.state.tickets == s.tickets && e.state.history == s.history
      && e.state.admins == s.admins && e.state.departments == s.departments
      && e.state.users == s.users[dto.lineUserId := Owner(s, dto, now)]
      && e.state.users[dto.lineUserId].ticketCount == (if dto.lineUserId in s.users then s.users[dto.lineUserId].ticketCount else 0)
  {
  }

  /**
   * Once `p-9999` and `p-10000` are stored and the column is unique, every
   * `create` of that day is refused: the generator issues `p-10000` again, and the
   * refused insert leaves the numbers as they were, so the next call meets the
   * same table.
   */
  lemma CreateAfterOverflowRefused(s: Tables, schema: TicketSchema, dto: CreateTicketDto, now: int, p: string)
    requires schema.numberIsUnique && dto.departmentId in s.departments
    requires Numbers(s.tickets) == [p + "-9999", p + "-10000"]
    ensures var e := CreateEffect(s, schema, dto, now, p);
      e.result == Failure(DuplicateNumber) && Numbers(e.state.tickets) == Numbers(s.tickets)
  {
    TicketNumbers.SequenceOverflowRepeats(p);
    CreateDuplicateRefused(s, schema, dto, now, p);
  }

  /**
   * Every known user keeps its row except the body's LINE user: a new one is
   * named after the nickname, a known one only has `lastSeenAt` refreshed, and its
   * `ticketCount` goes up by exactly one when the ticket is stored and not at all
   * when the insert is refused.
   */
  lemma CreateCountsTicket(s: Tables, schema: TicketSchema, dto: CreateTicketDto, now: int, prefix: string)
    requires dto.departmentId in s.departments
    ensures var e := CreateEffect(s, schema, dto, now, prefix);
      var users' := e.state.users;
      var k := dto.lineUserId;
      var added := if e.result.Success? then 1 else 0;
      (e.result.Success? <==> NumberFits(s, schema, prefix))
      && users'.Keys == s.users.Keys + {k}
      && (k in s.users ==> users'[k] == s.users[k].(lastSeenAt := now, ticketCount := s.users[k].ticketCount + added))
      && (k !in s.users ==> users'[k] == User(s.nextId, k, dto.nickname, None, None, now, now, added))
      && forall k' :: k' in s.users && k' != k ==> users'[k'] == s.users[k']
  {
  }

  /** `create` keeps the table invariant, in particular that `ticketCount` counts each user's tickets. */
  lemma CreateKeepsValid(s: Tables, schema: TicketSchema, dto: CreateTicketDto, now: int, prefix: string)
    requires ValidTables(s)
    ensures ValidTables(CreateEffect(s, schema, dto, now, prefix).state)
  {
    if dto.departmentId in s.departments {
      CreateKeepsRows(s, schema, dto, now, prefix);
      CreateKeepsCounts(s, schema, dto, now, prefix);
    }
  }

  lemma CreateKeepsRows(s: Tables, schema: TicketSchema, dto: CreateTicketDto, now: int, prefix: string)
    requires ValidTables(s) && dto.departmentId in s.departments
    ensures var s' := CreateEffect(s, schema, dto, now, prefix).state;
      UsersWellKeyed(s'.users, s'.nextId) && TicketsWellFormed(s'.tickets, s'.nextId)
      && (forall i :: 0 <= i < |s'.history| ==> s'.history[i].id < s'.nextId)
      && AdminsUnique(s'.admins, s'.nextId)
  {
    var s' := CreateEffect(s, schema, dto, now, prefix).state;
    assert s'.tickets[..|s.tickets|] == s.tickets;
  }

  lemma CreateKeepsCounts(s: Tables, schema: TicketSchema, dto: CreateTicketDto, now: int, prefix: string)
    requires ValidTables(s) && dto.departmentId in s.departments
    ensures var s' := CreateEffect(s, schema, dto, now, prefix).state;
      CountsMatch(s'.users, s'.tickets)
  {
    var s' := CreateEffect(s, schema, dto, now, prefix).state;
    var owner := Owner(s, dto, now);
    assert s'.tickets[..|s.tickets|] == s.tickets;
    if dto.lineUserId !in s.users {
      OwnedCountNone(s.tickets, s.nextId);
    }
    forall k | k in s'.users
      ensures s'.users[k].ticketCount == OwnedCount(s'.tickets, s'.users[k].id)
    {
      if k != dto.lineUserId {
        assert s'.users[k].id != owner.id;
      }
    }
  }

  /**
   * `create` keeps the day's numbers well formed while the issued sequence stays
   * below 9999, so `CreateNumberIsFresh` applies again to the next call; other
   * days' prefixes stay well formed too.
   */
  lemma CreateKeepsWellFormedDay(s: Tables, schema: TicketSchema, dto: CreateTicketDto, now: int, prefix: string, k: nat)
    requires TicketNumbers.WellFormedDay(Numbers(s.tickets), prefix)
    requires TicketNumbers.SequenceAfter(Numbers(s.tickets), prefix) == Decimal.Num(k) && k < 9999
    ensures TicketNumbers.WellFormedDay(Numbers(CreateEffect(s, schema, dto, now, prefix).state.tickets), prefix)
    ensures forall q :: |q| == |prefix| && q != prefix && TicketNumbers.WellFormedDay(Numbers(s.tickets), q) ==>
      TicketNumbers.WellFormedDay(Numbers(CreateEffect(s, schema, dto, now, prefix).state.tickets), q)
  {
    if dto.departmentId in s.departments {
      TicketNumbers.NextNumberIsFresh(Numbers(s.tickets), prefix);
      CreateAppendsNumber(s, schema, dto, now, prefix);
      TicketNumbers.NextKeepsWellFormedDay(Numbers(s.tickets), prefix, k);
    }
  }

  /** When the number fits, `create` adds exactly the generated number to the table's numbers. */
  lemma CreateAppendsNumber(s: Tables, schema: TicketSchema, dto: CreateTicketDto, now: int, prefix: string)
    requires dto.departmentId in s.departments && NumberFits(s, schema, prefix)
    ensures Numbers(CreateEffect(s, schema, dto, now, prefix).state.tickets)
      == Numbers(s.tickets) + [TicketNumbers.NextNumber(Numbers(s.tickets), prefix)]
  {
    var t := CreateEffect(s, schema, dto, now, prefix).state.tickets;
    assert t == s.tickets + [t[|t| - 1]];
    assert t[|t| - 1].ticketNumber == TicketNumbers.NextNumber(Numbers(s.tickets), prefix);
  }

  /** `update` never changes a ticket number, so every day stays as well formed as it was. */
  lemma UpdateKeepsNumbers(s: Tables, schema: TicketSchema, id: nat, dto: UpdateTicketDto, adminId: nat, now: int)
    ensures Numbers(UpdateEffect(s, schema, id, dto, adminId, now).state.tickets) == Numbers(s.tickets)
  {
  }

  /**
   * When the day's numbers already in the table have the generated layout with
   * sequences below 9999, the new number is not already taken, so the insert
   * succeeds even on a unique column.
   */
  lemma CreateNumberIsFresh(s: Tables, schema: TicketSchema, dto: CreateTicketDto, now: int, prefix: string)
    requires dto.departmentId in s.departments
    requires TicketNumbers.WellFormedDay(Numbers(s.tickets), prefix)
    ensures var e := CreateEffect(s, schema, dto, now, prefix);
      e.result.Success?
      && forall i :: 0 <= i < |s.tickets| ==> s.tickets[i].ticketNumber != e.result.value.ticket.ticketNumber
  {
    var numbers := Numbers(s.tickets);
    TicketNumbers.NextNumberIsFresh(numbers, prefix);
    forall i | 0 <= i < |s.tickets|
      ensures s.tickets[i].ticketNumber != TicketNumbers.NextNumber(numbers, prefix)
    {
      assert numbers[i] in numbers;
    }
  }

  /**
   * The first ticket of 1 May 2024 (UTC) from a LINE user not seen before gets
   * number `REP-20240501-0001` and status 'pending', and its owner's count goes
   * from 0 to 1.
   */
  lemma FirstTicketOfDay(s: Tables, schema: TicketSchema, dto: CreateTicketDto, now: int, date: TicketNumbers.UtcDateTime)
    requires TicketNumbers.ValidDateTime(date) && date.year == 2024 && date.month == 5 && date.day == 1
    requires dto.departmentId in s.departments && dto.lineUserId !in s.users
    requires forall i :: 0 <= i < |s.tickets| ==> !Strings.StartsWith(s.tickets[i].ticketNumber, "REP-20240501")
    ensures var e := CreateEffect(s, schema, dto, now, TicketNumbers.DayPrefix(date));
      e.result.Success?
      && e.result.value.ticket.ticketNumber == "REP-20240501-0001"
      && e.result.value.ticket.status == "pending"
      && e.result.value.user.ticketCount == 0
      && e.state.users[dto.lineUserId].ticketCount == 1
  {
    TicketNumbers.DayPrefixExample(date);
    var numbers := Numbers(s.tickets);
    forall x | x in numbers ensures !Strings.StartsWith(x, TicketNumbers.DayPrefix(date)) {
      var i :| 0 <= i < |numbers| && numbers[i] == x;
    }
    TicketNumbers.FirstOfDay(numbers, date);
    var n := TicketNumbers.NextNumber(numbers, TicketNumbers.DayPrefix(date));
    assert Strings.StartsWith(n, "REP-20240501") by {
      assert n[..12] == "REP-20240501";
    }
  }

  /** The index of the ticket `findFirst({where: {id, isDeleted: false}})` finds. */
  function LiveIndex(tickets: seq<Ticket>, id: nat): (r: Option<nat>)
    ensures r.Some? ==> r.value < |tickets| && tickets[r.value].id == id && !tickets[r.value].isDeleted
    ensures r.None? ==> forall i :: 0 <= i < |tickets| ==> tickets[i].id != id || tickets[i].isDeleted
  {
    if tickets == [] then None
    else if tickets[0].id == id && !tickets[0].isDeleted then Some(0)
    else
      var r := LiveIndex(tickets[1..], id);
      if r.Some? then Some(r.value + 1) else None
  }

  /** `findOne`: the live ticket with the id, or NotFound. */
  function FindOne(tickets: seq<Ticket>, id: nat): (r: Result<Ticket, Thrown>)
    ensures r.Success? <==> exists i :: 0 <= i < |tickets| && tickets[i].id == id && !tickets[i].isDeleted
    ensures r.Success? ==> r.value in tickets && r.value.id == id && !r.value.isDeleted
    ensures r.Failure? ==> r.error == NotFound("Ticket not found")
  {
    var i := LiveIndex(tickets, id);
    if i.None? then Failure(NotFound("Ticket not found")) else Success(tickets[i.value])
  }

  /** A present DTO field replaces the stored one; an absent one leaves it (Prisma ignores `undefined`). */
  function Overlay<T>(given: Option<T>, stored: Option<T>): Option<T> {
    if given.Some? then given else stored
  }

  /** The ticket after `update`: the DTO spread over it, and the completion or cancellation stamp. */
  function Patched(t: Ticket, dto: UpdateTicketDto, now: int): Ticket {
    t.(status := dto.status.GetOr(t.status),
       assignedTo := Overlay(dto.assignedTo, t.assignedTo),
       comment := Overlay(dto.comment, t.comment),
       cancellationReason := Overlay(dto.cancellationReason, t.cancellationReason),
       notifyUser := Overlay(dto.notifyUser, t.notifyUser),
       completedAt := if dto.status == Some("completed") then Some(now) else t.completedAt,
       cancelledAt := if dto.status == Some("cancelled") then Some(now) else t.cancelledAt)
  }

  /** The `status_changed` row `update` appends. */
  function UpdateRow(id: nat, t: Ticket, dto: UpdateTicketDto, adminId: nat, now: int): HistoryRow {
    HistoryRow(id, t.id, Some(adminId), "status_changed", Some(t.status),
               Some(if dto.status.Some? && dto.status.value != "" then dto.status.value else t.status),
               dto.comment, Some(dto.notifyUser.GetOr(true)), now)
  }

  /** What the store throws when the update's `data` does not fit the ticket table. */
  const UpdateRejection: Thrown := Error("Invalid `prisma.ticket.update()` invocation")

  /** Whether the ticket table takes the body spread into `data`. */
  predicate Accepts(schema: TicketSchema, admins: seq<Admin>, dto: UpdateTicketDto) {
    AcceptsUpdate(schema, admins, dto.status, dto.assignedTo, dto.comment, dto.notifyUser)
  }

  /**
   * The whole of `update` on the tables `s`: `findOne`, then the ticket write,
   * which the store refuses when the body does not fit the table, then the history row.
   */
  function UpdateEffect(s: Tables, schema: TicketSchema, id: nat, dto: UpdateTicketDto, adminId: nat, now: int): Effect<Ticket> {
    var i := LiveIndex(s.tickets, id);
    if i.None? then Effect(s, Failure(NotFound("Ticket not found")))
    else if !Accepts(schema, s.admins, dto) then Effect(s, Failure(UpdateRejection))
    else
      var t := s.tickets[i.value];
      var t' := Patched(t, dto, now);
      Effect(s.(tickets := s.tickets[i.value := t'],
                history := s.history + [UpdateRow(s.nextId, t, dto, adminId, now)],
                nextId := s.nextId + 1),
             Success(t'))
  }

  /** Updating a missing or soft-deleted ticket throws NotFound and writes nothing. */
  lemma UpdateMissing(s: Tables, schema: TicketSchema, id: nat, dto: UpdateTicketDto, adminId: nat, now: int)
    requires forall i :: 0 <= i < |s.tickets| ==> s.tickets[i].id != id || s.tickets[i].isDeleted
    ensures UpdateEffect(s, schema, id, dto, adminId, now) == Effect(s, Failure(NotFound("Ticket not found")))
  {
  }

  /**
   * A body the ticket table does not take (a `comment` or `notifyUser` the table
   * has no column for, a status outside the enumeration, or an `assignedTo` that
   * names no admin) makes the ticket write throw: nothing is written, no history
   * row included, and the error is not an HTTP exception.
   */
  lemma UpdateRejected(s: Tables, schema: TicketSchema, i: nat, dto: UpdateTicketDto, adminId: nat, now: int)
    requires i < |s.tickets| && !s.tickets[i].isDeleted
    requires !Accepts(schema, s.admins, dto)
    ensures UpdateEffect(s, schema, s.tickets[i].id, dto, adminId, now) == Effect(s, Failure(UpdateRejection))
    ensures !UpdateRejection.Http?
  {
    var r := LiveIndex(s.tickets, s.tickets[i].id);
    assert r.Some?;
  }

  /** An assignee that is not an admin breaks the `assignedToAdmin` foreign key, whatever the table's other columns. */
  lemma UnknownAssigneeRejected(s: Tables, schema: TicketSchema, i: nat, dto: UpdateTicketDto, adminId: nat, now: int)
    requires i < |s.tickets| && !s.tickets[i].isDeleted
    requires dto.assignedTo.Some?
    requires forall j :: 0 <= j < |s.admins| ==> schema.adminKey(s.admins[j].id) != dto.assignedTo.value
    ensures UpdateEffect(s, schema, s.tickets[i].id, dto, adminId, now) == Effect(s, Failure(UpdateRejection))
    ensures |UpdateEffect(s, schema, s.tickets[i].id, dto, adminId, now).state.history| == |s.history|
  {
    UpdateRejected(s, schema, i, dto, adminId, now);
  }

  /**
   * A successful `update` rewrites only that ticket and appends exactly one history
   * row: by the caller, from the prior status to the new one (the prior one when the
   * body's status is empty or absent), notifying unless the body says otherwise.
   */
  lemma UpdateAppendsOneRow(s: Tables, schema: TicketSchema, i: nat, dto: UpdateTicketDto, adminId: nat, now: int)
    requires i < |s.tickets| && !s.tickets[i].isDeleted
    requires TicketsWellFormed(s.tickets, s.nextId)
    requires Accepts(schema, s.admins, dto)
    ensures var t := s.tickets[i];
      var e := UpdateEffect(s, schema, t.id, dto, adminId, now);
      e.result == Success(Patched(t, dto, now))
      && e.state.tickets == s.tickets[i := Patched(t, dto, now)]
      && e.state.users == s.users && e.state.admins == s.admins && e.state.departments == s.departments
      && |e.state.history| == |s.history| + 1 && e.state.history[..|s.history|] == s.history
      && var row := e.state.history[|s.history|];
      row.ticketId == t.id && row.adminId == Some(adminId) && row.action == "status_changed"
      && row.oldValue == Some(t.status)
      && row.newValue == Some(if dto.status.Some? && dto.status.value != "" then dto.status.value else t.status)
      && row.comment == dto.comment
      && row.notifyUser == (if dto.notifyUser.Some? then dto.notifyUser else Some(true))
  {
    var r := LiveIndex(s.tickets, s.tickets[i].id);
    assert r.value == i;
    var e := UpdateEffect(s, schema, s.tickets[i].id, dto, adminId, now);
    assert e.state.history[..|s.history|] == s.history;
  }

  /**
   * The stamps: `completedAt` becomes the update time exactly when the new status is
   * 'completed' (on every such update), `cancelledAt` exactly when it is 'cancelled';
   * otherwise both stay as they were.
   */
  lemma PatchedStamps(t: Ticket, dto: UpdateTicketDto, now: int)
    ensures dto.status == Some("completed") ==> Patched(t, dto, now).completedAt == Some(now)
    ensures dto.status != Some("completed") ==> Patched(t, dto, now).completedAt == t.completedAt
    ensures dto.status == Some("cancelled") ==> Patched(t, dto, now).cancelledAt == Some(now)
    ensures dto.status != Some("cancelled") ==> Patched(t, dto, now).cancelledAt == t.cancelledAt
  {
  }

  /** `update` changes no ticket field outside the body's fields and the two stamps. */
  lemma PatchedFrame(t: Ticket, dto: UpdateTicketDto, now: int)
    ensures var p := Patched(t, dto, now);
      p.(status := t.status, assignedTo := t.assignedTo, comment := t.comment,
         cancellationReason := t.cancellationReason, notifyUser := t.notifyUser,
         completedAt := t.completedAt, cancelledAt := t.cancelledAt) == t
    ensures dto == UpdateTicketDto(None, None, None, None, None) ==> Patched(t, dto, now) == t
  {
  }

  /**
   * An empty status passes validation and is written to the ticket, while the
   * history row records the prior status as the new one.
   */
  lemma EmptyStatusHistory(s: Tables, schema: TicketSchema, i: nat, dto: UpdateTicketDto, adminId: nat, now: int)
    requires i < |s.tickets| && !s.tickets[i].isDeleted && s.tickets[i].status != ""
    requires TicketsWellFormed(s.tickets, s.nextId)
    requires dto.status == Some("")
    ensures var e := UpdateEffect(s, schema, s.tickets[i].id, dto, adminId, now);
      (Accepts(schema, s.admins, dto) ==>
         e.state.tickets[i].status == "" && e.state.history[|s.history|].newValue == Some(s.tickets[i].status))
      && (schema.statusIsEnum ==> e == Effect(s, Failure(UpdateRejection)))
  {
    if Accepts(schema, s.admins, dto) {
      UpdateAppendsOneRow(s, schema, i, dto, adminId, now);
    } else {
      UpdateRejected(s, schema, i, dto, adminId, now);
    }
  }

  /** `update` keeps the table invariant: it keeps the ticket's id and owner. */
  lemma UpdateKeepsValid(s: Tables, schema: TicketSchema, id: nat, dto: UpdateTicketDto, adminId: nat, now: int)
    requires ValidTables(s)
    ensures ValidTables(UpdateEffect(s, schema, id, dto, adminId, now).state)
  {
    var i := LiveIndex(s.tickets, id);
    if i.Some? && Accepts(schema, s.admins, dto) {
      var s' := UpdateEffect(s, schema, id, dto, adminId, now).state;
      var t' := Patched(s.tickets[i.value], dto, now);
      forall k | k in s'.users
        ensures s'.users[k].ticketCount == OwnedCount(s'.tickets, s'.users[k].id)
      {
        OwnedCountUpdate(s.tickets, i.value, t', s.users[k].id);
      }
    }
  }

  /** The `createdAt` filter. */
  datatype DateRange = DateRange(gte: Option<int>, lte: Option<int>)

  /** The `where` object of `findAll`; `isDeleted: false` is always part of it. */
  datatype Where = Where(
    status: Option<string>,
    category: Option<string>,
    priority: Option<string>,
    departmentId: Option<string>,
    assignedTo: Option<string>,
    search: Option<string>,
    createdAt: Option<DateRange>)

  /** `if (x)` on an optional string. */
  predicate Given(x: Option<string>) {
    x.Some? && x.value != ""
  }

  /** A field condition: absent, or equal to the stored value. */
  predicate FieldMatches(cond: Option<string>, value: string) {
    cond.None? || value == cond.value
  }

  /** Whether the ticket satisfies the `where` object. */
  predicate Matches(w: Where, t: Ticket) {
    !t.isDeleted
    && FieldMatches(w.status, t.status)
    && FieldMatches(w.category, t.category)
    && FieldMatches(w.priority, t.priority)
    && FieldMatches(w.departmentId, t.departmentId)
    && (w.assignedTo.None? || t.assignedTo == w.assignedTo)
    && (w.search.None?
        || Strings.Contains(t.ticketNumber, w.search.value)
        || Strings.Contains(t.nickname, w.search.value)
        || Strings.Contains(t.issueTitle, w.search.value))
    && (w.createdAt.None?
        || ((w.createdAt.value.gte.None? || w.createdAt.value.gte.value <= t.createdAt)
            && (w.createdAt.value.lte.None? || t.createdAt <= w.createdAt.value.lte.value)))
  }

  /** The tickets satisfying the `where` object, in table order. */
  function Filter(tickets: seq<Ticket>, w: Where): (r: seq<Ticket>)
    ensures forall x :: x in r <==> x in tickets && Matches(w, x)
    ensures |r| <= |tickets|
  {
    if tickets == [] then []
    else (if Matches(w, tickets[0]) then [tickets[0]] else []) + Filter(tickets[1..], w)
  }

  /** `a` comes strictly before `b` when ordering by `createdAt` ascending or descending. */
  predicate Before(a: Ticket, b: Ticket, asc: bool) {
    if asc then a.createdAt < b.createdAt else a.createdAt > b.createdAt
  }

  predicate Sorted(s: seq<Ticket>, asc: bool) {
    forall i, j :: 0 <= i < j < |s| ==> !Before(s[j], s[i], asc)
  }

  /** Put `x` after every element that does not come after it. */
  function Insert(s: seq<Ticket>, x: Ticket, asc: bool): (r: seq<Ticket>)
    ensures multiset(r) == multiset(s) + multiset{x}
  {
    if s == [] || !Before(x, s[|s| - 1], asc) then s + [x]
    else
      var init := s[..|s| - 1];
      assert s == init + [s[|s| - 1]];
      Insert(init, x, asc) + [s[|s| - 1]]
  }

  /** The order of `orderBy: {createdAt: …}`; tickets with the same `createdAt` keep their table order. */
  function SortByCreated(s: seq<Ticket>, asc: bool): (r: seq<Ticket>)
    ensures multiset(r) == multiset(s)
  {
    if s == [] then []
    else
      assert s == s[..|s| - 1] + [s[|s| - 1]];
      Insert(SortByCreated(s[..|s| - 1], asc), s[|s| - 1], asc)
  }

  lemma {:induction false} InsertSorted(s: seq<Ticket>, x: Ticket, asc: bool)
    requires Sorted(s, asc)
    ensures Sorted(Insert(s, x, asc), asc)
  {
    if s != [] && Before(x, s[|s| - 1], asc) {
      var init, last := s[..|s| - 1], s[|s| - 1];
      InsertSorted(init, x, asc);
      var r := Insert(init, x, asc);
      forall i | 0 <= i < |r|
        ensures !Before(last, r[i], asc)
      {
        assert r[i] in multiset(r);
        assert r[i] in init || r[i] == x;
        if r[i] in init {
          var j :| 0 <= j < |init| && init[j] == r[i];
          assert s[j] == r[i];
        }
      }
    }
  }

  /** The sort is ordered by `createdAt` and is a permutation of its input. */
  lemma {:induction false} SortByCreatedSorted(s: seq<Ticket>, asc: bool)
    ensures Sorted(SortByCreated(s, asc), asc)
    ensures multiset(SortByCreated(s, asc)) == multiset(s)
  {
    if s != [] {
      SortByCreatedSorted(s[..|s| - 1], asc);
      InsertSorted(SortByCreated(s[..|s| - 1], asc), s[|s| - 1], asc);
    }
  }

  /** `findAll`'s response: the page of rows and the `meta` object. */
  datatype Listing = Listing(data: seq<Ticket>, total: nat, page: int, limit: int, hasMore: bool)

  /** The rows `skip`/`take` select. */
  function Window(s: seq<Ticket>, skip: nat, take: nat): (r: seq<Ticket>)
    ensures |r| <= take
    ensures skip <= |s| ==> r == s[skip..if skip + take <= |s| then skip + take else |s|]
    ensures skip > |s| ==> r == []
  {
    if skip >= |s| then [] else s[skip..if skip + take <= |s| then skip + take else |s|]
  }

  /**
   * `findAll` once the `where` object is built: count the matching tickets, order
   * them, take the page, and report whether more rows follow.
   */
  function ListingOf(tickets: seq<Ticket>, w: Where, page: int, limit: int, asc: bool): (r: Listing)
    requires page >= 1 && limit >= 1
  {
    var skip := (page - 1) * limit;
    var matching := Filter(tickets, w);
    var data := Window(SortByCreated(matching, asc), skip, limit);
    Listing(data, |matching|, page, limit, skip + |data| < |matching|)
  }

  /** A window holds elements of the sequence in their order, and rows follow it exactly when `skip + take` falls short of the end. */
  lemma WindowOf(s: seq<Ticket>, skip: nat, take: nat, asc: bool)
    ensures forall x :: x in Window(s, skip, take) ==> x in s
    ensures Sorted(s, asc) ==> Sorted(Window(s, skip, take), asc)
    ensures skip + |Window(s, skip, take)| < |s| <==> skip + take < |s|
  {
    if skip < |s| {
      var r := Window(s, skip, take);
      forall x | x in r
        ensures x in s
      {
        var k :| 0 <= k < |r| && r[k] == x;
        assert s[skip + k] == x;
      }
      if Sorted(s, asc) {
        forall a, b | 0 <= a < b < |r|
          ensures !Before(r[b], r[a], asc)
        {
          assert r[a] == s[skip + a] && r[b] == s[skip + b];
        }
      }
    }
  }

  /**
   * A page holds at most `limit` tickets, all of them live and matching the filter,
   * ordered by `createdAt`; `total` counts every matching ticket; `hasMore` holds
   * exactly when tickets follow this page.
   */
  lemma ListingSound(tickets: seq<Ticket>, w: Where, page: int, limit: int, asc: bool)
    requires page >= 1 && limit >= 1
    ensures var r := ListingOf(tickets, w, page, limit, asc);
      |r.data| <= limit
      && (forall x :: x in r.data ==> x in tickets && Matches(w, x) && !x.isDeleted)
      && Sorted(r.data, asc)
      && r.total == |Filter(tickets, w)|
      && (r.hasMore <==> (page - 1) * limit + limit < r.total)
  {
    var skip: nat := (page - 1) * limit;
    var matching := Filter(tickets, w);
    var sorted := SortByCreated(matching, asc);
    SortByCreatedSorted(matching, asc);
    assert |sorted| == |matching| by {
      assert |multiset(sorted)| == |multiset(matching)|;
    }
    WindowOf(sorted, skip, limit, asc);
    forall x | x in Window(sorted, skip, limit)
      ensures x in matching
    {
      assert x in multiset(sorted);
    }
  }

  /** `where` as `findAll` builds it; `new Date(s)` is the `toDate` parameter, None for an invalid date. */
  function WhereOf(q: QueryTicketDto, toDate: string -> Option<int>): Result<Where, Thrown> {
    var start := if Given(q.startDate) then toDate(q.startDate.value) else None;
    var end := if Given(q.endDate) then toDate(q.endDate.value) else None;
    if (Given(q.startDate) && start.None?) || (Given(q.endDate) && end.None?) then Failure(Error("Invalid Date"))
    else
      Success(Where(
        if Given(q.status) then q.status else None,
        if Given(q.category) then q.category else None,
        if Given(q.priority) then q.priority else None,
        if Given(q.departmentId) then q.departmentId else None,
        if Given(q.assignedTo) then q.assignedTo else None,
        if Given(q.search) then q.search else None,
        if Given(q.startDate) || Given(q.endDate) then Some(DateRange(start, end)) else None))
  }

  /** The whole of `findAll`; an order other than 'asc' or 'desc' is refused by the query engine. */
  function FindAllResult(tickets: seq<Ticket>, q: QueryTicketDto, toDate: string -> Option<int>): Result<Listing, Thrown>
    requires PageOf(q).Num? && PageOf(q).n >= 1 && LimitOf(q).Num? && LimitOf(q).n >= 1
  {
    var w := WhereOf(q, toDate);
    if w.Failure? then Failure(w.error)
    else if SortOrderOf(q) != "asc" && SortOrderOf(q) != "desc" then Failure(Error("Invalid sortOrder"))
    else Success(ListingOf(tickets, w.value, PageOf(q).n, LimitOf(q).n, SortOrderOf(q) == "asc"))
  }

  /** A valid query never lists a soft-deleted ticket and never returns more than 100 rows. */
  lemma FindAllBounded(tickets: seq<Ticket>, q: QueryTicketDto, toDate: string -> Option<int>, isDateString: string -> bool)
    requires ValidQuery(q, isDateString)
    requires FindAllResult(tickets, q, toDate).Success?
    ensures var r := FindAllResult(tickets, q, toDate).value;
      |r.data| <= 100 && forall x :: x in r.data ==> x in tickets && !x.isDeleted
  {
    var w := WhereOf(q, toDate).value;
    ListingSound(tickets, w, PageOf(q).n, LimitOf(q).n, SortOrderOf(q) == "asc");
  }

  /** A status filter keeps exactly the live tickets with that status (when nothing else filters). */
  lemma StatusFilter(tickets: seq<Ticket>, status: string, x: Ticket)
    ensures x in Filter(tickets, Where(Some(status), None, None, None, None, None, None)) <==>
      x in tickets && !x.isDeleted && x.status == status
  {
  }

  /** The tickets of the user with id `uid` that are not soft-deleted, in table order. */
  function OwnedLive(tickets: seq<Ticket>, uid: nat): (r: seq<Ticket>)
    ensures forall x :: x in r <==> x in tickets && x.userId == uid && !x.isDeleted
  {
    if tickets == [] then []
    else (if tickets[0].userId == uid && !tickets[0].isDeleted then [tickets[0]] else []) + OwnedLive(tickets[1..], uid)
  }

  /** `findByLineUserId`: `[]` for an unknown user, else the user's live tickets, newest first. */
  function FindByLineUserId(s: Tables, lineUserId: string): (r: seq<Ticket>)
    ensures lineUserId !in s.users ==> r == []
    ensures lineUserId in s.users ==>
      Sorted(r, false) && multiset(r) == multiset(OwnedLive(s.tickets, s.users[lineUserId].id))
  {
    if lineUserId !in s.users then []
    else
      var mine := OwnedLive(s.tickets, s.users[lineUserId].id);
      SortByCreatedSorted(mine, false);
      SortByCreated(mine, false)
  }

  /** Everything `findByLineUserId` returns is a live ticket of that user. */
  lemma FindByLineUserIdMembers(s: Tables, lineUserId: string, x: Ticket)
    requires UsersWellKeyed(s.users, s.nextId)
    ensures x in FindByLineUserId(s, lineUserId) <==>
      lineUserId in s.users && x in s.tickets && x.userId == s.users[lineUserId].id && !x.isDeleted
  {
    if lineUserId in s.users {
      var r := FindByLineUserId(s, lineUserId);
      assert x in r <==> x in multiset(r);
    }
  }

  /** The service over the shared database; each method performs the writes of its operation in the source's order. */
  class TicketsService {
    const db: Db

    constructor (db: Db)
      ensures this.db == db
    {
      this.db := db;
    }

    /** `create` once the clock's day prefix `REP-YYYYMMDD` is known. */
    method CreateForDay(dto: CreateTicketDto, now: int, prefix: string) returns (r: Result<Created, Thrown>)
      modifies db
      ensures db.State() == CreateEffect(old(db.State()), db.schema, dto, now, prefix).state
      ensures r == CreateEffect(old(db.State()), db.schema, dto, now, prefix).result
    {
      if dto.departmentId !in db.departments {
        return Failure(BadRequest("Department not found"));
      }
      ghost var s := db.State();
      var user: User;
      if dto.lineUserId !in db.users {
        user := db.CreateUser(User(0, dto.lineUserId, dto.nickname, None, None, now, now, 0));
      } else {
        user := db.users[dto.lineUserId].(lastSeenAt := now);
        db.UpdateUser(dto.lineUserId, user);
      }
      assert user == Owner(s, dto, now);
      assert db.State() == s.(users := s.users[dto.lineUserId := user],
                              nextId := if dto.lineUserId in s.users then s.nextId else s.nextId + 1);
      var number := TicketNumbers.NextNumber(Numbers(db.tickets), prefix);
      if db.schema.numberIsUnique && number in Numbers(db.tickets) {
        return Failure(DuplicateNumber);
      }
      var ticket := db.CreateTicket(NewTicket(0, number, user.id, dto, now));
      var _ := db.CreateHistory(HistoryRow(0, ticket.id, None, "created", None, None, Some("Ticket created"), None, now));
      db.UpdateUser(dto.lineUserId, user.(ticketCount := user.ticketCount + 1));
      r := Success(Created(ticket, user));
    }

    /** `create` at the clock reading `now`, whose UTC calendar fields are `date`. */
    method Create(dto: CreateTicketDto, now: int, date: TicketNumbers.UtcDateTime) returns (r: Result<Created, Thrown>)
      requires TicketNumbers.ValidDateTime(date)
      modifies db
      ensures db.State() == CreateEffect(old(db.State()), db.schema, dto, now, TicketNumbers.DayPrefix(date)).state
      ensures r == CreateEffect(old(db.State()), db.schema, dto, now, TicketNumbers.DayPrefix(date)).result
    {
      r := CreateForDay(dto, now, TicketNumbers.DayPrefix(date));
    }

    method Update(id: nat, dto: UpdateTicketDto, adminId: nat, now: int) returns (r: Result<Ticket, Thrown>)
      modifies db
      ensures db.State() == UpdateEffect(old(db.State()), db.schema, id, dto, adminId, now).state
      ensures r == UpdateEffect(old(db.State()), db.schema, id, dto, adminId, now).result
    {
      var i := LiveIndex(db.tickets, id);
      if i.None? {
        return Failure(NotFound("Ticket not found"));
      }
      if !Accepts(db.schema, db.admins, dto) {
        return Failure(UpdateRejection);
      }
      var ticket := db.tickets[i.value];
      var updated := Patched(ticket, dto, now);
      db.UpdateTicket(i.value, updated);
      var _ := db.CreateHistory(UpdateRow(0, ticket, dto, adminId, now));
      r := Success(updated);
    }

    /** `findAll`, building the `where` object field by field. */
    method FindAll(q: QueryTicketDto, toDate: string -> Option<int>) returns (r: Result<Listing, Thrown>)
      requires PageOf(q).Num? && PageOf(q).n >= 1 && LimitOf(q).Num? && LimitOf(q).n >= 1
      ensures r == FindAllResult(db.tickets, q, toDate)
    {
      var page, limit := PageOf(q).n, LimitOf(q).n;
      var w := Where(None, None, None, None, None, None, None);
      if Given(q.status) { w := w.(status := q.status); }
      if Given(q.category) { w := w.(category := q.category); }
      if Given(q.priority) { w := w.(priority := q.priority); }
      if Given(q.departmentId) { w := w.(departmentId := q.departmentId); }
      if Given(q.assignedTo) { w := w.(assignedTo := q.assignedTo); }
      if Given(q.search) { w := w.(search := q.search); }
      if Given(q.startDate) || Given(q.endDate) {
        var range := DateRange(None, None);
        if Given(q.startDate) {
          var d := toDate(q.startDate.value);
          if d.None? { return Failure(Error("Invalid Date")); }
          range := range.(gte := d);
        }
        if Given(q.endDate) {
          var d := toDate(q.endDate.value);
          if d.None? { return Failure(Error("Invalid Date")); }
          range := range.(lte := d);
        }
        w := w.(createdAt := Some(range));
      }
      assert Success(w) == WhereOf(q, toDate);
      var order := SortOrderOf(q);
      if order != "asc" && order != "desc" {
        return Failure(Error("Invalid sortOrder"));
      }
      r := Success(ListingOf(db.tickets, w, page, limit, order == "asc"));
    }
  }
}
