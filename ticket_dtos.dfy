/**
 * The ticket request bodies and query string, each as the record the validation
 * step sees and a validity predicate made of its field decorators. An absent
 * required string is written `""`: every check on a required field rejects both.
 */
module TicketDtos {
  import opened Wrappers
  import opened Decimal
  import opened Validators
  import Strings

  /** `TicketPriority`. */
  const Priorities: seq<string> := ["normal", "urgent", "critical"]

  /** `TicketCategory`. */
  const Categories: seq<string> := ["hardware", "software", "network", "peripheral", "email", "account", "other"]

  /** `/^[0-9]{10}$|^[0-9]{3}-[0-9]{3}-[0-9]{4}$/`. */
  predicate IsPhone(s: string) {
    (|s| == 10 && AllDigits(s))
    || (|s| == 12 && AllDigits(s[..3]) && s[3] == '-' && AllDigits(s[4..7]) && s[7] == '-' && AllDigits(s[8..]))
  }

  /** An optional field: absent, or present and passing its checks. */
  predicate OptionalOk(f: Option<string>, ok: string -> bool) {
    f.None? || ok(f.value)
  }

  datatype CreateTicketDto = CreateTicketDto(
    lineUserId: string,
    nickname: string,
    departmentId: string,
    phone: Option<string>,
    locationBuilding: string,
    locationFloor: string,
    locationRoom: string,
    locationDetail: Option<string>,
    category: string,
    issueTitle: string,
    issueDescription: Option<string>,
    priority: Option<string>)

  /** The instance's `priority`: the sent value, or the initialiser `TicketPriority.NORMAL`. */
  function PriorityOf(dto: CreateTicketDto): string {
    dto.priority.GetOr("normal")
  }

  predicate ValidCreate(dto: CreateTicketDto) {
    NotEmpty(dto.lineUserId)
    && NotEmpty(dto.nickname) && LengthIn(dto.nickname, 1, 50)
    && IsUuid(dto.departmentId)
    && OptionalOk(dto.phone, IsPhone)
    && NotEmpty(dto.locationBuilding) && NotEmpty(dto.locationFloor) && NotEmpty(dto.locationRoom)
    && IsEnum(dto.category, Categories)
    && NotEmpty(dto.issueTitle) && LengthIn(dto.issueTitle, 10, 100)
    && OptionalOk(dto.issueDescription, s => LengthIn(s, 0, 500))
    && IsEnum(PriorityOf(dto), Priorities)
  }

  /** Both accepted phone layouts hold exactly ten digits once the hyphens are removed. */
  lemma PhoneHasTenDigits(s: string)
    requires IsPhone(s)
    ensures var d := Strings.RemoveChar(s, '-'); |d| == 10 && AllDigits(d)
  {
    if |s| == 10 {
      NoHyphen(s);
    } else {
      assert s == s[..3] + [s[3]] + s[4..7] + [s[7]] + s[8..];
      Strings.RemoveCharAppend(s[..3] + [s[3]] + s[4..7] + [s[7]], s[8..], '-');
      Strings.RemoveCharAppend(s[..3] + [s[3]] + s[4..7], [s[7]], '-');
      Strings.RemoveCharAppend(s[..3] + [s[3]], s[4..7], '-');
      Strings.RemoveCharAppend(s[..3], [s[3]], '-');
      NoHyphen(s[..3]);
      NoHyphen(s[4..7]);
      NoHyphen(s[8..]);
    }
  }

  lemma {:induction false} NoHyphen(s: string)
    requires AllDigits(s)
    ensures Strings.RemoveChar(s, '-') == s
  {
    if s != [] {
      NoHyphen(s[1..]);
    }
  }

  /** A body without `priority` gets 'normal', which passes its enum check. */
  lemma DefaultPriority(dto: CreateTicketDto)
    requires dto.priority.None?
    ensures PriorityOf(dto) == "normal" && IsEnum(PriorityOf(dto), Priorities)
  {
  }

  /** A valid body has a non-empty nickname and an issue title of at least ten characters. */
  lemma ValidCreateBounds(dto: CreateTicketDto)
    requires ValidCreate(dto)
    ensures 1 <= |dto.nickname| && 10 <= |dto.issueTitle|
    ensures dto.phone.Some? ==> |dto.phone.value| == 10 || |dto.phone.value| == 12
  {
  }

  /** The query string after `@Type(() => Number)`: a number is an integer or NaN. */
  datatype QueryTicketDto = QueryTicketDto(
    page: Option<JsNumber>,
    limit: Option<JsNumber>,
    status: Option<string>,
    category: Option<string>,
    priority: Option<string>,
    departmentId: Option<string>,
    assignedTo: Option<string>,
    search: Option<string>,
    startDate: Option<string>,
    endDate: Option<string>,
    sortBy: Option<string>,
    sortOrder: Option<string>)

  /** The instance's `page`, `limit`, `sortBy` and `sortOrder`, after the field initialisers. */
  function PageOf(q: QueryTicketDto): JsNumber { q.page.GetOr(Num(1)) }
  function LimitOf(q: QueryTicketDto): JsNumber { q.limit.GetOr(Num(25)) }
  function SortByOf(q: QueryTicketDto): string { q.sortBy.GetOr("createdAt") }
  function SortOrderOf(q: QueryTicketDto): string { q.sortOrder.GetOr("desc") }

  /** `@IsInt() @Min(lo) @Max(hi)`. */
  predicate IntIn(x: JsNumber, lo: int, hi: int) {
    x.Num? && lo <= x.n <= hi
  }

  predicate ValidQuery(q: QueryTicketDto, isDateString: string -> bool) {
    (PageOf(q).Num? && PageOf(q).n >= 1)
    && IntIn(LimitOf(q), 1, 100)
    && OptionalOk(q.category, c => IsEnum(c, Categories))
    && OptionalOk(q.priority, p => IsEnum(p, Priorities))
    && OptionalOk(q.departmentId, IsUuid)
    && OptionalOk(q.assignedTo, IsUuid)
    && OptionalOk(q.startDate, isDateString)
    && OptionalOk(q.endDate, isDateString)
  }

  /** The empty query string is valid and gets page 1, limit 25, newest first by `createdAt`. */
  lemma EmptyQuery(isDateString: string -> bool)
    ensures var q := QueryTicketDto(None, None, None, None, None, None, None, None, None, None, None, None);
      ValidQuery(q, isDateString) && PageOf(q) == Num(1) && LimitOf(q) == Num(25)
      && SortByOf(q) == "createdAt" && SortOrderOf(q) == "desc"
  {
  }

  /** For a valid query the service's offset `(page - 1) * limit` is not negative and a page holds at most 100 tickets. */
  lemma ValidQueryPaging(q: QueryTicketDto, isDateString: string -> bool)
    requires ValidQuery(q, isDateString)
    ensures (PageOf(q).n - 1) * LimitOf(q).n >= 0
    ensures 1 <= LimitOf(q).n <= 100
  {
    var p, l := PageOf(q).n - 1, LimitOf(q).n;
    assert p >= 0 && l >= 1;
    assert p * l >= 0;
  }

  datatype UpdateTicketDto = UpdateTicketDto(
    status: Option<string>,
    assignedTo: Option<string>,
    comment: Option<string>,
    cancellationReason: Option<string>,
    notifyUser: Option<bool>)

  predicate ValidUpdate(dto: UpdateTicketDto) {
    OptionalOk(dto.assignedTo, IsUuid)
    && OptionalOk(dto.comment, s => LengthIn(s, 0, 500))
  }

  /** Every field is optional: the empty body is valid, and so is any status or cancellation reason. */
  lemma UpdateFieldsOptional(status: Option<string>, reason: Option<string>, notify: Option<bool>)
    ensures ValidUpdate(UpdateTicketDto(None, None, None, None, None))
    ensures ValidUpdate(UpdateTicketDto(status, None, None, reason, notify))
  {
  }

  /** A comment of at most 500 plain characters is accepted, and one of 501 is not. */
  lemma UpdateCommentBound(c: string)
    requires forall i :: 0 <= i < |c| ==> !IsVariationSelector(c[i])
    ensures ValidUpdate(UpdateTicketDto(None, None, Some(c), None, None)) <==> |c| <= 500
  {
    VisibleLengthPlain(c);
  }
}
