/**
 * The ticket notifications sent to LINE users (line-notify.service.ts): a
 * status lookup for emoji and label, five fixed message templates, and one push
 * per notification whose failure is caught and dropped.
 */
module LineNotify {
  import opened Wrappers
  import opened LineService
  import Strings

  /** `NotificationPayload`; the optional fields are absent or a string. */
  datatype Payload = Payload(lineUserId: string, title: string, message: string, ticketNumber: Option<string>, status: Option<string>)

  /** The five notifications. */
  datatype Notice = Created | Assigned | Updated | Completed | Cancelled

  /** The four statuses the lookups know. */
  predicate Known(status: Option<string>) {
    status.Some? && status.value in {"pending", "in_progress", "completed", "cancelled"}
  }

  const EmojiMap: map<string, string> := map["pending" := "🔵", "in_progress" := "🟠", "completed" := "🟢", "cancelled" := "⚫"]

  const StatusMap: map<string, string> := map["pending" := "Pending", "in_progress" := "In Progress", "completed" := "Completed", "cancelled" := "Cancelled"]

  /** `getStatusEmoji`: the table entry for `status || ''`, or a white circle. */
  function StatusEmoji(status: Option<string>): (r: string)
    ensures r in {"🔵", "🟠", "🟢", "⚫", "⚪"}
    ensures r == "⚪" <==> !Known(status)
  {
    var key := status.GetOr("");
    if key in EmojiMap then EmojiMap[key] else "⚪"
  }

  /** `getStatusText`: the table entry for `status || ''`, or 'Unknown'. */
  function StatusText(status: Option<string>): (r: string)
    ensures r in {"Pending", "In Progress", "Completed", "Cancelled", "Unknown"}
    ensures r == "Unknown" <==> !Known(status)
  {
    var key := status.GetOr("");
    if key in StatusMap then StatusMap[key] else "Unknown"
  }

  /** The two lookups, entry by entry. */
  lemma StatusTable()
    ensures StatusEmoji(Some("pending")) == "🔵" && StatusText(Some("pending")) == "Pending"
    ensures StatusEmoji(Some("in_progress")) == "🟠" && StatusText(Some("in_progress")) == "In Progress"
    ensures StatusEmoji(Some("completed")) == "🟢" && StatusText(Some("completed")) == "Completed"
    ensures StatusEmoji(Some("cancelled")) == "⚫" && StatusText(Some("cancelled")) == "Cancelled"
    ensures StatusEmoji(None) == "⚪" && StatusText(None) == "Unknown"
    ensures StatusEmoji(Some("")) == "⚪" && StatusText(Some("")) == "Unknown"
  {
  }

  /** Distinct known statuses get distinct emoji. */
  lemma StatusEmojiInjective(a: Option<string>, b: Option<string>)
    requires Known(a) && Known(b) && a != b
    ensures StatusEmoji(a) != StatusEmoji(b)
  {
  }

  /** The status line as the updated template builds it: emoji, a space, label. */
  function StatusLine(status: Option<string>): string {
    StatusEmoji(status) + " " + StatusText(status)
  }

  /** `${x}` of an optional string: an absent value prints as 'undefined'. */
  function Shown(x: Option<string>): (r: string)
    ensures x.Some? ==> r == x.value
  {
    if x.Some? then x.value else "undefined"
  }

  /** `x || 'N/A'`. */
  function OrNotAvailable(x: Option<string>): (r: string)
    ensures r == "N/A" <==> x.None? || x.value == "" || x.value == "N/A"
    ensures r != "N/A" ==> r == x.value
  {
    if x.Some? && x.value != "" then x.value else "N/A"
  }

  function Title(k: Notice): string {
    match k
    case Created => "Ticket Created"
    case Assigned => "Ticket Assigned"
    case Updated => "Ticket Updated"
    case Completed => "Ticket Completed"
    case Cancelled => "Ticket Cancelled"
  }

  /** The lines above the subject line (the created template lists the ticket number on a line of its own). */
  function Heading(k: Notice, p: Payload): string {
    match k
    case Created => "🎫 Ticket สร้างสำเร็จ!\n\n" + "หมายเลข: " + OrNotAvailable(p.ticketNumber)
    case Assigned => "🔄 Ticket " + Shown(p.ticketNumber) + " ได้รับการมอบหมาย\n"
    case Updated => "📢 Ticket " + Shown(p.ticketNumber) + " ได้รับการอัปเดต\n"
    case Completed => "✅ Ticket " + Shown(p.ticketNumber) + " เสร็จสิ้นแล้ว!\n"
    case Cancelled => "❌ Ticket " + Shown(p.ticketNumber) + " ถูกยกเลิก\n"
  }

  /** What follows 'สถานะ: '. */
  function Status(k: Notice, p: Payload): string {
    match k
    case Created => "🔵 Pending"
    case Assigned => "🟠 In Progress"
    case Updated => StatusLine(p.status)
    case Completed => "🟢 Completed"
    case Cancelled => "⚫ Cancelled"
  }

  /** The closing lines. */
  function Closing(k: Notice): string {
    match k
    case Created => "กรุณารอการยืนยันจากทีมช่วยเหลือ IT"
    case Assigned => "ทีม IT จะติดต่อคุณในอีกสักครู่"
    case Updated => "กรุณาตรวจสอบรายละเอียดเพิ่มเติม"
    case Completed => "ขอบคุณที่ใช้งาน IT Repair System\nหากมีปัญหาเพิ่มเติม สามารถสร้าง Ticket ใหม่ได้ตลอดเวลา"
    case Cancelled => "หากคุณมีคำถามใดๆ โปรดติดต่อทีม IT"
  }

  /** Everything before the status. */
  function Prefix(k: Notice, p: Payload): string {
    Heading(k, p) + "\nเรื่อง: " + p.message + "\nสถานะ: "
  }

  /** Everything after the status. */
  function Suffix(k: Notice): string {
    "\n\n" + Closing(k)
  }

  /** The body of the template literal, between its opening line break and its closing indentation. */
  function Body(k: Notice, p: Payload): string {
    Prefix(k, p) + Status(k, p) + Suffix(k)
  }

  /** The `message` local: the template literal, trimmed. */
  function Message(k: Notice, p: Payload): string {
    Strings.Trim("\n" + Body(k, p) + "\n    ")
  }

  /** The push a notification makes, with the outcome of the attempt. */
  function Sent(k: Notice, p: Payload, delivered: bool): Push {
    Push(p.lineUserId, [TextMessage(NotifyText(Title(k), Message(k, p)))], delivered)
  }

  /** Every heading opens with an emoji. */
  lemma HeadingStart(k: Notice, p: Payload)
    ensures var h := Heading(k, p); |h| > 0 && !Strings.IsJsWhitespace(h[0])
  {
    match k
    case Created =>
    case Assigned =>
    case Updated =>
    case Completed =>
    case Cancelled =>
  }

  /** Every closing ends in a visible character. */
  lemma ClosingEnd(k: Notice)
    ensures var c := Closing(k); |c| > 0 && !Strings.IsJsWhitespace(c[|c| - 1])
  {
    var c := Closing(k);
    match k
    case Created => assert c[|c| - 1] == 'T';
    case Assigned => assert c[|c| - 1] == '่';
    case Updated => assert c[|c| - 1] == 'ม';
    case Completed => assert c[|c| - 1] == 'า';
    case Cancelled => assert c[|c| - 1] == 'T';
  }

  /** Every body opens with an emoji and ends in a visible character. */
  lemma BodyEnds(k: Notice, p: Payload)
    ensures var b := Body(k, p);
      |b| > 0 && !Strings.IsJsWhitespace(b[0]) && !Strings.IsJsWhitespace(b[|b| - 1])
  {
    HeadingStart(k, p);
    ClosingEnd(k);
    var h := Heading(k, p);
    assert Prefix(k, p)[0] == h[0];
    Strings.EndsOfPadded(Prefix(k, p), Status(k, p), Suffix(k));
  }

  /** Trimming takes away only the template's own line breaks and indentation. */
  lemma MessageIsBody(k: Notice, p: Payload)
    ensures Message(k, p) == Body(k, p)
  {
    BodyEnds(k, p);
    Strings.TrimTemplate(Body(k, p));
  }

  /** The text the user receives: the bell, the notification's title, a line break and the body. */
  lemma SentText(k: Notice, p: Payload)
    ensures NotifyText(Title(k), Message(k, p)) == "📢 " + Title(k) + "\n" + Body(k, p)
  {
    MessageIsBody(k, p);
    BodyEnds(k, p);
    NotifyTextShape(Title(k), Body(k, p));
  }

  /** A missing or empty ticket number reads as the ticket number 'N/A'. */
  lemma CreatedFallback(p: Payload)
    requires p.ticketNumber.None? || p.ticketNumber == Some("")
    ensures Message(Created, p) == Message(Created, p.(ticketNumber := Some("N/A")))
  {
  }

  /** The fixed status lines are the ones the lookups give for the status each notice stands for. */
  lemma FixedStatusLines(p: Payload)
    ensures Status(Created, p) == StatusLine(Some("pending"))
    ensures Status(Assigned, p) == StatusLine(Some("in_progress"))
    ensures Status(Completed, p) == StatusLine(Some("completed"))
    ensures Status(Cancelled, p) == StatusLine(Some("cancelled"))
    ensures Status(Updated, p) == StatusLine(p.status)
  {
    StatusTable();
  }

  /** Only the updated notice reads `status`: every other text is the same whatever the payload's status. */
  lemma StatusOnlyInUpdated(k: Notice, p: Payload, s: Option<string>)
    requires k != Updated
    ensures Message(k, p.(status := s)) == Message(k, p)
  {
  }

  /** The updated notice tells two known statuses apart. */
  lemma UpdatedShowsStatus(p: Payload, a: Option<string>, b: Option<string>)
    requires Known(a) && Known(b) && a != b
    ensures Message(Updated, p.(status := a)) != Message(Updated, p.(status := b))
  {
    var pa, pb := p.(status := a), p.(status := b);
    MessageIsBody(Updated, pa);
    MessageIsBody(Updated, pb);
    StatusEmojiInjective(a, b);
    assert Prefix(Updated, pa) == Prefix(Updated, pb);
    Strings.DifferAt(Prefix(Updated, pa), StatusLine(a), StatusLine(b), Suffix(Updated));
  }

  /** The notifier in front of the LINE service. */
  class LineNotifyService {
    const line: LineService

    constructor (line: LineService)
      ensures this.line == line
    {
      this.line := line;
    }

    method NotifyTicketCreated(p: Payload)
      modifies line.api
      ensures line.api.outbox == old(line.api.outbox) + [Sent(Created, p, line.api.pushOk(|old(line.api.outbox)|))]
    {
      var _ := line.SendLineNotify(p.lineUserId, "Ticket Created", Message(Created, p));
    }

    method NotifyTicketAssigned(p: Payload)
      modifies line.api
      ensures line.api.outbox == old(line.api.outbox) + [Sent(Assigned, p, line.api.pushOk(|old(line.api.outbox)|))]
    {
      var _ := line.SendLineNotify(p.lineUserId, "Ticket Assigned", Message(Assigned, p));
    }

    method NotifyTicketUpdated(p: Payload)
      modifies line.api
      ensures line.api.outbox == old(line.api.outbox) + [Sent(Updated, p, line.api.pushOk(|old(line.api.outbox)|))]
    {
      var _ := line.SendLineNotify(p.lineUserId, "Ticket Updated", Message(Updated, p));
    }

    method NotifyTicketCompleted(p: Payload)
      modifies line.api
      ensures line.api.outbox == old(line.api.outbox) + [Sent(Completed, p, line.api.pushOk(|old(line.api.outbox)|))]
    {
      var _ := line.SendLineNotify(p.lineUserId, "Ticket Completed", Message(Completed, p));
    }

    method NotifyTicketCancelled(p: Payload)
      modifies line.api
      ensures line.api.outbox == old(line.api.outbox) + [Sent(Cancelled, p, line.api.pushOk(|old(line.api.outbox)|))]
    {
      var _ := line.SendLineNotify(p.lineUserId, "Ticket Cancelled", Message(Cancelled, p));
    }
  }
}
