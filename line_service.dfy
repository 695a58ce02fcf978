/**
 * The LINE side of the system (line.service.ts): the Messaging API as seen
 * from the service (profile lookups and push requests), the webhook's
 * signature check, and the per-event loop that registers users and answers
 * them. Every push attempt is recorded in an outbox together with its outcome.
 */
module LineService {
  import opened Wrappers
  import opened HttpErrors
  import opened Store
  import Strings

  /** A LINE profile as the profile endpoint returns it. */
  datatype Profile = Profile(displayName: string, pictureUrl: Option<string>, statusMessage: Option<string>)

  /** A button of a buttons template (`caption` is its `label`): open a URI, or send a text as the user. */
  datatype Action = UriAction(caption: string, uri: string) | MessageAction(caption: string, text: string)

  /** The message objects the service pushes. */
  datatype LineMessage =
    | TextMessage(text: string)
    | ButtonsTemplate(altText: string, title: string, text: string, actions: seq<Action>)

  /** One push request: recipient, messages, and whether the platform accepted it. */
  datatype Push = Push(to: string, messages: seq<LineMessage>, delivered: bool)

  /** `getLineProfile`: the profile, or the 500 the service throws when the request fails. */
  function ProfileResult(profile: Option<Profile>): (r: Result<Profile, Thrown>)
    ensures r.Success? <==> profile.Some?
    ensures r.Success? ==> r.value == profile.value
    ensures r.Failure? ==> r.error == InternalHttp("Failed to fetch LINE profile")
  {
    if profile.Some? then Success(profile.value) else Failure(InternalHttp("Failed to fetch LINE profile"))
  }

  /** `sendLineMessage`: nothing, or the 500 the service throws when the push fails. */
  function PushResult(delivered: bool): (r: Outcome<Thrown>)
    ensures r.Pass? <==> delivered
    ensures r.Fail? ==> r.error == InternalHttp("Failed to send LINE message")
  {
    if delivered then Pass else Fail(InternalHttp("Failed to send LINE message"))
  }

  /**
   * The Messaging API. `profileOf(id)` is the profile endpoint's answer for a user
   * (None when the request fails); `pushOk(n)` is whether the `n`-th push request
   * succeeds.
   */
  class LineApi {
    const profileOf: string -> Option<Profile>
    const pushOk: nat -> bool
    var outbox: seq<Push>

    constructor (profileOf: string -> Option<Profile>, pushOk: nat -> bool)
      ensures this.profileOf == profileOf && this.pushOk == pushOk && outbox == []
    {
      this.profileOf := profileOf;
      this.pushOk := pushOk;
      outbox := [];
    }

    /** `GET /v2/bot/profile/{userId}`. */
    method GetProfile(lineUserId: string) returns (r: Result<Profile, Thrown>)
      ensures r == ProfileResult(profileOf(lineUserId))
    {
      var p := profileOf(lineUserId);
      if p.None? {
        return Failure(InternalHttp("Failed to fetch LINE profile"));
      }
      r := Success(p.value);
    }

    /** `POST /v2/bot/message/push`. */
    method PushMessage(to: string, messages: seq<LineMessage>) returns (r: Outcome<Thrown>)
      modifies this
      ensures outbox == old(outbox) + [Push(to, messages, pushOk(|old(outbox)|))]
      ensures r == PushResult(pushOk(|old(outbox)|))
    {
      var delivered := pushOk(|outbox|);
      outbox := outbox + [Push(to, messages, delivered)];
      r := if delivered then Pass else Fail(InternalHttp("Failed to send LINE message"));
    }
  }

  /** The tables and the outbox. */
  datatype World = World(tables: Tables, outbox: seq<Push>)

  /** What the handlers read but do not change: the API's answers, the LIFF id and the clock. */
  datatype Env = Env(profileOf: string -> Option<Profile>, pushOk: nat -> bool, liffId: string, now: int)

  /** A handler's new world and whether it returned or threw. */
  datatype Effect = Effect(world: World, outcome: Outcome<Thrown>)

  /** One push attempt on the world. */
  function Pushed(w: World, env: Env, to: string, messages: seq<LineMessage>): Effect {
    var delivered := env.pushOk(|w.outbox|);
    Effect(w.(outbox := w.outbox + [Push(to, messages, delivered)]), PushResult(delivered))
  }

  /** `x || null` on an optional string: absent and `''` both become null. */
  function OrNull(x: Option<string>): (r: Option<string>)
    ensures r.Some? <==> x.Some? && x.value != ""
    ensures r.Some? ==> r == x
  {
    if x.Some? && x.value != "" then x else None
  }

  /** The user row both handlers create from a profile (the id is the next one). */
  function NewUser(id: nat, lineUserId: string, p: Profile, now: int): User {
    User(id, lineUserId, p.displayName, OrNull(p.pictureUrl), OrNull(p.statusMessage), now, now, 0)
  }

  /** The menu answered to every text message. */
  function Menu(displayName: string, liffId: string): LineMessage {
    ButtonsTemplate("IT Support Menu", "IT Repair System",
                    "สวัสดีคุณ " + displayName + " !\nเลือกสิ่งที่คุณต้องการ",
                    [UriAction("🎫 สร้าง Ticket ใหม่", "line://liff/" + liffId),
                     MessageAction("📋 ดูสถานะ Ticket", "ดูสถานะของฉัน")])
  }

  const WelcomeText: string := "ยินดีต้อนรับสู่ IT Repair System! 🎉\nคลิก \"สร้าง Ticket\" เพื่อแจ้งปัญหา IT"

  /** What the database throws when `user.create` meets an existing `lineUserId`. */
  const UniqueViolation: Thrown := Error("Unique constraint failed on the fields: (`lineUserId`)")

  /** `handleTextMessage`: get or create the user, then push the menu. */
  function TextEffect(w: World, env: Env, lineUserId: string): Effect {
    var users := w.tables.users;
    if lineUserId in users then
      var seen := users[lineUserId].(lastSeenAt := env.now);
      Pushed(w.(tables := w.tables.(users := users[lineUserId := seen])), env, lineUserId,
             [Menu(users[lineUserId].displayName, env.liffId)])
    else if env.profileOf(lineUserId).None? then
      Effect(w, Fail(InternalHttp("Failed to fetch LINE profile")))
    else
      var u := NewUser(w.tables.nextId, lineUserId, env.profileOf(lineUserId).value, env.now);
      Pushed(w.(tables := w.tables.(users := users[lineUserId := u], nextId := w.tables.nextId + 1)), env, lineUserId,
             [Menu(u.displayName, env.liffId)])
  }

  /** `handleFollowEvent`: fetch the profile, create the user without looking first, push the welcome text. */
  function FollowEffect(w: World, env: Env, lineUserId: string): Effect {
    var users := w.tables.users;
    if env.profileOf(lineUserId).None? then Effect(w, Fail(InternalHttp("Failed to fetch LINE profile")))
    else if lineUserId in users then Effect(w, Fail(UniqueViolation))
    else
      var u := NewUser(w.tables.nextId, lineUserId, env.profileOf(lineUserId).value, env.now);
      Pushed(w.(tables := w.tables.(users := users[lineUserId := u], nextId := w.tables.nextId + 1)), env, lineUserId,
             [TextMessage(WelcomeText)])
  }

  /** The `message` of a message event. */
  datatype EventMessage = EventMessage(kind: string, text: string)

  /**
   * One webhook event: its `type`, its `message`, and `source.userId`. A property
   * the JSON lacks is None (a missing `type` is `""`, which compares the same).
   */
  datatype Event = Event(kind: string, message: Option<EventMessage>, userId: Option<string>)

  /** Whether the loop hands the event to the text handler. */
  predicate IsTextEvent(e: Event) {
    e.kind == "message" && e.message.Some? && e.message.value.kind == "text" && e.userId.Some?
  }

  /** Whether the loop hands the event to the follow handler. */
  predicate IsFollowEvent(e: Event) {
    e.kind == "follow" && e.userId.Some?
  }

  /**
   * One iteration of the event loop: dispatch on the event's type, and catch
   * whatever the handler throws. A message event without `message`, or any event
   * without a user id, throws before a handler writes anything; 'unfollow' is only
   * logged, and every other type is ignored.
   */
  function Step(w: World, env: Env, e: Event): World {
    if IsTextEvent(e) then TextEffect(w, env, e.userId.value).world
    else if IsFollowEvent(e) then FollowEffect(w, env, e.userId.value).world
    else w
  }

  /** The events handled in array order. */
  function Replay(w: World, env: Env, events: seq<Event>): World {
    if events == [] then w
    else Step(Replay(w, env, events[..|events| - 1]), env, events[|events| - 1])
  }

  /** `body.events`: absent, not an array, or the array of events. */
  datatype EventsField = Missing | NotArray | Items(items: seq<Event>)

  /**
   * The parsed request body: `events`, the part the handler acts on, and `rest`,
   * everything else that `JSON.stringify` serialises (`destination`, each event's
   * `replyToken`, `timestamp`, `mode`, `webhookEventId`, message ids, ...), kept
   * as the text it contributes. Only `events` drives the handlers; the signature
   * covers both.
   */
  datatype WebhookBody = WebhookBody(events: EventsField, rest: string)

  /** HMAC-SHA256 (key, message), Base64 encoding and `JSON.stringify`, left abstract. */
  datatype Signer = Signer(hmac: (string, string) -> seq<bv8>, base64: seq<bv8> -> string, stringify: WebhookBody -> string)

  /** `verifySignature`: the secret must be set; the signature is the Base64 HMAC of the re-serialised body. */
  function VerifySignature(sg: Signer, secret: string, body: WebhookBody, signature: string): (r: Result<bool, Thrown>)
    ensures r.Failure? <==> secret == ""
    ensures r.Failure? ==> r.error == BadRequest("LINE_CHANNEL_SECRET not configured")
    ensures r.Success? ==> (r.value <==> signature == sg.base64(sg.hmac(secret, sg.stringify(body))))
  {
    if secret == "" then Failure(BadRequest("LINE_CHANNEL_SECRET not configured"))
    else Success(sg.base64(sg.hmac(secret, sg.stringify(body))) == signature)
  }

  /** The whole of `handleWebhook`. */
  function WebhookEffect(w: World, env: Env, sg: Signer, secret: string, body: WebhookBody, signature: string): Effect {
    var v := VerifySignature(sg, secret, body, signature);
    if v.Failure? then Effect(w, Fail(v.error))
    else if !v.value then Effect(w, Fail(BadRequest("Invalid LINE webhook signature")))
    else if !body.events.Items? then Effect(w, Fail(Error("body.events is not iterable")))
    else Effect(Replay(w, env, body.events.items), Pass)
  }

  /** Handling `a` and then `b` is handling `a + b`: the loop is sequential. */
  lemma {:induction false} ReplayAppend(w: World, env: Env, a: seq<Event>, b: seq<Event>)
    ensures Replay(w, env, a + b) == Replay(Replay(w, env, a), env, b)
  {
    if b == [] {
      assert a + b == a;
    } else {
      assert (a + b)[..|a + b| - 1] == a + b[..|b| - 1];
      ReplayAppend(w, env, a, b[..|b| - 1]);
    }
  }

  /**
   * What an event can change: it appends to the outbox, adds users, and refreshes
   * the `lastSeenAt` of known ones; tickets, history, admins and departments stay.
   */
  ghost predicate Grows(w: World, w': World) {
    |w.outbox| <= |w'.outbox| && w'.outbox[..|w.outbox|] == w.outbox
    && w'.tables.tickets == w.tables.tickets && w'.tables.history == w.tables.history
    && w'.tables.admins == w.tables.admins && w'.tables.departments == w.tables.departments
    && w.tables.nextId <= w'.tables.nextId
    && forall k :: k in w.tables.users ==>
         k in w'.tables.users && w'.tables.users[k] == w.tables.users[k].(lastSeenAt := w'.tables.users[k].lastSeenAt)
  }

  lemma GrowsTransitive(a: World, b: World, c: World)
    requires Grows(a, b) && Grows(b, c)
    ensures Grows(a, c)
  {
    assert c.outbox[..|a.outbox|] == c.outbox[..|b.outbox|][..|a.outbox|];
  }

  /** A push only appends to the outbox. */
  lemma PushedGrows(w: World, env: Env, to: string, messages: seq<LineMessage>)
    ensures Grows(w, Pushed(w, env, to, messages).world)
  {
    var w' := Pushed(w, env, to, messages).world;
    assert w'.outbox[..|w.outbox|] == w.outbox;
  }

  /** Changing only the users table, by refreshing or adding users, keeps the outbox. */
  lemma UsersGrow(w: World, users: map<string, User>, nextId: nat)
    requires w.tables.nextId <= nextId
    requires forall k :: k in w.tables.users ==>
      k in users && users[k] == w.tables.users[k].(lastSeenAt := users[k].lastSeenAt)
    ensures Grows(w, w.(tables := w.tables.(users := users, nextId := nextId)))
  {
    assert w.outbox[..|w.outbox|] == w.outbox;
  }

  lemma TextGrows(w: World, env: Env, uid: string)
    ensures Grows(w, TextEffect(w, env, uid).world)
  {
    var s := w.tables;
    if uid in s.users {
      var users := s.users[uid := s.users[uid].(lastSeenAt := env.now)];
      UsersGrow(w, users, s.nextId);
      var w1 := w.(tables := s.(users := users, nextId := s.nextId));
      PushedGrows(w1, env, uid, [Menu(s.users[uid].displayName, env.liffId)]);
      GrowsTransitive(w, w1, TextEffect(w, env, uid).world);
    } else if env.profileOf(uid).Some? {
      var u := NewUser(s.nextId, uid, env.profileOf(uid).value, env.now);
      UsersGrow(w, s.users[uid := u], s.nextId + 1);
      var w1 := w.(tables := s.(users := s.users[uid := u], nextId := s.nextId + 1));
      PushedGrows(w1, env, uid, [Menu(u.displayName, env.liffId)]);
      GrowsTransitive(w, w1, TextEffect(w, env, uid).world);
    } else {
      assert w.outbox[..|w.outbox|] == w.outbox;
    }
  }

  lemma FollowGrows(w: World, env: Env, uid: string)
    ensures Grows(w, FollowEffect(w, env, uid).world)
  {
    var s := w.tables;
    if env.profileOf(uid).Some? && uid !in s.users {
      var u := NewUser(s.nextId, uid, env.profileOf(uid).value, env.now);
      UsersGrow(w, s.users[uid := u], s.nextId + 1);
      var w1 := w.(tables := s.(users := s.users[uid := u], nextId := s.nextId + 1));
      PushedGrows(w1, env, uid, [TextMessage(WelcomeText)]);
      GrowsTransitive(w, w1, FollowEffect(w, env, uid).world);
    } else {
      assert w.outbox[..|w.outbox|] == w.outbox;
    }
  }

  lemma StepGrows(w: World, env: Env, e: Event)
    ensures Grows(w, Step(w, env, e))
  {
    if IsTextEvent(e) {
      TextGrows(w, env, e.userId.value);
    } else if IsFollowEvent(e) {
      FollowGrows(w, env, e.userId.value);
    } else {
      assert w.outbox[..|w.outbox|] == w.outbox;
    }
  }

  /** However the events go, the outbox only grows and no existing user is lost or changed beyond `lastSeenAt`. */
  lemma {:induction false} ReplayGrows(w: World, env: Env, events: seq<Event>)
    ensures Grows(w, Replay(w, env, events))
  {
    if events == [] {
      assert w.outbox[..|w.outbox|] == w.outbox;
    } else {
      var mid := Replay(w, env, events[..|events| - 1]);
      ReplayGrows(w, env, events[..|events| - 1]);
      StepGrows(mid, env, events[|events| - 1]);
      GrowsTransitive(w, mid, Replay(w, env, events));
    }
  }

  /** A created user has a fresh id and owns no ticket, so an event keeps the table invariant. */
  lemma StepKeepsValid(w: World, env: Env, e: Event)
    requires ValidTables(w.tables)
    ensures ValidTables(Step(w, env, e).tables)
  {
    if IsTextEvent(e) || IsFollowEvent(e) {
      var uid := e.userId.value;
      var s := w.tables;
      if uid in s.users {
        TextSeenKeepsValid(s, uid, env.now);
      } else {
        var p := env.profileOf(uid);
        if p.Some? {
          AddUserKeepsValid(s, NewUser(s.nextId, uid, p.value, env.now));
        }
      }
    }
  }

  /** Refreshing a known user's `lastSeenAt` keeps the invariant. */
  lemma TextSeenKeepsValid(s: Tables, uid: string, now: int)
    requires ValidTables(s) && uid in s.users
    ensures ValidTables(s.(users := s.users[uid := s.users[uid].(lastSeenAt := now)]))
  {
  }

  /** Adding a user with the next id and no tickets keeps the invariant. */
  lemma AddUserKeepsValid(s: Tables, u: User)
    requires ValidTables(s) && u.lineUserId !in s.users && u.id == s.nextId && u.ticketCount == 0
    ensures ValidTables(s.(users := s.users[u.lineUserId := u], nextId := s.nextId + 1))
  {
    OwnedCountNone(s.tickets, s.nextId);
  }

  lemma {:induction false} ReplayKeepsValid(w: World, env: Env, events: seq<Event>)
    requires ValidTables(w.tables)
    ensures ValidTables(Replay(w, env, events).tables)
  {
    if events != [] {
      ReplayKeepsValid(w, env, events[..|events| - 1]);
      StepKeepsValid(Replay(w, env, events[..|events| - 1]), env, events[|events| - 1]);
    }
  }

  /** An unset secret, or a signature that does not match, throws BadRequest before any event is looked at. */
  lemma WebhookRejects(w: World, env: Env, sg: Signer, secret: string, body: WebhookBody, signature: string)
    requires secret == "" || signature != sg.base64(sg.hmac(secret, sg.stringify(body)))
    ensures var e := WebhookEffect(w, env, sg, secret, body, signature);
      e.world == w
      && e.outcome == Fail(BadRequest(if secret == "" then "LINE_CHANNEL_SECRET not configured" else "Invalid LINE webhook signature"))
  {
  }

  /** With a matching signature and an array of events, every event is handled in order and nothing is thrown. */
  lemma WebhookAccepts(w: World, env: Env, sg: Signer, secret: string, body: WebhookBody, events: seq<Event>, signature: string)
    requires body.events == Items(events)
    requires secret != "" && signature == sg.base64(sg.hmac(secret, sg.stringify(body)))
    ensures WebhookEffect(w, env, sg, secret, body, signature) == Effect(Replay(w, env, events), Pass)
  {
  }

  /**
   * `rest` is signed: for a serialisation that writes `rest` out, two bodies with
   * the same events that differ only in `rest` get different verdicts under one
   * signature; the altered one is refused with nothing written.
   */
  lemma RestIsSigned(w: World, env: Env, events: seq<Event>)
    ensures var sg := Signer((k: string, m: string) => if m == "a" then [1 as bv8] else [2 as bv8],
                             (b: seq<bv8>) => if b == [1 as bv8] then "A" else "B",
                             (body: WebhookBody) => body.rest);
      WebhookEffect(w, env, sg, "secret", WebhookBody(Items(events), "a"), "A") == Effect(Replay(w, env, events), Pass)
      && WebhookEffect(w, env, sg, "secret", WebhookBody(Items(events), "b"), "A") == Effect(w, Fail(BadRequest("Invalid LINE webhook signature")))
  {
  }

  /**
   * A known user's text message refreshes only `lastSeenAt` and pushes exactly one
   * menu to that user, greeting the stored display name.
   */
  lemma TextKnownUser(w: World, env: Env, uid: string)
    requires uid in w.tables.users
    ensures var w' := TextEffect(w, env, uid).world;
      var u := w.tables.users[uid];
      w'.tables == w.tables.(users := w.tables.users[uid := u.(lastSeenAt := env.now)])
      && w'.outbox == w.outbox + [Push(uid, [Menu(u.displayName, env.liffId)], env.pushOk(|w.outbox|))]
  {
  }

  /**
   * An unknown user's text message creates the user from the profile (count 0,
   * empty picture or status stored as null) and pushes one menu; when the profile
   * cannot be fetched nothing is written and nothing is pushed.
   */
  lemma TextNewUser(w: World, env: Env, uid: string)
    requires uid !in w.tables.users
    ensures var e := TextEffect(w, env, uid);
      var p := env.profileOf(uid);
      (p.None? ==> e == Effect(w, Fail(InternalHttp("Failed to fetch LINE profile"))))
      && (p.Some? ==>
            var u := e.world.tables.users[uid];
            e.world.tables.users.Keys == w.tables.users.Keys + {uid}
            && u.id == w.tables.nextId && u.ticketCount == 0 && u.displayName == p.value.displayName
            && (u.pictureUrl.None? <==> p.value.pictureUrl.None? || p.value.pictureUrl == Some(""))
            && e.world.outbox == w.outbox + [Push(uid, [Menu(p.value.displayName, env.liffId)], env.pushOk(|w.outbox|))])
  {
  }

  /**
   * A follow creates the user and pushes one welcome text; for a user already in
   * the table the insert fails, so nothing is written and nothing is pushed.
   */
  lemma FollowCreates(w: World, env: Env, uid: string)
    requires env.profileOf(uid).Some?
    ensures var e := FollowEffect(w, env, uid);
      (uid in w.tables.users ==> e == Effect(w, Fail(UniqueViolation)))
      && (uid !in w.tables.users ==>
            e.world.tables.users == w.tables.users[uid := NewUser(w.tables.nextId, uid, env.profileOf(uid).value, env.now)]
            && e.world.outbox == w.outbox + [Push(uid, [TextMessage(WelcomeText)], env.pushOk(|w.outbox|))])
  {
  }

  /** 'unfollow' and every type other than a text message or a follow change nothing. */
  lemma OtherEventsIgnored(w: World, env: Env, e: Event)
    requires !IsTextEvent(e) && !IsFollowEvent(e)
    ensures Step(w, env, e) == w
  {
  }

  /** A failed push is caught by the loop, but the user row written before it stays. */
  lemma FailedPushKeepsUser(w: World, env: Env, uid: string)
    requires uid !in w.tables.users && env.profileOf(uid).Some? && !env.pushOk(|w.outbox|)
    ensures var e := TextEffect(w, env, uid);
      e.outcome == Fail(InternalHttp("Failed to send LINE message")) && uid in e.world.tables.users
      && Step(w, env, Event("message", Some(EventMessage("text", "hi")), Some(uid))) == e.world
  {
  }

  /** The lines of `sendLineNotify`'s template literal: the bell and the title, then the message. */
  function NotifyBody(title: string, message: string): string {
    "📢 " + title + "\n" + message
  }

  /** `sendLineNotify`'s text: the template literal, trimmed. */
  function NotifyText(title: string, message: string): string {
    Strings.Trim("\n" + NotifyBody(title, message) + "\n    ")
  }

  /** When the message ends in a visible character, the pushed text is exactly the bell, the title, a line break and the message. */
  lemma NotifyTextShape(title: string, message: string)
    requires message != [] && !Strings.IsJsWhitespace(message[|message| - 1])
    ensures NotifyText(title, message) == "📢 " + title + "\n" + message
  {
    var c := NotifyBody(title, message);
    assert c[0] == '📢' && c[|c| - 1] == message[|message| - 1];
    Strings.TrimTemplate(c);
  }

  /** The service over the shared database and the Messaging API. */
  class LineService {
    const db: Db
    const api: LineApi
    const signer: Signer
    /** `line.channelSecret`, `''` when unset. */
    const channelSecret: string
    /** `line.liffId`, `''` when unset. */
    const liffId: string

    constructor (db: Db, api: LineApi, signer: Signer, channelSecret: string, liffId: string)
      ensures this.db == db && this.api == api && this.signer == signer
      ensures this.channelSecret == channelSecret && this.liffId == liffId
    {
      this.db := db;
      this.api := api;
      this.signer := signer;
      this.channelSecret := channelSecret;
      this.liffId := liffId;
    }

    function Current(): World
      reads db, api
    {
      World(db.State(), api.outbox)
    }

    function EnvAt(now: int): Env {
      Env(api.profileOf, api.pushOk, liffId, now)
    }

    method HandleTextMessage(lineUserId: string, now: int) returns (r: Outcome<Thrown>)
      modifies db, api
      ensures Current() == TextEffect(old(Current()), EnvAt(now), lineUserId).world
      ensures r == TextEffect(old(Current()), EnvAt(now), lineUserId).outcome
    {
      var user: User;
      if lineUserId in db.users {
        user := db.users[lineUserId];
        db.UpdateUser(lineUserId, user.(lastSeenAt := now));
      } else {
        var profile := api.GetProfile(lineUserId);
        if profile.Failure? {
          return Fail(profile.error);
        }
        user := db.CreateUser(NewUser(0, lineUserId, profile.value, now));
      }
      r := api.PushMessage(lineUserId, [Menu(user.displayName, liffId)]);
    }

    method HandleFollowEvent(lineUserId: string, now: int) returns (r: Outcome<Thrown>)
      modifies db, api
      ensures Current() == FollowEffect(old(Current()), EnvAt(now), lineUserId).world
      ensures r == FollowEffect(old(Current()), EnvAt(now), lineUserId).outcome
    {
      var profile := api.GetProfile(lineUserId);
      if profile.Failure? {
        return Fail(profile.error);
      }
      if lineUserId in db.users {
        return Fail(UniqueViolation);
      }
      var _ := db.CreateUser(NewUser(0, lineUserId, profile.value, now));
      r := api.PushMessage(lineUserId, [TextMessage(WelcomeText)]);
    }

    /** `handleWebhook`: check the signature, then handle each event, catching its failure. */
    method HandleWebhook(body: WebhookBody, signature: string, now: int) returns (r: Outcome<Thrown>)
      modifies db, api
      ensures Current() == WebhookEffect(old(Current()), EnvAt(now), signer, channelSecret, body, signature).world
      ensures r == WebhookEffect(old(Current()), EnvAt(now), signer, channelSecret, body, signature).outcome
    {
      var verified := VerifySignature(signer, channelSecret, body, signature);
      if verified.Failure? {
        return Fail(verified.error);
      }
      if !verified.value {
        return Fail(BadRequest("Invalid LINE webhook signature"));
      }
      if !body.events.Items? {
        return Fail(Error("body.events is not iterable"));
      }
      var events := body.events.items;
      for i := 0 to |events|
        invariant Current() == Replay(old(Current()), EnvAt(now), events[..i])
      {
        var e := events[i];
        assert events[..i + 1][..i] == events[..i];
        if IsTextEvent(e) {
          var _ := HandleTextMessage(e.userId.value, now);
        } else if IsFollowEvent(e) {
          var _ := HandleFollowEvent(e.userId.value, now);
        }
      }
      assert events[..|events|] == events;
      r := Pass;
    }

    /** `sendLineNotify`: one text push. */
    method SendLineNotify(lineUserId: string, title: string, message: string) returns (r: Outcome<Thrown>)
      modifies api
      ensures api.outbox == old(api.outbox) + [Push(lineUserId, [TextMessage(NotifyText(title, message))], api.pushOk(|old(api.outbox)|))]
      ensures r == PushResult(api.pushOk(|old(api.outbox)|))
    {
      r := api.PushMessage(lineUserId, [TextMessage(NotifyText(title, message))]);
    }
  }
}
