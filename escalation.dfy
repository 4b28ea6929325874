/** The escalation handler of the request module (`request` at lines 55-123
    of tg_bot/modules/requesting.py): a non-admin replies to a message with
    /request or "@admin", and the bot tells every admin of the chat who has
    opted in. The platform is replaced by inputs and a record: the admin list
    and the outcome of each delivery are parameters, and everything the bot
    would send is returned as a sequence of actions in the order it would be
    attempted. */
module Escalation {
  import opened Text
  import opened Settings

  datatype Option<T> = None | Some(value: T)

  /** The fields of a Telegram user that the handler reads. */
  datatype User = User(id: int, firstName: string, isBot: bool)

  /** The message that the trigger replies to: its id and its sender. */
  datatype Replied = Replied(messageId: int, sender: User)

  /** The triggering message. */
  datatype Message = Message(messageId: int, text: string, replyTo: Option<Replied>)

  /** What an incoming update carries: the chat (if any), the triggering
      message and the user who sent it. */
  datatype Update = Update(chat: Option<Chat>, message: Message, user: User)

  /** Fixed at start-up: the bot's own id and the two privileged user lists
      whose concatenation is `REQUEST_IMMUNE_USERS` (line 15). */
  datatype Config = Config(botId: int, sudoUsers: seq<int>, tigerUsers: seq<int>)
  {
    function ImmuneUsers(): seq<int>
    {
      sudoUsers + tigerUsers
    }
  }

  /** How the platform answers one delivery: it goes through, or it raises
      one of the two errors that lines 115-119 catch. */
  datatype Delivery = Delivered | Unauthorized | BadRequest

  /** Everything the handler asks the platform to do. */
  datatype Action =
    | Reply(text: string)                              // message.reply_text(text)
    | ReplyUser(user: User)                            // line 97, which replies with a user object
    | SendDirect(to: int, text: string)                // bot.send_message(to, text)
    | Forward(fromChat: int, messageId: int, to: int)  // a message of the chat forwarded to `to`

  /** The outcome of each delivery, by the position of the admin in the
      admin list and the action attempted for that admin. */
  type Oracle = (nat, Action) -> Delivery

  /** The notification text, the link appended to it when it is sent, and
      whether the messages themselves are forwarded as well. */
  datatype Shape = Shape(msg: string, link: string, shouldForward: bool)

  /** What the fan-out loop needs to know about one escalation. */
  datatype Notice = Notice(text: string, shouldForward: bool, chatId: int, repliedId: int, triggerId: int, hasReason: bool)

  /** The value the handler returns and the actions it performed. */
  datatype Outcome = Outcome(result: string, actions: seq<Action>)

  const SelfReply := "Uh yeah, Sure."
  const BotReply := "Nice try."
  const ImmuneReply := "Uh? You requesting whitelisted users?"

  // ---------------------------------------------------------------------
  // The decisions, as functions
  // ---------------------------------------------------------------------

  /** Line 60: the trigger replies to a message in a chat whose requests are on. */
  predicate Gate(up: Update, flags: Flags)
  {
    up.chat.Some? && up.message.replyTo.Some? && flags.ChatOn(up.chat.value.id)
  }

  /** Passes the gate and none of the three checks at lines 67-77 stops it. */
  predicate Accepted(cfg: Config, flags: Flags, up: Update)
  {
    && Gate(up, flags)
    && up.user.id != up.message.replyTo.value.sender.id
    && up.user.id != cfg.botId
    && up.message.replyTo.value.sender.id !in cfg.ImmuneUsers()
  }

  /** Line 63: `chat.title or chat.first or chat.username`. */
  function ChatName(chat: Chat): string
  {
    if chat.title != "" then chat.title
    else if chat.firstName != "" then chat.firstName
    else chat.username
  }

  /** Line 79: the chat has a public handle and is a supergroup. */
  predicate IsPublicSupergroup(chat: Chat)
  {
    chat.username != "" && chat.kind == Supergroup
  }

  /** Line 86: a link to message `messageId` of the public chat `username`. */
  function LinkLine(username: string, messageId: int): string
  {
    "\n<b>Link:</b> <a href=\"https://t.me/" + username + "/" + IntToString(messageId) + "\">click here</a>"
  }

  /** Lines 83-85. Line 84 of the source names `reported_user`, which is not
      defined anywhere; the flagged user `requested` is evidently meant, and
      is used here (see `ShapeAsWritten`). */
  function RichText(chat: Chat, user: User, requested: User): string
  {
    "<b>" + HtmlEscape(chat.title) + ":</b>\n"
    + "<b>Requested user:</b> " + MentionHtml(requested.id, requested.firstName)
    + " (<code>" + IntToString(requested.id) + "</code>)\n"
    + "<b>Requested by:</b> " + MentionHtml(user.id, user.firstName)
    + " (<code>" + IntToString(user.id) + "</code>)"
  }

  /** Line 93. */
  function PlainText(chat: Chat, user: User): string
  {
    MentionHtml(user.id, user.firstName) + " is calling for admins in \"" + HtmlEscape(ChatName(chat)) + "\"!"
  }

  /** Lines 79-95: a public supergroup gets the rich text and a link to the
      trigger, and nothing is forwarded; any other chat gets the plain text,
      no link, and the messages are forwarded. */
  function NotificationShape(chat: Chat, user: User, requested: User, triggerId: int): Shape
  {
    if IsPublicSupergroup(chat) then
      Shape(RichText(chat, user, requested), LinkLine(chat.username, triggerId), false)
    else
      Shape(PlainText(chat, user), "", true)
  }

  /** Lines 99-104: who the loop sends to: not a bot, and opted in. */
  predicate Eligible(admin: User, flags: Flags)
  {
    !admin.isBot && flags.UserOn(admin.id)
  }

  /** One pass of the loop body (lines 101-119) for the admin at position
      `i`. A delivery that raises ends the `try` block, so the steps after it
      are skipped for this admin only. */
  function AdminSteps(i: nat, admin: User, flags: Flags, n: Notice, outcome: Oracle): seq<Action>
  {
    if !Eligible(admin, flags) then []
    else
      var send := SendDirect(admin.id, n.text);
      if outcome(i, send) != Delivered || !n.shouldForward then [send]
      else
        var fwd := Forward(n.chatId, n.repliedId, admin.id);
        if outcome(i, fwd) != Delivered || !n.hasReason then [send, fwd]
        else [send, fwd, Forward(n.chatId, n.triggerId, admin.id)]
  }

  /** The loop at lines 99-119 over the admin list, in list order. */
  function FanOut(admins: seq<User>, flags: Flags, n: Notice, outcome: Oracle): seq<Action>
    decreases |admins|
  {
    if admins == [] then []
    else
      var k := |admins| - 1;
      FanOut(admins[..k], flags, n, outcome) + AdminSteps(k, admins[k], flags, n, outcome)
  }

  /** The fan-out parameters of an accepted trigger. */
  function NoticeOf(up: Update, s: Shape): Notice
    requires up.chat.Some? && up.message.replyTo.Some?
  {
    Notice(s.msg + s.link, s.shouldForward, up.chat.value.id, up.message.replyTo.value.messageId,
           up.message.messageId, |Split(up.message.text)| > 1)
  }

  function ShapeOf(up: Update): Shape
    requires up.chat.Some? && up.message.replyTo.Some?
  {
    NotificationShape(up.chat.value, up.user, up.message.replyTo.value.sender, up.message.messageId)
  }

  /** The whole handler (lines 55-123) as a function of its inputs. */
  function Escalation(cfg: Config, flags: Flags, up: Update, admins: seq<User>, outcome: Oracle): Outcome
  {
    if !Gate(up, flags) then Outcome("", [])
    else
      var requested := up.message.replyTo.value.sender;
      if up.user.id == requested.id then Outcome("", [Reply(SelfReply)])
      else if up.user.id == cfg.botId then Outcome("", [Reply(BotReply)])
      else if requested.id in cfg.ImmuneUsers() then Outcome("", [Reply(ImmuneReply)])
      else
        var s := ShapeOf(up);
        Outcome(s.msg, [ReplyUser(requested)] + FanOut(admins, flags, NoticeOf(up, s), outcome))
  }

  // ---------------------------------------------------------------------
  // The handler, as the source runs it
  // ---------------------------------------------------------------------

  /** The escalation handler. The host calls it only for a sender who is not
      an admin of the chat; `admins` is the chat's administrator list. */
  method Request(cfg: Config, store: SettingsStore, up: Update, admins: seq<User>, outcome: Oracle)
    returns (result: string, actions: seq<Action>)
    ensures Outcome(result, actions) == Escalation(cfg, store.Snapshot(), up, admins, outcome)
  {
    result, actions := "", [];
    if up.chat.Some? && up.message.replyTo.Some? && store.ChatShouldRequest(up.chat.value.id) {
      var chat := up.chat.value;
      var replied := up.message.replyTo.value;
      var requested := replied.sender;
      var user := up.user;

      if user.id == requested.id {
        actions := [Reply(SelfReply)];
        return;
      }
      if user.id == cfg.botId {
        actions := [Reply(BotReply)];
        return;
      }
      if requested.id in cfg.ImmuneUsers() {
        actions := [Reply(ImmuneReply)];
        return;
      }

      var shape := NotificationShape(chat, user, requested, up.message.messageId);
      actions := [ReplyUser(requested)];
      var notice := Notice(shape.msg + shape.link, shape.shouldForward, chat.id, replied.messageId,
                           up.message.messageId, |Split(up.message.text)| > 1);
      var sent := NotifyAdmins(store, admins, notice, outcome);
      actions := actions + sent;
      result := shape.msg;
    }
  }

  /** The loop at lines 99-119: visit the admins in list order, skip bots and
      admins whose own flag is off, send the notice to the rest, and forward
      the messages when the notice asks for it. A delivery that fails skips
      the remaining steps for that admin only. */
  method NotifyAdmins(store: SettingsStore, admins: seq<User>, n: Notice, outcome: Oracle)
    returns (actions: seq<Action>)
    ensures actions == FanOut(admins, store.Snapshot(), n, outcome)
  {
    actions := [];
    ghost var flags := store.Snapshot();
    for i := 0 to |admins|
      invariant actions == FanOut(admins[..i], flags, n, outcome)
    {
      var admin := admins[i];
      FanOutStep(admins, i, flags, n, outcome);
      if admin.isBot {
        continue;
      }
      if store.UserShouldRequest(admin.id) {
        var send := SendDirect(admin.id, n.text);
        actions := actions + [send];
        if outcome(i, send) == Delivered && n.shouldForward {
          var fwd := Forward(n.chatId, n.repliedId, admin.id);
          actions := actions + [fwd];
          if outcome(i, fwd) == Delivered && n.hasReason {
            actions := actions + [Forward(n.chatId, n.triggerId, admin.id)];
          }
        }
      }
    }
    assert admins[..|admins|] == admins;
  }

  // ---------------------------------------------------------------------
  // Reference views of the fan-out
  // ---------------------------------------------------------------------

  /** Recipients of the direct messages among `acts`, in order. */
  function SentTo(acts: seq<Action>): seq<int>
  {
    if acts == [] then []
    else SentTo(acts[..|acts| - 1]) + (if acts[|acts| - 1].SendDirect? then [acts[|acts| - 1].to] else [])
  }

  /** Recipients of the forwards of message `messageId` among `acts`, in order. */
  function ForwardedTo(acts: seq<Action>, messageId: int): seq<int>
  {
    if acts == [] then []
    else
      var a := acts[|acts| - 1];
      ForwardedTo(acts[..|acts| - 1], messageId) + (if a.Forward? && a.messageId == messageId then [a.to] else [])
  }

  /** Ids of the eligible admins, in list order. */
  function EligibleIds(admins: seq<User>, flags: Flags): seq<int>
  {
    if admins == [] then []
    else
      var k := |admins| - 1;
      EligibleIds(admins[..k], flags) + (if Eligible(admins[k], flags) then [admins[k].id] else [])
  }

  /** Ids of the eligible admins whose direct message went through. */
  function ReachedIds(admins: seq<User>, flags: Flags, n: Notice, outcome: Oracle): seq<int>
  {
    if admins == [] then []
    else
      var k := |admins| - 1;
      var a := admins[k];
      ReachedIds(admins[..k], flags, n, outcome)
      + (if Eligible(a, flags) && outcome(k, SendDirect(a.id, n.text)) == Delivered then [a.id] else [])
  }

  /** Ids of the eligible admins whose direct message and forward of the
      replied-to message both went through. */
  function ForwardReachedIds(admins: seq<User>, flags: Flags, n: Notice, outcome: Oracle): seq<int>
  {
    if admins == [] then []
    else
      var k := |admins| - 1;
      var a := admins[k];
      ForwardReachedIds(admins[..k], flags, n, outcome)
      + (if Eligible(a, flags) && outcome(k, SendDirect(a.id, n.text)) == Delivered
            && outcome(k, Forward(n.chatId, n.repliedId, a.id)) == Delivered
         then [a.id] else [])
  }

  // ---------------------------------------------------------------------
  // Properties
  // ---------------------------------------------------------------------

  /** One more admin adds one more block to the fan-out. */
  lemma FanOutStep(admins: seq<User>, i: nat, flags: Flags, n: Notice, outcome: Oracle)
    requires i < |admins|
    ensures FanOut(admins[..i + 1], flags, n, outcome)
      == FanOut(admins[..i], flags, n, outcome) + AdminSteps(i, admins[i], flags, n, outcome)
  {
    assert admins[..i + 1][..i] == admins[..i];
  }

  /** One admin's block holds exactly one direct message if the admin is
      eligible, none otherwise. */
  lemma AdminSendsOnce(i: nat, admin: User, flags: Flags, n: Notice, outcome: Oracle)
    ensures SentTo(AdminSteps(i, admin, flags, n, outcome)) == (if Eligible(admin, flags) then [admin.id] else [])
  {
    if Eligible(admin, flags) {
      var send := SendDirect(admin.id, n.text);
      var fwd := Forward(n.chatId, n.repliedId, admin.id);
      var fwd2 := Forward(n.chatId, n.triggerId, admin.id);
      assert [send][..0] == [];
      assert [send, fwd][..1] == [send];
      assert [send, fwd, fwd2][..2] == [send, fwd];
      assert SentTo([send]) == [admin.id];
      assert SentTo([send, fwd]) == [admin.id];
      assert SentTo([send, fwd, fwd2]) == [admin.id];
    }
  }

  /** What one admin's block holds, seen through the three views. */
  lemma AdminStepsViews(i: nat, admin: User, flags: Flags, n: Notice, outcome: Oracle)
    requires n.repliedId != n.triggerId
    ensures var b := AdminSteps(i, admin, flags, n, outcome);
      var sent := Eligible(admin, flags) && outcome(i, SendDirect(admin.id, n.text)) == Delivered;
      var forwarded := sent && outcome(i, Forward(n.chatId, n.repliedId, admin.id)) == Delivered;
      && SentTo(b) == (if Eligible(admin, flags) then [admin.id] else [])
      && ForwardedTo(b, n.repliedId) == (if n.shouldForward && sent then [admin.id] else [])
      && ForwardedTo(b, n.triggerId) == (if n.shouldForward && n.hasReason && forwarded then [admin.id] else [])
  {
    if Eligible(admin, flags) {
      var send := SendDirect(admin.id, n.text);
      var fwd := Forward(n.chatId, n.repliedId, admin.id);
      var fwd2 := Forward(n.chatId, n.triggerId, admin.id);
      assert [send][..0] == [];
      assert [send, fwd][..1] == [send];
      assert [send, fwd, fwd2][..2] == [send, fwd];
      assert SentTo([send]) == [admin.id];
      assert SentTo([send, fwd]) == [admin.id];
      assert SentTo([send, fwd, fwd2]) == [admin.id];
      assert ForwardedTo([send], n.repliedId) == [];
      assert ForwardedTo([send], n.triggerId) == [];
      assert ForwardedTo([send, fwd], n.repliedId) == [admin.id];
      assert ForwardedTo([send, fwd], n.triggerId) == [];
      assert ForwardedTo([send, fwd, fwd2], n.repliedId) == [admin.id];
      assert ForwardedTo([send, fwd, fwd2], n.triggerId) == [admin.id];
    }
  }

  lemma {:induction false} SentToAppend(a: seq<Action>, b: seq<Action>)
    ensures SentTo(a + b) == SentTo(a) + SentTo(b)
    decreases |b|
  {
    if b != [] {
      var k := |b| - 1;
      assert (a + b)[..|a + b| - 1] == a + b[..k];
      SentToAppend(a, b[..k]);
    } else {
      assert a + b == a;
    }
  }

  lemma {:induction false} ForwardedToAppend(a: seq<Action>, b: seq<Action>, messageId: int)
    ensures ForwardedTo(a + b, messageId) == ForwardedTo(a, messageId) + ForwardedTo(b, messageId)
    decreases |b|
  {
    if b != [] {
      var k := |b| - 1;
      assert (a + b)[..|a + b| - 1] == a + b[..k];
      ForwardedToAppend(a, b[..k], messageId);
    } else {
      assert a + b == a;
    }
  }

  /** Fan-out targets: exactly one direct message goes to each eligible
      admin, in list order, whatever becomes of any delivery. */
  lemma {:induction false} FanOutSends(admins: seq<User>, flags: Flags, n: Notice, outcome: Oracle)
    ensures SentTo(FanOut(admins, flags, n, outcome)) == EligibleIds(admins, flags)
    decreases |admins|
  {
    if admins != [] {
      var k := |admins| - 1;
      FanOutSends(admins[..k], flags, n, outcome);
      SentToAppend(FanOut(admins[..k], flags, n, outcome), AdminSteps(k, admins[k], flags, n, outcome));
      AdminSendsOnce(k, admins[k], flags, n, outcome);
    }
  }

  /** Forwarding of the replied-to message: only in the forwarding shape, and
      then to each eligible admin whose direct message went through. */
  lemma {:induction false} FanOutForwardsReplied(admins: seq<User>, flags: Flags, n: Notice, outcome: Oracle)
    requires n.repliedId != n.triggerId
    ensures ForwardedTo(FanOut(admins, flags, n, outcome), n.repliedId)
      == if n.shouldForward then ReachedIds(admins, flags, n, outcome) else []
    decreases |admins|
  {
    if admins != [] {
      var k := |admins| - 1;
      FanOutForwardsReplied(admins[..k], flags, n, outcome);
      ForwardedToAppend(FanOut(admins[..k], flags, n, outcome), AdminSteps(k, admins[k], flags, n, outcome), n.repliedId);
      AdminStepsViews(k, admins[k], flags, n, outcome);
    }
  }

  /** Forwarding of the trigger itself: only in the forwarding shape and when
      its text has more than one word, and then to each eligible admin whose
      direct message and first forward both went through. */
  lemma {:induction false} FanOutForwardsTrigger(admins: seq<User>, flags: Flags, n: Notice, outcome: Oracle)
    requires n.repliedId != n.triggerId
    ensures ForwardedTo(FanOut(admins, flags, n, outcome), n.triggerId)
      == if n.shouldForward && n.hasReason then ForwardReachedIds(admins, flags, n, outcome) else []
    decreases |admins|
  {
    if admins != [] {
      var k := |admins| - 1;
      FanOutForwardsTrigger(admins[..k], flags, n, outcome);
      ForwardedToAppend(FanOut(admins[..k], flags, n, outcome), AdminSteps(k, admins[k], flags, n, outcome), n.triggerId);
      AdminStepsViews(k, admins[k], flags, n, outcome);
    }
  }

  /** Bots and opted-out admins get nothing: every action of the fan-out is
      a direct message carrying the notice text, or a forward of the
      replied-to message or the trigger, made only in the forwarding shape;
      each is addressed to an eligible admin. */
  lemma {:induction false} FanOutOnlyEligible(admins: seq<User>, flags: Flags, n: Notice, outcome: Oracle)
    ensures forall a | a in FanOut(admins, flags, n, outcome) ::
      || (a.SendDirect? && a.text == n.text && a.to in EligibleIds(admins, flags))
      || (a.Forward? && a.fromChat == n.chatId && a.to in EligibleIds(admins, flags)
            && n.shouldForward && (a.messageId == n.repliedId || a.messageId == n.triggerId))
    decreases |admins|
  {
    if admins != [] {
      var k := |admins| - 1;
      FanOutOnlyEligible(admins[..k], flags, n, outcome);
      assert EligibleIds(admins, flags) == EligibleIds(admins[..k], flags)
        + (if Eligible(admins[k], flags) then [admins[k].id] else []);
    }
  }

  /** Failure containment: which admins get a direct message does not depend
      on how any delivery turns out. */
  lemma FailuresDoNotStopFanOut(admins: seq<User>, flags: Flags, n: Notice, o1: Oracle, o2: Oracle)
    ensures SentTo(FanOut(admins, flags, n, o1)) == SentTo(FanOut(admins, flags, n, o2))
  {
    FanOutSends(admins, flags, n, o1);
    FanOutSends(admins, flags, n, o2);
  }

  /** Eligibility gate: a trigger that is not a reply, or comes from a chat
      whose requests are off, does nothing and returns "". */
  lemma GateRejects(cfg: Config, flags: Flags, up: Update, admins: seq<User>, outcome: Oracle)
    requires !Gate(up, flags)
    ensures Escalation(cfg, flags, up, admins, outcome) == Outcome("", [])
  {
  }

  /** The three checks after the gate, in their order: each answers with one
      reply, sends nothing to any admin and returns "". */
  lemma ShortCircuits(cfg: Config, flags: Flags, up: Update, admins: seq<User>, outcome: Oracle)
    requires Gate(up, flags)
    ensures var requested := up.message.replyTo.value.sender;
      var o := Escalation(cfg, flags, up, admins, outcome);
      && (up.user.id == requested.id ==> o == Outcome("", [Reply(SelfReply)]))
      && (up.user.id != requested.id && up.user.id == cfg.botId ==> o == Outcome("", [Reply(BotReply)]))
      && (up.user.id != requested.id && up.user.id != cfg.botId
            && (requested.id in cfg.sudoUsers || requested.id in cfg.tigerUsers)
          ==> o == Outcome("", [Reply(ImmuneReply)]))
  {
  }

  /** Shape selection: a link (naming the chat's handle and the trigger's id)
      and no forwarding for a public supergroup; no link and forwarding
      otherwise. */
  lemma ShapeSelection(chat: Chat, user: User, requested: User, triggerId: int)
    ensures var s := NotificationShape(chat, user, requested, triggerId);
      && (s.shouldForward <==> !IsPublicSupergroup(chat))
      && (s.link == "" <==> !IsPublicSupergroup(chat))
      && (IsPublicSupergroup(chat) ==> s.link == LinkLine(chat.username, triggerId))
  {
    var s := NotificationShape(chat, user, requested, triggerId);
    if IsPublicSupergroup(chat) {
      assert |s.link| > 0;
    }
  }

  /** The link identifies the triggering message: two links to messages of
      the same chat are equal only if the message ids are. */
  lemma LinkIdentifiesMessage(username: string, m1: int, m2: int)
    requires LinkLine(username, m1) == LinkLine(username, m2)
    ensures m1 == m2
  {
    var pre := "\n<b>Link:</b> <a href=\"https://t.me/" + username + "/";
    var post := "\">click here</a>";
    var l1, l2 := LinkLine(username, m1), LinkLine(username, m2);
    var d1, d2 := IntToString(m1), IntToString(m2);
    assert l1 == pre + d1 + post;
    assert l2 == pre + d2 + post;
    assert |d1| == |d2|;
    assert d1 == l1[|pre|..|pre| + |d1|];
    assert d2 == l2[|pre|..|pre| + |d2|];
    IntToStringInjective(m1, m2);
  }

  /** Every accepted notification text is non-empty. */
  lemma NotificationTextNonEmpty(chat: Chat, user: User, requested: User, triggerId: int)
    ensures NotificationShape(chat, user, requested, triggerId).msg != ""
  {
    if !IsPublicSupergroup(chat) {
      assert PlainText(chat, user)[0] == '<';
    }
  }

  /** Which admins are notified, by the whole handler: the eligible admins
      of an accepted trigger, and nobody for any rejected one. The value
      returned is "" exactly when the trigger is rejected, and otherwise the
      notification text without the link. */
  lemma NotifiedAdmins(cfg: Config, flags: Flags, up: Update, admins: seq<User>, outcome: Oracle)
    ensures var o := Escalation(cfg, flags, up, admins, outcome);
      && SentTo(o.actions) == (if Accepted(cfg, flags, up) then EligibleIds(admins, flags) else [])
      && (o.result == "" <==> !Accepted(cfg, flags, up))
      && (Accepted(cfg, flags, up) ==> o.result == ShapeOf(up).msg)
  {
    if Accepted(cfg, flags, up) {
      AcceptedNotifiesEligible(cfg, flags, up, admins, outcome);
    } else {
      RejectedTriggersSendNothing(cfg, flags, up, admins, outcome);
      var o := Escalation(cfg, flags, up, admins, outcome);
      if |o.actions| == 1 {
        assert o.actions[..0] == [];
      }
    }
  }

  lemma AcceptedNotifiesEligible(cfg: Config, flags: Flags, up: Update, admins: seq<User>, outcome: Oracle)
    requires Accepted(cfg, flags, up)
    ensures var o := Escalation(cfg, flags, up, admins, outcome);
      && SentTo(o.actions) == EligibleIds(admins, flags)
      && o.result == ShapeOf(up).msg != ""
  {
    var s := ShapeOf(up);
    var n := NoticeOf(up, s);
    var requested := up.message.replyTo.value.sender;
    var fan := FanOut(admins, flags, n, outcome);
    AcceptedEscalation(cfg, flags, up, admins, outcome);
    SentToAppend([ReplyUser(requested)], fan);
    assert SentTo([ReplyUser(requested)]) == [] by {
      assert [ReplyUser(requested)][..0] == [];
    }
    FanOutSends(admins, flags, n, outcome);
    NotificationTextNonEmpty(up.chat.value, up.user, requested, up.message.messageId);
  }

  /** An accepted trigger replies once in the chat, runs the fan-out and
      returns the notification text. */
  lemma AcceptedEscalation(cfg: Config, flags: Flags, up: Update, admins: seq<User>, outcome: Oracle)
    requires Accepted(cfg, flags, up)
    ensures var s := ShapeOf(up);
      Escalation(cfg, flags, up, admins, outcome)
        == Outcome(s.msg, [ReplyUser(up.message.replyTo.value.sender)] + FanOut(admins, flags, NoticeOf(up, s), outcome))
  {
  }

  /** Rejected triggers cause no admin traffic at all: no direct message and
      no forward, only at most one reply in the chat. */
  lemma RejectedTriggersSendNothing(cfg: Config, flags: Flags, up: Update, admins: seq<User>, outcome: Oracle)
    requires !Accepted(cfg, flags, up)
    ensures var o := Escalation(cfg, flags, up, admins, outcome);
      o.result == "" && |o.actions| <= 1 && forall a | a in o.actions :: a.Reply?
  {
  }

  // ---------------------------------------------------------------------
  // The source as written at line 84
  // ---------------------------------------------------------------------

  /** Lines 79-95 as written: in a public supergroup, line 84 evaluates the
      undefined name `reported_user`, which raises NameError before the
      notification exists (`None`); other chats are unaffected. */
  function ShapeAsWritten(chat: Chat, user: User, requested: User, triggerId: int): Option<Shape>
  {
    if IsPublicSupergroup(chat) then None
    else Some(NotificationShape(chat, user, requested, triggerId))
  }

  /** How a run of the handler ends: it returns, or an exception escapes it
      after the actions already performed. */
  datatype Run = Returned(outcome: Outcome) | Raised(performed: seq<Action>)

  /** The handler (lines 55-123) as written, with `ShapeAsWritten` at lines
      79-95: when building the notification raises, nothing after it runs,
      neither the reply at line 97 nor the loop. */
  function EscalationAsWritten(cfg: Config, flags: Flags, up: Update, admins: seq<User>, outcome: Oracle): Run
  {
    if !Gate(up, flags) then Returned(Outcome("", []))
    else
      var requested := up.message.replyTo.value.sender;
      if up.user.id == requested.id then Returned(Outcome("", [Reply(SelfReply)]))
      else if up.user.id == cfg.botId then Returned(Outcome("", [Reply(BotReply)]))
      else if requested.id in cfg.ImmuneUsers() then Returned(Outcome("", [Reply(ImmuneReply)]))
      else
        match ShapeAsWritten(up.chat.value, up.user, requested, up.message.messageId)
        case None => Raised([])
        case Some(s) =>
          Returned(Outcome(s.msg, [ReplyUser(requested)] + FanOut(admins, flags, NoticeOf(up, s), outcome)))
  }

  /** As written, every accepted request from a public supergroup raises
      before any action, so no admin of such a chat is ever notified; with
      `requested.id` in its place every eligible admin is, with a link. */
  lemma PublicSupergroupAsWritten(cfg: Config, flags: Flags, up: Update, admins: seq<User>, outcome: Oracle)
    requires Accepted(cfg, flags, up) && IsPublicSupergroup(up.chat.value)
    ensures EscalationAsWritten(cfg, flags, up, admins, outcome) == Raised([])
    ensures SentTo(Escalation(cfg, flags, up, admins, outcome).actions) == EligibleIds(admins, flags)
    ensures ShapeOf(up).link == LinkLine(up.chat.value.username, up.message.messageId)
  {
    NotifiedAdmins(cfg, flags, up, admins, outcome);
  }

  /** Everywhere else the as-written handler and the corrected one agree. */
  lemma AsWrittenAgreesElsewhere(cfg: Config, flags: Flags, up: Update, admins: seq<User>, outcome: Oracle)
    requires !(Accepted(cfg, flags, up) && IsPublicSupergroup(up.chat.value))
    ensures EscalationAsWritten(cfg, flags, up, admins, outcome) == Returned(Escalation(cfg, flags, up, admins, outcome))
  {
  }
}
