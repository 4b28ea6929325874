/** The opt-in side of the request module: the settings command that an admin
    uses to turn requests on or off (`request` at lines 20-49 of
    tg_bot/modules/requesting.py, named `RequestSetting` here because the
    escalation handler below it reuses the name `request`), the store of the
    two flag tables it writes, and the two settings summaries. */
module Settings {
  import opened Text

  /** The Telegram chat types the module distinguishes. */
  datatype ChatType = Private | Group | Supergroup | Channel

  /** The fields of a Telegram chat that the module reads. A text field that
      Telegram leaves unset is the empty string. */
  datatype Chat = Chat(id: int, kind: ChatType, title: string, firstName: string, username: string)

  /** A snapshot of the two flag tables. A key with no row reads as the
      table's default; the storage layer that decides those defaults is not
      part of this model, so they are parameters. */
  datatype Flags = Flags(chat: map<int, bool>, user: map<int, bool>, chatDefault: bool, userDefault: bool)
  {
    /** `sql.chat_should_request(chat_id)` */
    function ChatOn(chatId: int): bool
    {
      if chatId in chat then chat[chatId] else chatDefault
    }

    /** `sql.user_should_request(user_id)` */
    function UserOn(userId: int): bool
    {
      if userId in user then user[userId] else userDefault
    }
  }

  /** The settings store: one flag per chat (do requests in this chat reach
      the admins?) and one per user (does this admin want them in private?). */
  class SettingsStore {
    var chatFlags: map<int, bool>
    var userFlags: map<int, bool>
    const chatDefault: bool
    const userDefault: bool

    constructor (chatDefault: bool, userDefault: bool)
      ensures chatFlags == map[] && userFlags == map[]
      ensures this.chatDefault == chatDefault && this.userDefault == userDefault
    {
      chatFlags, userFlags := map[], map[];
      this.chatDefault, this.userDefault := chatDefault, userDefault;
    }

    function Snapshot(): (f: Flags)
      reads this
    {
      Flags(chatFlags, userFlags, chatDefault, userDefault)
    }

    function ChatShouldRequest(chatId: int): bool
      reads this
    {
      Snapshot().ChatOn(chatId)
    }

    function UserShouldRequest(userId: int): bool
      reads this
    {
      Snapshot().UserOn(userId)
    }

    /** `sql.set_chat_setting(chat_id, on)`: reading the flag back gives `on`,
        every other flag is as before. */
    method SetChatSetting(chatId: int, on: bool)
      modifies this
      ensures chatFlags == old(chatFlags)[chatId := on] && userFlags == old(userFlags)
      ensures ChatShouldRequest(chatId) == on
      ensures forall c | c != chatId :: ChatShouldRequest(c) == old(ChatShouldRequest(c))
      ensures forall u :: UserShouldRequest(u) == old(UserShouldRequest(u))
    {
      chatFlags := chatFlags[chatId := on];
    }

    /** `sql.set_user_setting(user_id, on)`: reading the flag back gives `on`,
        every other flag is as before. */
    method SetUserSetting(userId: int, on: bool)
      modifies this
      ensures userFlags == old(userFlags)[userId := on] && chatFlags == old(chatFlags)
      ensures UserShouldRequest(userId) == on
      ensures forall u | u != userId :: UserShouldRequest(u) == old(UserShouldRequest(u))
      ensures forall c :: ChatShouldRequest(c) == old(ChatShouldRequest(c))
    {
      userFlags := userFlags[userId := on];
    }
  }

  const TurnOnWords: set<string> := {"yes", "on"}
  const TurnOffWords: set<string> := {"no", "off"}

  /** The flag table the settings command works on in `chat`: the user table
      in a private chat (whose id is the user's id), the chat table elsewhere. */
  function ScopeTable(store: SettingsStore, chat: Chat): map<int, bool>
    reads store
  {
    if chat.kind == Private then store.userFlags else store.chatFlags
  }

  /** The flag the settings command reports in `chat`. */
  function ScopeFlag(store: SettingsStore, chat: Chat): bool
    reads store
  {
    if chat.kind == Private then store.UserShouldRequest(chat.id) else store.ChatShouldRequest(chat.id)
  }

  /** Confirmation after a successful toggle. */
  function TurnedReply(isPrivate: bool, on: bool): string
  {
    if isPrivate then
      if on then "Turned on requesting! You'll be notified whenever anyone requests something."
      else "Turned off requesting! You wont get any requests."
    else
      if on then "Turned on requesting! Admins who have turned on requests will be notified when /request or @admin are called."
      else "Turned off requesting! No admins will be notified on /request or @admin."
  }

  /** Reply to the command without arguments (sent as Markdown). */
  function CurrentReply(isPrivate: bool, on: bool): string
  {
    if isPrivate then "Your current request preference is: `" + BoolText(on) + "`"
    else "This chat's current setting is: `" + BoolText(on) + "`"
  }

  /** A reply of the settings command; `Text` is what is sent. */
  datatype SettingReply = Turned(isPrivate: bool, on: bool) | Current(isPrivate: bool, on: bool)
  {
    function Text(): string
    {
      match this
      case Turned(isPrivate, on) => TurnedReply(isPrivate, on)
      case Current(isPrivate, on) => CurrentReply(isPrivate, on)
    }
  }

  /** What the arguments of the settings command ask for. */
  datatype Toggle = Report | TurnOn | TurnOff | Ignore

  /** Lines 25-26, 30 and 33 (38-39, 44 and 47 for a group): only the first
      argument is looked at. */
  function ParseToggle(args: seq<string>): Toggle
  {
    if |args| == 0 then Report
    else if args[0] in TurnOnWords then TurnOn
    else if args[0] in TurnOffWords then TurnOff
    else Ignore
  }

  /** The settings command. "yes"/"on" sets the scope's flag for `chat.id`,
      "no"/"off" clears it, any other first word does nothing and says
      nothing, and no argument at all reports the current flag. The table of
      the other scope is never touched. The caller is an admin of the chat
      (checked by the host before the call). */
  method RequestSetting(store: SettingsStore, chat: Chat, args: seq<string>) returns (replies: seq<SettingReply>)
    modifies store
    ensures chat.kind == Private ==> store.chatFlags == old(store.chatFlags)
    ensures chat.kind != Private ==> store.userFlags == old(store.userFlags)
    ensures ParseToggle(args) == TurnOn ==>
      && ScopeTable(store, chat) == old(ScopeTable(store, chat))[chat.id := true]
      && ScopeFlag(store, chat)
      && replies == [Turned(chat.kind == Private, true)]
    ensures ParseToggle(args) == TurnOff ==>
      && ScopeTable(store, chat) == old(ScopeTable(store, chat))[chat.id := false]
      && !ScopeFlag(store, chat)
      && replies == [Turned(chat.kind == Private, false)]
    ensures ParseToggle(args) == Ignore ==> unchanged(store) && replies == []
    ensures ParseToggle(args) == Report ==>
      && unchanged(store)
      && replies == [Current(chat.kind == Private, old(ScopeFlag(store, chat)))]
  {
    var t := ParseToggle(args);
    var isPrivate := chat.kind == Private;
    replies := [];
    if isPrivate {
      if t == TurnOn {
        store.SetUserSetting(chat.id, true);
        replies := [Turned(isPrivate, true)];
      } else if t == TurnOff {
        store.SetUserSetting(chat.id, false);
        replies := [Turned(isPrivate, false)];
      } else if t == Report {
        replies := [Current(isPrivate, store.UserShouldRequest(chat.id))];
      }
    } else {
      if t == TurnOn {
        store.SetChatSetting(chat.id, true);
        replies := [Turned(isPrivate, true)];
      } else if t == TurnOff {
        store.SetChatSetting(chat.id, false);
        replies := [Turned(isPrivate, false)];
      } else if t == Report {
        replies := [Current(isPrivate, store.ChatShouldRequest(chat.id))];
      }
    }
  }

  /** Only the first argument of the settings command matters: the words
      after it never change what the command does. */
  lemma {:induction false} ParseToggleIgnoresRest(args: seq<string>, rest: seq<string>)
    requires |args| >= 1
    ensures ParseToggle(args + rest) == ParseToggle(args[..1])
  {
    assert (args + rest)[0] == args[0] == args[..1][0];
  }

  /** The text of `__chat_settings__` for a given chat flag. */
  function ChatSettingsText(on: bool): string
  {
    "This chat is setup to send user request to admins, via /request and @admin: `" + BoolText(on) + "`"
  }

  /** The text of `__user_settings__` for a given user flag. */
  function UserSettingsText(on: bool): string
  {
    "You receive request from chats you're admin in: `" + BoolText(on) + "`.\nToggle this with /requests in PM."
  }

  /** `__chat_settings__(chat_id, user_id)`: the sentence for the stored chat
      flag; the user id is not used. */
  function ChatSettings(store: SettingsStore, chatId: int, userId: int): string
    reads store
  {
    ChatSettingsText(store.ChatShouldRequest(chatId))
  }

  /** `__user_settings__(user_id)`: the sentence for the stored user flag. */
  function UserSettings(store: SettingsStore, userId: int): string
    reads store
  {
    UserSettingsText(store.UserShouldRequest(userId))
  }

  /** Each sentence below tells the two flag values apart. */
  lemma ChatTextShowsFlag(a: bool, b: bool)
    requires ChatSettingsText(a) == ChatSettingsText(b)
    ensures a == b
  {
    var p := "This chat is setup to send user request to admins, via /request and @admin: `";
    assert ChatSettingsText(a)[|p|] == BoolText(a)[0];
  }

  lemma UserTextShowsFlag(a: bool, b: bool)
    requires UserSettingsText(a) == UserSettingsText(b)
    ensures a == b
  {
    var p := "You receive request from chats you're admin in: `";
    assert UserSettingsText(a)[|p|] == BoolText(a)[0];
  }

  lemma CurrentTextShowsFlag(isPrivate: bool, a: bool, b: bool)
    requires CurrentReply(isPrivate, a) == CurrentReply(isPrivate, b)
    ensures a == b
  {
    var p := if isPrivate then "Your current request preference is: `" else "This chat's current setting is: `";
    assert CurrentReply(isPrivate, a)[|p|] == BoolText(a)[0];
  }

  /** `__chat_settings__` reports exactly the stored chat flag: it reads as
      the "True" sentence if and only if the flag is on. */
  lemma ChatSummaryReportsFlag(store: SettingsStore, chatId: int, userId: int)
    ensures ChatSettings(store, chatId, userId) == ChatSettingsText(true) <==> store.ChatShouldRequest(chatId)
  {
    if ChatSettings(store, chatId, userId) == ChatSettingsText(true) {
      ChatTextShowsFlag(store.ChatShouldRequest(chatId), true);
    }
  }

  /** `__user_settings__` reports exactly the stored user flag. */
  lemma UserSummaryReportsFlag(store: SettingsStore, userId: int)
    ensures UserSettings(store, userId) == UserSettingsText(true) <==> store.UserShouldRequest(userId)
  {
    if UserSettings(store, userId) == UserSettingsText(true) {
      UserTextShowsFlag(store.UserShouldRequest(userId), true);
    }
  }

  /** With no argument the settings command reports the stored flag of its
      scope: the reply reads "True" if and only if that flag is on. */
  lemma CurrentReplyShowsFlag(store: SettingsStore, chat: Chat)
    ensures var r := Current(chat.kind == Private, ScopeFlag(store, chat));
      r.Text() == Current(chat.kind == Private, true).Text() <==> ScopeFlag(store, chat)
  {
    var r := Current(chat.kind == Private, ScopeFlag(store, chat));
    if r.Text() == Current(chat.kind == Private, true).Text() {
      CurrentTextShowsFlag(chat.kind == Private, ScopeFlag(store, chat), true);
    }
  }

  /** Turning the chat's requests on and then asking for the summary shows
      "True"; the toggle and the summary agree. */
  method TurnOnThenSummarize(store: SettingsStore, chat: Chat) returns (summary: string)
    requires chat.kind != Private
    modifies store
    ensures summary == ChatSettingsText(true)
  {
    var replies := RequestSetting(store, chat, ["on"]);
    summary := ChatSettings(store, chat.id, 0);
  }
}
