# Request module of a Telegram group-management bot, in Dafny

This project models the "request" module of the bot (`tg_bot/modules/requesting.py`).
The module lets a member flag a message for the chat's admins. The member replies to
the message with `/request` or with a text mentioning `@admin`, and the bot then sends
a private notice to every admin of the chat who has opted in. There are two flag tables.
A per-chat flag says whether requests are relayed at all. A per-user flag says whether an
admin wants to receive them. An admin command turns either flag on or off.

The model has three modules:

- `Text` (`text.dfy`) holds the Python string behaviour the module relies on: `str.split()`
  with no separator, the formatting of `int` and `bool` in f-strings, and simple stand-ins
  for `html.escape` and the library's `mention_html`.
- `Settings` (`settings.dfy`) holds the flag store. It is a class `SettingsStore` with two
  `map<int, bool>` fields. The module also holds the settings command `RequestSetting`, a
  method that writes those fields, and the two settings summaries.
- `Escalation` (`escalation.dfy`) holds the escalation handler. `Request` is the handler
  as a method. It checks the trigger, picks the notification shape, and calls
  `NotifyAdmins`, the loop over the admin list. `Escalation` is the same handler as a
  function of its inputs, and the lemmas about it state which admins receive what.

The outside world enters as inputs: the update (chat, triggering message, its sender),
the bot's id and the privileged user lists, the chat's admin list, and an oracle that
says how each delivery fares. Each delivery is delivered, refused with `Unauthorized`,
or refused with `BadRequest`. The handler's effects are returned as the sequence of
actions it attempts, in order: replies in the chat, direct messages, and forwards.

Where the code and the documented design of the module differ, the model follows the code:

- Flags are rendered as Python prints them, `True`/`False`, not `true`/`false`.
- A failed forward of the replied-to message also skips the forward of the trigger
  message for that admin, because both are in the same `try` block.
- "Extra free text" means that the trigger's whole text has more than one
  whitespace-separated word (line 112).

The source has three defects:

- Line 84 uses `reported_user`, which is not defined. The model keeps this as written in
  `EscalationAsWritten` and uses the evident intent, `requested`, everywhere else; see
  Findings.
- Line 97 replies with the user object `requested` itself, with HTML parse mode. The model
  keeps this as written, as an opaque `ReplyUser` action. The likely intended reply text
  is `reported` (lines 81 and 90-91): it is built in both branches, is HTML, and is
  otherwise never used. No property of the model depends on the text of this reply.
- Both handlers are named `request`, so the second one shadows the first, and line 151
  registers `request_setting`, which does not exist. The model calls the two operations
  `RequestSetting` and `Request`.

## Model

| member | source | states |
|---|---|---|
| `Settings.SettingsStore.SetChatSetting` | tg_bot/modules/requesting.py:40 | writes the chat flag for one chat id; reading it back gives the value written; every other chat flag and every user flag is unchanged |
| `Settings.SettingsStore.SetUserSetting` | tg_bot/modules/requesting.py:27 | writes the user flag for one id; reading it back gives the value written; every other flag is unchanged |
| `Settings.ParseToggleIgnoresRest` | tg_bot/modules/requesting.py:25-30 | the words after the first argument never change what the settings command does |
| `Settings.RequestSetting` | tg_bot/modules/requesting.py:20-49 | only the first argument counts. "yes"/"on" makes the scope's flag for `chat.id` true and "no"/"off" makes it false, with one confirmation reply each, and reading the flag back gives that value. The scope is the user table in a private chat and the chat table otherwise. Any other word changes nothing and replies nothing. No argument changes nothing and gives one reply with the current flag. The other scope's table is never touched |
| `Settings.CurrentReplyShowsFlag` | tg_bot/modules/requesting.py:33-49 | with no argument, the reply reads "True" if and only if the flag of the scope is on |
| `Settings.ChatSummaryReportsFlag` | tg_bot/modules/requesting.py:130-132 | the chat summary reads as its "True" sentence if and only if the stored chat flag is on |
| `Settings.UserSummaryReportsFlag` | tg_bot/modules/requesting.py:135-137 | the user summary reads as its "True" sentence if and only if the stored user flag is on |
| `Settings.TurnOnThenSummarize` | tg_bot/modules/requesting.py:38-40 | after "on" in a group, the chat summary shows the flag as True (toggle and summary agree) |
| `Text.Split` | tg_bot/modules/requesting.py:112 | `str.split()`: every word is non-empty and contains no whitespace |
| `Text.SplitMoreThanOne` | tg_bot/modules/requesting.py:112 | `len(text.split()) > 1` holds if and only if the text has a non-space, then a space, then a non-space |
| `Text.IntToStringRoundTrip` | tg_bot/modules/requesting.py:86 | the decimal rendering of an id reads back as the same integer |
| `Escalation.GateRejects` | tg_bot/modules/requesting.py:60 | a trigger that is not a reply, or that comes from a chat whose flag is off, does nothing and returns "" |
| `Escalation.ShortCircuits` | tg_bot/modules/requesting.py:67-77 | the checks run in order: self-flag, flagging by the bot's id, then an immune target (sudo or tiger list). Each gives exactly one fixed reply, no admin traffic, and returns "" |
| `Escalation.RejectedTriggersSendNothing` | tg_bot/modules/requesting.py:60-77 | a rejected trigger gives at most one action, a chat reply, and returns "" |
| `Escalation.ShapeSelection` | tg_bot/modules/requesting.py:79-95 | a public supergroup gets a link built from its handle and the trigger's id, and no forwarding. Any other chat gets an empty link and forwarding |
| `Escalation.LinkIdentifiesMessage` | tg_bot/modules/requesting.py:86 | two links in the same chat are equal only for the same message id |
| `Escalation.NotificationTextNonEmpty` | tg_bot/modules/requesting.py:83-93 | the notification text is never empty, so "" signals a rejected trigger |
| `Escalation.Request` | tg_bot/modules/requesting.py:55-123 | the handler returns and performs exactly what the function `Escalation` prescribes for the stored flags |
| `Escalation.NotifyAdmins` | tg_bot/modules/requesting.py:99-119 | the loop attempts exactly the actions of `FanOut`: each admin's block in list order |
| `Escalation.FanOutSends` | tg_bot/modules/requesting.py:99-107 | the direct messages go to exactly the admins that are not bots and whose flag is on, one each, in list order, whatever the delivery outcomes |
| `Escalation.FanOutOnlyEligible` | tg_bot/modules/requesting.py:101-113 | each fan-out action is a direct message with `msg + link`, or a forward from the chat of the replied-to message or the trigger, made only in the forwarding shape; each goes to an eligible admin. Bots and opted-out admins get nothing, and a public supergroup gets no forward at all |
| `Escalation.FanOutForwardsReplied` | tg_bot/modules/requesting.py:109-110 | the replied-to message is forwarded only in the forwarding shape. It goes to each eligible admin whose direct message was delivered, in order |
| `Escalation.FanOutForwardsTrigger` | tg_bot/modules/requesting.py:112-113 | the trigger is forwarded only in the forwarding shape and when its text has more than one word. It goes to each eligible admin whose direct message and first forward were both delivered |
| `Escalation.FailuresDoNotStopFanOut` | tg_bot/modules/requesting.py:106-119 | the set of admins that get a direct message is the same under every delivery outcome, so an Unauthorized or BadRequest for one admin does not stop later admins |
| `Escalation.NotifiedAdmins` | tg_bot/modules/requesting.py:60-121 | over the whole handler: an accepted trigger sends direct messages to exactly the eligible admins, and a rejected one to nobody. The result is "" exactly when the trigger is rejected, and is otherwise `msg` without the link |
| `Escalation.AcceptedNotifiesEligible` | tg_bot/modules/requesting.py:79-121 | an accepted trigger sends direct messages to exactly the eligible admins and returns the non-empty `msg` |
| `Escalation.PublicSupergroupAsWritten` | tg_bot/modules/requesting.py:79-97 | as written, every accepted request from a public supergroup raises at line 84 before any action: no reply at line 97 and no admin traffic. The corrected handler notifies every eligible admin, with a link |
| `Escalation.AsWrittenAgreesElsewhere` | tg_bot/modules/requesting.py:55-123 | outside accepted public-supergroup requests, the handler as written and the corrected handler return the same value and perform the same actions |

## Findings

| source | as written | input that shows it | evidently intended | confidence | as-written member | corrected member |
|---|---|---|---|---|---|---|
| tg_bot/modules/requesting.py:84 | the rich notification reads `reported_user.id`, a name that is defined nowhere in the module or its imports, so building the text raises `NameError` | any accepted request in a supergroup with a public username: the reporter is neither the target nor the bot, and the target is not immune | the flagged user's id, `requested.id`, as line 81 and the rest of line 84 use | high (not executed) | `Escalation.EscalationAsWritten`, `Escalation.PublicSupergroupAsWritten` | `Escalation.NotificationShape`, `Escalation.ShapeSelection` |

## Left out

- Telegram calls (`send_message`, `forward`, `reply_text`, `get_administrators`) are not
  modelled. They are network I/O, so they appear as recorded actions, and the admin list
  is an input. The parse mode of each message (Markdown, HTML) is not recorded.
- `mention_html` and `html.escape` get simple bodies that stand for the library. No
  property depends on their output.
- The storage module `requesting_sql` is not part of this model. Its defaults for a chat
  or user with no row enter as constructor parameters of `SettingsStore`. Chat migration
  (`__migrate__`, lines 126-127, which calls `sql.migrate_chat`) is not modelled,
  because its storage semantics are not visible.
- The decorators are not modelled, because they are enforced by the host:
  `@user_admin`, `@user_not_admin` and `@loggable` are authorisation and logging, and
  `@run_async` is concurrency. The methods accept any caller.
- Handler registration and the `@admin` regex (lines 151-160) are a global side-effect
  table of the library. As written, line 151 names the undefined `request_setting`.
- `LOGGER.exception` (line 119) is logging only.
- Telegram errors that lines 115-119 do not catch are not modelled. These are
  `TimedOut`, `RetryAfter`, plain `NetworkError` and `ChatMigrated`, and each would end
  the loop and the handler. The delivery oracle ranges only over success and the two
  caught errors.
- The calls outside the `try` block are assumed to succeed: `get_administrators` at
  line 64, the replies at lines 68, 72 and 76, and the reply at line 97. In the source,
  any error there, including `BadRequest` and `Unauthorized` (caught only inside the
  loop), ends the handler before line 99, so no admin is notified. The model does not
  capture that path.
- The variable `reported` (lines 81, 90-91) is computed and never used, so it is not
  modelled (see the note on line 97 above).
- Line 63 reads `chat.first`. The chat type of the library is not part of this model,
  so reading it as the chat's first name is an assumption. It matters only for a chat
  with an empty title, such as a private chat. If the library has no such field, line 63
  raises `AttributeError` for those chats, and the model does not capture that. Unset
  Telegram strings (`None` in Python) are modelled as the empty string.
- Delivery outcomes are a function of the admin's position and the attempted action.
  Retries and timing are not modelled.
- `Escalation.FanOutForwardsReplied` and `Escalation.FanOutForwardsTrigger` assume that
  the replied-to message and the trigger have different message ids, as Telegram
  guarantees within one chat.
