# Twitch chat bot: dispatcher and raffle state machine

A Dafny model of the part of the chat bot in `python/chatbot.py` that has
real logic: `TwitchBot.on_pubmsg`, which tells a chat line that is a
command from plain text, and `TwitchBot.do_command`, which runs the
`game`, `title`, `shoutout` and `raffle` handlers and answers unknown
commands. The raffle fields the bot keeps (`is_raffle`, `kwrd`,
`entrylist`, set up in `__init__`) become an immutable `State`. Handling
one line is a pure function `Dispatch.Step`, and a session is
`Session.Run` over a sequence of lines.

Modules, one per concern:

- `Opt` (option.dfy): an optional value, used for the game field and for replies.
- `Text` (text.dfy): Python's `str.split(' ')` (`SplitOn`, `Head`), which
  splits on the single space character only, and argument-less `str.split()`
  (`Fields`), which splits on runs of Python's whitespace set (`IsSpace`).
  Both come with round-trip lemmas against joining.
- `Raffle` (raffle.dfy): the state, its invariant, keyword entry (`OnChat`)
  and the owner's open/close toggle (`Toggle`).
- `Dispatch` (dispatch.dfy): command classification, the command name, the
  owner check, the handlers (`DoCommand`) and `Step`, plus one lemma per
  branch.
- `Session` (session.dfy): running lines in order, reachability of the
  invariant, repeated entry, and worked scenarios.

Outside inputs become plain values on each `Event`:

- the speaker and the text;
- `meta.game`, an `Option<string>`: `Some` when the API's `game` field is a
  string, `None` otherwise, which is the `isinstance(..., str)` test;
- `meta.status`, the API's `status` field;
- `draw`, the random pick. It is any function that maps a non-empty set to
  one of its members (`IsDraw`).

The bot keeps the channel as `"#" + channel`, and `Config.channel` holds the
bare name.

A handler that raises in Python yields `Failed(state, fault)` here. The state
is what the bot holds at the moment of the raise. `shoutout` with no target
raises `MissingTarget` and leaves the state as it was. Closing a raffle with
no entrants raises `NoEntrants` and leaves it closed, because `is_raffle` was
flipped before `random.sample` raised. `Run` stops at the first failure.

Three behaviours of the code worth noting:

- After a raffle closes, the keyword is kept. It is not cleared, so a closed
  raffle can hold a non-empty keyword (`GiveawayScenario`,
  `CloseWithoutEntrants`).
- Closing a raffle with no entrants raises an exception. No "no entrants"
  reply is given.
- The command name ends at the first single space, not at the first
  whitespace character. A tab after the name makes it part of the name
  (`TabInsideCommandName`).

## Model

| member | source | states |
|---|---|---|
| Text.SplitOn | python/chatbot.py:58 | `split(' ')` yields at least one piece, no piece holds the separator, and joining the pieces with the separator gives back the line |
| Text.SplitJoin | python/chatbot.py:58 | `split(' ')` is the inverse of joining with `' '`, for any non-empty list of pieces free of the separator |
| Text.Head | python/chatbot.py:58 | `split(' ')[0]` is a prefix of the line holding no space, and it is either the whole line or followed by a space |
| Text.Fields | python/chatbot.py:95-99 | the words of argument-less `split()` are non-empty and whitespace-free, and a line starting with a non-space character has its leading run as the first word |
| Text.FieldsBoundary | python/chatbot.py:95-99 | for `split()`, a line ending just before a whitespace character keeps its words: the words of `a + r`, where `r` starts with whitespace, are the words of `a` followed by those of `r` |
| Text.FieldsSplitAt | python/chatbot.py:95-99 | any whitespace character is a word boundary for `split()`: the words of `a + c + b` are the words of `a` followed by those of `b`, which with a single word splitting into itself fixes the words as the maximal whitespace-free runs |
| Text.FieldsKeepText | python/chatbot.py:95-97 | the words of `split()`, concatenated, are exactly the non-whitespace characters of the line in order |
| Text.FieldsJoin | python/chatbot.py:95-97 | `split()` is the inverse of joining non-empty whitespace-free words with single spaces |
| Raffle.OnChat | python/chatbot.py:63-66 | a plain line leaves the open flag and keyword alone; the speaker is an entrant afterwards iff they were before or the raffle is open and the line equals the keyword; nobody else's entry changes; the invariant is kept |
| Raffle.OnChatIdempotent | python/chatbot.py:64-66 | entering twice with the same line is the same as entering once |
| Raffle.Toggle | python/chatbot.py:94-109 | opening with a second word sets the keyword to it and keeps the entrants; opening with none changes nothing; closing always ends closed with no entrants and the keyword kept, and either names some entrant as the winner or fails with NoEntrants exactly when there were none; a good state stays good |
| Dispatch.OwnerIsChannel | python/chatbot.py:93 | the check against the stored `"#" + channel` with its first character cut holds exactly for the bare channel name |
| Dispatch.CommandIffBang | python/chatbot.py:57 | the one-character prefix test is "!" exactly when the line is non-empty and starts with `!` |
| Dispatch.CommandName | python/chatbot.py:58 | the command name has no space, `"!" + name` is a prefix of the line, and it ends at the end of the line or at a space |
| Dispatch.CommandNameUnique | python/chatbot.py:58 | those three facts hold of the command name and of no other string, in both directions |
| Dispatch.CommandNameOf | python/chatbot.py:58 | a line `"!" + name + rest` with a space-free name and rest empty or starting with a space is a command named `name` |
| Dispatch.DoCommand | python/chatbot.py:68-114 | every handler but raffle leaves the state unchanged; raffle from a non-owner is a silent no-op; the only failures are shoutout without a second word and closing a raffle with no entrants |
| Dispatch.Step | python/chatbot.py:55-66 | handling one line keeps the invariant (closed means no entrants, open means a one-word keyword) and can add no entrant other than the speaker |
| Dispatch.PlainLine | python/chatbot.py:62-66 | a line not starting with `!` gets no reply and adds its speaker exactly when the raffle is open and the line equals the keyword; nothing else changes |
| Dispatch.NonOwnerRaffleIgnored | python/chatbot.py:92-93 | `!raffle` from anyone but the channel owner leaves the state as it was and sends no reply |
| Dispatch.OwnerOpens | python/chatbot.py:94-97 | owner `!raffle <kw> ...` on a closed raffle opens it with the second word as keyword and no reply; the entry list is untouched, so empty from a good state |
| Dispatch.OwnerOpensWithoutKeyword | python/chatbot.py:99-101 | owner `!raffle` with no second word on a closed raffle leaves it closed, the keyword and entrants unchanged, with no reply |
| Dispatch.OwnerCloses | python/chatbot.py:103-109 | owner `!raffle` on an open raffle closes it, empties the entry list and keeps the keyword; it replies `<w> is the winner!` for some entrant `w`, or fails with NoEntrants iff there were none |
| Dispatch.OtherCommands | python/chatbot.py:74-113 | game, title, shoutout and unknown commands leave the state unchanged and reply with the handler's text; shoutout without a second word fails |
| Dispatch.BangKeywordAdmitsNobody | python/chatbot.py:57-63 | when the keyword starts with `!`, no line can add an entrant, because the line equal to the keyword is handled as a command |
| Dispatch.TabInsideCommandName | python/chatbot.py:57-58 | `!raffle\tkw` is the unknown command `raffle\tkw`, even from the owner, and changes nothing |
| Session.Run | python/chatbot.py:55-60 | a run of lines from a good state ends in a good state, and every final entrant was already an entrant or spoke one of the lines |
| Session.Reachable | python/chatbot.py:94-109 | from the starting state (closed, empty keyword, no entrants), every run ends with no entrants whenever the raffle is closed, and with a one-word keyword whenever it is open |
| Session.RepeatedEntry | python/chatbot.py:63-66 | saying an open raffle's keyword any positive number of times enters the speaker once, with no reply and no other change |
| Session.OneEntrantRaffle | python/chatbot.py:92-109 | open with `!raffle kw`, one user says kw twice, close with `!raffle`: the only reply names that user, the raffle is closed with no entrants, and kw is still the keyword |
| Session.GiveawayScenario | python/chatbot.py:92-109 | the same run with keyword `giveaway` and user `alice` announces `alice is the winner!` and ends closed, empty, with keyword `giveaway` |
| Session.CloseWithoutEntrants | python/chatbot.py:104-106 | opening and then closing with nobody entered fails with NoEntrants; the raffle is left closed with its keyword still set |

## Left out

- HTTP calls to the Twitch API (python/chatbot.py:26-33, 70, 75, 83) are not
  modelled. The channel id lookup is left out, and the `game` and `status`
  fields arrive as the `Metadata` input. A failed request or a missing field
  (a `KeyError` on `r['game']`), or a non-string `status` (a `TypeError`
  at python/chatbot.py:84), is not modelled: `Metadata.status` is always a
  string.
- The IRC connection, capability requests, join and connect check
  (python/chatbot.py:36-53) are transport plumbing over the `irc.bot`
  library, which is not part of this model. The replies are the strings
  passed to `privmsg`. Sending them is left out.
- Whether `irc.bot` survives an exception raised by a handler is not
  modelled. `Session.Run` stops at the first failure and reports the state
  the bot held.
- `main`, its argument-count check and `sys.exit` (python/chatbot.py:116-130)
  are process startup.
- `print` logging has no effect on state.
- The random number generator is not modelled. The winner is `draw` applied
  to the entry list, and `draw` may be any function that picks a member of a
  non-empty set. `random.sample` on a set is accepted by the Python versions
  of the bot's time but raises `TypeError` from Python 3.11 on. The model
  follows the older behaviour.
- The speaker identity (`e.source.user`) and the message body
  (`e.arguments[0]`) are taken as given strings.
