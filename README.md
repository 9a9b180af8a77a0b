# Scam-detector bot: triage, sessions and link filter, modelled in Dafny

This project models the two message listeners of a Discord support bot.

The chat cog (`cogs/chat.py`) watches selected channels. It asks a
classifier whether a message is a cryptocurrency help request, making up
to three attempts until the answer, trimmed and upper-cased, is "YES" or "NO".
On "YES" it opens a thread seeded with a system prompt and the message, and
answers once. Inside a thread it appends each user turn, asks for a
completion, appends the reply and cuts the history back to its last ten
entries. Every remote call's token usage is turned into a cost. The cost is
charged to a global decision total, or to the thread and a global response
total.

The link manager (`cogs/linkmanager.py`) keeps a set of forbidden links in a
file. Its `addlink` command refuses duplicates. Its listener deletes every
message that contains a forbidden link: it scans the links, acts on the
first one the message contains, and stops there.

Layout, one module per component:

- `costs.dfy` (`Costs`): the cost of one call, and totals of costs.
- `text.dfy` (`Text`): Python's `strip()` and `upper()` as used on a classifier answer.
- `sessions.dfy` (`Sessions`): history entries and the ten-entry window.
- `triage.dfy` (`Triage`): a recursive reference definition of the retry protocol, with lemmas that state it without recursion.
- `orchestrator.dfy` (`Orchestrator`): the cog's state as a value, and `Step`, one message as a transition on it. `Run` applies a sequence of messages. The lemmas state the listener's rules.
- `chat_cog.dfy` (`Chat`): the class `ChatCog`. Its fields are those of the source's `__init__`. Its methods update them in place, and the decision loop is a `while` loop. Each method is proved to produce the state and trace that `Step` (or the part of it it implements) gives.
- `links.dfy` (`Links`): substring search, the list/set conversion of the links file, and the class `LinkManager`.

The outside world is passed in as an `Environment` value. It holds:

- the classifier's outcome for each of the three possible decision calls;
- the outcome of thread creation: created, `HTTPException`, or another exception;
- the outcome of the one completion call;
- whether sending the reply to the thread succeeds.

A remote call either answers with text and token usage, or fails. What the
user sees is returned as a `Trace`: the number of classifier calls, the
messages passed to the completion call, and the visible effect.

## Model

The reference definitions carry no contract of their own; the lemmas and
methods in the table below state their properties:

- `Orchestrator.Step` (cogs/chat.py:53-182): one message as a transition; `Orchestrator.Run` applies a sequence of messages.
- `Orchestrator.ThreadTurn` (cogs/chat.py:61-93): a message inside a thread.
- `Orchestrator.OpenSession` (cogs/chat.py:146-179): opening a session after "YES".
- `Triage.TriageFrom` and `Triage.RunTriage` (cogs/chat.py:107-134): the retry protocol from a given attempt, and from the first.
- `Text.Strip`, `Text.Upper` and `Text.Normalize` (cogs/chat.py:129): `strip()`, `upper()` and the two together.
- `Text.IsSpace` (cogs/chat.py:129): the characters `str.strip()` removes.
- `Triage.Rejected` and `Triage.DecisionOf` (cogs/chat.py:129-131, 142-146): the test `decision in ['YES', 'NO']` and the decision an answer stands for.
- `Triage.CostsOf` (cogs/chat.py:119-122): the charge of each decision call that returned usage.
- `Orchestrator.Initial` (cogs/chat.py:28-34): the state `__init__` sets up.
- `Orchestrator.Watched` (cogs/chat.py:99): the registry test for a guild channel.
- `Orchestrator.TurnPrompt` (cogs/chat.py:62-65): the thread history seeded if absent, with the user turn appended.
- `Links.OccursIn` (cogs/linkmanager.py:43): Python's substring test `link in message.content`.

| member | source | states |
|---|---|---|
| `Costs.ComputeCost` | cogs/chat.py:45-48 | the cost is (prompt tokens + 2 × completion tokens) / 100000 dollars, i.e. $0.01 and $0.02 per thousand; it is never negative |
| `Costs.CostExample` | cogs/chat.py:45-48 | 1000 prompt and 500 completion tokens cost $0.02 |
| `Costs.CostAdditive` | cogs/chat.py:45-48 | the cost of combined usage is the sum of the separate costs |
| `Costs.CostMonotone` | cogs/chat.py:45-48 | more tokens never cost less |
| `Text.SkipSpaceSpec` | cogs/chat.py:129 | the scan for the first non-space skips only whitespace and stops at a non-space or the end |
| `Text.BackSpaceSpec` | cogs/chat.py:129 | the backward scan for the last non-space skips only whitespace and stops just after a non-space or at its lower bound |
| `Text.StripSpec` | cogs/chat.py:129 | `strip()` gives a piece of the answer with only whitespace around it, beginning and ending with a non-space |
| `Text.StripOfPadded` | cogs/chat.py:129 | `strip()` of a word padded with any whitespace gives back exactly the word |
| `Text.UpperSpec` | cogs/chat.py:129 | the modelled `upper()` (see the `Text.UpperChar` line under "## Left out") keeps the length, maps each character in place, and leaves no ASCII lower-case letter |
| `Text.NormalizeAcceptsCaseAndPadding` | cogs/chat.py:129-131 | any mix of case of "yes" or "no", with any surrounding whitespace, normalises to "YES" or "NO" |
| `Text.NormalizeExampleYes` | cogs/chat.py:129-131 | " Yes " normalises to "YES" |
| `Text.NormalizeExampleNo` | cogs/chat.py:129-131 | "no" normalises to "NO" |
| `Text.NormalizeExampleMaybe` | cogs/chat.py:129-131 | "MAYBE" is not accepted as a verdict |
| `Sessions.Trim` | cogs/chat.py:89-90 | the kept history has at most ten entries, is a suffix of the history, and is the whole history when it has at most ten |
| `Sessions.TrimKeepsNewest` | cogs/chat.py:87-90 | trimming keeps the newest entry last |
| `Sessions.TrimIdempotent` | cogs/chat.py:89-90 | trimming a trimmed history changes nothing |
| `Sessions.TrimAfterAppendToFull` | cogs/chat.py:89-90 | one entry appended to a full history drops exactly its oldest entry |
| `Sessions.TrimAfterTurnOnFull` | cogs/chat.py:65-90 | a user turn and a reply appended to a full history drop its two oldest entries, system entry included |
| `Triage.CostsOfNonNegative` | cogs/chat.py:119-122 | every charged decision cost, and their total, is non-negative |
| `Triage.TriageAfterRejectedPrefix` | cogs/chat.py:112-134 | after rejected answers the loop decides as it would from that attempt on, with the skipped calls and their costs added in front |
| `Triage.TriageFromStops` | cogs/chat.py:112-134 | from any attempt, the loop stops at the first answer that is not rejected (or runs out), decides what that answer says, and charges the costs of exactly the calls made |
| `Triage.TriageSpec` | cogs/chat.py:107-134 | first valid answer wins: 1 to 3 calls; all but the last answer were rejected; an early stop is at a valid answer or a failed call; Indeterminate exactly when all three answers are rejected; the costs are those of the calls made |
| `Triage.TriageStopsAtFirstVerdict` | cogs/chat.py:107-134 | if answer k is the first one not rejected, exactly k + 1 calls are made, the decision is answer k's, and the charge is the cost of those calls |
| `Triage.TriageCharge` | cogs/chat.py:110-122 | the decision charge is the costs of the one to three calls made, and it is non-negative |
| `Triage.TriageCostNonNegative` | cogs/chat.py:110-122 | the total decision charge is non-negative |
| `Triage.TriageAllRejected` | cogs/chat.py:107-134 | three rejected answers end Indeterminate after three calls, charging the sum of their three costs |
| `Triage.TriageExampleYes` | cogs/chat.py:107-134 | " Yes " at the first call decides Yes after one call, charging that call's cost only |
| `Triage.TriageExampleMaybe` | cogs/chat.py:107-134 | three "MAYBE" answers end Indeterminate with three costs charged |
| `Orchestrator.OwnMessageIgnored` | cogs/chat.py:54-55 | the bot's own message changes no state and calls nothing |
| `Orchestrator.UnwatchedChannelIgnored` | cogs/chat.py:96-99 | a channel message outside the guild's watched channels changes nothing and makes no classifier call |
| `Orchestrator.DecisionCharged` | cogs/chat.py:110-122 | in a watched channel, 1 to 3 classifier calls are made and the decision total grows by exactly the costs of those calls |
| `Orchestrator.NoSessionWithoutYes` | cogs/chat.py:142-146 | without "YES", histories, thread costs, response total and registry are unchanged, with no completion and nothing visible |
| `Orchestrator.ThreeRejectionsAbandon` | cogs/chat.py:142-144 | three rejected answers make three calls, charge their three costs, and change nothing else |
| `Orchestrator.NewSessionSeeded` | cogs/chat.py:146-179 | a new thread's completion sees exactly [system, user]; the history ends as [system, user, reply] when the reply is delivered; the thread cost equals the one response cost, also added to the response total; a failed completion leaves [system, user], cost 0 and no charge |
| `Orchestrator.CreationFailureOpensNothing` | cogs/chat.py:147-152 | a failed thread creation changes no history, thread cost or response total; only an `HTTPException` leaves a notice in the channel |
| `Orchestrator.ThreadTurnPrompt` | cogs/chat.py:61-72 | a thread message is answered from the thread's history, seeded with one system entry if absent, with the user turn appended last; no classifier call |
| `Orchestrator.ThreadReplyWindowed` | cogs/chat.py:73-90 | after a delivered reply the history ends with the reply and is the last ten entries of the pre-trim list (the whole list when it has at most ten); the same cost is added to the thread and to the response total |
| `Orchestrator.ThreadReplyUndelivered` | cogs/chat.py:73-93 | when the completion answers but the reply cannot be sent, its cost is still added to the thread and to the response total, the history keeps the user turn untrimmed and without the reply, and an error notice is shown |
| `Orchestrator.ThreadCompletionFailure` | cogs/chat.py:67-93 | a failed completion keeps the appended user turn untrimmed and charges nothing |
| `Orchestrator.FullThreadDropsTwoOldest` | cogs/chat.py:87-90 | a ten-entry thread answered once more keeps ten entries, losing its two oldest |
| `Orchestrator.StepBounds` | cogs/chat.py:53-182 | one message leaves the registry and every other thread's history and cost untouched, never removes a session, keeps every cost figure non-negative and never decreases either global total |
| `Orchestrator.RunKeepsLedgerValid` | cogs/chat.py:53-182 | over any sequence of messages the ledger stays non-negative, the totals never decrease, no session is removed and the registry is unchanged |
| `Orchestrator.RunOfOwnMessages` | cogs/chat.py:54-55 | any sequence of the bot's own messages leaves the state as it was |
| `Chat.ChatCog.constructor` | cogs/chat.py:26-39 | the cog starts with the given channel registry, no histories, no thread costs, and both totals 0 |
| `Chat.ChatCog.Decide` | cogs/chat.py:106-134 | the while loop returns the reference decision, call count and charge, and adds exactly that charge to the decision total; no other field can change |
| `Chat.ChatCog.HandleThreadMessage` | cogs/chat.py:61-93 | the in-place updates of the thread branch give exactly the state and trace of the thread transition |
| `Chat.ChatCog.OpenThread` | cogs/chat.py:146-179 | the in-place updates after "YES" give exactly the state and trace of opening a session |
| `Chat.ChatCog.OnMessage` | cogs/chat.py:53-182 | the listener's new state and trace are those of `Step` on the old state |
| `Links.LoadLinks` | cogs/linkmanager.py:11-16 | no file gives the empty set; a stored list gives the set of its elements |
| `Links.ListOf` | cogs/linkmanager.py:18-20 | `list(set)` lists each member exactly once and nothing else |
| `Links.LoadAfterSave` | cogs/linkmanager.py:11-20 | loading a saved list gives back the same set |
| `Links.LinkManager.constructor` | cogs/linkmanager.py:7-9 | the forbidden set is what loading the file gives |
| `Links.LinkManager.SaveLinks` | cogs/linkmanager.py:18-20 | the file holds a duplicate-free list of the set, from which loading rebuilds the set |
| `Links.LinkManager.AddLink` | cogs/linkmanager.py:27-34 | a known link leaves the set and file unchanged and is refused; a new link makes the set the old set plus the link, and saves it |
| `Links.LinkManager.OnMessage` | cogs/linkmanager.py:37-50 | never acts on the bot's own messages; acts at most once; acts exactly when some forbidden link is a substring of the message, and then on such a link; a notice is posted only when the deletion and the send both succeed |

## Left out

- Remote services: the DeepSeek client is not modelled. Each call is an abstract outcome: an answer with text and token usage, or a failure.
- Discord transport: `thread.send`, `message.create_thread`, `message.delete` and `channel.send` become flags and outcomes in the environment. A failing send of an error notice changes no state and is not separated: in a thread turn (cogs/chat.py:93) it escapes the listener; after a failed creation or a failed first reply (cogs/chat.py:151, 179) the outer handler at cogs/chat.py:181 logs it.
- A completion answer whose content is `None` is not modelled. In the decision loop it would raise after its cost was charged. The reply text is always a string here.
- Logging: all `self.bot.logger` calls.
- The administrator check on `addlink` (cogs/linkmanager.py:26): the command framework refuses a non-administrator before the command body runs. `Links.LinkManager.AddLink` models an administrator's call.
- Direct messages: a message outside any guild and outside a thread fails at `message.guild.id` (cogs/chat.py:96) before any state is read or changed. A `Location` is always a thread or a guild channel, so this input is not expressible; its effect, no change and nothing visible, is the same as an unwatched channel's.
- async/await and interleaving: messages are handled one at a time. The race on one thread between two concurrent handlers is not modelled.
- Costs.ComputeCost: does not apply `round(..., 6)`; costs and totals are exact rationals, not floating point.
- File and JSON I/O: reading `active_channels.json`, `save_active_channels`, and the file handling of the link file. The channel registry is a constructor argument. The link file is a `Stored` value holding a list of strings. A malformed file, which would raise, is not modelled.
- The `add_channel` and `remove_channel` commands are elided in the source. The registry is read-only here, and each guild's entry is reduced to its list of channel ids.
- Text.UpperChar: upper-cases the ASCII letters and U+017F (whose upper case is "S"). Other characters are left as they are, unlike Python's full Unicode mapping; this makes no difference to whether an answer normalises to "YES" or "NO" for any character the model maps.
- The classifier prompt and the persona system prompt are fixed strings whose wording is not modelled. The classifier's outcomes do not depend on the prompt text.
- Behaviour the code does not have is not modelled: histories and costs are never saved or restored, periodically or at shutdown (only the channel registry is read from a file).
- Modelled as the code does it, though a reader might expect otherwise:
  - a history can grow past ten entries when completions fail, because the trim happens only after a reply is appended (`Orchestrator.ThreadCompletionFailure`);
  - a newly opened thread's cost entry is reset to 0 before its first reply is charged (`Orchestrator.NewSessionSeeded`).
- `cogs/cat_meme.py` is not part of this model: it picks a random entry of a constant list and sends it.
