# KLOK multi-account chat bot — a Dafny model of its session logic

The bot (`main.js`) keeps, for each account, one conversation thread on a chat service. At
start-up it reuses the first listed thread or creates one. Then, once a minute, it:

1. recreates the thread if it has none;
2. checks the account's points;
3. while points remain, posts one message drawn from a corpus file into the thread.

A failed post drops the thread. A post whose error reports an aborted stream counts as sent.

This project models that per-account state machine as the class `Session.AccountSession`.
The network is not modelled. Each call's outcome is a parameter, and a ghost log `calls`
records every call made, in order, with its outcome. `Valid()` is the class invariant. It says:

- every send in the log comes right after a points check that reported a positive total;
- once started, the session has no thread exactly when its last create or send attempt failed.

Around the class sit the pure helpers the bot relies on:

- the account-list check (`loadAccounts`);
- the corpus parser (`loadMessages`), built on models of JavaScript's `trim`, `split` and
  `includes`;
- the request bodies for creating a thread and posting a message;
- the classification of a post's outcome.

Modules: `Wrappers` (Option, Result), `Js` (JavaScript values and truthiness), `Text` (string
built-ins), `Startup` (accounts, corpus,
message choice), `Api` (bodies, points, thread listing, send classification), `Session`
(the state machine and two client scenarios).

Two behaviours of the code shape the model:

- Start-up also checks the points before listing threads (main.js:142). The answer is logged
  but never used.
- The thread reference is absent after a failed send, but also after a failed creation. So
  the invariant reads "absent exactly when the last create or send attempt failed".

## Model

| member | source | states |
|---|---|---|
| `Text.SkipStart` | main.js:36 | the leading whitespace `trim` removes ends at the first non-whitespace character, or at the end of the line |
| `Text.SkipEnd` | main.js:36 | the trailing whitespace `trim` removes starts just after the last non-whitespace character of the remaining text |
| `Text.Trim` | main.js:36 | `trim()` yields the contiguous middle of the line with only whitespace cut from both ends, itself without whitespace at either end, and empty exactly when the line is blank |
| `Text.Split` | main.js:36 | `split('\n')` yields at least one piece and no piece contains the separator |
| `Text.JoinSplit` | main.js:36 | joining the pieces of a split with the separator gives back the input |
| `Text.SplitJoin` | main.js:36 | splitting separator-free pieces joined by the separator gives back the pieces |
| `Text.Contains` | main.js:128 | `includes` is true exactly when the pattern occurs at some position of the message |
| `Startup.LoadAccounts` | main.js:16-24 | accepted exactly when the parsed value is a non-empty array whose every entry has a truthy `token` and `ai_id`, returning that array; "wrong format" exactly for a non-array or an empty array; otherwise the error names the first offending entry, with a distinct error when that entry is null or undefined (reading its field throws) |
| `Startup.Messages` | main.js:36 | the trim-and-filter pipeline yields at most one message per line, each non-empty and trimmed |
| `Startup.MessageOrigin` | main.js:36 | every message is the trimmed text of one of the lines |
| `Startup.MessagesAppend` | main.js:36 | the pipeline keeps line order: the messages of two runs of lines are those of the first followed by those of the second |
| `Startup.NoMessagesIff` | main.js:36-40 | no message survives exactly when every line is blank |
| `Startup.BlankCorpus` | main.js:36-40 | a file yields no message exactly when it is entirely whitespace |
| `Startup.LoadMessages` | main.js:36-42 | the load fails exactly when the file is blank; otherwise it yields a non-empty list of non-empty, trimmed, single-line messages |
| `Startup.LoadMessagesOfLines` | main.js:36-42 | a file made of separator-free lines loads as exactly the trimmed non-blank ones, in order, or fails when there are none |
| `Startup.RandomMessage` | main.js:64-67 | the chosen message is one of the corpus's messages |
| `Api.CanSpend` | main.js:164 | the tick goes on to send exactly when a points answer arrived and its total is at least one |
| `Api.ListedThreads` | main.js:81-89 | a failed listing and a listing without `data` both yield no thread; otherwise the listed ids are returned as they are |
| `Api.NewThreadRequest` | main.js:92-99 | the create-thread body has title "New Chat", a single user message carrying the opening text, `sources` null, the fixed dataset id, and the supplied uuid and timestamp |
| `Api.ThreadRequestDetermined` | main.js:92-99 | a create-thread body of that shape is rebuilt exactly from its opening message, id and timestamp |
| `Api.NewChatRequest` | main.js:112-121 | the chat body targets the given thread and `ai_id` and carries the message as the single user message, with title "New Chat", empty `sources`, the fixed model, language "english" and the supplied timestamp |
| `Api.ChatRequestDetermined` | main.js:112-121 | a chat body of that shape is rebuilt exactly from its thread, `ai_id`, message and timestamp |
| `Api.Classify` | main.js:123-134 | an accepted post is delivered; an error whose message contains "stream has been aborted" is presumed delivered; any other error is a failure, each case if and only if |
| `Api.AbortedStreamCountsAsSent` | main.js:127-130 | any error message containing the stream-abort text, whatever surrounds it, is classified as presumed delivered |
| `Api.SendSucceeded` | main.js:126-133 | `sendMessage` reports success exactly when the post was accepted or its error message contains the stream-abort text |
| `Session.TickOutcomes` | main.js:153-174 | a tick with a thread makes no create; without one its first call is a create with the recovery message, that tick's uuid and timestamp, and it makes no other create; if that create fails the tick ends without a thread; unknown or non-positive points keep the thread and make no send; otherwise its last call is a send to the working thread, and it drops the thread exactly when that send is classified as failed |
| `Session.TickKeepsSendsGuarded` | main.js:162-168 | appending a tick's calls to a log whose every send follows a positive points check keeps that property |
| `Session.FailedCreates` | main.js:154-160 | a run of failed recovery creates has one create per tick, each failed |
| `Session.FailedCreatesRun` | main.js:154-160 | from no thread, ticks whose creates all fail leave no thread and make exactly one failed recovery create each, carrying that tick's uuid and timestamp, and nothing else |
| `Session.AccountSession.constructor` | main.js:137-140 | a new session has no thread and has made no call |
| `Session.AccountSession.Init` | main.js:142-151 | start-up checks points and lists threads; with a listed thread it adopts the first id and makes no create; with none it makes exactly one create and adopts its id, or stays without a thread if it fails; a failed listing behaves as an empty one; the invariant holds afterwards |
| `Session.AccountSession.Tick` | main.js:153-174 | the tick's new thread and the calls it appends are exactly those of `TickEffect`, the tick described as a value: without a thread, one create, and if it fails the tick ends; otherwise a points check, and with a positive total one send of the chosen corpus message to the working thread, which is dropped if and only if the send fails (see `Session.TickOutcomes`); the invariant is kept |
| `Session.AccountSession.RunTicks` | main.js:153-174 | after successive ticks the thread and the appended calls are exactly those of `RunEffect`, the ticks' effects chained in order, and the invariant holds; from no thread, ticks whose creates all fail leave the session without a thread and append exactly the failed recovery creates of `FailedCreates` |
| `Session.ExistingThreadIsReused` | main.js:144-174 | with one listed thread and quota left, the first tick posts into that thread and keeps it when the post is accepted or its stream was aborted, the next tick posts into it again, and the thread stays unless the second post fails |
| `Session.FailedSendTriggersRecovery` | main.js:154-173 | a failed post drops the thread, and the next tick's first call creates a thread with the recovery message; if that create fails, the session stays without a thread |

## Left out

- HTTP transport, client headers, the session token and the base URL (main.js:51-62) are left out. Only each call's abstract outcome is a parameter.
- File reads, `JSON.parse`, `process.exit` and console logging are left out. The loaders return a `Result` instead of exiting, and the account label exists only for log lines.
- The 60-second `setInterval` period and launching one bot per account are not modelled (main.js:153, main.js:177-184). `RunTicks` runs a finite sequence of one account's ticks in order, so overlapping ticks and cross-account independence are not covered.
- The random choice of a message (`Math.random`) is not modelled. The index is a parameter below the corpus size.
- `uuidv4()` and `new Date().toISOString()` are not modelled. Their values are parameters.
- Thread ids are non-empty strings. A listing entry or creation response without an id (the bot would store `undefined`) is not modelled, and neither is a truthy non-array `data` field in the thread listing.
- The points answer always has an integer `total_points`. A missing or non-numeric total is not modelled: there `undefined <= 0` (or a comparison with `NaN`) is false at main.js:164, so the bot would send. The invariant that every send follows a positive total therefore holds only for well-formed points answers.
- JavaScript numbers are modelled as integers, so the truthiness of `NaN` and fractional values is not covered.
- Strings are sequences of Unicode scalar values, not UTF-16 code units.
- An error object without a string `message` in `sendMessage` is not modelled.
