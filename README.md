# Search command of Discord-SimpleMusicBot, modelled in Dafny

The bot's search command (`src/Commands/search.ts`) lets a user type a keyword or a
link. A link is handed straight to playback. A keyword opens a search panel: the
YouTube results are normalised into `SongInfo` records and the panel is bound to
the guild's server state, one open panel per user (within a single, uninterrupted run of the command).

The model has four modules:

- `Strings` (`strings.dfy`): `StartsWith`, the prefix test `String.prototype.startsWith` performs.
- `Wrappers` (`wrappers.dfy`): `Option`, for the source's value-or-null results.
- `YouTube` (`youtube.dfy`): the `Search` subclass.
  - Its `urlCheck` is the test "starts with `http://` or `https://`".
  - Its `consumer` is `items.map(...).filter(n => n)`. It is written in the same two steps: `Candidates` maps each item, `Present` drops the nulls.
  - ytsr items are modelled as a union tagged by their `type`. Only the `Video` variant has fields.
  - The consumer is proved against an independent reference, `VideoIndices`: the increasing list of positions whose item is a video. The output is exactly those items, in that order, each mapped field by field.
- `SearchBase` (`search_base.dfy`): the abstract base class.
  - Its default `urlCheck` always answers no.
  - Its `run` is the method `Run`, which works on a `Server` class. The server holds the bound text channel, the player's `isConnecting` flag, the map of open panels, and a log of the effects `run` produces.
  - The collaborators whose code is not part of this model are methods of `Server` with abstract contracts (`createSearchPanel`, `consumeSearchResult`, `bindSearchPanel`, `joinVoiceChannel`, `playFromURL`, the replies). What they report back comes in as the `Outcomes` input.
  - `Run` states which branch runs and what the new state and log are. The branch order is: link, then an already open panel, then empty query, then panel creation.

Two points of the code's behaviour:

- A user's panel enters the server's map only when `bindSearchPanel` runs. That happens after the results were consumed successfully, not when the panel is created.
- An empty query from a user with an open panel gets the conflict reply, not the argument-required reply.

## Model

| member | source | states |
|---|---|---|
| Strings.StartsWith | src/Commands/search.ts:120 | true exactly when the prefix is no longer than the string and equals its leading slice |
| YouTube.UrlCheck | src/Commands/search.ts:119-121 | true if and only if the query begins with "http://" or with "https://" |
| YouTube.UrlCheckEmpty | src/Commands/search.ts:119-121 | the empty query is not a link, so the link path and the missing-argument path of `run` never overlap |
| YouTube.UrlCheckExamples | src/Commands/search.ts:119-121 | "https://…" and "http://…" are links; a keyword, an upper-case scheme and "ftp://" are not |
| SearchBase.DefaultUrlCheck | src/Commands/search.ts:77-80 | the base class's check is false for every query |
| SearchBase.UrlCheck | src/Commands/search.ts:34 | the check `run` uses is the running command's override; it can only be true for the YouTube command and a non-empty query |
| YouTube.Tag | src/Commands/search.ts:109 | an item's type tag is "video" exactly when it is a video |
| YouTube.Describe | src/Commands/search.ts:115 | the description is the length label, then the duration, then the channel label, then the channel name, and nothing else |
| YouTube.Candidate | src/Commands/search.ts:109-115 | the map callback yields a record exactly for video items; that the record is the item's, field by field, is stated by YouTube.CandidateSpec |
| YouTube.Candidates | src/Commands/search.ts:109 | `items.map(...)` yields one entry per item |
| YouTube.Present | src/Commands/search.ts:116 | the filter step never lengthens its input |
| YouTube.Consumer | src/Commands/search.ts:108-117 | the consumer's output is never longer than the result's item list |
| YouTube.CandidateSpec | src/Commands/search.ts:109-115 | the map step yields a record exactly for video items, and that record copies url, title, duration, thumbnail url and channel name and describes duration and channel |
| YouTube.VideoIndicesExact | src/Commands/search.ts:109-116 | the reference lists, strictly increasing, exactly the positions of the video items |
| YouTube.PresentConcat | src/Commands/search.ts:116 | dropping nulls from a joined list is dropping them from each part and joining |
| YouTube.ConsumerIsVideosInOrder | src/Commands/search.ts:109-116 | the k-th output record is the map step's record of the k-th video, and there are as many records as videos |
| YouTube.ConsumerKeepsVideosInOrder | src/Commands/search.ts:108-117 | the output holds exactly the video items, in their original relative order, each mapped field by field to its SongInfo |
| YouTube.ConsumerMembership | src/Commands/search.ts:108-117 | a record is in the output if and only if it is the record of some video item of the input |
| YouTube.ConsumerKeepsAll | src/Commands/search.ts:108-117 | the output is as long as the input if and only if every item is a video |
| YouTube.ConsumerConcat | src/Commands/search.ts:108-117 | consuming two item lists joined gives the two outputs joined |
| YouTube.ConsumerExample | src/Commands/search.ts:108-117 | two videos around a channel give the two videos' records, in order |
| SearchBase.Server.HasSearchPanel | src/Commands/search.ts:38 | true exactly when the user has an open panel; under the server invariant that panel's owner is the user |
| SearchBase.Server.GetSearchPanel | src/Commands/search.ts:53 | for a user with an open panel, yields that open panel, whose owner is the user |
| SearchBase.Server.UpdateBoundChannel | src/Commands/search.ts:32 | the bound channel becomes the message's channel and the step is logged |
| SearchBase.Server.JoinVoiceChannel | src/Commands/search.ts:33 | the join is logged and leaves the connecting flag as the voice layer reports it |
| SearchBase.Server.PlayFromUrl | src/Commands/search.ts:35 | the arguments and the auto-start flag are handed to playback |
| SearchBase.Server.ReplyConflict | src/Commands/search.ts:39-51 | the conflict reply is logged; it reports whether it was delivered |
| SearchBase.Server.SubscribeDestroy | src/Commands/search.ts:52-58 | for an open panel, the subscription to that panel's destroy signal is logged |
| SearchBase.Server.ReplyArgumentRequired | src/Commands/search.ts:69 | the argument-required reply is logged |
| SearchBase.Server.CreateSearchPanel | src/Commands/search.ts:62-63 | yields a panel for the caller and the query, or null; creation leaves the open panels unchanged |
| SearchBase.Server.ConsumeSearchResult | src/Commands/search.ts:64 | the search is started and handed to the panel; reports whether consuming succeeded |
| SearchBase.Server.BindSearchPanel | src/Commands/search.ts:65-67 | the panel becomes its owner's open panel; every panel stays filed under its owner |
| SearchBase.Run | src/Commands/search.ts:31-71 | the bound channel is updated and the voice join started first on every path, then exactly one of five branches runs: link played with auto-start equal to not connecting, panels untouched; else conflict reply for a user with an open panel, even for an empty query, subscribing (when the reply was delivered) to that user's own panel; else argument-required reply for an empty query, nothing searched; else a refused creation does nothing more; else results consumed and the panel bound if and only if that succeeded. Within this one run, no open panel is ever closed or replaced; overlapping runs are not covered (see "## Left out") |
| SearchBase.SecondSearchConflicts | src/Commands/search.ts:38-67 | after a user's keyword search binds a panel, the same user's next keyword search is a conflict and the first panel stays |
| SearchBase.LinkBypassesOpenPanel | src/Commands/search.ts:34-37 | a link from a user with an open panel is still played, with auto-start when the player is not connecting, and the panels are unchanged |

## Left out

- Message rendering: reply texts, the cancel button and its action row, and the logging of failed sends (src/Commands/search.ts:39-51, 69). Replies are effect values in the log.
- The destroy listener's callback, which clears the conflict reply's button (src/Commands/search.ts:53-57). It is event driven. Only the subscription is logged.
- Async interleaving at the `await` points. The model runs `run` as one sequential step. It therefore does not capture a panel destroyed during `await message.reply(...)`: `hasSearchPanel` is read at line 38 but `getSearchPanel` only at line 53.
- The check-then-bind race between overlapping runs of one user. Under this model's contracts for the collaborators, `createSearchPanel` leaves the open panels alone and `bindSearchPanel` files the panel under its owner, overwriting any entry there. Two keyword searches by one user can both pass `hasSearchPanel` (src/Commands/search.ts:38) while the first is still waiting at `await consumeSearchResult` (src/Commands/search.ts:64). Both then reach `bindSearchPanel` (src/Commands/search.ts:66), and the second panel replaces the first. One open panel per user, and "no open panel is replaced" in SearchBase.Run, hold only for one run at a time.
- `searchYouTube`, the ytsr network lookup (src/Commands/search.ts:104-106). In `Run` the search is only logged as requested.
- The `{result, transformedQuery}` form that `searchContent` may return (src/Commands/search.ts:73). Only the consumer's input `{items}` is modelled.
- SearchBase.Server.ConsumeSearchResult: its success is an input and is not derived from the consumer's output, because the code of `consumeSearchResult` is not part of this model.
- SearchBase.Server.CreateSearchPanel: when to refuse a panel is an input, and anything it replies when refusing is not logged, because the code of `createSearchPanel` is not part of this model.
- SearchBase.Server.JoinVoiceChannel: the connecting flag it leaves is an input, because the code of `joinVoiceChannel` is not part of this model.
- Removing a panel from the server when it is destroyed. That happens in code that is not part of this model. `run` itself never removes a panel.
- The nullability of ytsr's fields. The ytsr typings are not part of this model, so every video field is a plain string.
- Strings.StartsWith compares Unicode scalar values, whereas JavaScript compares UTF-16 code units. For the ASCII prefixes used here the two agree.
- The command's registration metadata in the `Search` constructor (src/Commands/search.ts:84-102).
- src/Commands/equallypb.ts. Its only logic is flipping the server's `equallyPlayback` flag; the fairness ordering it refers to is not part of this model.
