# tdm: a verified model of the direct-message client core

tdm is a small direct-message client for a social-media platform. It fetches
the authenticated user's received and sent direct messages, groups them into
one chat per counterpart (the other party of each message), opens a live user
stream and keeps adding the direct messages that arrive on it. This project
models the client's own logic in `tdm/tdm.go`:

- the chat aggregator (`Tdm.addDm`, the bootstrap `FetchChats` and the stream
  consumer of `NewTdm`), as the class `TdmClient.Tdm` over a table
  `map<Int64, Chat>`, specified by the pure functions `Chats.WithDm` and
  `Chats.AddAll`;
- the paging parameters (`DmParams.ToValues`, `NewDmParams` with functional
  `DmOption`s) in `Params`, with the base-10 rendering of `strconv` in
  `Decimal`;
- the stream filter of `GetDmStream`, over a sum type of stream events, in
  `Stream`;
- the result shaping of `GetDm` and `GetFriends` in `Queries`.

The vendor client's calls are inputs. A listing call is a function from query
parameters to a page of messages or an error (`TdmClient.DmApi`). The user
stream is a sequence of events. The friend listing is a sequence of pages.
The user returned by `GetSelf` is a `Result`.

Files: `wrappers.dfy` (Option, Result), `types.dfy` (messages, users, query
values), `decimal.dfy`, `params.dfy`, `stream.dfy`, `chats.dfy`, `tdm.dfy`,
`queries.dfy`.

## Model

| member | source | states |
|---|---|---|
| `Decimal.FormatInt` | tdm/tdm.go:253-259 | the rendering is non-empty decimal digits, after a minus sign exactly for negative numbers |
| `Decimal.ParseFormatInt` | tdm/tdm.go:253-259 | parsing the rendering gives back the number, for every integer |
| `Decimal.FormatIntInjective` | tdm/tdm.go:253-259 | distinct numbers are rendered as distinct strings |
| `Params.ToValues` | tdm/tdm.go:250-263 | `since_id`, `max_id` and `count` are emitted exactly when the field is strictly positive, each bound to the field's decimal rendering, and no other key is emitted |
| `Params.ToValuesRoundTrip` | tdm/tdm.go:250-263 | reading the query back yields every positive bound exactly and 0 for the others |
| `Params.ZeroParamsNoValues` | tdm/tdm.go:250-263 | zero-value parameters give an empty query |
| `Params.CountOnlyValues` | tdm/tdm.go:258-260 | a count of 50 alone gives exactly `count=50` |
| `Params.NewDmParams` | tdm/tdm.go:265-274 | the result is the zero parameters with the options applied left to right, stopping at the first error; with no options it is the zero parameters |
| `Params.ApplyOptionsConcat` | tdm/tdm.go:267-271 | applying two runs of options is applying the first and then, only if it succeeded, the second |
| `Params.FirstFailingOption` | tdm/tdm.go:267-271 | when option i is the first to fail, the result is its error whatever follows it |
| `Stream.Filter` | tdm/tdm.go:166-172 | the output is exactly the direct messages among the events, in their order |
| `Stream.DirectMessagesConcat` | tdm/tdm.go:166-172 | filtering a concatenation is concatenating the filtered parts, so order is kept |
| `Stream.DirectMessagesMembers` | tdm/tdm.go:166-172 | a message is forwarded iff it arrived as a direct-message event; the output is no longer than the input |
| `Stream.MixedStreamExample` | tdm/tdm.go:166-172 | two direct messages among three other events come out alone and in order |
| `Chats.WithDm` | tdm/tdm.go:108-135 | the table after `addDm`: the keys become the old keys plus the counterpart's id, and the counterpart's chat holds one message more; `AddSentDm`, `AddReceivedDm`, `AddDmChats`, `AddDmSides`, `AddDmValid` and `AddDmTotal` state the rest |
| `Chats.AddAll` | tdm/tdm.go:92-103 | the table after the `addDm` loops of `FetchChats` and of the stream consumer (lines 53-56): no chat is lost and every message's counterpart has a chat; `AddAllPartition`, `AddAllKeys`, `AddAllValid` and `AddAllTotal` state the rest |
| `Chats.AddSentDm` | tdm/tdm.go:108-131 | a message from the user is appended to the recipient's sent list, whose received list is unchanged |
| `Chats.AddReceivedDm` | tdm/tdm.go:108-131 | any other message is appended to the sender's received list, whose sent list is unchanged |
| `Chats.AddDmChats` | tdm/tdm.go:119-125 | a chat is created only for a counterpart without one, under its id and name, holding just the message; the table gains at most one key; every other chat is unchanged |
| `Chats.AddDmSides` | tdm/tdm.go:126-131 | for every id, one message extends that id's sent or received list by itself or leaves it as it was |
| `Chats.AddDmValid` | tdm/tdm.go:108-131 | every chat stays keyed by its counterpart with sent and received messages on their own side |
| `Chats.AddAllValid` | tdm/tdm.go:92-103 | adding a batch keeps that invariant |
| `Chats.AddAllPartition` | tdm/tdm.go:85-106 | after a batch, each chat's sent (received) list is the old one followed by the batch's messages to (from) that counterpart, in arrival order |
| `Chats.AddAllKeys` | tdm/tdm.go:85-106 | after a batch, a chat exists exactly for the old counterparts and those of the batch |
| `Chats.AddDmTotal` | tdm/tdm.go:119-134 | adding a message raises the number of messages held by exactly one |
| `Chats.AddAllTotal` | tdm/tdm.go:92-103 | adding a batch raises the number of messages held by the batch's length |
| `Chats.BootstrapExample` | tdm/tdm.go:85-106 | two received and three sent messages with two counterparts give exactly two chats with the right partition |
| `TdmClient.ListDms` | tdm/tdm.go:179-181 | `GetDms` (and the identical `GetSentDms` at lines 195-197) hands the listing call the rendered parameters, whose bounds read back as exactly the positive fields of the parameters |
| `TdmClient.FetchOutcome` | tdm/tdm.go:85-106 | the table and error `FetchChats` leaves: no chat is lost; no error iff both listings succeeded; a failed received listing leaves the table as it was and returns its error; every received message's counterpart gets a chat; `FetchOutcomeProperties` states the rest |
| `TdmClient.FetchOutcomeProperties` | tdm/tdm.go:85-106 | the listings ask for `count=200` only; a failed received listing changes nothing; the invariant is kept; full success adds exactly the listed messages |
| `TdmClient.Tdm.constructor` | tdm/tdm.go:77-83 | a new client has the given user, an empty table and no stream |
| `TdmClient.Tdm.AddDm` | tdm/tdm.go:108-135 | the table becomes `WithDm` of the old one, the invariant is kept, one message more is held, and no error is returned |
| `TdmClient.Tdm.AddDms` | tdm/tdm.go:92-94 | the table becomes the old one with the messages added in order |
| `TdmClient.Tdm.FetchChats` | tdm/tdm.go:85-106 | received messages are added, then sent ones; the first failed listing stops the work and is returned, keeping what was already added |
| `TdmClient.Tdm.OpenStream` | tdm/tdm.go:149-153 | the client holds the opened stream |
| `TdmClient.Tdm.GetDmStream` | tdm/tdm.go:159-177 | without an open stream the call fails with "No open stream"; otherwise it yields exactly the stream's direct messages in order |
| `TdmClient.Tdm.NewTdm` | tdm/tdm.go:28-60 | a failed user fetch is returned; otherwise the client's table is the bootstrap result followed by every streamed direct message, even when a listing failed |
| `Queries.GetDm` | tdm/tdm.go:183-193 | the message with no error exactly when one came back; otherwise the zero message with the call's own error, which is none after a wrong count |
| `Queries.GetDmHidesNotFound` | tdm/tdm.go:187-190 | an empty answer is reported as the zero message with no error |
| `Queries.GetDmChecked` | tdm/tdm.go:183-193 | success iff exactly one message came back; a wrong count is a not-found error |
| `Queries.GetDmCheckedAgrees` | tdm/tdm.go:183-193 | the corrected lookup agrees with the written one wherever that one found a message or reported an error |
| `Queries.FlattenMembers` | tdm/tdm.go:209-212 | a user is accumulated iff some page holds them |
| `Queries.AppendPages` | tdm/tdm.go:209-212 | the pages' users are appended to the seed in page order |
| `Queries.GetFriends` | tdm/tdm.go:199-215 | the list is a zero-user placeholder followed by all pages' users; no error is reported |
| `Queries.PlaceholderFriend` | tdm/tdm.go:203 | with no pages the list still has one element; a single friend comes second |
| `Queries.GetFriendsFixed` | tdm/tdm.go:199-215 | the list is exactly the pages' users in order |

## Left out

- The locking of `Tdm` (the embedded `sync.RWMutex`), the goroutines and the channels: `addDm` is a sequential method, the stream filter is a loop over a finite event sequence, and the consumer goroutine of `NewTdm` is modelled as running after the bootstrap over the whole stream (the order in which the source starts them); interleavings are not modelled.
- `Tdm.Log` and `Chat.Log`: console printing in map-iteration order, with no effect on state.
- `SendDmToUsername`, `SendDmToId`, `DeleteDm`, `CloseStream`: single vendor calls with no logic of their own.
- The vendor calls `GetSelf`, `GetDirectMessages`, `GetDirectMessagesSent`, `GetDirectMessagesShow`, `UserStream` and `GetFriendsListAll`, and the request parameters that only they read (`include_entities`, `skip_status`, `with`, `include_user_entities`, and the `id` of `GetDm`): their results are inputs.
- `GetFriends`: only each page's list of friends is read; anything else a page carries is not part of this model.
- `Chat` is a value in the table rather than a pointer; since `addDm` creates a fresh chat per key and no chat pointer leaves the client, no aliasing is lost.
- Direct-message and user records keep only the fields the client reads.
- `main.go` (environment variables, fatal logging, sleep loop) and `gui/gui.go` (a native window and its event loop) are not part of this model.
- `GetDm` checks `len(dms) != 1` (tdm/tdm.go:188) but then returns the call's nil error, and `GetFriends` seeds its result with `make([]anaconda.User, 1, 100)` (tdm/tdm.go:203); both look unintended. The model follows the code as written and records both under Findings, each with a corrected version beside it.

## Findings

| source | as written | input that shows it | evidently intended | confidence | as-written member | corrected member |
|---|---|---|---|---|---|---|
| tdm/tdm.go:203 | `friends` starts as a one-element slice holding a zero user, so every result begins with a placeholder | no pages gives `[zero user]`; one page `[u]` gives `[zero user, u]` | start from an empty slice (length 0, capacity 100) | high, not executed | `Queries.GetFriends`, `Queries.PlaceholderFriend` | `Queries.GetFriendsFixed` |
| tdm/tdm.go:188-189 | a successful call returning zero or several messages yields the zero message with a nil error | the vendor answers with no message: result is the zero message and no error | report a not-found error | medium, not executed | `Queries.GetDm`, `Queries.GetDmHidesNotFound` | `Queries.GetDmChecked` |
