# Idea-voting bot: a Dafny model

This project models the state machine at the centre of a Telegram bot that
collects product ideas, publishes them to a channel with voting buttons,
keeps a vote tally with a paid "priority" boost, and posts a daily
leaderboard. The bot's own code (`index.js`) mixes that logic with calls
to Telegram, Supabase and OpenAI. The model keeps the logic. The calls whose
answers decide what is stored (the idea insert, the channel post, the model
call and the leaderboard calls) become parameters that carry the answer;
the remaining chat replies are taken to succeed, as "## Left out" records.

The state is:

- the **ideas** table, `IdeaId -> Idea`, with short and full text, the
  stored vote count, the priority flag and the channel post reference;
- the **votes** table, a sequence of rows `(voter, idea, Up | Down)`;
- the **payments** table and the reference of the pinned leaderboard post;
- the in-memory **sessions** (conversation history and question count) and
  **drafts** (unpublished ideas), one of each per user.

Each inbound event is one pure step function (`Bot.Step`):

- a text message (`Conversation.HandleText`);
- a button press (`Callbacks.HandleCallback`): free or paid publication,
  an up/down vote, or a boost request;
- a confirmed payment (`Payments.OnPaymentConfirmed`);
- the daily leaderboard run (`Leaderboard.Update`).

Modules: `Wrappers` (Option), `Text` (JavaScript string length, `split`,
decimal ids), `Board` (the data model), `Votes`, `Publication`, `Payments`,
`Callbacks`, `Conversation`, `Leaderboard`, and `Bot` (the event step and
the store-wide invariant).

Two behaviours of the code are kept as written, not corrected:

- **Two vote columns.** Publication inserts its initial votes into
  `votes_count` (index.js:370). Every read and update uses `vote_count`
  (index.js:43, 586, 719). The model keeps both columns, as `insertedVotes`
  and `voteCount`, and takes the `vote_count` default to be 0. A paid
  publication therefore starts with `voteCount == 0` while `hasPriority`
  holds, so its count is ten below its tally until the first vote.
- **Boosts stack.** A boost adds ten to the stored count every time
  (index.js:723). The recompute after a vote adds ten only once
  (index.js:580). So "count = up − down + bonus" holds after every vote but
  not after repeated boosts.

The store-wide invariant (`Bot.Invariant`) is exact about this. Every
idea's *drift*, meaning its stored count minus (net votes + bonus), is a
multiple of ten and at least −10. The drift is 0 for ideas without priority.
A counted vote resets the drift of its idea to 0.

Three behaviours of the code are easy to miss; the model keeps them:

- The invoice promises "+10 голосов СРАЗУ" (index.js:505), but a paid
  publication's initial ten votes land in the column nobody reads
  (index.js:370), so the board shows them only after the first vote.
- Each boost message promises "+10 голосов" (index.js:411, 753), and
  repeated boosts do stack in the stored count, but the next vote's
  recompute (index.js:574-587) brings the count back to net votes plus a
  single ten.
- A publication whose channel post fails has already inserted its record
  (index.js:361-374, before the channel post at 399). The call reports
  failure and the draft is kept, so retrying creates a second record. After
  a paid publication fails this way the payer is told nothing
  (index.js:690-710 has no `else`), and the payment row keeps a null idea
  id.
- If the new leaderboard post is sent but pinning it fails (index.js:82-86,
  93-97), the post stays in the channel but the tracked reference does not
  change, so no later run edits it.

## Model

| member | source | states |
|---|---|---|
| Text.Utf16Length | index.js:355 | JavaScript's `length` counts UTF-16 code units: at least one and at most two per character |
| Text.BmpLength | index.js:355 | for text made of Basic Multilingual Plane characters, the length check sees the character count |
| Text.Split | index.js:523 | `split('_')` always yields at least one piece, and no piece contains `_` |
| Text.JoinSplit | index.js:523 | joining the pieces of `split('_')` gives back the original string, so no character is lost |
| Text.SplitJoin | index.js:523 | splitting a `_`-joined list of pieces that contain no `_` gives back exactly those pieces |
| Text.ParseNatToString | index.js:527 | reading back an id printed into button data yields the same id |
| Callbacks.Encode | index.js:407-411 | `vote_<dir>_<id>` and `pay_priority_<id>` split back into exactly the action, the type and the decimal id |
| Callbacks.Parse | index.js:449-527 | `publish_free` and `publish_priority` are recognised exactly as literals; any other data whose first three pieces are `vote`, `up`/`down` and a decimal id is that vote, and `pay`, `priority` and an id is that boost request, whatever follows; a vote or pay reading implies those pieces; everything else is unhandled |
| Callbacks.ParseEncode | index.js:523-527 | every button the bot creates (`vote_up_N`, `vote_down_N`, `pay_priority_N`, the two publication literals) is read back as the action it was made for |
| Callbacks.HandleCallback | index.js:449-636 | free publication publishes the user's draft with 0 votes and drops it only on success; missing draft changes nothing; paid and boost buttons only request an invoice; vote buttons cast the vote |
| Votes.CastVote | index.js:531-587 | a repeated direction is reported as already voted and changes nothing; otherwise the row count grows only for a new vote, other ideas are untouched, and the idea's stored count becomes its full-table net votes plus 10 if it has priority |
| Votes.UniqueAtMostOneMatch | index.js:532-537 | with one row per pair, the `.single()` lookup of an existing vote is exact |
| Votes.CastVoteRecordsDirection | index.js:539-560 | after a vote the pair has exactly one row reading the cast direction, and no pair gains a second row |
| Votes.CastVoteOtherPairsUnchanged | index.js:545-560 | a vote leaves every other (voter, idea) vote as it was |
| Votes.CastVoteDelta | index.js:564-587 | the from-scratch recompute equals the incremental view: a new vote moves the net by ±1, a flip by ±2, and other ideas' nets are unchanged |
| Votes.SecondSamePressIsNoop | index.js:539-542 | pressing the same direction twice: the second press is reported as already voted and changes nothing |
| Votes.OppositePressFlips | index.js:543-550 | pressing one direction and then the other rewrites the row instead of adding one; the vote reads the new direction |
| Publication.FullText | index.js:368 | the full text is one of the two given texts, the description whenever it is non-empty, and it is empty only if the short text is |
| Publication.Publish | index.js:351-435 | text under 3 UTF-16 units is rejected with no record; a failed insert creates nothing; otherwise exactly one record under a fresh id, with priority iff initial votes ≥ 10, a non-empty full text, the initial votes only in the inserted column, and success only if the post went out |
| Publication.PublishPaths | index.js:365-371 | the free path (0 votes) creates no priority; the paid path (10 votes) creates priority but leaves the read count at 0 |
| Publication.ShortTextRejected | index.js:355-359 | text of fewer than three Basic Multilingual Plane characters is rejected whatever the datastore and channel would answer |
| Payments.Boost | index.js:714-731 | a boost adds 10 to the stored count and sets priority on that idea only; an unknown id changes nothing |
| Payments.BoostsStack | index.js:723-731 | two boosts add 20 to the stored count while the tally's bonus stays 10 |
| Payments.OnPaymentConfirmed | index.js:650-771 | the payment row is always appended; a pre-publication payment publishes the payer's draft with 10 votes, backfills the idea id and drops the draft only on success; a missing draft is reported; a failed paid publication keeps the draft and sends no reply; a post-publication payment boosts the idea unless its id is 0; only a publication attempt can advance the id counter |
| Conversation.DisplayName | index.js:244 | the display name is the first name, else the username, else "Anonymous" |
| Conversation.Handle | index.js:245 | the handle is the username, else the first name, else "Anonymous" |
| Conversation.NewSession | index.js:157-165 | a session starts with no turns and a question count of 0 |
| Conversation.Ask | index.js:149-205 | without a model nothing changes; otherwise the session is created if missing, gains the user turn and one more question, and gains the reply only if the model answered |
| Conversation.AskKeepsSessionsOk | index.js:167-177 | every exchange keeps each session's question count equal to its number of user turns |
| Conversation.HandleText | index.js:242-342 | a truthy model reply is what the user is sent back; before readiness it is the next question; once ready, the reply is finalized exactly when it parses into both parts, which stores the draft and deletes the session, and otherwise gathering continues; with no reply the message is the draft; other users are untouched |
| Conversation.HandleTextKeepsSessionsOk | index.js:250-310 | handling a message keeps every session's question count equal to its number of user turns |
| Conversation.UnconfiguredFallsBack | index.js:311-318 | without a model the message becomes the draft's short and full text and no session is opened |
| Leaderboard.Rows | index.js:40-42 | the scanned rows are exactly the idea records, each once, in id order, with its stored count and post |
| Leaderboard.SortDesc | index.js:43 | ordering by descending count yields a sorted permutation of the rows |
| Leaderboard.Top | index.js:40-44 | the leaderboard holds min(10, n) rows, sorted by descending count, all drawn from the table |
| Leaderboard.TopDominates | index.js:43-44 | no idea left off the leaderboard has more votes than any idea on it |
| Leaderboard.Label | index.js:54 | indices 0-2 get one-character medals, index i ≥ 3 gets "{i+1}." |
| Leaderboard.LabelsDistinct | index.js:53-54 | different ranks get different labels |
| Leaderboard.Render | index.js:53-61 | one line per entry in order, each with the entry's count and post; the rank markers are pairwise distinct; a sorted board renders non-increasing counts |
| Leaderboard.Update | index.js:36-106 | no rows or a failed query posts nothing; otherwise the tracked post is edited, or a new post is sent and, once pinned, becomes the tracked one; a post sent but not pinned is reported as such and leaves the tracked post unchanged; the lines are the top rows' counts and posts, ranked and labelled |
| Leaderboard.UpdateShowsLeaders | index.js:40-61 | no row left off a posted board has more votes than any line on it |
| Bot.Step | index.js:109-771 | messages change only the in-memory state and never the store; only messages touch sessions; the daily run changes only the tracked post; a button other than a vote adds no vote row; every confirmed payment adds exactly one payment row |
| Bot.Initial | index.js:121-125 | the bot starts with empty maps and satisfies the invariant |
| Bot.PublishKeepsInvariant | index.js:362-374 | a publication keeps the invariant: a free idea starts with drift 0, a paid one with drift −10 |
| Bot.VoteKeepsInvariant | index.js:563-587 | a vote on an existing idea keeps the invariant and one row per pair |
| Bot.BoostKeepsInvariant | index.js:717-731 | a boost keeps the invariant; it raises the drift of an idea that already had priority by exactly ten, and a first boost leaves the drift at 0 |
| Bot.StepKeepsInvariant | index.js:438-771 | every message, button, payment and leaderboard event keeps the store's invariant |
| Bot.PublishedIdIsTruthy | index.js:469 | under the invariant a successful publication reports a non-zero id, so the `if (requestId)` success test agrees with the model |
| Bot.PriorityIsMonotonic | index.js:725-731 | no event deletes an idea or clears its priority |
| Bot.VoteReconciles | index.js:574-587 | after a counted vote the stored count is exactly net votes plus the priority bonus, whatever boosts came before |
| Bot.FallbackThenFreePublish | index.js:449-486 | without a model, a message becomes a draft with equal short and full text, and the free button then creates exactly one idea with 0 votes and no priority and drops the draft |
| Bot.BoostScenario | index.js:714-731 | boosting idea 7 at 3 votes without priority gives 13 votes with priority and a payment row for idea 7 |
| Bot.EmptyLeaderboardSkips | index.js:46-49 | a leaderboard run over an empty table changes nothing |

## Left out

- Telegram calls (messages, invoices, button edits, pins, callback answers), Supabase queries and OpenAI calls are not modelled. The outcomes of the datastore insert, the channel post, the model call and the leaderboard calls are parameters: `PublishIO`, `AiIO`, `LeaderboardIO`. Every other chat reply, button answer and message edit is taken to succeed; the lines below name what a failure there would change. Invoice requests appear only as a reply value.
- Readiness (`shouldOfferPublish`) and final-answer parsing (`parseAIFinalResponse`) live in a helper file that is not part of this model. They are function parameters with no fixed meaning.
- Conversation analytics (the conversation log insert and the `published: true` update) are not modelled. Their failure never affects the handlers.
- HTML composition, `substring` truncation and `toLocaleString` timestamps are not modelled. They are presentation.
- Cron scheduling, the Express health endpoints, webhook/polling start-up and the environment check are not modelled. They are process plumbing.
- The lost update between two concurrent vote recomputes is not modelled. The model is sequential.
- The pre-checkout answer and the unused `sessionCounter` are not modelled. They carry no state.
- Callbacks.Parse: an id must be a run of decimal digits. `parseInt`'s acceptance of whitespace, signs and trailing text, and NaN ids, are not modelled. The bot builds these strings itself.
- Callbacks.Parse: a vote whose second piece is neither `up` nor `down` is read as unhandled. The code would store that string as the vote type, but the bot never creates such a button.
- Votes.CastVote: a vote on an id with no record still writes the vote row, since no foreign key is visible in the code. The invariant theorems therefore assume that votes target existing ideas (`Bot.VoteTargetsExist`), as the buttons only exist under published posts.
- Publication.Publish: the post reference is stored together with the record. The separate update of `channel_message_id`, whose failure the code ignores, is not modelled apart.
- Conversation.HandleText: the chat replies are taken to succeed. If the reply at index.js:273 threw, the draft would not be stored and the session would survive; if the menu at index.js:286 threw, the draft would be stored but the session would survive.
- Callbacks.HandleCallback: the button answers and message edits are taken to succeed. If `answerCbQuery` at index.js:457 threw, nothing would be published; if `editMessageText` at index.js:470 threw after a successful publication, the draft would be kept and could be published a second time.
- Payments.OnPaymentConfirmed: the confirmation reply at index.js:696 is taken to succeed. If it threw, the idea would be published and the payment backfilled, but the draft would be kept and could be published again.
- Payments.OnPaymentConfirmed: the payment insert is taken to succeed. If it failed, the code's later backfill would read `paymentData.id` of null and throw.
- Leaderboard.Update: the select asks for a `request_text` column that publication never writes. The model covers a failing query with `queryOk` and does not model the entry text. Ties in the count are ordered arbitrarily. Null counts are not modelled, as `vote_count` is taken to default to 0.
