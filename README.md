# Consilience collaboration core, modelled in Dafny

Consilience is a chat platform for Solana developers. Users are known only
by wallet address. A keyword-driven assistant infers a profile for each
wallet from what it has written, and it proposes collaborators by how many
skills they share. This project models the parts of the system that keep
state or make decisions:

- **backend/src/routes/ai.js** — `text.dfy`, `profiles.dfy`,
  `matching.dfy`, `ai_routes.dfy`.
  - State: the `chatData` map from wallet to message log, kept with its
    insertion order, and the `activeUsers` set.
  - Profile inference (`analyzeUserFromMessages`).
  - The matching loop, with its stable sort by descending score and its
    cut to five (`findMatches`). `suggestRole` and `generateIntroduction`.
  - Endpoints: the `/chat` handler and its keyword-priority reply,
    `/matches` and `/analytics`.
  - `ChatStore` is a class whose methods update its fields in place.
- **backend/src/server-simple.js** — `chat_server.dfy`.
  - The socket server (class `Server`): the global `messages` array, cut
    back to its last 1000 entries after each user message.
  - The 50-message history sent on `join`.
  - The `activeConnections` map, set on `join` and deleted on
    `disconnect`.
  - The `/ai ` command and the `generateAIResponse` classifier.
- **backend/src/middleware/auth.js** — `rate_limit.dfy`. The
  sliding-window rate limiter (class `RateLimiter`). It also proves a
  theorem about whole runs of requests.
- **src/App.js** — `client_app.dfy`. The React component's updaters,
  written as functions from old state to new state: `addTask`,
  `toggleTask`, `sendMessage` and its `/ai ` test, and the incoming
  message filter.

Modelling choices:

- **Scores** are exact fractions `Ratio(num, den)` with `den >= 1`.
  - `score > 0.2` is `5 * num > den`, and the sort compares scores by
    cross-multiplication.
  - The source divides small integers, at most ten skills on each side,
    so its doubles order exactly as the fractions do.
- **JS `Map` iteration order** is an explicit `seq` of keys, next to a
  Dafny `map`. The class invariants tie the two together.
- **Clock and randomness.** Clock readings (`Date.now()`, `new Date()`) are
  a `now` parameter. The random reply index `Math.floor(Math.random() * 3)`
  is a `pick < 3` parameter.
- **Reply texts.** Template strings are not rendered. Each reply is a
  constructor that carries the values its text is built from.

Behaviour the proofs make explicit:

- **Wallets without a log.** A wallet that has never written is scored
  with the default profile (blockchain, solana) of ai.js:13-21, and
  `findMatches` compares it with every other wallet. So it can have
  candidates (`Matching.ColdStartCandidate`).

- **`sol` anywhere** in the text, inside "console" for example, adds the
  skill `solana`. **`js` anywhere** adds `javascript`. Because messages are
  joined with a space, a keyword can span two messages: "smart" followed by
  "contract" adds `smart contract`.
- **AI replies and the 1000 cap.** The server cuts `messages` back to 1000
  only after a user message. The delayed AI reply is pushed without the
  cut, so the array can hold more than 1000 entries until the next user
  message (`ChatServer.Server.DeliverAiReply`).
- **`/ai ` on the server.** The server tests `message.content`, but App.js
  emits `{ message, channel }`, so that payload has no `content` at the top
  level. For it, `startsWith` throws after the message has been stored and
  broadcast (`ChatServer.Classify`, outcome `ContentMissing`).
- **`/ai ` in the client.** The client tests for `/ai ` case-insensitively
  but removes only a lower-case `/ai `. "/AI hello" is therefore posted
  whole (`ClientApp.UpperCaseCommandExample`).
- **Duplicate wallets.** The `userJoined` list has one entry per live
  socket, so a wallet with two sockets appears twice.
- **AI answers shown twice.** The asker appends the AI answer locally and
  emits it. The server sends it back to every socket. The client's echo
  filter compares only the sender, and the answer's sender is `AI_AGENT`,
  so the asker appends it a second time (`ClientApp.AiAnswerEchoedBack`).

## Model

| member | source | states |
|---|---|---|
| Text.LowerIdempotent | backend/src/routes/ai.js:23 | Lower-casing (`Text.Lower`, `toLowerCase` on ASCII letters) an already lower-cased string changes nothing. |
| Text.OccursAtContains | backend/src/routes/ai.js:28-43 | `includes` holds whenever the pattern occurs at some index. |
| Text.ContainsOccurrence | backend/src/routes/ai.js:28-43 | Conversely, when `includes` holds, the lemma returns an index where the pattern occurs. |
| Text.ContainsTransitive | backend/src/routes/ai.js:137 | A string that contains `p` contains everything `p` contains. |
| Text.ContainsSlice | backend/src/routes/ai.js:137 | Every slice of a string is contained in it. |
| Text.ReplaceAbsent | src/App.js:51 | `replace` with a string pattern (`Text.ReplaceFirst`, first occurrence only) returns the string unchanged when the pattern does not occur. |
| Text.ReplaceAtFirst | src/App.js:51 | Only the earliest occurrence is replaced: with the pattern first occurring at `k`, the result is the text before `k`, the replacement, and the text after that occurrence. |
| Text.JoinContainsPart | backend/src/routes/ai.js:23 | Each part occurs in `parts.join(sep)` (`Text.Join`). |
| Text.TrimStartBlank | src/App.js:29 | Trimming the front gives the empty string exactly when every character is JS whitespace. Otherwise the result starts with a non-space character. |
| Text.TrimEndKeepsNonSpaceHead | src/App.js:29 | Trimming the end of a string that starts with a non-space character leaves it non-empty. |
| Text.TrimEmptyIffBlank | src/App.js:80 | `trim()` (`Text.Trim`) is empty exactly when the input is all whitespace, so `!input.trim()` is the blank test. |
| Seqs.Last | backend/src/server-simple.js:148 | `slice(-n)` has `min(n, len)` entries and is what remains after dropping a prefix. |
| Seqs.Take | backend/src/routes/ai.js:150 | `slice(0, n)` has `min(n, len)` entries and is a prefix. |
| Seqs.Remove | backend/src/server-simple.js:202 | Deleting a key keeps exactly the other keys. Deleting a missing key changes nothing. |
| Seqs.RemoveAt | backend/src/server-simple.js:202 | In a repeat-free key list, deleting a present key cuts out exactly its one entry and keeps the others in order. |
| Seqs.RemoveNoDups | backend/src/server-simple.js:202 | Deleting keeps the key list repeat-free, and deleting twice equals deleting once. |
| Seqs.KeysCount | backend/src/routes/ai.js:196 | `chatData.size` equals the number of wallets in insertion order. |
| Profiles.SkillTagsDistinct | backend/src/routes/ai.js:28-37 | The ten skill tests push ten different skills. |
| Profiles.InterestTagsDistinct | backend/src/routes/ai.js:40-43 | The four interest tests push four different interests. |
| Profiles.Detect | backend/src/routes/ai.js:27-43 | The pushed tags come from the rule list, are no more numerous than the rules, and do not repeat when the rule tags do not. |
| Profiles.DetectInOrder | backend/src/routes/ai.js:27-43 | The tags are pushed in rule order: the result is a subsequence of the rules' tags, which the first three skills of the task reply (ai.js:138) expose. |
| Profiles.TagsTail | backend/src/routes/ai.js:28-37 | Splits the tag list of the rules into its first tag and the rest, keeping the no-repeat property. |
| Profiles.DetectSound | backend/src/routes/ai.js:28-43 | A tag is pushed exactly when some rule with that tag has a trigger in the text. |
| Profiles.Analyze | backend/src/routes/ai.js:11-53 | An empty log gives the fixed default profile (`Profiles.DefaultProfile`, ai.js:13-21). Every profile has at least one skill and one interest, none repeated. |
| Profiles.AnalyzeLists | backend/src/routes/ai.js:28-47 | For a non-empty log, the skills are exactly `['blockchain', 'solana']` when no skill test fires, and otherwise exactly the pushed tags, a subsequence of the ten skill tags in test order; likewise the interests with `['collaboration']` and the four interest tags. |
| Profiles.AnalyzeVocabulary | backend/src/routes/ai.js:28-47 | Every skill and interest comes from the fixed vocabulary or the defaults. |
| Profiles.AnalyzeCounts | backend/src/routes/ai.js:48-49 | Style is active exactly above ten messages. Activity is high exactly above twenty, and low exactly for one to five. |
| Profiles.AnalyzeExpertise | backend/src/routes/ai.js:50-51 | Expert when the text has "deploy" or "production". Otherwise beginner when it has "learn" or "help". Otherwise intermediate. |
| Profiles.SkillDetected | backend/src/routes/ai.js:28-46 | For a non-empty log, a rule's skill is in the profile exactly when one of its keywords occurs in the text, or no skill rule fires and the skill is one of the defaults. |
| Profiles.InterestDetected | backend/src/routes/ai.js:40-47 | For a non-empty log, a rule's interest is in the profile exactly when one of its keywords occurs in the text, or no interest rule fires and the interest is the default `collaboration`. |
| Profiles.SolanaIffSol | backend/src/routes/ai.js:28-46 | For a non-empty log, `solana` is a skill exactly when the text contains "sol" or no skill keyword fires (the default list). |
| Profiles.JsGivesJavascript | backend/src/routes/ai.js:30 | "js" anywhere in the text yields `javascript`. |
| Profiles.KeywordInMessage | backend/src/routes/ai.js:23 | A keyword in any single lower-cased message occurs in the searched text (`Profiles.LogText`, the lower-cased contents joined by spaces). |
| Profiles.RustNftScenario | backend/src/routes/ai.js:29-48 | With twelve messages, one saying "rust" and one "nft", both skills appear and the style is active. |
| Profiles.KeywordAcrossMessages | backend/src/routes/ai.js:23-32 | Messages "smart" and "contract" together yield `smart contract`. |
| Profiles.ProfileIgnoresMetadata | backend/src/routes/ai.js:23-52 | The profile depends only on the message contents, not on timestamps or channels. |
| Matching.Common | backend/src/routes/ai.js:63 | The common skills are exactly those in both lists, no more than one's own, and do not repeat. |
| Matching.CommonInOrder | backend/src/routes/ai.js:63 | The filter keeps the requester's order: the common skills are a subsequence of the requester's list. |
| Matching.Score | backend/src/routes/ai.js:64 | The score is a proper fraction whose denominator is at least each list's length. |
| Matching.CommonCountSymmetric | backend/src/routes/ai.js:63 | Two repeat-free lists have the same number of common skills either way round. |
| Matching.ScoreSymmetric | backend/src/routes/ai.js:64 | The score does not depend on which side asks. |
| Matching.SuggestRole | backend/src/routes/ai.js:79-85 | The first rule that applies wins. Mentor exactly for an expert facing a beginner. Each later role exactly when its own condition holds and every earlier one fails. Collaborator exactly when none holds. |
| Matching.MentorOneWay | backend/src/routes/ai.js:80 | Mentoring never goes both ways. |
| Matching.LeadRolesPair | backend/src/routes/ai.js:81-82 | A pure frontend profile and a pure backend profile get frontend-lead and backend-lead toward each other. |
| Matching.Candidates | backend/src/routes/ai.js:59-74 | Every kept match is `Matching.Eligible`: another visited wallet with a score in [0, 1] above 0.2. There are no more matches than wallets. |
| Matching.CandidatesSound | backend/src/routes/ai.js:61-72 | Each kept match is `Matching.Evaluate` (the match object of lines 66-71) of its wallet's profile against the requester's. The profile is `Matching.ProfileOf`: the wallet's log, or an empty one, analysed. |
| Matching.CandidatesComplete | backend/src/routes/ai.js:59-74 | Every other wallet scoring above 0.2 is kept. |
| Matching.PrefixOfCandidates | backend/src/routes/ai.js:59-74 | Visiting one more wallet only adds matches. |
| Matching.CandidatesStep | backend/src/routes/ai.js:59-74 | One iteration of the loop appends the wallet's evaluation exactly when it qualifies. |
| Matching.ColdStartCandidate | backend/src/routes/ai.js:12-21 | A requester without a log is scored with the default profile, and any other wallet having `solana` among at most four skills is a candidate (before the cut to five). |
| Matching.AtMostTrans | backend/src/routes/ai.js:76 | "Scores no higher than" is transitive. |
| Matching.HigherOrdering | backend/src/routes/ai.js:76 | The comparator `b.score - a.score`, as `Matching.Higher` (cross-multiplied fractions), is asymmetric and its "not ahead of" is transitive. |
| Matching.Insert | backend/src/routes/ai.js:76 | Insertion adds one entry. |
| Matching.InsertPerm | backend/src/routes/ai.js:76 | Insertion adds exactly the new entry, as a multiset. |
| Matching.SortBy | backend/src/routes/ai.js:76 | The sort keeps the length. |
| Matching.SortPerm | backend/src/routes/ai.js:76 | The sort is a permutation of its input. |
| Matching.InsertSorted | backend/src/routes/ai.js:76 | Inserting into a sorted list keeps it sorted. |
| Matching.SortSorted | backend/src/routes/ai.js:76 | The sort's output has no entry ahead of an earlier one. |
| Matching.TiedMembers | backend/src/routes/ai.js:76 | The entries tied with a score are list entries with that score. |
| Matching.TiedAppend | backend/src/routes/ai.js:76 | Selecting tied entries distributes over concatenation. |
| Matching.TiedNone | backend/src/routes/ai.js:76 | No tied entry is selected when every entry is strictly ordered against the score. |
| Matching.AheadOfAll | backend/src/routes/ai.js:76 | An entry ahead of a sorted list's head is tied with nothing in it. |
| Matching.InsertTied | backend/src/routes/ai.js:76 | Inserting into a sorted list puts the new entry after every entry it ties with. |
| Matching.InsertTiedPast | backend/src/routes/ai.js:76 | The same, when the entry goes past the head. |
| Matching.SortStable | backend/src/routes/ai.js:76 | The sort is stable: entries tied on a score keep their relative order. |
| Matching.Top | backend/src/routes/ai.js:76 | Sorting and slicing gives `min(n, len)` entries. |
| Matching.TopSorted | backend/src/routes/ai.js:76 | The top entries are in descending order and come from the list. |
| Matching.TopComplete | backend/src/routes/ai.js:76 | An entry left out scores no higher than any of the `n` entries kept. |
| Matching.TopKeepsTieOrder | backend/src/routes/ai.js:76 | The kept entries tied on a score are the first of the list's entries tied on it, in list order. |
| Matching.TopFirstIsBest | backend/src/routes/ai.js:76 | The first kept entry is a list entry that no entry outscores. |
| Matching.TopMatches | backend/src/routes/ai.js:55-77 | `findMatches` returns at most five eligible matches, in descending order. |
| Matching.TopMatchesComplete | backend/src/routes/ai.js:55-77 | A qualifying match left out scores no higher than any of the five returned. |
| Matching.TopMatchesKeepTieOrder | backend/src/routes/ai.js:59-76 | Returned matches with equal scores keep the map's visiting order and really share the score. |
| Matching.GenerateIntroduction | backend/src/routes/ai.js:87-98 | The compatibility is the two profiles' score. The addresses are their first eight characters (`slice(0, 8)`). The common skills are exactly the shared ones. |
| Matching.IntroductionSymmetric | backend/src/routes/ai.js:87-98 | The compatibility is the same whichever wallet is named first, and equals the match score. |
| AiRoutes.IntentOf | backend/src/routes/ai.js:126-145 | The branch taken, each exactly when its test holds and every earlier one fails: partner keywords first, then "yes" with matches, then "task", then "nft", then "token", then help. |
| AiRoutes.CreateTaskSaysTask | backend/src/routes/ai.js:137 | The "create task" test is subsumed by the "task" test. |
| AiRoutes.IntentIgnoresCase | backend/src/routes/ai.js:126-141 | The message's case never changes the branch. |
| AiRoutes.ReplyFor | backend/src/routes/ai.js:126-145 | Each reply kind is given exactly on its branch (the partner branch split by whether there are matches). Each reply carries the top match, the active count, the introduction with the top match, the first three skills, or the match count, as its branch does. |
| AiRoutes.Respond | backend/src/routes/ai.js:120-151 | The answer is the branch's reply to the sender's profile and `findMatches` result. It reports the sender's profile and the first three of those matches: at most three, eligible, in descending order. |
| AiRoutes.SuggestedAreBest | backend/src/routes/ai.js:121-150 | A candidate left out of `suggestedMatches` scores no higher than any of the three suggested. Fewer than three are suggested only when every candidate is. |
| AiRoutes.CollaboratorIsBest | backend/src/routes/ai.js:126-129 | A reported collaborator is a candidate that no candidate outscores. |
| AiRoutes.IntroductionUsesTopScore | backend/src/routes/ai.js:133-136 | After "yes", the introduction's compatibility is the top suggested match's score. |
| AiRoutes.TotalIgnoresOthers | backend/src/routes/ai.js:183 | The message total ignores logs of wallets not in the map. |
| AiRoutes.TotalCountsOnce | backend/src/routes/ai.js:183 | Each wallet's log counts once in the total (`AiRoutes.TotalMessages`, the `reduce` over the map's values). |
| AiRoutes.ChatAddsOneMessage | backend/src/routes/ai.js:109-118 | One stored chat message raises the total by exactly one. |
| AiRoutes.TallyIntoCounts | backend/src/routes/ai.js:188-190 | Tallying a repeat-free skill list (`AiRoutes.TallyInto`, the `forEach`) adds one to each of its skills and changes nothing else. |
| AiRoutes.TallyCounts | backend/src/routes/ai.js:186-191 | For the tally over a sequence of lists (`AiRoutes.Tally`), each skill's count is the number of lists containing it, and a skill is a key exactly when that number is positive. |
| AiRoutes.SkillLists | backend/src/routes/ai.js:186-187 | One repeat-free skill list per wallet. |
| AiRoutes.TallyStep | backend/src/routes/ai.js:186-191 | Visiting one more profile adds exactly its skill list to the tally. |
| AiRoutes.SkillListsStep | backend/src/routes/ai.js:186-187 | Visiting one more wallet appends exactly its profile's skill list. |
| AiRoutes.SkillTallyCounts | backend/src/routes/ai.js:184-191 | `topSkills[s]` is the number of wallets whose profile lists `s`. |
| AiRoutes.ChatStore.constructor | backend/src/routes/ai.js:5-7 | The store starts empty. |
| AiRoutes.ChatStore.FindMatches | backend/src/routes/ai.js:55-77 | The loop over the map in insertion order yields `TopMatches`: at most five eligible matches, in descending order. |
| AiRoutes.ChatStore.Store | backend/src/routes/ai.js:109-118 | Appends the entry to the sender's log, creating the key at the end of the order on first use, and marks the sender active. |
| AiRoutes.ChatStore.Chat | backend/src/routes/ai.js:104-151 | Stores the message and answers from the updated state. |
| AiRoutes.ChatStore.Matches | backend/src/routes/ai.js:161-173 | Returns the matches, the profile, the user count and the active count. |
| AiRoutes.ChatStore.CountMessages | backend/src/routes/ai.js:183 | The summing loop gives the message total. |
| AiRoutes.ChatStore.TallyList | backend/src/routes/ai.js:188-190 | The inner loop tallies one skill list. |
| AiRoutes.ChatStore.TallySkills | backend/src/routes/ai.js:186-191 | The nested loops build the skill tally over the wallets in order. |
| AiRoutes.ChatStore.Analytics | backend/src/routes/ai.js:181-200 | Users, active users (no more than users), message total and skill tally. |
| AiRoutes.ChannelName | backend/src/routes/ai.js:115 | A missing or empty channel name becomes "general". |
| ChatServer.TopicOf | backend/src/server-simple.js:59-75 | Category priority: collaborate/partner/team, then code/develop/tech, then token/nft/blockchain, then general. |
| ChatServer.Replies | backend/src/server-simple.js:24-40 | Each category has one to three texts. |
| ChatServer.GenerateAIResponse | backend/src/server-simple.js:59-75 | The reply is one of the chosen category's texts, and the fixed text for tokens. |
| ChatServer.ReplyRevealsTopic | backend/src/server-simple.js:24-75 | No text is shared between categories, so a reply identifies its category. |
| ChatServer.TopicIgnoresCase | backend/src/server-simple.js:60 | The message's case never changes the category. |
| ChatServer.AiQueryDropsPrefix | backend/src/server-simple.js:177-178 | For a command, the query (`ChatServer.AiQuery`, the `replace`) is the content after "/ai ". |
| ChatServer.Classify | backend/src/server-simple.js:177-179 | Missing content throws. Content starting with "/ai " (case-sensitive) gets the reply to the rest. Anything else ends the handler. |
| ChatServer.WalletsOf | backend/src/server-simple.js:151 | One wallet per connection, in the map's insertion order: entry `i` is the wallet of the `i`-th connection, repeats included. |
| ChatServer.WalletsOfExact | backend/src/server-simple.js:151 | The broadcast list names exactly the wallets of live connections. |
| ChatServer.WalletListedPerConnection | backend/src/server-simple.js:151 | A wallet with two sockets is listed twice. |
| ChatServer.DisconnectIdempotent | backend/src/server-simple.js:202 | Deleting a socket twice equals deleting it once. |
| ChatServer.Server.constructor | backend/src/server-simple.js:19-21 | Empty buffer and empty connection map. |
| ChatServer.Server.ActiveWallets | backend/src/server-simple.js:151 | As many wallets as connections, entry `i` being the wallet of the `i`-th live socket in insertion order. |
| ChatServer.Server.Join | backend/src/server-simple.js:137-152 | Sets the socket's entry, keeping a re-joining socket's place. Sends the last 50 messages, which are the last 50 ever stored even when an AI reply has pushed the buffer past 1000, and the wallets of all connections. |
| ChatServer.Server.Push | backend/src/server-simple.js:166-171 | After push and splice, the buffer is the last 1000 messages ever pushed, newest last. |
| ChatServer.Server.OnMessage | backend/src/server-simple.js:159-179 | Stamps and stores the message, keeping the last 1000 with the new one last. Connections are untouched. The outcome is `Classify`'s. |
| ChatServer.Server.DeliverAiReply | backend/src/server-simple.js:181-190 | Appends the AI message (`ChatServer.AiMessage`, sender `AI_ASSISTANT`, lines 182-188) without cutting the buffer back. |
| ChatServer.Server.Disconnect | backend/src/server-simple.js:200-205 | Deletes only this socket's entry. Sends the remaining wallets. |
| ChatServer.SuffixStep | backend/src/server-simple.js:166-171 | Pushing onto a suffix of the history and cutting back to 1000 gives the last 1000 of the longer history. |
| ChatServer.TailOfSuffix | backend/src/server-simple.js:169-171 | The tail of a suffix is the tail of the whole. |
| RateLimit.Recent | backend/src/middleware/auth.js:43 | Keeps exactly the times after the window start, and no more of them than there were times. |
| RateLimit.RecentInOrder | backend/src/middleware/auth.js:43 | The kept times form a subsequence of the times: the filter keeps their order. |
| RateLimit.RecentCounts | backend/src/middleware/auth.js:43 | Each time after the window start is kept as often as it occurs (same-millisecond duplicates included), and every other time is dropped. |
| RateLimit.RecentAppend | backend/src/middleware/auth.js:43 | Filtering distributes over concatenation. |
| RateLimit.RecentOfRecent | backend/src/middleware/auth.js:43 | Filtering with a later start after an earlier one equals filtering with the later start alone. |
| RateLimit.RecentShrinks | backend/src/middleware/auth.js:43 | A later window start keeps no more times. |
| RateLimit.Decide | backend/src/middleware/auth.js:36-50 | Admitted exactly when fewer than `maxRequests` times lie in the window. A rejection stores the list unchanged. An admission stores the filtered list followed by `now`, at most `maxRequests` entries. |
| RateLimit.FirstRequestAdmitted | backend/src/middleware/auth.js:38-50 | A key's first request is admitted when `maxRequests >= 1`. |
| RateLimit.RejectionKeepsStaleTimes | backend/src/middleware/auth.js:45-47 | A rejected request leaves the stored list as it was, times outside the window included: `[1, 50]` at time 100 with a 60 ms window and a limit of one stays `[1, 50]`. |
| RateLimit.StepKeepsBound | backend/src/middleware/auth.js:38-50 | After one request (`RateLimit.Step`, the map update), every stored list stays within the bound, and no other key's list changes. |
| RateLimit.RateLimiter.constructor | backend/src/middleware/auth.js:30-31 | Keeps the parameters and starts with no keys. |
| RateLimit.RateLimiter.Default | backend/src/middleware/auth.js:30 | Defaults are 100 requests per 900000 ms. |
| RateLimit.RateLimiter.Handle | backend/src/middleware/auth.js:33-52 | Answers `Decide` on the key's list, creating an empty list for a new key. Only that key's entry changes, and the bound is kept. |
| RateLimit.NextAdmittedKeeps | backend/src/middleware/auth.js:43-50 | An admitted request keeps the run invariant. |
| RateLimit.PruneThenAppend | backend/src/middleware/auth.js:43-50 | Times pruned at one window start stay out of every later window, so the stored list still agrees with the admitted times. |
| RateLimit.NextRejectedKeeps | backend/src/middleware/auth.js:45-47 | A rejected request keeps the run invariant. |
| RateLimit.ReplayInvariant | backend/src/middleware/auth.js:33-52 | Along a run whose clock never goes back, the stored list agrees with the admitted times on the current window. |
| RateLimit.WindowBound | backend/src/middleware/auth.js:33-52 | After any such run, at most `maxRequests` admitted requests lie in the window ending at the last one. |
| ClientApp.AddTask | src/App.js:79-90 | A blank input changes nothing. Otherwise one open task with the input's text is appended and the box is cleared. |
| ClientApp.ToggleTask | src/App.js:92-96 | Flips `done` on every task with the id (`ClientApp.Toggled`, the `map` callback). Ids, texts, order and length stay. |
| ClientApp.ToggleLeavesOthers | src/App.js:93-95 | Tasks with another id are unchanged. |
| ClientApp.ToggleTwice | src/App.js:92-96 | Toggling the same id twice restores the list. |
| ClientApp.SendMessage | src/App.js:28-51 | A blank input does nothing. Otherwise the message is appended and emitted, and the AI query is posted exactly for a case-insensitive "/ai " prefix. The box is cleared at once for a plain message and keeps its text while an AI request is pending. |
| ClientApp.LowerCaseCommandQuery | src/App.js:45-51 | A lower-case command posts the input without its prefix. |
| ClientApp.MixedCaseCommandKeepsPrefix | src/App.js:45-51 | A command in other case, with no lower-case "/ai " anywhere, is posted whole. |
| ClientApp.CommandCutsFirstLowerPrefix | src/App.js:45-51 | A command that passes the case-insensitive test but has its first lower-case "/ai " later ("/AI x /ai y") loses that later occurrence only, keeping its own prefix. |
| ClientApp.UpperCaseCommandExample | src/App.js:45-51 | "/AI hello" is posted as "/AI hello". |
| ClientApp.NoLowerAiCommand | src/App.js:51 | "/AI hello" contains no lower-case "/ai ". |
| ClientApp.ReceiveAiAnswer | src/App.js:56-76 | A failed request adds nothing. An answer is appended as an AI_AGENT message with id `now + 1`, and emitted when there is a socket. Either way the box is then cleared, discarding whatever was typed meanwhile. |
| ClientApp.OnIncoming | src/App.js:19-22 | The list grows by the payload's message exactly when there is one from another sender. |
| ClientApp.SentMessageNotEchoed | src/App.js:19-43 | The server's echo of one's own message does not add a second copy. |
| ClientApp.AiAnswerEchoedBack | src/App.js:19-69 | The echo of the AI answer the asker emitted is appended again, since its sender `AI_AGENT` is not the wallet. |

## Left out

- Lower-casing: `Text.Lower` maps only ASCII A–Z. JavaScript's `toLowerCase` is full Unicode.
- Floating point: scores are exact fractions. With at most ten skills per side, the doubles of the source order the same way.
- Rendering: `Math.round` percentages, emoji and the template texts of every reply are not produced. Replies carry their values instead.
- Broadcasting: the `io.emit` / `socket.emit` calls are not modelled as side effects. The handlers return what they would send.
- The `setTimeout` delay of the server's AI reply: `DeliverAiReply` is a separate, later call.
- Random data: `generateAIMatch` and the `aiMatch` events it feeds are random fabrications and are left out.
- Other server-simple.js routes: `/api/blockchain/create-token`, `/api/ai/chat`, `/api/ai/matches/:walletAddress` and `/api/users/active` answer with random data or copies, and are left out.
- `activeUserRatio` (a float division) and `totalInteractions` (a copy of `totalMessages`) are not returned by `AiRoutes.ChatStore.Analytics`.
- `topSkills` is a JS object, whose key order is not modelled; it is a `map`.
- Non-string chat messages: the model takes `message` to be a string. In ai.js a `/chat` body whose `message` is not a string is stored first (lines 109-116). Analysing that log then throws at `m.content.toLowerCase()` (line 23), so that request answers 500. Worse, the log stays: every later `/chat` from any wallet analyses every stored wallet in `findMatches` (lines 59-62), and `/matches` and `/analytics` (lines 186-187) analyse them too. From then on all three answer 500 for every user. This poisoned state is not modelled.
- Undefined wallet addresses: the model takes `walletAddress` to be a string. In ai.js a `/chat` without one stores its message under the key `undefined`. If that key becomes another wallet's top match, the partner reply throws at `topMatch.walletAddress.slice` (line 129) and the answer is 500. The same throw happens in `generateIntroduction` (line 95) after "yes", for the sender or the match. This is not modelled.
- `userProfiles` in ai.js is never used and is not modelled.
- `authenticateWallet` (JWT and the database) is not part of this model. Neither is any other file of the repository: the React rendering of src/App.js, craco.config.js, the database layer.
- `ChatServer.MessageData` carries `sender`, `content` and `type` at the top level. It does not carry the nested `message` and `channel` fields of the payload App.js emits (App.js:42). So the echo the client filters (`ClientApp.OnIncoming`, App.js:19-22) is modelled from the client's own message shape, not built from `ChatServer.Message`.
- Wallet and socket identifiers are strings; an undefined `walletAddress` on `join` is not modelled.
- `RateLimit.WindowBound` is proved for one key's run. `RateLimiter.Handle` touches only the requesting key, so each key runs independently, but the model has no multi-key replay.
