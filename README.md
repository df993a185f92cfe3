# ThoughtFork in Dafny

ThoughtFork is a browser extension that watches a chat page and reads each conversation turn
from the page's DOM. It keeps the turns in one locally stored, branchable document, and a side
panel shows that document as a Kanban board, a network graph and a statistics dashboard. This
project models the extension's core and proves properties of it:

- **The store** (`storage.dfy`, module `Storage`). The class `StorageManager` holds the one
  stored blob, as `None` when nothing is stored yet. Its methods follow the source's steps:
  - load the document;
  - change a copy of it;
  - write the whole document back with `saveData`.

  Each method is proved to leave exactly the document a pure function computes (`Ingest`,
  `Fork`, `Update`, `Saved`). Lemmas about those functions state what each operation adds and
  keeps, and that the references between records stay resolvable (`WellLinked`).
- **The content script**:
  - `parser.dfy` (module `Parser`) covers role detection, the choice of the content element, the
    three `cleanContent` passes over an abstract element tree, and `parseMessage`.
  - `observer.dfy` (module `Observer`) covers the `ConversationObserver` class: the conversation
    id taken from the path, the scan of existing turns that chains each message to the previous
    one, new-node handling and the URL check.
- **Keyword extraction** (`keywords.dfy`): the tokeniser, the counting loops over an
  insertion-ordered map, and the stable sort by descending count. It is proved against a
  specification function `KeywordsOf`, whose keywords are distinct, counted words in order of
  frequency.
- **The side panel's logic**:
  - the `createBranch` hook (`branches.dfy`);
  - the dashboard statistics (`dashboard.dfy`): role counts, memoised depth, maximum depth,
    the 20-slot histogram, keywords and last activity;
  - the Kanban columns (`kanban.dfy`);
  - the network nodes, links and node styling (`network.dfy`);
  - the settings dialog's import, Markdown export and `DELETE` guard (`settings.dfy`);
  - the message card's tag and colour updates (`message_card.dfy`);
  - the filter bar's tag toggle (`filter_bar.dfy`).
- **Shared helpers**:
  - `wrappers.dfy`: `Option` and `Result`;
  - `seqs.dfy`: `filter`, `findIndex` and counting;
  - `text.dfy`: `slice`, `includes`, `toLowerCase`, `trim` and decimal rendering;
  - `sorting.dfy`: the stable `Array.prototype.sort`;
  - `types.dfy`: the records;
  - `utils.dfy`: the shared utilities.

How the outside world enters the model:

- **Generated ids, the clock, the page and user answers.** What `generateId()` and
  `new Date()` return is passed in as a parameter:
  - `mainBranchId`, `branchId` and `tagId`;
  - `ids(k)` and `clock(k)` for the `k`-th turn of a scan;
  - `now`.

  The page path, address and element tree are parameters too, and so are the user's answers to
  `confirm` and `prompt`.
- **Timestamps.** A message's `timestamp` is the integer `new Date(timestamp).getTime()` gives,
  because it is sorted and binned. Every other time stamp is opaque ISO text.
- **The blob.** `JSON.stringify` and `JSON.parse` of the blob are taken to be the identity.

Where the design description and the code disagree, the model follows the code:

- A stored message keeps the branch id it arrives with. A parsed message carries the placeholder
  `"main"`:
  - it does not inherit its parent's branch;
  - it is not re-pointed at the root branch when that id names no branch;
  - for a known conversation it therefore joins no branch's `messageIds`
    (`Storage.PlaceholderLandsNowhere`).
- `addMessage` appends the message even when a message with that id is already stored. It also
  appends to `messageIds` without checking for duplicates. Only the parent's `childIds` is
  guarded against a duplicate.
- These operations do not exist in the repository's store, so they are not modelled:
  - renaming a branch;
  - deleting a branch, with its cascade;
  - updating a branch.
- The Kanban view's tag filter is commented out, so `selectedTags` has no effect and is no
  parameter of `Kanban.KanbanBoard`.

## Model

| member | source | states |
|---|---|---|
| Storage.StorageManager.GetData | src/shared/storage.ts:14-34 | with nothing stored, the whole initial document; with a non-empty conversation id, the stored document restricted to that conversation's conversations, messages and branches; otherwise the stored document |
| Storage.Restrict | src/shared/storage.ts:23-31 | only the three filtered lists change; a message, branch or conversation is kept exactly when it is stored and belongs to the id |
| Storage.RestrictKeepsOrder | src/shared/storage.ts:23-31 | restricting keeps the stored order: cut any list anywhere, and the records kept from before the cut precede those kept from after it |
| Storage.RestrictKeepsCounts | src/shared/storage.ts:23-31 | restricting keeps every conversation, message and branch of the conversation exactly as often as it is stored, and no other |
| Storage.StorageManager.SaveData | src/shared/storage.ts:39-42 | the blob becomes the document with `meta.updatedAt` stamped |
| Storage.InitialWellLinked | src/shared/storage.ts:159-178 | the initial document has no dangling references |
| Storage.EnsureConversation | src/shared/storage.ts:50-61 | the returned index is that of a stored conversation |
| Storage.LinkChild | src/shared/storage.ts:63-69 | exactly the first message with the parent's id gains the child's id at the end of `childIds`, and only when the parent is truthy and the id is not yet listed; duplicate-free child lists stay duplicate-free |
| Storage.LinkChildShape | src/shared/storage.ts:63-69 | linking changes no id and no branch-point mark, and at most appends the child's id |
| Storage.AppendToBranch | src/shared/storage.ts:74-78 | exactly the first branch with that id gains the message id at the end; an unknown branch id changes nothing |
| Storage.AppendToBranchShape | src/shared/storage.ts:74-78 | appending changes no branch id or fork point, and at most appends the message id |
| Storage.IngestAppendsMessage | src/shared/storage.ts:71-72 | one message more, the stored (possibly re-pointed) message at the end, with tags, settings, version and meta untouched |
| Storage.IngestNewConversation | src/shared/storage.ts:50-78 | an unseen conversation gains one conversation rooted at one new parentless "Main" branch, which then holds just the message; earlier records are kept, the parent gains the child link, and the message is stored re-pointed at that branch and otherwise as given |
| Storage.IngestKnownConversation | src/shared/storage.ts:50-81 | for a stored conversation only its `updatedAt` changes, and the message is stored as given and lands in the first branch with its branch id |
| Storage.PlaceholderLandsNowhere | src/shared/storage.ts:74-78 | a message whose branch id names no branch changes no branch |
| Storage.IngestShape | src/shared/storage.ts:47-84 | what the conversation, child-link and branch steps leave, as facts about ids and lists |
| Storage.IngestKeepsLinked | src/shared/storage.ts:63-78 | child ids and branch member ids stay resolvable |
| Storage.IngestKeepsRoots | src/shared/storage.ts:50-61 | every conversation's root branch stays stored |
| Storage.IngestKeepsForkPoints | src/shared/storage.ts:47-84 | every fork point stays marked as a branch point |
| Storage.IngestPreservesWellLinked | src/shared/storage.ts:47-84 | `addMessage` keeps the document well linked |
| Storage.StorageManager.AddMessage | src/shared/storage.ts:47-84 | the blob becomes the saved `Ingest` of the loaded document |
| Storage.Fork | src/shared/storage.ts:95-120 | fails with "Fork message not found" exactly when no message has the id; otherwise marks the first such message as a branch point and appends the new branch with the given fields, empty members and the fork message's branch as parent |
| Storage.ForkPreservesWellLinked | src/shared/storage.ts:95-120 | `createBranch` keeps the document well linked |
| Storage.StorageManager.CreateBranch | src/shared/storage.ts:89-121 | on failure the blob is unchanged and the error returned; on success the blob is the saved forked document and the new branch is returned |
| Storage.StorageManager.AddTag | src/shared/storage.ts:126-139 | returns the new tag with the fresh id and time, and the blob gains exactly that tag at the end |
| Storage.Update | src/shared/storage.ts:144-154 | fails with "Message not found" exactly when no message has the id; otherwise only the first such message changes, to the merge of the patch |
| Storage.StorageManager.UpdateMessage | src/shared/storage.ts:144-154 | on failure the blob is unchanged; on success it is the saved updated document |
| Types.MergeLaws | src/shared/storage.ts:152 | merging the empty patch changes nothing; merging a patch twice is merging it once |
| Utils.Truncate | src/shared/utils.ts:49-52 | text that fits is returned as is; otherwise the first `length` characters followed by "..." |
| Utils.GenerateBranchColor | src/shared/utils.ts:69-71 | the palette entry at `index` modulo 18 |
| Utils.BranchColorPeriod | src/shared/utils.ts:69-71 | branch colours repeat with period 18 |
| Utils.DefaultTags | src/shared/utils.ts:14-23 | five preset tags with the preset ids in order, all stamped `now` |
| Utils.DefaultColorPalette | src/shared/utils.ts:28-30 | the eight default colours |
| Keywords.SeparatorRunEnd | src/shared/keywordExtractor.ts:17 | the end of a maximal run of separator characters |
| Keywords.SplitFrom | src/shared/keywordExtractor.ts:17 | at least one field, and every field is made of word characters of the text |
| Keywords.KeptWords | src/shared/keywordExtractor.ts:19-23 | every counted word passes the length, stop-word and digit tests and is a word of the message |
| Keywords.KeptWordsIsFilter | src/shared/keywordExtractor.ts:19-23 | the early returns amount to filtering the words |
| Keywords.TokensKept | src/shared/keywordExtractor.ts:13-23 | every token of a message is a counted lower-case word |
| Keywords.AllTokensKept | src/shared/keywordExtractor.ts:12-26 | every token of every message is a counted lower-case word |
| Keywords.KeysSpec | src/shared/keywordExtractor.ts:24 | the map's keys are distinct and are exactly the counted words |
| Keywords.KeysSnoc | src/shared/keywordExtractor.ts:24 | a word adds a key only when it was not met before |
| Keywords.CountOfMultiplicity | src/shared/keywordExtractor.ts:24 | a word's count is its number of occurrences |
| Keywords.WordMap.Set | src/shared/keywordExtractor.ts:24 | `set` updates the value and appends only a new key |
| Keywords.CountsSnoc | src/shared/keywordExtractor.ts:24 | one `set(word, get(word)+1)` counts one more word |
| Keywords.CountWords | src/shared/keywordExtractor.ts:19-25 | the inner loop leaves the counts of the words seen so far plus this message's counted words |
| Keywords.CountMessages | src/shared/keywordExtractor.ts:12-26 | the outer loop leaves the counts of all tokens of all messages |
| Keywords.Entries | src/shared/keywordExtractor.ts:29 | one entry per key, in key order, with its count |
| Keywords.TopWords | src/shared/keywordExtractor.ts:31-32 | `slice(0, count)` keeps `SliceEnd` entries and projects their words |
| Keywords.ExtractKeywords | src/shared/keywordExtractor.ts:1-33 | the loops, sort, slice and map compute `KeywordsOf` |
| Keywords.KeysInFirstEncounterOrder | src/shared/keywordExtractor.ts:10-26 | keys come in the order their words are first met |
| Keywords.RankedFromEntries | src/shared/keywordExtractor.ts:29-30 | each sorted entry is a map entry with its count |
| Keywords.RankedOrder | src/shared/keywordExtractor.ts:29-30 | sorted by descending count, ties in insertion order |
| Keywords.WordIsRanked | src/shared/keywordExtractor.ts:29-30 | every counted word has its entry in the sorted entries |
| Keywords.NoMessagesNoKeywords | src/shared/keywordExtractor.ts:2 | no messages, or only empty ones, give no keywords |
| Keywords.EmptyMessageIgnored | src/shared/keywordExtractor.ts:13 | an empty message inserted at any position of the list changes no keyword |
| Keywords.KeywordsAreRankedWords | src/shared/keywordExtractor.ts:29-32 | each keyword is the word of the sorted entry at its place |
| Keywords.KeywordsAreCountedWords | src/shared/keywordExtractor.ts:19-32 | at most `count` keywords, each a counted lower-case word |
| Keywords.KeywordsDistinct | src/shared/keywordExtractor.ts:29-32 | no keyword appears twice |
| Keywords.KeywordsByFrequency | src/shared/keywordExtractor.ts:29-32 | counts never increase along the keywords, and equal counts keep first-met order |
| Keywords.KeywordsAreMostFrequent | src/shared/keywordExtractor.ts:29-32 | a counted word left out means exactly `count` keywords, each at least as frequent |
| Sorting.SortBySorted | src/sidepanel/components/DashboardView.tsx:18 | the sort's output is ordered by the key |
| Sorting.SortByStable | src/shared/keywordExtractor.ts:29-30 | equal keys keep their input order |
| Sorting.SortedFirstIsLeast | src/sidepanel/components/DashboardView.tsx:50-51 | the first sorted element has the least key and the last the greatest |
| Text.Trim | src/content/parser.ts:102 | neither end of the result is white space, and only white space was cut off |
| Text.Contains | src/sidepanel/components/KanbanView.tsx:28 | `includes` holds exactly when the query occurs at some index |
| Parser.FirstMatch | src/content/parser.ts:73-74 | a found node matches the selector |
| Parser.FirstMatchInDocumentOrder | src/content/parser.ts:73-74 | the depth-first search finds the first match in document order |
| Parser.QuerySelectorAll | src/content/content.ts:50 | every listed node matches the selector |
| Parser.QuerySelectorIsFirstOfAll | src/content/parser.ts:73-74 | `querySelector` is the first node `querySelectorAll` lists |
| Parser.DetectRole | src/content/parser.ts:47-66 | a "human" test id or a user-message descendant gives the human role |
| Parser.DetectRoleFollowsRules | src/content/parser.ts:47-66 | the role is that of the first applicable rule in priority order, "assistant" by default |
| Parser.ContentSource | src/content/parser.ts:73-75 | `.prose`, else the message-content element, else the turn itself |
| Parser.FenceCode | src/content/parser.ts:89-91 | the first pass keeps the shape of the forest |
| Parser.Breaks | src/content/parser.ts:94-96 | the second pass keeps the shape of the forest |
| Parser.Blocks | src/content/parser.ts:98-100 | the third pass keeps the shape of the forest |
| Parser.PassesFlattenNode | src/content/parser.ts:84-103 | the three passes over one node read back as its one-reading text |
| Parser.PassesFlatten | src/content/parser.ts:84-103 | the three passes over a forest read back as its one-reading text |
| Parser.CleanContentIsFlattened | src/content/parser.ts:84-103 | `cleanContent` is the trimmed one-reading text, with fenced code, a break per `br` and after each `p` and `div` |
| Parser.ParseMessage | src/content/parser.ts:7-42 | no record exactly when the text is empty; otherwise the fresh record with the detected role, the text, a preview of at most 100 characters, the "main" placeholder branch and no children, tags, colour or note |
| Observer.IdRunEnd | src/content/content.ts:23 | the end of the maximal run of id characters |
| Observer.ChatIdFrom | src/content/content.ts:23 | no capture only when the regular expression matches nowhere |
| Observer.ChatIdFromLeftmost | src/content/content.ts:23 | the leftmost match's whole id run is captured |
| Observer.ChatIdFromNone | src/content/content.ts:23 | without a match nothing is captured |
| Observer.ConversationIdOfChatPath | src/content/content.ts:22-25 | a chat path yields the non-empty id run after the first "/chat/" |
| Observer.ConversationIdFallback | src/content/content.ts:22-25 | the fresh id is used exactly when the path has no match |
| Observer.ChainedSnoc | src/content/content.ts:52-57 | a message whose parent is the chain's end extends the chain |
| Observer.ThreadChains | src/content/content.ts:52-57 | the sent messages form a parent chain from the previous last message to the new one, at most one per element |
| Observer.ThreadStep | src/content/content.ts:52-57 | an element that parses sends one message and moves the last id; one that does not changes nothing |
| Observer.FailedParsesAreSkipped | src/content/content.ts:53-57 | an element that does not parse changes neither the sent messages nor the last id |
| Observer.ScanChains | src/content/content.ts:44-59 | a scan sends a chain of at most one message per turn, and nothing without a container |
| Observer.ParseTurns | src/content/content.ts:52-58 | the loop sends and leaves what `Thread` says |
| Observer.ScanPage | src/content/content.ts:44-59 | the container's turns scanned as `Scan` says |
| Observer.ConversationObserver.constructor | src/content/content.ts:14-17 | the id from the path, and the existing turns scanned with no last message |
| Observer.ConversationObserver.ParseExistingMessages | src/content/content.ts:44-59 | the scan's messages are sent after the earlier ones and its last id kept |
| Observer.ConversationObserver.HandleNewNode | src/content/content.ts:86-103 | at most one message is sent: that of the node if it is a turn, else of its first turn descendant, when it parses |
| Observer.ConversationObserver.CheckUrl | src/content/content.ts:111-118 | an unchanged address changes nothing; otherwise a new id, no last message and a fresh scan |
| Branches.BranchName | src/sidepanel/hooks/useBranches.ts:17 | a truthy name is kept, otherwise "Branch-" and the count plus one; never empty |
| Branches.DefaultNamesDistinct | src/sidepanel/hooks/useBranches.ts:17 | different counts give different default names |
| Branches.CreateBranch | src/sidepanel/hooks/useBranches.ts:9-21 | the store's `createBranch` with the derived name and the colour of the conversation's branch count |
| Branches.BranchCountOfConversation | src/sidepanel/hooks/useBranches.ts:11-12 | the count is the number of the conversation's branches (all branches for an empty id) |
| Dashboard.RoleCountsAddUp | src/sidepanel/components/DashboardView.tsx:21-24 | user and assistant counts add up to the total |
| Dashboard.MessageMap | src/sidepanel/components/DashboardView.tsx:29 | every message id is a key, and each key maps to a message with that id |
| Dashboard.MessageMapSize | src/sidepanel/components/DashboardView.tsx:29 | no more keys than messages |
| Dashboard.MessageMapLastWins | src/sidepanel/components/DashboardView.tsx:29 | a message no later message shares its id with is the one stored |
| Dashboard.DepthFuelMonotone | src/sidepanel/components/DashboardView.tsx:31-42 | more steps than needed change no depth |
| Dashboard.DepthIsFuelFree | src/sidepanel/components/DashboardView.tsx:31-42 | any sufficient step bound gives the depth |
| Dashboard.DepthRecurrence | src/sidepanel/components/DashboardView.tsx:31-42 | 0 for an unknown id, 1 without a parent, else one more than the parent's depth |
| Dashboard.GetDepth | src/sidepanel/components/DashboardView.tsx:31-42 | the memoised recursion returns the depth and keeps every memo entry correct |
| Dashboard.AncestorDepth | src/sidepanel/components/DashboardView.tsx:31-42 | each step up the chain is a stored message one level shallower |
| Dashboard.DepthBound | src/sidepanel/components/DashboardView.tsx:31-47 | no depth exceeds the number of messages |
| Dashboard.MaxDepthIsMax | src/sidepanel/components/DashboardView.tsx:44-47 | the running maximum is the largest depth and is attained, 0 for no messages |
| Dashboard.MaxDepthBound | src/sidepanel/components/DashboardView.tsx:44-47 | the maximum depth is at most the number of messages |
| Dashboard.MaxDepth | src/sidepanel/components/DashboardView.tsx:27-47 | the loop with the shared memo computes the maximum depth |
| Dashboard.BinIndex | src/sidepanel/components/DashboardView.tsx:66 | a slot below 20, the last one or the one whose twentieth of the span holds the offset |
| Dashboard.Binned | src/sidepanel/components/DashboardView.tsx:60-68 | always 20 bins |
| Dashboard.BinnedSum | src/sidepanel/components/DashboardView.tsx:60-68 | the bins add up to the number of messages |
| Dashboard.BinnedCounts | src/sidepanel/components/DashboardView.tsx:63-68 | bin `k` counts exactly the messages whose slot is `k` |
| Dashboard.ComputeBins | src/sidepanel/components/DashboardView.tsx:60-68 | the array loop fills the bins as `Binned` says |
| Dashboard.SortedFromStart | src/sidepanel/components/DashboardView.tsx:50-61 | the span is positive and no timestamp precedes the start |
| Dashboard.Activity | src/sidepanel/components/DashboardView.tsx:18-68 | the bins over the time-sorted messages and the last timestamp |
| Dashboard.ActivityBinsSum | src/sidepanel/components/DashboardView.tsx:60-68 | 20 bins adding up to the number of messages |
| Dashboard.Contents | src/sidepanel/components/DashboardView.tsx:55 | the contents of the messages, in order |
| Dashboard.LastActiveIsLatest | src/sidepanel/components/DashboardView.tsx:82 | absent exactly without messages, else the latest timestamp |
| Dashboard.ComputeStats | src/sidepanel/components/DashboardView.tsx:11-84 | no statistics without a document, else `StatsOf` |
| Dashboard.StatsCounts | src/sidepanel/components/DashboardView.tsx:21-24 | role counts and bins each add up to the total |
| Dashboard.StatsMaxDepth | src/sidepanel/components/DashboardView.tsx:27-47 | the largest depth of any message, 0 without messages, at most their number |
| Dashboard.StatsLastActive | src/sidepanel/components/DashboardView.tsx:82 | the latest timestamp, absent exactly without messages |
| Kanban.ColumnContents | src/sidepanel/components/KanbanView.tsx:23-33 | a column holds exactly the branch's matching messages, as often as stored, sorted by time |
| Kanban.EmptyQueryKeepsAll | src/sidepanel/components/KanbanView.tsx:28 | an empty query filters nothing |
| Kanban.SearchIgnoresQueryCase | src/sidepanel/components/KanbanView.tsx:28 | the search ignores the case of the query |
| Kanban.KanbanBoard | src/sidepanel/components/KanbanView.tsx:15-47 | the placeholder exactly without data or branches, else one column per branch in order with its count |
| Network.Nodes | src/sidepanel/components/NetworkView.tsx:35-41 | one node per message, with its id, role, preview, colour and mark |
| Network.Links | src/sidepanel/components/NetworkView.tsx:43-48 | one link per message with a truthy parent, never more than nodes |
| Network.LinksAreParentEdges | src/sidepanel/components/NetworkView.tsx:43-48 | every link is a parent edge and every parent edge is a link |
| Network.LinkTargetsAreNodes | src/sidepanel/components/NetworkView.tsx:35-48 | every link's target is a node |
| Network.NodeStyle | src/sidepanel/components/NetworkView.tsx:81-84 | a branch point is larger and the only kind with a stroke; the fill is the message colour, else the role's |
| Settings.Validate | src/sidepanel/components/SettingsModal.tsx:77-79 | accepted exactly with a truthy version and an array of messages; otherwise "Invalid ThoughtFork data format" |
| Settings.ImportFile | src/sidepanel/components/SettingsModal.tsx:63-89 | no file, a cancel, a parse error, a rejected document or a document without a `meta` object (where `saveData` throws) store nothing and alert the error's message; any other document replaces the blob |
| Settings.MessageBlock | src/sidepanel/components/SettingsModal.tsx:42-44 | the role heading, the content, and the closing rule |
| Settings.BlockForFirstMatch | src/sidepanel/components/SettingsModal.tsx:40-41 | an id without a message is skipped, else the first message with it is written |
| Settings.BlocksSnoc | src/sidepanel/components/SettingsModal.tsx:39-45 | each id appends its block |
| Settings.SectionsSnoc | src/sidepanel/components/SettingsModal.tsx:37-46 | each branch appends its section |
| Settings.MarkdownAddBranch | src/sidepanel/components/SettingsModal.tsx:33-46 | the export starts with its header, and one more branch appends one section |
| Settings.WriteBlocks | src/sidepanel/components/SettingsModal.tsx:39-45 | the inner loop writes the blocks |
| Settings.WriteMarkdown | src/sidepanel/components/SettingsModal.tsx:33-46 | the nested loops write the Markdown |
| Settings.ExportMarkdown | src/sidepanel/components/SettingsModal.tsx:29-46 | the Markdown of the whole loaded document |
| Settings.ClearData | src/sidepanel/components/SettingsModal.tsx:91-97 | the blob is wiped exactly when the answer is "DELETE" |
| MessageCard.AddTagPatch | src/sidepanel/components/MessageCard.tsx:21-28 | no update exactly when the tag is already present |
| MessageCard.AddTagAppends | src/sidepanel/components/MessageCard.tsx:21-26 | the update appends the tag and nothing else, keeps tags distinct, and a second add issues nothing |
| MessageCard.ColorPatch | src/sidepanel/components/MessageCard.tsx:30-33 | the update carries the chosen colour |
| MessageCard.SetColorChangesOnlyColor | src/sidepanel/components/ColorPicker.tsx:34-36 | only the colour changes, and a reset leaves none |
| MessageCard.MessageTagsMembers | src/sidepanel/components/MessageCard.tsx:19 | a tag is shown exactly when listed and on the message, as often as listed |
| MessageCard.DisplayedContent | src/sidepanel/components/MessageCard.tsx:97 | at most 153 characters: the content, or its first 150 characters and "..." |
| FilterBar.ToggleMembership | src/sidepanel/components/FilterBar.tsx:20-23 | the clicked id flips its selection, and every other id keeps its own |
| FilterBar.ToggleKeepsOthers | src/sidepanel/components/FilterBar.tsx:21-23 | the other ids keep their order; an unselected id is appended |
| FilterBar.ToggleTwice | src/sidepanel/components/FilterBar.tsx:21-23 | toggling an unselected id twice restores the selection |
| FilterBar.ToggleKeepsDistinct | src/sidepanel/components/FilterBar.tsx:21-23 | a duplicate-free selection stays duplicate-free |
| FilterBar.OfferedTags | src/sidepanel/components/FilterBar.tsx:47 | the first five tags, or all of them when fewer |

## Left out

- I/O is not modelled:
  - `localStorage`, file reading, `Blob` downloads, `alert`;
  - `chrome.runtime.sendMessage` (sent payloads are collected in `sent`);
  - the `MutationObserver` wiring and the `popstate`/`pushState` hooks;
  - `destroy`.
- JSON serialisation is taken to be the identity. An import document is abstracted as
  `ImportDocument`: whether its `version` is truthy, whether `messages` is an array, the message
  of the `TypeError` that `saveData` throws when `meta` is not an object, and the document as the
  store would hold it.
- Settings.ImportFile: a document that passes the check but whose other lists are missing or
  malformed is imported as the store would hold it, because `contents` is always a well-formed
  document; the source stores such a document too, and it only fails later when it is read. The
  text of the `TypeError` is engine-defined and is carried by the document, not computed.
- `generateId`, `new Date()` and `Date.now()` are parameters, as are the page, the address and
  the user's confirmations. So the model assumes nothing about fresh ids except where a lemma
  requires it.
- Storage.StorageManager.AddMessage: one clock reading `now` stands for every `new Date()` the
  operation makes. These are the four of `createInitialData` when nothing is stored
  (storage.ts:163-164, and one in each of the two `getDefaultTags` calls at storage.ts:170 and
  storage.ts:174, utils.ts:15), the two of
  `createConversation` (storage.ts:189-190), the one of `createMainBranch` (storage.ts:206),
  the one for the conversation's `updatedAt` (storage.ts:81) and the one in `saveData`
  (storage.ts:40). So the contract makes these time stamps equal, which the source does not
  guarantee when the clock moves on between two readings.
- Storage.IngestNewConversation and Storage.IngestKnownConversation: with the same single `now`,
  they state that the new conversation's `createdAt` and `updatedAt`, the "Main" branch's
  `createdAt` and the touched conversation's `updatedAt` are one time stamp.
- Storage.StorageManager.CreateBranch and Storage.StorageManager.AddTag: one `now` stands for
  the record's `createdAt` (storage.ts:112, storage.ts:132), for `meta.updatedAt` in `saveData`,
  and for the readings of `createInitialData` when nothing is stored.
- Storage.StorageManager.GetData and Storage.InitialData: one `now` stands for the four
  readings of `createInitialData` (storage.ts:163-164, and the two `getDefaultTags` calls at
  storage.ts:170 and storage.ts:174). So `meta.createdAt`, `meta.updatedAt` and every preset
  tag's `createdAt` are equal, and `settings.presetTags` is identical to `tags`; the source
  guarantees that only when the two `getDefaultTags` calls read the same time.
- The floating-point parts of the dashboard are left out: `durationMinutes`, `tokensEstimate`
  and the normalised sparkline.
- These views have no logic of their own and are not modelled: the d3 force layout, zoom and
  drag; the 3-D view; the tag and colour pickers; the sidebar; the view switcher.
- `formatDate` and `isLightColor` are not modelled, because they are locale formatting and
  floating-point arithmetic.
- Parser.ParseMessage: the `try`/`catch` is not modelled, because the modelled DOM operations
  cannot throw. The `!role` test is not modelled either, because `detectRole` never returns null.
- Parser elements are values, so `innerHTML` round trips and in-place DOM mutation are modelled
  as passes over a tree that return a new tree.
- Text.LowerChar: lower-cases ASCII letters only. The source's `toLowerCase` also maps
  non-ASCII letters.
- Strings are sequences of code points. UTF-16 surrogate pairs are not modelled.
- Dashboard.BinIndex: computes `floor((t - start) * 20 / span)` exactly, in integer arithmetic.
  This can differ from the source's floating-point `(relative / timeSpan) * binCount` only where
  rounding moves a value across a whole number.
- Dashboard.GetDepth: requires the parent chain from the id to end. Dashboard.MaxDepth,
  Dashboard.ComputeStats and the `Stats` lemmas require every message's chain to end
  (`Acyclic`). On a cycle the
  source recurses until the stack overflows.
- Storage.IngestPreservesWellLinked: requires the incoming message to list no children, as
  every parsed message does. The source does not check this.
- Storage.IngestNewConversation: requires the generated "Main" branch id to name no stored
  branch. The source relies on `generateId` for this.
- Observer.ConversationObserver.ParseExistingMessages: appends the scanned messages to `sent`
  after the loop, not one per iteration. The order and the contents of what is sent are the
  same.
- Message timestamps are integers. An unparsable ISO string, which `getTime()` turns into
  `NaN`, is not modelled.
