# Admin panel: protocols, parsers and encoders

A Dafny model of the parts of the administration front end whose correctness
spans several steps, with proofs. `dafny verify dfyconfig.toml` checks it.

## The modules

| file | what it models |
|---|---|
| `EntryMonitorModel` | the payload of the entry-monitor configuration, its normalisation, and the merge of live data into edited drafts |
| `EntryMonitorTab` | one tab as a class over the refs of the component: poll, edit, validate, save, run now |
| `EntryMonitorSelection` | what an edit of the selection selects |
| `EntryMonitorLoaded` | what a payload loads as, field by field |
| `EntryMonitorRuns` | all interleavings of one tab's polls, edits, saves and detection runs |
| `EntryMonitorEdits` | what one edit changes, what an answer shows, what a save may send |
| `EntryMonitorFleet` | any number of tabs against one compare-and-set server |
| `EntryMonitorRevisions` | when a tab's revision rises and falls |
| `EntryMonitorConfig`, `EntryMonitorFlights`, `EntryMonitorContent` | what accepted saves leave of the configuration they replace |
| `BackupEndpoints` | the backup-address lines, the endpoint parser and its printer |
| `MarkdownLines`, `Markdown` | the regular expressions and the block loop of the Markdown subset |
| `MarkdownShapes` | which block a line starts, what it holds and where it ends, on the lines alone |
| `QueryEncoder` | the nested query encoder and the two callers that build query strings |
| `MiniSession`, `MiniReplies` | the Telegram Mini App's session: authenticate, verify, expire, hide, unmount; and what each answer does to it |
| `EvidencePanel`, `EvidenceRuns` | the evidence case drawer: loads, draft, preview and execution, and all its interleavings |
| `EvidenceAnswers` | what each answer and each click does to the drawer |
| `EvidenceDrawer`, `EvidenceDrafts` | which case a split is executed for; what becomes of an unsaved draft |
| `FinanceLoading` | statistics and the transactions that depend on them |
| `LineOptions` | the line tree, the lines of records, and their merge |
| `GuardSearch` | entry options, filter validation, search parameters and the filter fingerprint |
| `Options`, `Sequences`, `JsText` | optional values, array idioms, and the JavaScript string operations the others use |

A component that updates refs or closure variables is a class with those
variables; each method is one stretch of code between two `await`s and is proved
against a function of the state. A run is a sequence of events: user actions,
and answers or failures of the requests in flight, in any order, each answer
possibly never arriving. The theorems quantify over all runs. React's `setX`
calls mirror the refs and are not modelled apart from them; where the source
reads React state in a callback that outlives its rendering (the evidence
drawer), the event carries what that rendering showed.

## Assumptions

- The server stores an entry-monitor save, as sent, exactly when the revision
  sent equals the stored one; revisions start non-negative and every later
  version has a larger one. An answer shows the version that was stored when it
  was made, with any live data; when and whether it arrives is arbitrary.
- `Array.prototype.sort` is stable, `Object.entries` lists an object's distinct
  keys in some order, and `URLSearchParams.set` behaves as the URL Standard says
  (section 6.2, `URLSearchParams` class).
- `JSON.stringify` is injective on the arrays the fingerprint serialises and
  writes every number that is not finite as `null`.
- The browser decides what `Number` makes of text that is not a decimal integer
  up to the largest safe integer, and which IPv6 literals `new URL` accepts
  (section 2.2 of RFC 4291; the brackets are those of section 3.2.2 of RFC
  3986). Both are parameters.
- Case ids are positive. A case links to at most one parent, and for
  `EveryExecutionIsForDisplayedCase` the parent is an earlier case: it was chosen
  when the case was frozen.
- The user clicks only what the page shows and does not disable: the entry
  monitor's edits need a loaded configuration and its save button unsaved edits
  and no detection run; the case drawer covers the lists, a confirmation covers
  everything, inputs and buttons rest while a mutation is in flight.
- In Mini App mode nothing but the code modelled clears the session: the other
  callers of `clearAuth` belong to pages the Mini App does not show.

## What turned out not to hold

- The revision of a tab is not monotone (`RevisionFalls`). Polls never lower it
  (`AnswersNeverLower`); the answer to a save does exactly when it was overtaken
  (`ReceiptLowersExactly`), which only happens to a save sent without unsaved
  edits (`DirtySaveRaises`). The compare-and-set still protects every accepted save.
- A backup port may be a fraction (`FractionalPortKept`; exactly when is
  `PortFractionalExactly`), and a written port whose digits overflow is silently
  replaced (`OverflowingPort`; when is `WrittenPortUsed`).
- Merging live data twice changes drafts with repeated source keys
  (`DuplicateKeysNotIdempotent`; the exact condition is `MergeIdempotent`).
- An unclosed code fence swallows what follows the blank line
  (`OpenFenceSwallows`; the exact condition is `ParsesApart`).
- A save can go to another case than its text (`MalformedPageSavesToAnotherCase`;
  the exact condition is in `EverySaveCarriesItsBase`).
- A discarded draft can come back (`DiscardedDraftReturns`; the exact condition
  is `DraftKeptExactly`).
- Two cases linked to each other would let a split run for a case not displayed
  (`MutualParentsSplitHiddenCase`); for which executions is in
  `EveryExecutionWasPreviewed`. That run also follows a link while the drawer's
  spinner is up, which the model does not have: on the page it takes the
  keyboard, or another query whose end clears the spinner.
- Filters with equal fingerprints need not validate alike (`NaNLeavesNoTrace`;
  the exact condition is `FingerprintDecides`). The page takes its times from
  picked dates, so only another caller of the exported functions can pass
  times that are not numbers.

## Model

| member | source | states |
|---|---|---|
| EntryMonitorFleet.NoLostSave | admin-src/src/pages/DNSFailoverEntryMonitorTab.tsx:1035-1093 | With any number of tabs and a compare-and-set server that stores the body sent, in every run each stored version after the first was saved by a tab that had installed an image of the version directly before it as its base: no accepted save overwrites one its tab had not installed. |
| EntryMonitorFleet.AcceptedSaveSawStored | admin-src/src/pages/DNSFailoverEntryMonitorTab.tsx:1035-1064 | At the moment a save is about to be accepted, the tab had a base when it sent it, and that base shows exactly the stored version. |
| EntryMonitorFleet.CleanTabShowsStoredVersion | admin-src/src/pages/DNSFailoverEntryMonitorTab.tsx:647-671 | In every run of the fleet, a loaded tab without unsaved edits shows one version the server stored, revision included. |
| EntryMonitorContent.AcceptedSavesKeepContent | admin-src/src/pages/DNSFailoverEntryMonitorTab.tsx:471-502 | In every run each stored version keeps what its user did not edit: every enabled flag, interval, timeout, threshold, port and auto-split not edited since the tab's base was installed has the value of the version directly before, and an unedited selection covers the same rules, up to those not selectable when the configuration shown was installed. Only where the base is the tab's own save that an answer installed meanwhile had overtaken, two things are excepted: targets which that save wrote down for a rule that listed none, and rules it left out. |
| EntryMonitorRevisions.AnswersNeverLower | admin-src/src/pages/DNSFailoverEntryMonitorTab.tsx:651-671 | In every reachable state of the fleet, delivering a configuration answer never lowers the tab's revision. |
| EntryMonitorRevisions.ReceiptLowersExactly | admin-src/src/pages/DNSFailoverEntryMonitorTab.tsx:1072-1079 | For every save sent from a reachable state and every run while it is in flight, its answer lowers the tab's revision exactly when an answer showing a later version than the save's was installed since the save went out. |
| EntryMonitorRevisions.DirtySaveRaises | admin-src/src/pages/DNSFailoverEntryMonitorTab.tsx:1066-1079 | So it never does for a save that went out with unsaved edits: its answer raises the revision. |
| EntryMonitorRevisions.RevisionFalls | admin-src/src/pages/DNSFailoverEntryMonitorTab.tsx:1072-1079 | Where it does: two tabs, a clean save sent by Run now and stored, another tab's save on top, a poll installed, then the first save's answer: the tab falls from revision 3 to 2. |
| EntryMonitorRuns.EditedValuePersists | admin-src/src/pages/DNSFailoverEntryMonitorTab.tsx:951-999 | From any reachable state, an edit that takes effect keeps its value and the tab stays dirty through every interleaving of polls, saves, failures and other edits, until the same value is edited again or a save that captured it succeeds. |
| EntryMonitorRuns.EditPersists | admin-src/src/pages/DNSFailoverEntryMonitorTab.tsx:471-502 | The same for any user-owned value held while dirty: the live-data merge never changes selection, enabled, interval, timeout, thresholds, port or auto-split. |
| EntryMonitorRuns.InFlightEditSurvives | admin-src/src/pages/DNSFailoverEntryMonitorTab.tsx:1072-1093 | An edit made while a save is in flight survives that save's answer; the tab then stands on the new revision and is still dirty. |
| EntryMonitorRuns.GuardHalvesAgree | admin-src/src/pages/DNSFailoverEntryMonitorTab.tsx:647-656 | In every reachable state, for the one request whose answer is still wanted, the preserve-edits guard is true exactly when the tab is dirty: a changed edit version alone never decides. |
| EntryMonitorRuns.CleanTabIsSynced | admin-src/src/pages/DNSFailoverEntryMonitorTab.tsx:647-671 | In every reachable state a loaded tab that is not dirty has drafts, selection and revision that are the normalised image of one single payload. |
| EntryMonitorRuns.SentRevisionIsBase | admin-src/src/pages/DNSFailoverEntryMonitorTab.tsx:1037-1069 | In every reachable state the tab's revision is its base's revision, and a save in flight carries the revision of the base it went out on. |
| EntryMonitorRuns.BaseMoves | admin-src/src/pages/DNSFailoverEntryMonitorTab.tsx:654-671 | Only the tab's own successful save, or the current request's answer while not dirty, moves the base or the revision; polling while dirty never does. |
| EntryMonitorRuns.AcceptedAfterSave | admin-src/src/pages/DNSFailoverEntryMonitorTab.tsx:1066-1072 | Every configuration answer accepted after a save succeeded was requested after that success; earlier requests leave the tab untouched. |
| EntryMonitorRuns.OneSaveInFlight | admin-src/src/pages/DNSFailoverEntryMonitorTab.tsx:1035-1036 | While a save is in flight, neither button changes anything: at most one save is ever in flight. |
| EntryMonitorRuns.PostedRunsNameSaved | admin-src/src/pages/DNSFailoverEntryMonitorTab.tsx:1109-1124 | Every posted detection run names exactly the rules enabled in the body its own successful save sent, and no save is followed by two runs. |
| EntryMonitorTab.EntryMonitor.BeginFetch | admin-src/src/pages/DNSFailoverEntryMonitorTab.tsx:647-649 | Starting a fetch takes a new sequence number and captures the edit version; nothing else changes. |
| EntryMonitorTab.EntryMonitor.ReceiveConfiguration | admin-src/src/pages/DNSFailoverEntryMonitorTab.tsx:651-680 | A superseded answer is refused and changes nothing; otherwise the payload is installed wholesale, or merged under unsaved edits with selection, revision and dirty flag kept. |
| EntryMonitorTab.EntryMonitor.Apply | admin-src/src/pages/DNSFailoverEntryMonitorTab.tsx:951-1006 | The five handlers do what the edit function says; what that is, is stated by SelectionDecided and EditChangesOneValue. |
| EntryMonitorSelection.SelectionDecided | admin-src/src/pages/DNSFailoverEntryMonitorTab.tsx:985-1006 | After any edit of the selection exactly the rules ticked that are positive ids and can be monitored are selected, first occurrence first: ticking a rule adds it to those selected, unticking removes it, selecting a list selects that list; rules disabled, hidden or without targets never are. |
| EntryMonitorEdits.EditChangesOneValue | admin-src/src/pages/DNSFailoverEntryMonitorTab.tsx:951-1006 | An edit changes one value of one draft, or the selection, to the value given, and nothing else of the tab but the marks that it was edited; an edit of an unknown rule changes nothing at all. |
| EntryMonitorEdits.SendableFits | admin-src/src/pages/DNSFailoverEntryMonitorTab.tsx:1008-1033 | A selected draft passes validation exactly when its rule can still be monitored, the body it would send is in range (interval 5 to 3600, timeout 100 to 60000, failures 2 to 10, successes 1 to 10, ports 1 to 65535, keys non-empty, auto-split only on split-group leaves), and every target has a host. |
| EntryMonitorEdits.LeafKeys | admin-src/src/pages/DNSFailoverEntryMonitorTab.tsx:508-510 | A split-group leaf is a key of exactly the form `policy:N:split-group:N`, up to white space around it. |
| EntryMonitorEdits.SaveSendsFit | admin-src/src/pages/DNSFailoverEntryMonitorTab.tsx:1035-1066 | With none in flight a save goes out exactly when every selected rule fits; it carries the tab's revision and, for the selected rules in order, what their drafts say. |
| EntryMonitorEdits.SentInRange | admin-src/src/pages/DNSFailoverEntryMonitorTab.tsx:1008-1120 | In every run every body in flight is in those ranges, and every posted detection run names a rule. |
| EntryMonitorEdits.AnswerShowsLive | admin-src/src/pages/DNSFailoverEntryMonitorTab.tsx:651-680 | The answer still wanted brings its rules and live data whatever is unsaved: names, actions, hosts, order and probe states are the payload's; any other answer leaves the tab alone. |
| EntryMonitorEdits.ReceiptShowsLive | admin-src/src/pages/DNSFailoverEntryMonitorTab.tsx:1072-1105 | So does the answer to a save, edited meanwhile or not. |
| EntryMonitorTab.Validate | admin-src/src/pages/DNSFailoverEntryMonitorTab.tsx:1008-1033 | No message exactly when every selected draft may be sent; otherwise the first offender is named, and what the message says of it is so. |
| EntryMonitorTab.EntryMonitor.BeginSave | admin-src/src/pages/DNSFailoverEntryMonitorTab.tsx:1035-1066 | A save goes out exactly when none is in flight and everything selected is valid; it captures revision, edit version, selection, drafts and the enabled rules, and outdates the polls in flight. |
| EntryMonitorTab.EntryMonitor.ReceiveSaved | admin-src/src/pages/DNSFailoverEntryMonitorTab.tsx:1072-1105 | A save's answer is installed wholesale when nothing was edited meanwhile, merged and left dirty otherwise; either way it becomes the new revision and outdates polls. |
| EntryMonitorTab.EntryMonitor.BeginRun | admin-src/src/pages/DNSFailoverEntryMonitorTab.tsx:1109-1120 | Run now starts a save only when idle with an enabled selected rule; a save that cannot go out clears the running flag again. |
| EntryMonitorModel.NormalizeCoherent | admin-src/src/pages/DNSFailoverEntryMonitorTab.tsx:449-534 | Every normalised payload has drafts filed under their own positive id with targets in sort order, and a duplicate-free selection of known, selectable rules. |
| EntryMonitorModel.NormalizeConfigurationPayload | admin-src/src/pages/DNSFailoverEntryMonitorTab.tsx:512-534 | The normalising loop computes the configuration that PayloadLoads and SelectionLoads state field by field and whose coherence is proved. |
| EntryMonitorLoaded.PayloadLoads | admin-src/src/pages/DNSFailoverEntryMonitorTab.tsx:365-534 | Every payload loads as the revision it names and one draft for every positive rule id, made from the last such rule and the last item for it. Each target of the item keeps its trimmed key (made up where it has none) and host, its port or 54101 where absent or null, its sort or else its index, its probe states, and exactly its auto-split flag; without listed targets the rule's own, suggested or server targets are offered; every absent setting has its default. |
| EntryMonitorLoaded.SelectionLoads | admin-src/src/pages/DNSFailoverEntryMonitorTab.tsx:504-534 | The selection loaded is exactly the positive rule ids of the items that are enabled, not hidden and have targets to offer, in order of first mention; a disabled or hidden rule is never in it. |
| EntryMonitorModel.DraftTableEntries | admin-src/src/pages/DNSFailoverEntryMonitorTab.tsx:515-519 | There is one draft for each rule id, made from the last rule with that id. |
| EntryMonitorModel.SortSorts | admin-src/src/pages/DNSFailoverEntryMonitorTab.tsx:467-468 | Sorting puts targets in ascending sort order. |
| EntryMonitorModel.SortStable | admin-src/src/pages/DNSFailoverEntryMonitorTab.tsx:497 | Sorting keeps the order of targets with equal sort. |
| EntryMonitorModel.SortUnique | admin-src/src/pages/DNSFailoverEntryMonitorTab.tsx:497 | A sorted stable rearrangement is unique, so the sort is determined by those two properties. |
| EntryMonitorModel.MergeLiveState | admin-src/src/pages/DNSFailoverEntryMonitorTab.tsx:471-502 | The merging loop keeps every existing draft and adds the new ones, whatever the entry order. |
| EntryMonitorModel.MergeKeepsSettings | admin-src/src/pages/DNSFailoverEntryMonitorTab.tsx:484-497 | For every combination of key, port and auto-split, the merge holds as many targets as before plus the new-key targets with it: none dropped, duplicated or changed. |
| EntryMonitorModel.MergeMembers | admin-src/src/pages/DNSFailoverEntryMonitorTab.tsx:484-497 | The merged targets are exactly the refreshed existing ones and the live ones with a new key; their keys are the union. |
| EntryMonitorModel.MergeByKey | admin-src/src/pages/DNSFailoverEntryMonitorTab.tsx:484-497 | With distinct keys, a target known on both sides has the live id, sort, states and non-empty host and the user's port and auto-split; the others are taken over unchanged. |
| EntryMonitorModel.MergeIdempotent | admin-src/src/pages/DNSFailoverEntryMonitorTab.tsx:471-502 | Merging the same live state a second time changes nothing exactly when new drafts are in sort order and no newly added target disagrees with the last live target of its key. |
| EntryMonitorModel.MergeTargetsIdempotent | admin-src/src/pages/DNSFailoverEntryMonitorTab.tsx:484-497 | The same for the targets of one draft, in both directions. |
| EntryMonitorModel.DistinctRepeatable | admin-src/src/pages/DNSFailoverEntryMonitorTab.tsx:471-534 | For normalised payloads with distinct source keys the merge is idempotent. |
| EntryMonitorModel.DuplicateKeysNotIdempotent | admin-src/src/pages/DNSFailoverEntryMonitorTab.tsx:481-497 | With a repeated source key it is not: a concrete pair of live targets. |
| BackupEndpoints.IPv4Canonical | admin-src/src/pages/DNSFailoverEntryMonitorTab.tsx:218-224 | Accepted IPv4 text is exactly the dotted form, without leading zeros, of four octets that are not all zero. |
| BackupEndpoints.DottedInjective | admin-src/src/pages/DNSFailoverEntryMonitorTab.tsx:218-224 | Different octets have different dotted text, so the canonical form is unique. |
| BackupEndpoints.FormatRoundTrip | admin-src/src/pages/DNSFailoverEntryMonitorTab.tsx:237-309 | Parsing the printed endpoint of any accepted IPv4 or IPv6 literal and port returns that address and port, whatever the default port. |
| BackupEndpoints.ParseBare | admin-src/src/pages/DNSFailoverEntryMonitorTab.tsx:237-260 | An accepted literal without a port parses to itself with the default port. |
| BackupEndpoints.ParseBackupIPLines | admin-src/src/pages/DNSFailoverEntryMonitorTab.tsx:262-305 | The parsing loop, with its set of seen addresses, returns the kept items and the errors of the remaining non-blank lines; what one line is, is stated by the rows from NamedAddressReads to LongLineRefused. |
| BackupEndpoints.ReadLine | admin-src/src/pages/DNSFailoverEntryMonitorTab.tsx:266-294 | A right line has an accepted address, a port between 1 and 65535 and a name; a line is blank exactly when it is white space. |
| BackupEndpoints.NamedAddressReads | admin-src/src/pages/DNSFailoverEntryMonitorTab.tsx:266-294 | `name,address`, with an ASCII or a full-width comma, is that address under that name with the default port. |
| BackupEndpoints.NamedEndpointReads | admin-src/src/pages/DNSFailoverEntryMonitorTab.tsx:266-294 | `name,` followed by a printed endpoint is that address with the endpoint's port. |
| BackupEndpoints.AddressPortReads | admin-src/src/pages/DNSFailoverEntryMonitorTab.tsx:266-294 | `address,port` with a port between 1 and 65535 is that address under its own name with that port. |
| BackupEndpoints.EndpointReads | admin-src/src/pages/DNSFailoverEntryMonitorTab.tsx:237-294 | An address alone has the default port and an endpoint alone its own; both are named by the address. |
| BackupEndpoints.LineDecided | admin-src/src/pages/DNSFailoverEntryMonitorTab.tsx:266-294 | Every line, by its columns: which is the name, which the endpoint and which the port, and in which order a bad address and a bad port are reported. |
| BackupEndpoints.LongLineRefused | admin-src/src/pages/DNSFailoverEntryMonitorTab.tsx:270-272 | A line of more than three columns has a bad shape. |
| BackupEndpoints.NormalizesExactly | admin-src/src/pages/DNSFailoverEntryMonitorTab.tsx:218-236 | Text denotes exactly the accepted address it is, up to white space and one bracket at either end. |
| BackupEndpoints.OneResultPerLine | admin-src/src/pages/DNSFailoverEntryMonitorTab.tsx:266-303 | Items and errors together are as many as the non-blank lines; the errors are exactly those of the lines not kept, with their line numbers; every kept line's item is listed. |
| BackupEndpoints.KeptIffNoEarlierKept | admin-src/src/pages/DNSFailoverEntryMonitorTab.tsx:295-301 | An otherwise valid line is kept exactly when no earlier kept line has the same lower-cased address. |
| BackupEndpoints.ItemsInLineOrder | admin-src/src/pages/DNSFailoverEntryMonitorTab.tsx:262-305 | Items stand in line order, each from its own line, with ports between 1 and 65535. |
| BackupEndpoints.CleanListRoundTrip | admin-src/src/pages/DNSFailoverEntryMonitorTab.tsx:262-309 | A text of `name,ip,port` lines with distinct accepted addresses parses back to exactly those entries without errors. |
| BackupEndpoints.WrittenPortUsed | admin-src/src/pages/DNSFailoverEntryMonitorTab.tsx:237-260 | A port written behind the address is the port used exactly when the browser reads its digits as a finite number; otherwise a bracketed endpoint falls back to the default port and a plain one gets 0, which every line refuses. |
| BackupEndpoints.OverflowingPort | admin-src/src/pages/DNSFailoverEntryMonitorTab.tsx:243-260 | Where it is not: with digits read as infinite, such as 309 nines, a bracketed line is kept with the default port and a plain one is refused. |
| BackupEndpoints.PortFractionalExactly | admin-src/src/pages/DNSFailoverEntryMonitorTab.tsx:266-294 | The port of a right line is a fraction exactly when the line has three parts, the second supplies no port of its own, and the third denotes a non-integer between 1 and 65535. |
| BackupEndpoints.FractionalPortKept | admin-src/src/pages/DNSFailoverEntryMonitorTab.tsx:266-294 | Such a line, kept with the port 80.5. |
| MarkdownLines.ItemReads | admin-src/src/pages/AIOpsMarkdown.tsx:35-39 | A line that is indent, marker, white space and text is a list item of that kind, and its item text is that text. |
| MarkdownLines.ItemComesApart | admin-src/src/pages/AIOpsMarkdown.tsx:35-39 | Every list item comes apart that way. |
| MarkdownLines.HeadingReads | admin-src/src/pages/AIOpsMarkdown.tsx:33-34 | A line matching the heading expression in any way is a heading of that level, with the shortest possible text. |
| MarkdownLines.HeadingComesApart | admin-src/src/pages/AIOpsMarkdown.tsx:33-34 | Every heading matches the heading expression with its level and text. |
| MarkdownLines.DashCellReads | admin-src/src/pages/AIOpsMarkdown.tsx:11 | Optional colon, three or more dashes, optional colon is a separator cell. |
| MarkdownLines.DashCellComesApart | admin-src/src/pages/AIOpsMarkdown.tsx:11 | Every separator cell has that form. |
| MarkdownLines.CellsRoundTrip | admin-src/src/pages/AIOpsMarkdown.tsx:10 | A row written with pipes around and between trimmed pipe-free cells splits back into those cells. |
| MarkdownLines.RowReads | admin-src/src/pages/AIOpsMarkdown.tsx:10 | A row with or without the pipe at either end, padded anywhere, reads as its trimmed cells. |
| Markdown.Parse | admin-src/src/pages/AIOpsMarkdown.tsx:13-48 | The parser's loop terminates on every input with the blocks that BlocksHaveShape states line by line. |
| Markdown.TakeBlock | admin-src/src/pages/AIOpsMarkdown.tsx:17-46 | One iteration from a non-blank line reads exactly the block that starts there, whichever of the six branches it takes. |
| MarkdownShapes.BlocksHaveShape | admin-src/src/pages/AIOpsMarkdown.tsx:15-47 | Every block, on the lines alone: its first line is the first of fence, table header over dashes, heading, numbered item, bullet, rule that it matches, or else starts a paragraph. Code is what stands up to the next fence; a table holds the cells of every line up to the first without a pipe; a list the text of every line up to the first that is no such item; no line of a paragraph behind its first is blank, a fence, an item, one to four hashes and white space behind any indent, or a table header, and the line behind it is one of those. |
| Markdown.BlocksPartition | admin-src/src/pages/AIOpsMarkdown.tsx:15-47 | Blocks are ordered, disjoint line ranges inside the text with strictly increasing keys, and every non-blank line lies in exactly one of them, so every line outside is blank. |
| Markdown.BlocksRead | admin-src/src/pages/AIOpsMarkdown.tsx:15-18 | Every block starts at a non-blank line. |
| Markdown.ParsesApart | admin-src/src/pages/AIOpsMarkdown.tsx:12-49 | Lines A, one blank line, lines B parse to the blocks of A followed by the blocks of B shifted by (length of A) + 1, exactly when every code fence of A is closed. |
| Markdown.BlockApart | admin-src/src/pages/AIOpsMarkdown.tsx:19-46 | A block is read the same with more text behind a blank line exactly when it is not an unclosed code block. |
| Markdown.OpenFenceSwallows | admin-src/src/pages/AIOpsMarkdown.tsx:19-25 | What an unclosed fence does: the blank line and all fence-free lines behind it become its code. |
| QueryEncoder.AppendValue | admin-src/src/lib/api.ts:141-162 | The recursive encoder, array branch included, leaves in the query what setting the leaves of the uniform flattening one after the other would. |
| QueryEncoder.LeavesAt | admin-src/src/lib/api.ts:141-162 | A path and text are among the flattened leaves exactly when the parameter tree holds that written value at that path. |
| QueryEncoder.WrittenExactly | admin-src/src/lib/api.ts:142-146 | A text is written as it is and null as nothing, the empty ones exactly under `keepEmpty`; undefined never. |
| QueryEncoder.LeafBelow | admin-src/src/lib/api.ts:147-160 | An array holds its items under their indices, an object its values under their keys, neither anything else. |
| QueryEncoder.NameGrows | admin-src/src/lib/api.ts:148-160 | A root key is its own name, and every key or index below it adds itself in brackets. |
| QueryEncoder.SetOver | admin-src/src/lib/api.ts:144-161 | Setting a name that is there changes its text in place. |
| QueryEncoder.LeavesDistinct | admin-src/src/lib/api.ts:147-160 | No path is written twice. |
| QueryEncoder.NameParses | admin-src/src/lib/api.ts:150-159 | Names decode: with no `[` in the root key and no `]` in the keys below, the bracketed name parses back to its path, so distinct paths have distinct names. |
| QueryEncoder.SentDecodes | admin-src/src/lib/api.ts:164-166 | With such keys `set` never overwrites: the query holds the leaves in preorder and every pair decodes to its leaf. |
| QueryEncoder.SentAt | admin-src/src/lib/api.ts:141-166 | A name is sent with a text exactly when the tree holds that text at that path, empty ones exactly under `keepEmpty`. |
| QueryEncoder.QueryInjective | admin-src/src/lib/api.ts:164-170 | Equal lists of name and value pairs, before percent-encoding, come from trees holding the same leaves at every path other than the credential's. |
| QueryEncoder.ToQuery | admin-src/src/lib/api.ts:164-170 | The loop over the parameters leaves their pairs, then the stored credential where it is due. |
| QueryEncoder.AuthIsLast | admin-src/src/lib/api.ts:167-168 | The credential is appended last exactly when there is one and the parameters hold no `auth_data` leaf; the other pairs are untouched. |
| QueryEncoder.BracketsCollide | admin-src/src/lib/api.ts:150-159 | Why keys must be free of brackets: two leaves with one name, of which only the later survives. |
| QueryEncoder.MiniQuery | admin-src/src/lib/api.ts:50-57 | The Mini App refuses the parameters exactly when a root key is `auth_data`, `token` or `init_data`. |
| QueryEncoder.MiniQueryNamesNoCredential | admin-src/src/lib/api.ts:50-57 | Whatever the parameters, brackets or not, a query the Mini App builds names no credential. |
| MiniSession.ReadyIsAuthenticated | admin-src/src/TelegramMiniApp.tsx:97-147 | In every run, while mounted, `ready` means a stored session with the token and user id first authenticated, and a workspace keyed to that session's identity. |
| MiniSession.InvalidIsForGood | admin-src/src/TelegramMiniApp.tsx:97-114 | In every run, once the phase is `invalid` or the app is unmounted, no session is ever stored again, no identity check is sent, and while mounted the phase stays `invalid`. |
| MiniSession.OneCheckInFlight | admin-src/src/TelegramMiniApp.tsx:101-115 | In every run at most one identity check is in flight. |
| MiniSession.ReadyNeedsCheck | admin-src/src/TelegramMiniApp.tsx:104-112 | The phase becomes `ready` only when a check named the user first authenticated, and the session stored then is still valid. |
| MiniSession.VisibilityNeedsCheck | admin-src/src/TelegramMiniApp.tsx:117-121 | After the page is hidden or shown, the phase is not `ready` again before an identity check completes, in any interleaving. |
| MiniSession.MiniApp.RequireSession | admin-src/src/lib/api.ts:32-38 | A missing or expired session invalidates and throws; a current one is returned and changes nothing. |
| MiniSession.MiniApp.BeginVerify | admin-src/src/TelegramMiniApp.tsx:101-105 | A check is sent exactly when mounted, valid, authenticated, visible and idle with a current session. |
| MiniSession.MiniApp.EndVerify | admin-src/src/TelegramMiniApp.tsx:105-115 | A matching identity refreshes the session and makes the app ready, another one invalidates it, a failure asks for a retry; late answers change nothing but the flag. ForeignIdentityEnds, FailedCheckAsksAgain and SameIdentityIsReady state this over runs. |
| MiniSession.MiniApp.EndLogin | admin-src/src/TelegramMiniApp.tsx:135-146 | A valid login is stored; anything else expires the app while it is still live and valid. |
| MiniReplies.ForeignIdentityEnds | admin-src/src/TelegramMiniApp.tsx:107 | In every run, a check that names another user than the one first authenticated ends a running app: it is invalid, nothing is stored, and in every continuation nothing is stored or sent again. |
| MiniReplies.FailedCheckAsksAgain | admin-src/src/TelegramMiniApp.tsx:112-114 | In every run, a failed check asks a running app to verify again and keeps its session; an app that is over stays as it is. |
| MiniReplies.SameIdentityIsReady | admin-src/src/TelegramMiniApp.tsx:108-111 | In every run, a check that names the first user stores the session with that identity and makes a running app ready with it, exactly when it can be stored; otherwise the app asks again with the session it had. |
| MiniReplies.ReplyCounts | admin-src/src/lib/api.ts:67-71 | A reply counts as an identity exactly when its status is a success and it names an administrator or staff member. |
| MiniReplies.FailedLoginEnds | admin-src/src/TelegramMiniApp.tsx:135-146 | In every run, a login that failed or cannot be stored ends a running app for good. |
| MiniReplies.GoodLoginStores | admin-src/src/TelegramMiniApp.tsx:137-141 | In every run, a login that can be stored is, and on a visible page a check with it goes out at once. |
| MiniReplies.NothingBeforeLogin | admin-src/src/TelegramMiniApp.tsx:132-146 | In every run, until a login is stored the app holds no session, asks nothing, and while mounted is loading with its login in flight, outside Telegram, or invalid. |
| MiniReplies.VerifySends | admin-src/src/TelegramMiniApp.tsx:101-105 | In every run, a check goes out exactly when the app runs, has logged in, waits for no other check, is visible and holds a current session; an expired one ends the app. |
| MiniReplies.VisibilityAsks | admin-src/src/TelegramMiniApp.tsx:117-121 | In every run, hiding or showing the page takes a running app to `verify`, and only a visible page sends a check. |
| MiniReplies.RefusalEnds | admin-src/src/lib/api.ts:67-69 | In every run, a refusal (403 on the identity check, 401 anywhere) or an explicit invalidation ends a running app for good. |
| MiniReplies.UnmountEnds | admin-src/src/TelegramMiniApp.tsx:148-149 | In every run, unmounting ends it too. |
| MiniReplies.StorableExactly | admin-src/src/lib/api.ts:16-31 | A session can be stored exactly when its token is non-empty without white space, its identity is an administrator or staff member with a safe positive id, and its safe expiry lies ahead. |
| MiniReplies.StoredIsSound | admin-src/src/lib/api.ts:22-31 | In every run a stored session has such a token and identity. |
| EvidenceRuns.EveryExecutionWasPreviewed | admin-src/src/pages/EntryEvidencePanel.tsx:220-238 | In every run a split executed sends the payload of the case its preview was asked for, with the pool and hosts shown at the click and the revision displayed; it is for the case displayed exactly when the preview was asked for while the displayed case was the selected one, or no load has replaced the record since. |
| EvidenceDrawer.EveryExecutionIsForDisplayedCase | admin-src/src/pages/EntryEvidencePanel.tsx:182-238 | When every case links only to earlier ones, in every run every split executed is for the case and the revision displayed, however opens, switches, closes, loads and mutations interleave. |
| EvidenceDrawer.SteadyRunExecutesDisplayedCase | admin-src/src/pages/EntryEvidencePanel.tsx:182-238 | Whatever cases link to, the same holds of every run in which no mutation's continuation reopens a case the user has left. |
| EvidenceDrawer.MutualParentsSplitHiddenCase | admin-src/src/pages/EntryEvidencePanel.tsx:186-190 | Neither condition can be dropped: with two cases linked to each other, a run that splits one while the other is displayed. |
| EvidenceRuns.EverySaveCarriesItsBase | admin-src/src/pages/EntryEvidencePanel.tsx:239-243 | In every run a save carries the revision of the snapshot its draft started from, and that snapshot is of the saved case exactly when the last load taken over with a valid users page was of that case. |
| EvidenceDrafts.MalformedPageSavesToAnotherCase | admin-src/src/pages/EntryEvidencePanel.tsx:197-203 | Where it is not: after a malformed users page, a reachable save of one case's text and revision to the case it links to. |
| EvidenceDrafts.DraftKeptExactly | admin-src/src/pages/EntryEvidencePanel.tsx:182-211 | From any state with a changed draft and in every run without further edits, the draft is kept, text and base, exactly as long as no load with a valid users page lands that resets it or is for another case than the draft's (after closing the drawer, any case); confirming a switch does not give it up. |
| EvidenceDrafts.DiscardedDraftReturns | admin-src/src/pages/EntryEvidencePanel.tsx:182-204 | Where the user does not expect it: a draft given up for the linked case while a split executes is shown again when the execution's continuation reopens its case. |
| EvidenceDrafts.DirtyDraftSurvivesReloads | admin-src/src/pages/EntryEvidencePanel.tsx:198-202 | However often the same case is reloaded, a changed draft keeps its text and its base. |
| EvidencePanel.EvidencePanel.OpenCase | admin-src/src/pages/EntryEvidencePanel.tsx:182-190 | Opening asks first or selects the case, supersedes older loads and drops the preview; the record is dropped when the rendering that called showed another case. |
| EvidencePanel.EvidencePanel.ReceiveLoad | admin-src/src/pages/EntryEvidencePanel.tsx:194-204 | A current, valid load replaces the record, and the draft unless it is a dirty draft of the same case. |
| EvidencePanel.EvidencePanel.BeginPrepare | admin-src/src/pages/EntryEvidencePanel.tsx:220-225 | Preparing drops the old preview and sends the payload of the displayed case and inputs, if they are valid. |
| EvidencePanel.EvidencePanel.ReceivePreview | admin-src/src/pages/EntryEvidencePanel.tsx:225-228 | A preview is shown only when nothing was opened or closed since and it names the case and revision it was asked for. |
| EvidencePanel.EvidencePanel.BeginExecute | admin-src/src/pages/EntryEvidencePanel.tsx:230-234 | A split is sent only with a supported preview of the displayed revision, and its preview is used up. |
| EvidencePanel.EvidencePanel.BeginSave | admin-src/src/pages/EntryEvidencePanel.tsx:239-241 | A save sends the displayed case, the draft's base revision and the draft's text. |
| EvidenceAnswers.PayloadExactly | admin-src/src/pages/entryEvidence.ts:147-152 | A split payload exists exactly for a case with positive id and revision and either the pool or two hosts that differ beyond case and white space; it names that case and revision and, without the pool, the trimmed hosts in order. |
| EvidenceAnswers.LoadAnswerShown | admin-src/src/pages/EntryEvidencePanel.tsx:191-204 | In every reachable state, the current load shows the case it brings and a fresh draft of it unless the case has unsaved text that is to stay; a malformed users page leaves the draft alone; a wrong case is a failure; other answers change nothing. |
| EvidenceAnswers.LoadFailureShown | admin-src/src/pages/EntryEvidencePanel.tsx:204 | A failed current load is reported, keeps the record only when it is of the case asked for, and keeps the draft. |
| EvidenceAnswers.OpenAsksOrSelects | admin-src/src/pages/EntryEvidencePanel.tsx:182-190 | In every reachable state, opening another case over unsaved text only asks; otherwise the case is selected, the preview dropped and a load of it the only one current. |
| EvidenceAnswers.CloseForgets | admin-src/src/pages/EntryEvidencePanel.tsx:207-211 | Closing leaves no case, record, preview or current load; while a mutation is in flight it does nothing. |
| EvidenceAnswers.PrepareAsks | admin-src/src/pages/EntryEvidencePanel.tsx:220-225 | Preparing drops the preview and asks for one of the record shown exactly when nothing is in flight and the payload is whole. |
| EvidenceAnswers.PreviewAnswerShown | admin-src/src/pages/EntryEvidencePanel.tsx:225-228 | A preview is shown, with the input it was asked for, exactly when nothing was opened or closed since and it has groups and names the case and revision shown then. |
| EvidenceAnswers.ExecuteSendsSupported | admin-src/src/pages/EntryEvidencePanel.tsx:230-234 | A click sends a split exactly when nothing is in flight and a supported preview of the displayed revision is shown; it sends that preview's input and uses it up. |
| EvidenceAnswers.SaveSendsDraft | admin-src/src/pages/EntryEvidencePanel.tsx:239-242 | A save goes out exactly when nothing is in flight, with the displayed case, the draft's base revision and its text. |
| EvidenceAnswers.RunsAreTraced | admin-src/src/pages/EntryEvidencePanel.tsx:182-243 | The states the rows above speak of are those of every run. |
| FinanceLoading.RowsMatchStats | admin-src/src/pages/AppleIDFinance.tsx:87-141 | In every run the rows shown were fetched with the current filters and page; whenever statistics are shown, those are the statistics' date range and product. |
| FinanceLoading.SpinnersEnd | admin-src/src/pages/AppleIDFinance.tsx:98-104 | In every run, while mounted and with nothing in flight, neither spinner turns. |
| FinanceLoading.FinancePage.BeginAll | admin-src/src/pages/AppleIDFinance.tsx:107-118 | A new query supersedes both kinds of request and clears figures and rows. |
| FinanceLoading.FinancePage.ReceiveStats | admin-src/src/pages/AppleIDFinance.tsx:119-141 | Accepted statistics fix the effective dates and start the table's request with them; superseded ones change nothing. |
| FinanceLoading.TableAnswerShown | admin-src/src/pages/AppleIDFinance.tsx:97-104 | In every run, the answer to the transactions awaited is shown as it came, rows and total; a failure shows none and is reported; any other answer changes nothing. |
| FinanceLoading.StatsAnswerShown | admin-src/src/pages/AppleIDFinance.tsx:119-141 | In every run, the statistics awaited are shown with their dates as the filters, and transactions are asked for with exactly those; a failure is reported for both and asks for nothing; any other answer changes nothing. |
| FinanceLoading.LoadAsksAnew | admin-src/src/pages/AppleIDFinance.tsx:87-118 | A load shows nothing until its own answer: it is the one awaited, for the filters and page given, and every earlier request is overtaken; turning the page does so for the transactions alone. |
| FinanceLoading.OvertakenShowsNothing | admin-src/src/pages/AppleIDFinance.tsx:98 | A request overtaken by a load, a page change or an unmount shows nothing, however late it answers. |
| FinanceLoading.ShownWasAnswered | admin-src/src/pages/AppleIDFinance.tsx:99-101 | In every run, the rows and total shown came together in one answer of that run, and so did the statistics. |
| LineOptions.FlattenLines | admin-src/src/pages/DNSPodPage.tsx:161-173 | Flattening with deduplication at every level returns exactly one first-wins deduplication of the plain preorder walk. |
| LineOptions.FlattenOffers | admin-src/src/pages/DNSPodPage.tsx:161-173 | What is offered is exactly the first option of each value in preorder, and the options walked are exactly the lines the tree leads to, each titled by the localised names on the way, with its id or else its name as value. |
| LineOptions.MergeAssociates | admin-src/src/pages/DNSPodPage.tsx:191-193 | Merging two merged lists is merging all their parts at once. |
| LineOptions.MergeAssociative | admin-src/src/pages/DNSPodPage.tsx:191-193 | Merging three lists gives the same either way round. |
| LineOptions.MergeIdempotent | admin-src/src/pages/DNSPodPage.tsx:191-193 | Merging a merged list again, alone or in front of its own parts, changes nothing. |
| LineOptions.MergeOffers | admin-src/src/pages/DNSPodPage.tsx:191-193 | A merged list has pairwise distinct values and offers exactly the values of its parts. |
| LineOptions.RecordsOffer | admin-src/src/pages/DNSPodPage.tsx:175-189 | The options of existing records have distinct values and offer exactly the values of the records that name a line. |
| LineOptions.RecordValueReads | admin-src/src/pages/DNSPodPage.tsx:177-186 | A record's value is its line id when that says something; otherwise the default line has the value of its interface, two letters are put in capitals, and any other line is its name. |
| LineOptions.RecordsOfferFirst | admin-src/src/pages/DNSPodPage.tsx:175-189 | Every option is that of the first record with its value, with the localised title of that line. |
| GuardSearch.EntryReads | admin-src/src/lib/subscribeGuardSearch.ts:28-33 | A value of the form rule, or rule and group, selects exactly those numbers, or is invalid when one is not positive. |
| GuardSearch.EntryComesApart | admin-src/src/lib/subscribeGuardSearch.ts:28-33 | Every value that selects an entry has that form. |
| GuardSearch.EntrySearchOptions | admin-src/src/lib/subscribeGuardSearch.ts:61-82 | The option loops emit the options of every rule with a usable id and of its usable leaf groups, in order. |
| GuardSearch.OptionOffered | admin-src/src/lib/subscribeGuardSearch.ts:61-82 | An option is offered exactly when it is a rule with a usable id, or a leaf group with a usable id of such a rule whose mode is `split` in any case; it is disabled exactly when its rule is not enabled. |
| GuardSearch.OptionsInOrder | admin-src/src/lib/subscribeGuardSearch.ts:63 | Rules are offered in their order. |
| GuardSearch.RuleComesFirst | admin-src/src/lib/subscribeGuardSearch.ts:70 | A rule is offered before its groups. |
| GuardSearch.GroupsInOrder | admin-src/src/lib/subscribeGuardSearch.ts:71-78 | Groups are offered in display order. |
| GuardSearch.OptionsParse | admin-src/src/lib/subscribeGuardSearch.ts:61-82 | Every option emitted parses back to exactly the rule and group it was emitted for. |
| GuardSearch.OptionsDistinct | admin-src/src/lib/subscribeGuardSearch.ts:61-82 | The emitted values are distinct exactly when the usable rule ids, and the usable leaf-group ids of each rule, are. |
| GuardSearch.SearchParams | admin-src/src/lib/subscribeGuardSearch.ts:44-57 | The parameters are built exactly for valid filters; address, account, user agent and time range are present, trimmed, exactly when their filter is given, the range is safe and ascending, the page is at least 1 and its size between 1 and 100, both as asked where they are in range; a size of 0 is 20. |
| GuardSearch.ValidExactly | admin-src/src/lib/subscribeGuardSearch.ts:34-42 | Filters are valid exactly when they narrow the search, name a readable entry if any, and give no time or a whole ascending range of safe times; which of the three messages about entry and times appears is as exact. |
| GuardSearch.FingerprintDecides | admin-src/src/lib/subscribeGuardSearch.ts:34-60 | Two filters with equal fingerprints validate alike and search alike on every page exactly when their entry is invalid, or they give the same times, or both give only one time. |
| GuardSearch.FingerprintIsRequest | admin-src/src/lib/subscribeGuardSearch.ts:44-60 | For valid filters with entries from the selector, fingerprints are equal exactly when the requests are. |
| GuardSearch.NaNLeavesNoTrace | admin-src/src/lib/subscribeGuardSearch.ts:58-60 | Where it fails: a range of times that are not numbers turns a valid filter invalid without changing the fingerprint. |

## Left out

- EntryMonitorTab.Validate: the settings of a draft are integers in the model, so the source's integer test of the thresholds always holds; fractional settings are not modelled.
- EntryMonitorModel.NormalizeConfigurationPayload: probes, the display name of an unnamed rule, and lists sent as JSON text are not modelled.
- EntryMonitorContent.AcceptedSavesKeepContent: for a base that is an overtaken own save, nothing is promised of targets which that save wrote down for a rule that listed none (they come from the live data of the moment), and a rule it left out may be selected again.
- QueryEncoder.QueryInjective: percent-encoding, which is injective, is not modelled.
- GuardSearch.SearchParams: page numbers and sizes are integers in the model; `NaN` and fractions are not.
- GuardSearch.EntrySearchOptions: labels and the order of leaf groups are presentation; the order is a parameter, of which OptionOffered assumes that it keeps the groups.
- BackupEndpoints.KeptIffNoEarlierKept: lower-casing is modelled for ASCII letters, which is all an accepted address contains.
- EvidencePanel.EvidencePanel.BeginPrepare: host names that differ only in the case of letters outside ASCII count as different.
- LineOptions.RecordsOffer: lower- and upper-casing of line names is modelled for ASCII letters.
- Run history, probe states, backup-address list and clipboard of the entry-monitor tab: reading and displaying, no state shared with the protocol.
- The page of users beside a case record: only whether it arrived well formed matters to the drawer.
- Candidate queries, freezing payloads, context pages and export of the evidence panel: separate request counters of the same kind as the ones modelled.
- Inline Markdown markup, splitting the content into lines, and React keys other than the blocks'.
- Percent-encoding of query strings, request URLs, headers and the ordinary administrator login.
- Product list, date validation and charts of the finance page.
- Localisation of line names, which is a parameter.
- Streams, storage, timers, aborting of requests and everything drawn: requests are answered, fail or stay silent.
- Configuration forms, CRUD pages, theme, charts and list moves: thin, with only easy properties.
