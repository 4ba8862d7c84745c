# Poll mini-app core, modelled in Dafny

This project models the core of a small poll application that runs as a Farcaster mini-app and keeps its polls in a Firestore collection called `polls`. Its parts are:

- a create-poll form;
- a single-poll view, where a connected wallet votes once and the vote is remembered in a per-wallet ledger in the browser's local storage;
- a results panel;
- the summary card;
- the two catalog queries: active polls on the home page and ended polls in the results gallery;
- the wallet button;
- the profile page with its lifetime totals.

The model runs on values and objects:

- **Time.** Time is integer milliseconds, and `now` is a parameter.
- **Collection.** The poll collection is a `PollStore` object holding a map from document id to `Poll`. The catalog queries see the collection as a sequence of `Listed` documents, each an id plus its fields.
- **Local storage.** Local storage is a `LocalStorage` object holding a map from storage key to ledger. A ledger maps a poll id to the option index that was voted.
- **Components.** Each stateful component is a class whose fields are the component's state variables. Each effect or handler is one method that runs as one atomic step.
- **Outside outcomes.** The outcome of each remote call is a boolean parameter: the write is accepted, the query succeeds.
- **JavaScript values.** `||` fallbacks are modelled on truthiness: a missing or empty string is falsy, and so is the number 0. `trim()` strips JavaScript's whitespace set. Millisecond divisions are floor divisions on positive values.

Several behaviours of the code are modelled as written and stated as lemmas:

- **Option 0 is forgotten.** The vote ledger is read back on truthiness, so a recorded vote for the first option (index 0) is not recognised after a reload (`Voting.RecordThenReload`).
- **The end boundary disagrees.** At `endTime == now` the view does not count the poll as ended and still offers the vote buttons. Its own time label already reads "Poll ended" (`Voting.EndBoundaryDisagreement`).
- **The vote increment leaks into the view.** `handleVote` copies the options array but not the option objects. The view's own snapshot therefore shows the increment even when the write fails (`Voting.PollView.HandleVote`, `Voting.LocalAfterVote`). This and the next item last only while no new snapshot reaches the view: the listener replaces the poll with fresh objects on every snapshot, and the database library normally delivers one for the pending write and another when a rejected write is rolled back. They persist once the listener has stopped delivering, for example after its error callback.
- **A retry after a failed write double-counts.** Because of that leak, a vote retried on the same view before a new snapshot arrives writes back options that already carry the failed attempt's increment. The chosen option gains two votes and the counter one, so the stored counter no longer equals the option sum (`Voting.RetryAfterFailedWriteDoubleCounts`, `Voting.RetryAfterFailedVote`). Until then the view shows one vote more than the stored counter (`Voting.FailedVoteShowsOneMore`).
- **The whole options array is written back.** When the view's snapshot is current, the stored counter stays equal to the sum of the option counts (`Voting.VoteKeepsCountsConsistent`).
- **Auto-connect asks again on every effect run.** The auto-connect effect re-runs whenever its dependencies change, and each run while the wallet is still disconnected issues another `connect` request for the first connector. Nothing limits it to one attempt (`Wallet.WalletConnect.AutoConnectRerun`).
- **`votesCast` counts ledger keys, not votes.** One ledger holding any number of votes counts as 1 (`ProfileStats.VotesCastCountsKeys`, `ProfileStats.SecondVoteDoesNotCount`).

`handleVote` does not check the end time. The buttons are simply not rendered once the poll has ended, and the model follows the code.

## Model

| member | source | states |
|---|---|---|
| Common.TrimStart | components/create-poll-form.js:76 | drops only leading whitespace; the result is a suffix that is empty or starts with a non-whitespace character |
| Common.TrimEnd | components/create-poll-form.js:76 | drops only trailing whitespace; the result is a prefix that is empty or ends with a non-whitespace character |
| Common.Trim | components/create-poll-form.js:76 | definition: `trim()` as the end-trim of the start-trim |
| Common.TrimTruthyIff | components/create-poll-form.js:97-98 | `s.trim()` is truthy exactly when `s` holds a non-whitespace character |
| Common.NatToDecimal | components/poll-card.js:59-60 | the decimal rendering of a count is a non-empty digit string without a leading zero |
| Common.DecimalRoundTrip | components/poll-view.js:212-214 | reading the rendered digits back gives the number |
| Common.NatToDecimalInjective | components/poll-view.js:212-214 | different counts render as different digit strings |
| Polls.CategoryLabel | components/poll-card.js:16 | the badge shows the category when it is truthy, and "General" exactly otherwise; never empty |
| Polls.CreatorLabel | components/poll-card.js:42 | the byline shows the creator's username when it is truthy, and "anonymous" exactly otherwise; never empty |
| Polls.VotesOf | components/poll-results.js:13 | definition: `votes \|\| 0`, a missing count read as 0 |
| Polls.SumVotes | components/poll-results.js:8 | definition: the sum of the option counts, missing counts read as 0 |
| Polls.SumVotesAppend | components/poll-results.js:8 | the vote total of a concatenation is the sum of the totals |
| Polls.SumVotesZeroIff | components/poll-results.js:8 | the total (missing counts read as 0) is 0 exactly when every option has 0 votes |
| Polls.SumVotesBounds | components/poll-results.js:8 | each option's count is at most the total |
| Polls.IncrementAt | components/poll-view.js:62-63 | the chosen option gets `(votes or 0) + 1`; length, texts and all other options are unchanged |
| Polls.SumVotesIncrement | components/poll-view.js:62-67 | incrementing one option raises the total by exactly 1 |
| Identity.DisplayName | components/wallet-connect.js:75 | displayName, else username, else "User"; never empty |
| Identity.ShortAddress | components/wallet-connect.js:77 | empty exactly without a truthy address; otherwise the first 6 characters, "...", and the last 4 |
| Identity.ShortAddressOfAccount | app/profile/page.js:78 | for a 42-character account address the result is 13 characters: `a[..6] + "..." + a[38..]` |
| CreateForm.OfferedHoursAre | components/create-poll-form.js:18-24 | the offered limits are exactly 1, 6, 24, 72 and 168 hours; the default 24 is offered and "General" is a category |
| CreateForm.WithoutIndex | components/create-poll-form.js:46 | filtering out position `index` removes exactly that entry, or nothing when no entry has that position |
| CreateForm.EditsKeepOptionCount | components/create-poll-form.js:38-49 | any sequence of add, remove and update edits from `["", ""]` keeps between 2 and 6 options |
| CreateForm.NonBlank | components/create-poll-form.js:76 | the kept entries are never longer than the input and each has a non-whitespace character |
| CreateForm.NonBlankCounts | components/create-poll-form.js:76 | every non-blank entry is kept as often as it occurs; no blank entry is kept |
| CreateForm.NonBlankAppend | components/create-poll-form.js:76 | the filter keeps the original order: filtering a concatenation is the concatenation of the filtered parts |
| CreateForm.CreatorUsername | components/create-poll-form.js:71 | username, else displayName, else "anonymous"; never empty |
| CreateForm.CreatorNameDiffersFromMenuName | components/create-poll-form.js:71 | assuming the form's host user is the same profile the wallet menu shows: with both names set and different, the poll's creator name differs from the menu's name |
| CreateForm.EndTime | components/create-poll-form.js:68-69 | the end lies exactly `hours` whole hours after `now`, and later than `now` for a positive limit |
| CreateForm.ZeroVoteOptions | components/create-poll-form.js:76 | one option per text, same text and order, each with 0 votes; the total is 0 |
| CreateForm.BuildPoll | components/create-poll-form.js:73-83 | the record has the question and category, the non-blank options with zero votes, a zero counter equal to the option sum, the computed end, the creator's address and name, and no voters |
| CreateForm.IsValid | components/create-poll-form.js:97-98 | definition: the question has content, at least two options have content, at most six options |
| CreateForm.ValidFormBuildsWellFormedPoll | components/create-poll-form.js:97-98 | a valid form with an offered limit yields 2 to 6 non-blank options, a consistent counter and an end after `now` |
| CreateForm.CreatePollForm.constructor | components/create-poll-form.js:30-36 | empty question, "General", 24 hours, two empty options, not loading |
| CreateForm.CreatePollForm.AddOption | components/create-poll-form.js:38-42 | appends an empty option below 6, else nothing; keeps 2 to 6 options |
| CreateForm.CreatePollForm.RemoveOption | components/create-poll-form.js:44-49 | removes the entry at `index` above 2 options, else nothing; keeps 2 to 6 options |
| CreateForm.CreatePollForm.UpdateOption | components/create-poll-form.js:51-55 | sets entry `index`; length and other entries unchanged |
| CreateForm.CreatePollForm.SetQuestion | components/create-poll-form.js:117 | the question becomes the typed text |
| CreateForm.CreatePollForm.SetCategory | components/create-poll-form.js:134 | the category becomes the chosen one of the offered categories |
| CreateForm.CreatePollForm.SetTimeLimit | components/create-poll-form.js:156 | the limit becomes the chosen one of the offered limits |
| CreateForm.CreatePollForm.HandleSubmit | components/create-poll-form.js:57-95 | without a connected address nothing is written; otherwise the built poll is stored under the new id exactly when the write succeeds, loading ends, and every stored counter stays equal to its option sum |
| Voting.LedgerKey | components/poll-view.js:23 | the key is `votedPolls_` followed by the address |
| Voting.RecognisedChoice | components/poll-view.js:22-27 | definition: the ledger entry of a truthy address for this poll, when it is truthy (non-zero) |
| Voting.RecordVote | components/poll-view.js:70-72 | the ledger under the wallet's key maps the poll to the chosen index and keeps its other entries, with no entry added beyond this poll; all other keys unchanged |
| Voting.RecordThenReload | components/poll-view.js:22-27 | reloading after a recorded vote recognises the choice, except a choice of index 0, which reads as no vote |
| Voting.IsEnded | components/poll-view.js:115 | definition: the end time lies strictly before now |
| Voting.ShowVoteButtons | components/poll-view.js:137 | definition: buttons only when not voted and not ended |
| Voting.WholeMinutes | components/poll-view.js:208-210 | whole hours times 60 plus the minutes of the remainder are the whole minutes |
| Voting.WholeDays | components/poll-view.js:208-209 | the whole days of the whole hours are the whole days |
| Voting.TimeLeftOf | components/poll-view.js:202-215 | ended exactly when `diff <= 0`; days and hours-mod-24 from a day on, hours and minutes from an hour on, minutes below an hour; the parts recompose the whole minutes left |
| Voting.Render | components/poll-view.js:212-214 | definition: the "Dd Hh left", "Hh Mm left" and "Mm left" texts |
| Voting.GetTimeLeft | components/poll-view.js:202-215 | definition: the rendered time left of `endTime - now` |
| Voting.GetTimeLeftEndedIff | components/poll-view.js:206 | the label is "Poll ended" exactly when no time is left, and ends in "left" otherwise |
| Voting.EndBoundaryDisagreement | components/poll-view.js:115 | at `endTime == now` the view is not ended and shows the buttons while the label says "Poll ended"; after that both agree |
| Voting.LocalAfterVote | components/poll-view.js:62-63 | definition: the snapshot with the chosen option incremented in place, unchanged when there is no such option |
| Voting.AppliedVote | components/poll-view.js:65-68 | definition: the stored document with the view's incremented options and the counter plus 1 |
| Voting.VoteKeepsCountsConsistent | components/poll-view.js:62-68 | a vote written from the current snapshot adds 1 to the chosen option and to the counter, leaves other options alone, and keeps the counter equal to the option sum |
| Voting.DisplayedTotal | components/poll-view.js:113 | the view's total is the option sum, and it is 0 exactly when every option has 0 votes |
| Voting.FailedVoteShowsOneMore | components/poll-view.js:62-63 | after a failed write the snapshot's counter is unchanged but its displayed total is one higher |
| Voting.RetryAfterFailedWriteDoubleCounts | components/poll-view.js:62-68 | a write after a failed attempt on the same snapshot adds 2 to the chosen option and 1 to the counter, leaving the document inconsistent |
| Voting.PollView.constructor | components/poll-view.js:14-18 | no snapshot, loading, not voting, no recorded vote |
| Voting.PollView.LoadLedger | components/poll-view.js:21-28 | a recognised (truthy) ledger entry sets the vote flag and selection; otherwise nothing changes |
| Voting.PollView.OnSnapshot | components/poll-view.js:33-40 | an existing document replaces the snapshot, a missing one leaves it; loading ends |
| Voting.PollView.OnSnapshotError | components/poll-view.js:41-44 | loading ends |
| Voting.PollView.HandleVote | components/poll-view.js:50-82 | disconnected or repeated calls change nothing; otherwise the local option is incremented, and on success the store gets the incremented options and a counter plus 1 and the ledger records the choice; on failure store, ledger and vote flag are untouched; voting ends |
| Voting.RetryAfterFailedVote | components/poll-view.js:50-82 | on a consistent store, a failed vote then a retry is Failed then Recorded, the option gains two votes, the counter one, and the document is inconsistent |
| Results.ChartData | components/poll-results.js:11-15 | one entry per option, in order, named by its text, valued by its count with missing read as 0 |
| Results.ChartTotalIsTotalVotes | components/poll-results.js:8-15 | the chart values add up to the displayed total |
| Results.WinnerIndex | components/poll-results.js:17 | the winner has the largest count, and every earlier option has strictly fewer, so ties go to the first |
| Results.Winner | components/poll-results.js:17 | definition: the option at the winner index |
| Results.IsWinner | components/poll-results.js:26 | definition: the row's text is the winner's text and there is a vote |
| Results.IsSelected | components/poll-results.js:25 | definition: the row's index is the selected option |
| Results.ShowsChartAndSummary | components/poll-results.js:77 | definition: chart and summary are shown when there is a vote |
| Results.WinnerFlags | components/poll-results.js:26 | with no votes no row is flagged; otherwise the winner's row is flagged, it has a vote, and a row is flagged exactly when its text equals the winner's |
| Results.SelectedRows | components/poll-results.js:25 | exactly the row at the selected index is marked, none without a selection |
| Card.Preview | components/poll-card.js:24 | the first three options, in order, or all of them when fewer |
| Card.CoarseTimeLeftOf | components/poll-card.js:49-62 | ended exactly when `diff <= 0`; whole days from a day on, whole hours from an hour on, "soon" below an hour |
| Card.RenderCoarse | components/poll-card.js:54-61 | definition: the "Ended", "Nd left", "Nh left" and "Ending soon" texts |
| Card.CardTimeLeft | components/poll-card.js:9 | definition: the coarse label of `endTime - now` |
| Card.CardTimeLeftEndedIff | components/poll-card.js:54 | the card reads "Ended" exactly when no time is left |
| Card.CardAgreesWithView | components/poll-card.js:52-61 | the card's label and the view's label agree on ended, on days, on hours, and on "soon" versus minutes only |
| Card.CardOf | components/poll-card.js:7-47 | the card shows the category and creator fallbacks, the preview, the full vote total and the coarse time left |
| Card.CardTotalCoversPreview | components/poll-card.js:8 | the card's total is at least the previewed options' votes, and equal when at most three options exist |
| Wallet.RenderStateOf | components/wallet-connect.js:51-79 | loading button exactly when not ready, connect button when ready and disconnected, profile menu when ready and connected |
| Wallet.AutoConnectTarget | components/wallet-connect.js:42-49 | asks `connectors[0]` exactly when ready, disconnected and a connector exists |
| Wallet.ManualConnectTarget | components/wallet-connect.js:62-67 | asks `connectors[0]` exactly when a connector exists |
| Wallet.WalletConnect.constructor | components/wallet-connect.js:22-23 | no user, not ready, no connect request |
| Wallet.WalletConnect.InitSdk | components/wallet-connect.js:25-40 | ready afterwards whether the handshake succeeded or threw; the user is set only from a context that carries one |
| Wallet.WalletConnect.AutoConnect | components/wallet-connect.js:42-49 | appends the auto-connect target, if any; never a request while connected, not ready, or without connectors |
| Wallet.WalletConnect.AutoConnectRerun | components/wallet-connect.js:42-49 | two effect runs while ready and disconnected issue two requests for `connectors[0]`; none while connected, not ready, or without connectors |
| Wallet.WalletConnect.ManualConnect | components/wallet-connect.js:62-67 | appends `connectors[0]` when one exists, else nothing |
| Wallet.WalletConnect.Mount | components/wallet-connect.js:25-49 | after mounting the button is no longer loading, and exactly one request for the first connector is made when disconnected with a connector; the user is the handshake context's user when it has one, else unchanged |
| Catalog.Matches | components/polls-list.js:19 | definition: active is `endTime > now`, ended is `endTime <= now` |
| Catalog.Filter | components/polls-list.js:19 | keeps only documents of the requested kind |
| Catalog.FilterCounts | components/results-gallery.js:16 | every matching document is kept as often as it occurs, no other |
| Catalog.FiltersPartition | components/results-gallery.js:16 | each poll is in exactly one of the two ranges, and the two filters together split the collection |
| Catalog.InsertSorted | components/polls-list.js:19 | inserting into a latest-first list keeps it latest first |
| Catalog.SortDesc | components/polls-list.js:19 | the result is ordered by end time, latest first, and is a permutation of the input |
| Catalog.Take | components/polls-list.js:19 | the first `n` documents, or all when fewer |
| Catalog.Query | components/polls-list.js:19 | definition: filter, order latest first, limit |
| Catalog.QueryIsLatestMatches | components/polls-list.js:19-24 | at most `limit` results, all of the requested kind, all from the collection, latest first, as many as the limit allows, and no omitted match ends later than a kept one |
| Catalog.QueryEmptyIff | components/polls-list.js:52 | with a positive limit the result is empty exactly when no document is of the requested kind |
| Catalog.ActivePolls | components/polls-list.js:19 | definition: the active query with limit 6 |
| Catalog.EndedPolls | components/results-gallery.js:16 | definition: the ended query with limit 12 |
| Catalog.CatalogsDisjoint | components/results-gallery.js:16 | no poll is in both catalogs at the same `now` |
| Catalog.Ids | components/polls-list.js:62-64 | one card key per poll, the poll's id, in order |
| Catalog.Screen | components/polls-list.js:42-66 | the skeleton exactly while loading, with the given number of placeholders (3 on the home page, 6 in the gallery); the empty message exactly when loaded with no polls; otherwise one card per poll in order |
| ActiveList.PollsList.constructor | components/polls-list.js:10-11 | no polls, loading |
| ActiveList.PollsList.OnAuthStateChanged | components/polls-list.js:14-37 | loading ends; the polls become the active query's result only with a user and a successful fetch, otherwise they stay |
| ActiveList.ListedPollsAreOpen | components/polls-list.js:19 | at most six polls, all still open, latest first; the empty message exactly when no poll is open |
| Gallery.ResultsGallery.constructor | components/results-gallery.js:9-10 | no polls, loading |
| Gallery.ResultsGallery.Mount | components/results-gallery.js:12-31 | loading ends; the polls become the ended query's result when the fetch succeeds, otherwise they stay as they were (empty after construction) |
| Gallery.GalleryPollsAreEnded | components/results-gallery.js:16 | at most twelve polls, all ended, latest first, none also in the active list; the empty message exactly when no poll has ended |
| ProfileStats.PollsCreatedBy | app/profile/page.js:49-51 | definition: the number of documents whose creator address is the address |
| ProfileStats.VotesCast | app/profile/page.js:54-55 | definition: the number of storage keys starting with `votedPolls_<address>` |
| ProfileStats.StatsFor | app/profile/page.js:49-61 | polls created is the creator count, votes cast the prefixed-key count, earnings 0; the counts never exceed the documents and keys they are drawn from |
| ProfileStats.CreatingAPollCounts | app/profile/page.js:49-51 | storing a new poll raises its creator's count by one and nobody else's |
| ProfileStats.VotesCastCountsKeys | app/profile/page.js:54-55 | with only the viewer's own ledger under the prefix, the count is 1 with that ledger and 0 without, however many votes it holds |
| ProfileStats.SecondVoteDoesNotCount | app/profile/page.js:54-55 | voting in a second poll leaves the count at 1 |
| ProfileStats.ProfilePage.constructor | app/profile/page.js:17-23 | no user, all totals 0, loading |
| ProfileStats.ProfilePage.InitSdk | app/profile/page.js:25-38 | the user is set only from a context that carries one |
| ProfileStats.ProfilePage.LoadStats | app/profile/page.js:40-70 | redirects exactly without a connected truthy address and then computes nothing; otherwise loading ends and the totals are set on success and kept on failure |
| ProfileStats.ProfilePage.Header | app/profile/page.js:76-78 | the page shows the same name and short address as the wallet menu |

## Left out

- Rendering is left out: JSX, styling, icons, the pie and bar charts, toasts, clipboard copying and router navigation. Only the choice of what is rendered is modelled.
- Percentages and their `toFixed` formatting are left out, because they are floating point.
- Firestore semantics are left out: real-time delivery, `serverTimestamp` and the `createdAt` field, and concurrency between clients. That includes the lost update when two clients write back the whole `options` array. A write is modelled as its effect on the in-memory map, with success as a parameter.
- The tie order among polls with equal end times is not the store's. Firestore also orders by document name; the model's sort keeps collection order.
- `Date` objects, time zones and `setHours` are not modelled. Time is integer milliseconds, and `endTime` is `now` plus whole hours.
- JSON encoding of local storage is not modelled. A failing `localStorage` access is not modelled either.
- The profile picture URL (`pfpUrl`) and the avatar fallback image are left out.
- The `maxLength` limits of 280 and 100 characters are enforced by the browser's input fields, not by the code, so they are left out.
- Disconnecting is left out, because the wallet's `isConnected`, `address` and connector list belong to the wallet library and are inputs here.
- `poll.options?.` on a document without options is not modelled: a poll always has an options sequence.
- CreateForm.CreatorUsername and CreateForm.CreatePollForm.HandleSubmit take the host user as an input. The form reads it from a `useFarcasterUser` hook imported from components/providers.js, and that file does not define the hook (it exports only `Providers`), so as the files stand the form cannot render. The model takes the user as given and, in CreateForm.CreatorNameDiffersFromMenuName, assumes it is the same profile the wallet menu reads from the handshake context.
- Results.WinnerIndex requires at least one option. `reduce` without a seed throws on an empty array, and a poll built by the form always has two options.
- CreateForm.CreatePollForm.UpdateOption requires an index of an existing entry. The form only calls it for rendered rows.
- CreateForm.ApplyEdit treats an `Update` at an index that is not a position as no change. In the code, assigning at `index == length` would append an entry, but the form renders one input per entry and never issues such an edit; CreateForm.EditsKeepOptionCount covers only edits the form can issue in that sense.
- CreateForm.CreatePollForm.SetCategory and CreateForm.CreatePollForm.SetTimeLimit take only offered values. The form only renders those choices.
- Voting.PollView.HandleVote keeps the counter equal to the option sum only when the view's snapshot is current. A retry after a failed write on the same view breaks it, because the snapshot already carries the failed increment, so the chosen option is counted twice; `Voting.RetryAfterFailedVote` states that case. Snapshots made stale by other clients' votes are concurrency and are not stated. Real-time delivery is not modelled: the database library normally pushes a snapshot for the pending write and another when a rejected write is rolled back, and the listener replaces the poll on each, so the leaked increment, the one-vote display excess and the retry double count hold only while the listener delivers nothing (for example after its error callback).
