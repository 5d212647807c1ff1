# Poll app state logic, in Dafny

This project models the state logic of a browser poll app with three polls
(frontend frameworks, backend technologies, developer tools):

- **the poll hook** (`UsePollData`, over `PollModel`): the built-in seed polls,
  the read of a poll's snapshot from local storage (stored value, else seed,
  else an empty option list), and the per-component hook state with its vote,
  reset, `storage`-event and two-second refresh operations;
- **the results page** (`Results`): its own copy of the read, the load of every
  configured poll, the per-poll total, the leading option, the overall
  statistics loop, the in-place descending sort of the detailed results, its
  `storage` and custom-event listeners, and "reset all polls";
- **the frontend vote guard** (`FrontendGuard`): the `hasVoted` /
  `selectedOption` state mirrored under two session-storage keys, which lets the
  component call the hook's vote at most once until it is reset.

The browser (`WebStorage.Browser`) is a class holding local storage as a map
from keys to decoded snapshots, session storage as a map from keys to strings,
and the log of dispatched custom events. Each event handler and timer callback
is a method that a caller invokes explicitly. The hook, the results page and the
frontend component are classes whose fields are the React state they keep. Each
of their methods states the new state in terms of the old one and of the pure
functions (`GetPollData`, `IncrementVotes`, `ResetData`, `LoadPolls`, `Vote`,
`Restore`), and the lemmas prove what those functions promise.

The model follows the code as written, including these behaviours a reader of the app might not expect:

- A hook reset zeroes the tallies of whatever the read returns now. That is
  the stored snapshot if there is one, not necessarily the seed
  (`ResetKeepsStoredOptions` shows a stored one-option poll staying one option).
- "Reset all polls" removes `frontendPollData`, `backendPollData` and
  `devToolsPollData`, but the polls are stored under `poll_<type>`. So it
  changes no tally (`ResetAllPolls`, `LoadPollsIgnoresOtherKeys`).
- The hook dispatches `pollUpdate`, but the results page listens for
  `pollDataUpdated`, so a same-tab vote does not reload the page
  (`HandleWindowEvent`).
- The results page's `storage` filter only accepts those three configuration
  keys. No poll write ever passes it (`PollWritesNeverReload`).
- A vote with an empty option id sets the guard, but a remount does not
  restore it, because an empty recorded option counts as absent
  (`EmptyOptionNotRestored`).
- Unknown option ids are a silent no-op for the tallies. The frontend guard
  still counts such a click as the tab's one vote.
- The frontend component's reset (src/components/FrontendPoll.jsx:38-43) is
  not wired to anything it renders, so while the component is mounted the
  guard is never cleared; `FrontendPoll.ResetPoll` is reached only by an
  explicit call.
- The overall statistics count the active polls, but the "Active Polls" card
  (src/pages/ResultsPage.jsx:276) shows the number of configured polls instead;
  `GetOverallStats` models the count that is computed and not shown.

## Model

| member | source | states |
|---|---|---|
| `PollModel.TotalVotes` | src/hooks/usePollData.js:109 | the left fold of the tallies from 0: no option's tally exceeds it, and it is 0 exactly when every tally is 0 |
| `PollModel.IncrementVotes` | src/hooks/usePollData.js:76-80 | every option whose id matches gains exactly one vote; every other option is unchanged; length, order, ids, titles, descriptions and colours are kept |
| `PollModel.IncrementVotesTotal` | src/hooks/usePollData.js:76-80 | a vote raises the total by the number of options carrying that id |
| `PollModel.VoteAddsOne` | src/hooks/usePollData.js:72-109 | with distinct ids, a vote raises the total by exactly 1 for a present id and by 0 for an absent one, and ids stay distinct |
| `PollModel.ZeroVotes` | src/hooks/usePollData.js:96-99 | a reset keeps every option, its order and its display fields, with each tally at 0 |
| `PollModel.ZeroVotesTotal` | src/hooks/usePollData.js:94-109 | after a reset the total is 0 |
| `PollModel.TotalVotesPermutation` | src/pages/ResultsPage.jsx:436-437 | reordering the options, as the results sort does, leaves the total unchanged |
| `UsePollData.StorageKeyInjective` | src/hooks/usePollData.js:33 | distinct polls never share a storage key |
| `UsePollData.SeedsWellFormed` | src/hooks/usePollData.js:6-31 | exactly frontend, backend and devtools have seeds; each is non-empty, with pairwise distinct ids and positive tallies |
| `UsePollData.GetPollData` | src/hooks/usePollData.js:33-40 | the stored snapshot if the poll's key is present, else the poll's seed, else an empty option list |
| `UsePollData.GetPollDataAfterWrite` | src/hooks/usePollData.js:33-38 | a read right after a write of the poll's key returns what was written |
| `UsePollData.GetPollDataOtherKey` | src/hooks/usePollData.js:33-40 | writing or removing any other key does not change a poll's read |
| `UsePollData.UnknownPollIsEmpty` | src/hooks/usePollData.js:40 | an unknown poll with nothing stored has no options and total 0 |
| `UsePollData.ResetData` | src/hooks/usePollData.js:94-99 | the reset snapshot has the ids, in order, of the current read, every tally 0 and total 0 |
| `UsePollData.ResetKeepsStoredOptions` | src/hooks/usePollData.js:95-98 | a reset starts from the stored snapshot: a stored one-option frontend poll resets to that one option, not to the four seeded ones |
| `UsePollData.PollDataHook.constructor` | src/hooks/usePollData.js:44-46 | the initial state is the current read of the poll |
| `UsePollData.PollDataHook.CurrentTotal` | src/hooks/usePollData.js:109-116 | the total the hook returns, over its current state: it bounds every option's tally and is 0 exactly when no option has a vote |
| `UsePollData.PollDataHook.UpdateVotes` | src/hooks/usePollData.js:72-92 | the state becomes the incremented snapshot, which is written under `poll_<type>` (and so returned by the next read) with no other key changed, and one `pollUpdate` event is dispatched; with distinct ids the total rises by exactly 1 for a present id and is unchanged otherwise |
| `UsePollData.PollDataHook.ResetPoll` | src/hooks/usePollData.js:94-107 | the state becomes the zeroed current read (total 0, same ids and order), which is written under `poll_<type>` and announced as `pollUpdate` |
| `UsePollData.PollDataHook.HandleStorageChange` | src/hooks/usePollData.js:50-54 | the state is re-read only when the event key is `poll_<type>`; any other key, or none, leaves it untouched |
| `UsePollData.PollDataHook.IntervalTick` | src/hooks/usePollData.js:62-67 | the state is replaced exactly when the current read differs from it, and afterwards equals the read |
| `UsePollData.IntervalTickIdempotent` | src/hooks/usePollData.js:61-70 | a second tick with no write in between replaces nothing |
| `Results.GetPollData` | src/pages/ResultsPage.jsx:11-47 | the page's read returns the stored snapshot when present, else the poll's seed, else an empty list for an unknown poll |
| `Results.GetPollDataMatchesHook` | src/pages/ResultsPage.jsx:11-47 | the page's copy of the read, seeds included, agrees with the hook's on every storage and poll |
| `Results.LoadPollsEntries` | src/pages/ResultsPage.jsx:111-116 | a load holds exactly one entry per configured poll, in table order, each equal to that poll's read |
| `Results.LoadPollsIgnoresOtherKeys` | src/pages/ResultsPage.jsx:157-164 | removing keys that no poll is stored under leaves every loaded snapshot as it was |
| `Results.ConfigKeysAreNotPollKeys` | src/pages/ResultsPage.jsx:54-82 | none of the three configured storage keys is a `poll_<type>` key |
| `Results.GetTotalVotes` | src/pages/ResultsPage.jsx:126-129 | 0 for missing options, otherwise the sum of the tallies |
| `Results.ReduceLeadingFirstMax` | src/pages/ResultsPage.jsx:133-135 | the strict-greater reduce, started from the earliest maximum of a prefix, ends at the earliest maximum of the whole list |
| `Results.GetLeadingOption` | src/pages/ResultsPage.jsx:131-136 | none exactly for a missing or empty list; otherwise an option of the list whose tally no option exceeds, and the earliest such one, so ties go to the first |
| `Results.SortedLeaderIsFirst` | src/pages/ResultsPage.jsx:436-437 | once a list is in the page's sorted order, its leading option is its first |
| `Results.ReduceLeadingSnoc` | src/pages/ResultsPage.jsx:133-135 | the leading-option reduce over a list extended by one option is one more reduce step on the shorter list's result |
| `Results.SortByVotesDescending` | src/pages/ResultsPage.jsx:436-437 | the sorted array is a permutation of the original, its tallies are non-increasing, and its first option is the leading option of the original (ties keep the earliest) |
| `Results.ActivePollsBounds` | src/pages/ResultsPage.jsx:166-182 | at most as many polls are active as there are polls, and none is active exactly when the overall total is 0 |
| `Results.GetOverallStats` | src/pages/ResultsPage.jsx:166-182 | the overall total is the sum of the per-poll totals, the option count is the sum of the list lengths, and the active count is the number of polls with a positive total, bounded by the number of polls |
| `Results.PollWritesNeverReload` | src/pages/ResultsPage.jsx:90-94 | no `poll_<type>` key passes the page's `storage` filter |
| `Results.ResultsPage.constructor` | src/pages/ResultsPage.jsx:51-52 | the page starts with no polls loaded and loading set |
| `Results.ResultsPage.LoadAllPollResults` | src/pages/ResultsPage.jsx:108-122 | `allPolls` holds one entry per configured poll, in order, each the poll's read, and loading is cleared |
| `Results.ResultsPage.HandleStorageChange` | src/pages/ResultsPage.jsx:90-94 | the page reloads only when the event key is one of the configured storage keys, and is otherwise untouched |
| `Results.ResultsPage.HandleWindowEvent` | src/pages/ResultsPage.jsx:98-100 | the page reloads only on an event named `pollDataUpdated`, so the hook's `pollUpdate` leaves it untouched |
| `Results.ResultsPage.ResetAllPolls` | src/pages/ResultsPage.jsx:157-164 | when confirmed, exactly the configured storage keys are removed and the reloaded polls equal a load of the storage as it was before the reset (no stored tally changes; a stale page is refreshed); when not confirmed nothing changes |
| `Results.ResultsPage.RemoveConfigStorageKeys` | src/pages/ResultsPage.jsx:159-161 | exactly the three configured storage keys are removed from local storage; session storage and the event log are untouched |
| `Results.ResultsPage.SortDetailedResults` | src/pages/ResultsPage.jsx:400-437 | the render leaves every loaded poll's options, in the page's own state, a permutation of the previous list, sorted by non-increasing tally, with the same total and the same leading option, so the leader shown before and after the sort agree |
| `FrontendGuard.RestoreFromFresh` | src/components/FrontendPoll.jsx:15-24 | the mount restore sets the guard exactly when the flag is `"true"` and a non-empty option is recorded, adopting that option; otherwise the state stays fresh |
| `FrontendGuard.ClicksVoteAtMostOnce` | src/components/FrontendPoll.jsx:26-36 | any sequence of vote clicks calls the hook's vote at most once: never from a set guard, once from an unset one, with the first click's option selected |
| `FrontendGuard.RestoreAfterVote` | src/components/FrontendPoll.jsx:17-35 | after a vote with a non-empty id from a fresh state, the restore on the written session reproduces the same guard state |
| `FrontendGuard.EmptyOptionNotRestored` | src/components/FrontendPoll.jsx:20-35 | a vote with an empty id sets the guard, but the restore on the written session yields the fresh state |
| `FrontendGuard.RestoreAfterReset` | src/components/FrontendPoll.jsx:38-43 | once both session keys are removed, a remount restores nothing |
| `FrontendGuard.FrontendPoll.constructor` | src/components/FrontendPoll.jsx:12-13 | the component starts unvoted with no selected option |
| `FrontendGuard.FrontendPoll.RestoreSession` | src/components/FrontendPoll.jsx:15-24 | the state becomes the restore of the current session storage |
| `FrontendGuard.FrontendPoll.HandleVote` | src/components/FrontendPoll.jsx:26-36 | a set guard changes nothing and calls no vote; an unset one calls the hook's vote once, sets `hasVoted` and `selectedOption` and writes both session keys; the vote count since the last reset never exceeds one |
| `FrontendGuard.FrontendPoll.ResetPoll` | src/components/FrontendPoll.jsx:38-43 | both session keys are removed and the guard is cleared; local storage and the hook's tallies are untouched |
| `FrontendGuard.TwoClicksOneVote` | src/components/FrontendPoll.jsx:26-36 | two clicks on a fresh component record only the first vote |

## Left out

- JSON encoding: local storage holds decoded snapshots, and the text is assumed to round-trip exactly. A corrupt stored value, which the hook's parse does not catch and the page's load swallows, is not modelled.
- The change check of the interval refresh compares snapshots structurally, where the code compares their JSON texts.
- A stored empty string, which the read would treat as absent, cannot occur in the model because stored values are snapshots.
- Poll names that coincide with built-in object members (`toString`, `constructor`) are treated as unknown polls. In the code they would index the object prototype.
- Listener registration and removal, `setInterval`, and React's batching and scheduling are left out. Each handler is a method called explicitly. State updaters run against the current state, as in a sequential run.
- PollDataHook.UpdateVotes, PollDataHook.ResetPoll, FrontendPoll.HandleVote: a storage write always succeeds in the model. In the code `setItem` can throw (quota exceeded, storage disabled) and nothing catches it, and that error path is not modelled. In `UpdateVotes` the write runs inside the state updater, so a throw aborts the vote itself and surfaces again during rendering; in `ResetPoll` and `HandleVote` the state has already changed, so the new state is left unpersisted (and, for `ResetPoll`, unannounced).
- Cross-tab concurrency and the lost update it allows are left out, because the model is sequential.
- Percentages, `toFixed` and `toLocaleString` are left out, because they are floating-point display only.
- Sharing, the clipboard and `alert` are left out. `window.confirm` is the `confirmed` parameter of `ResetAllPolls`.
- JSX rendering and navigation are left out, and so are the icon, colour and gradient fields of the page's poll table.
- Results.SortByVotesDescending: the sort keeps equal tallies in their original order, but full stability is not stated or proved. Ordering, permutation and the first position (the earliest maximum) are.
- Results.ResultsPage.SortDetailedResults: the order of tied options after the first position is not stated, where the engine's stable sort fixes it. The leading option is proved unchanged, so the leader and rank-1 option agree across renders.
- The results page's check that a loaded poll has an option list always holds in the model, because every snapshot has one.
- The load's `loading` flag is set and cleared within one call, because nothing in it waits.
- Other poll components, the vote button and the chart are not part of this model. Nor are the footer, app shell, loading screen, index page and chart helpers.
