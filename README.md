# Coding-profile cards of a portfolio site, modelled in Dafny

The portfolio's "Coding Profiles" section keeps a fixed list of three
coding-platform cards: LeetCode, CodeChef and GeeksforGeeks. Each card holds
a platform, a username, a logo, a static rating, a `solved` count, a
`maxSolved` scale, a link, a `loading` flag and an optional `error` message.
A refresh pass (`fetchAllData`) first resets every card to loading with no
error. It then visits the cards in index order. For each card it calls the
platform's fetch helper through a `switch` and applies the result to that
card only, as success, `null` or an exception. It pauses between consecutive
cards.

The model has three modules:

- `Registry` (`registry.dfy`): the card record, the initial list, the
  object-spread merge and its patches, `updateProfile` as `UpdateAt`, and the
  pass-start reset as `ResetAll`.
- `Fetchers` (`fetchers.dfy`): the LeetCode response shaping, the two
  constant stubs, the platform `switch` (`Dispatch`) and the update each
  outcome turns into (`PatchFor`).
- `Refresh` (`refresh.dfy`): the pass as specification functions (`Steps`,
  `PassResult`, `PassLog`) and the lemmas about them. It also holds the
  section's state as the class `CodingProfilesSection`, whose `FetchAllData`
  loop is proved against those functions.

The network is an input. Per card, an `Attempt` is either `Completed` or
`Threw`. A `Completed` attempt means the helper settled, and carries what the
LeetCode endpoint answered: no response, or a response with an `ok` flag and
a body. The body is malformed when reading it throws (it is not JSON, or it is
the JSON `null`), and is otherwise a JSON value with an optional
`totalSolved`. Only the LeetCode helper reads that answer. Each helper catches its own failures and
returns `null`, so as written no helper ever rejects. A LeetCode network
failure therefore ends in "Failed to fetch data". `Threw` is kept only to
reach the loop's own `catch` branch, whose "Error fetching data" message the
helpers as written never produce. The 500 ms pauses appear as
`Delay(i)` events in a log, beside a `Visit(i)` event for each card whose
update was applied.

The model keeps the source's own `loading` flag plus optional `error`
string. It does not use a three-state status.

## Model

| member | source | states |
|---|---|---|
| `Registry.Initial` | My-Portfolio-main/My-Portfolio-main/src/components/CodingProfilesSection.jsx:7-38 | three cards, LeetCode, CodeChef and GeeksforGeeks in that order, with their usernames and scales; each has `solved` 0, is loading and has no error |
| `Registry.MergeThen` | My-Portfolio-main/My-Portfolio-main/src/components/CodingProfilesSection.jsx:89 | spreading patch `u` and then patch `v` over a card equals spreading their combination, in which `v`'s fields win |
| `Registry.UpdateAt` | My-Portfolio-main/My-Portfolio-main/src/components/CodingProfilesSection.jsx:88-90 | the list keeps its length; the entry at `index` takes the patch's fields and keeps its own for the rest; every other entry is unchanged |
| `Registry.UpdateOutOfRange` | My-Portfolio-main/My-Portfolio-main/src/components/CodingProfilesSection.jsx:89 | an index outside the list matches no entry, so the list is returned unchanged |
| `Registry.UpdatesCommute` | My-Portfolio-main/My-Portfolio-main/src/components/CodingProfilesSection.jsx:88-90 | updates of two different indices give the same list in either order |
| `Registry.UpdatesCombine` | My-Portfolio-main/My-Portfolio-main/src/components/CodingProfilesSection.jsx:88-90 | two updates of one index equal a single update with the combined patch |
| `Registry.ResetAll` | My-Portfolio-main/My-Portfolio-main/src/components/CodingProfilesSection.jsx:94 | the list keeps its length; every entry is loading with no error, and keeps its `solved` count and its platform, username, logo, rating, scale and link |
| `Registry.ResetTwice` | My-Portfolio-main/My-Portfolio-main/src/components/CodingProfilesSection.jsx:94 | resetting twice equals resetting once |
| `Fetchers.LeetCodeData` | My-Portfolio-main/My-Portfolio-main/src/components/CodingProfilesSection.jsx:41-54 | the helper yields data exactly when a response arrived, its status is ok and its body parses to a value other than `null`; the count is then `totalSolved`, or 0 when that field is missing |
| `Fetchers.CodeChefData` | My-Portfolio-main/My-Portfolio-main/src/components/CodingProfilesSection.jsx:57-70 | the CodeChef stub always yields a count of 150 |
| `Fetchers.GfgData` | My-Portfolio-main/My-Portfolio-main/src/components/CodingProfilesSection.jsx:73-86 | the GeeksforGeeks stub always yields a count of 200 |
| `Fetchers.Dispatch` | My-Portfolio-main/My-Portfolio-main/src/components/CodingProfilesSection.jsx:101-113 | a platform no `case` names leaves `data` null; an exception comes exactly from a known platform whose call rejected; a settled CodeChef or GeeksforGeeks call gives 150 or 200; a settled LeetCode call gives data exactly when its response is ok and its body parses to a value other than `null`, and that data is the helper's count (`totalSolved`, or 0) |
| `Fetchers.PatchFor` | My-Portfolio-main/My-Portfolio-main/src/components/CodingProfilesSection.jsx:115-131 | every outcome's update sets `loading: false` and writes no card field. Data writes `solved` and no error. Null writes the "Failed to fetch data" message, an exception writes "Error fetching data", and neither writes `solved` |
| `Refresh.StepsAt` | My-Portfolio-main/My-Portfolio-main/src/components/CodingProfilesSection.jsx:94-131 | after `k` iterations the entries before `k` hold the reset entry with their own update applied; the entries from `k` on still hold the reset entry |
| `Refresh.PassEntry` | My-Portfolio-main/My-Portfolio-main/src/components/CodingProfilesSection.jsx:94-131 | after a pass an entry is not loading and keeps its card fields. With data it has the fetched count and no error. With null or an exception it has the matching message and its count from before the pass |
| `Refresh.PassSettlesAll` | My-Portfolio-main/My-Portfolio-main/src/components/CodingProfilesSection.jsx:92-138 | after a full pass the list has its old length, no entry is loading and every card keeps its fixed fields |
| `Refresh.UnknownPlatformFails` | My-Portfolio-main/My-Portfolio-main/src/components/CodingProfilesSection.jsx:101-125 | an entry whose platform matches no `case` ends with "Failed to fetch data" and its old count |
| `Refresh.Isolation` | My-Portfolio-main/My-Portfolio-main/src/components/CodingProfilesSection.jsx:97-136 | an entry's final state depends only on its own attempt: what happens to other entries, failures included, does not change it |
| `Refresh.PassIdempotent` | My-Portfolio-main/My-Portfolio-main/src/components/CodingProfilesSection.jsx:92-138 | a second pass whose fetches behave as in the first leaves the list as the first pass left it |
| `Refresh.ScenarioAllSucceed` | My-Portfolio-main/My-Portfolio-main/src/components/CodingProfilesSection.jsx:7-138 | from the initial list, with LeetCode answering `totalSolved: 42`, the cards end at 42, 150 and 200, none loading and none in error |
| `Refresh.ScenarioLeetCodeThrows` | My-Portfolio-main/My-Portfolio-main/src/components/CodingProfilesSection.jsx:100-131 | from the initial list, the loop's `catch` branch, which no helper as written reaches, leaves the LeetCode card with "Error fetching data" and 0; CodeChef and GeeksforGeeks still end at 150 and 200 |
| `Refresh.ScenarioLeetCodeUnreachable` | My-Portfolio-main/My-Portfolio-main/src/components/CodingProfilesSection.jsx:43-52 | from the initial list, a LeetCode endpoint that cannot be reached makes the helper return null: that card ends not loading, with "Failed to fetch data" and 0; CodeChef and GeeksforGeeks still end at 150 and 200 |
| `Refresh.SettledNeverThrown` | My-Portfolio-main/My-Portfolio-main/src/components/CodingProfilesSection.jsx:100-131 | when every helper call settles, which is all the helpers as written can do, no card ends a pass with "Error fetching data" |
| `Refresh.LogPrefixShape` | My-Portfolio-main/My-Portfolio-main/src/components/CodingProfilesSection.jsx:97-136 | after `k` iterations the log alternates: even position `2i` is the visit of entry `i` and odd position `2i+1` the pause after it; only the last entry of a pass has no pause |
| `Refresh.PassLogShape` | My-Portfolio-main/My-Portfolio-main/src/components/CodingProfilesSection.jsx:133-136 | a pass over `n` entries logs `2n-1` events; the visits come in order `0..n-1`, and the pause after entry `i` falls between visit `i` and visit `i+1` |
| `Refresh.PassLogOnce` | My-Portfolio-main/My-Portfolio-main/src/components/CodingProfilesSection.jsx:97 | entry `i` is visited if and only if `i < n`; a pause follows entry `i` if and only if `i < n-1`; no event repeats |
| `Refresh.PassDelays` | My-Portfolio-main/My-Portfolio-main/src/components/CodingProfilesSection.jsx:134-136 | a pass over `n` entries pauses exactly `n-1` times, and not at all over an empty list |
| `Refresh.CodingProfilesSection.constructor` | My-Portfolio-main/My-Portfolio-main/src/components/CodingProfilesSection.jsx:7-38 | the section starts with the initial list and an empty log |
| `Refresh.CodingProfilesSection.UpdateProfile` | My-Portfolio-main/My-Portfolio-main/src/components/CodingProfilesSection.jsx:88-90 | the list becomes the point update of the old list; the log is unchanged |
| `Refresh.CodingProfilesSection.FetchAllData` | My-Portfolio-main/My-Portfolio-main/src/components/CodingProfilesSection.jsx:92-138 | the list becomes the pass result of the list as it was at the call. The log grows by exactly the pass's visits and pauses. The loop's invariant is the state after `i` iterations |
| `Refresh.CodingProfilesSection.VisitEntry` | My-Portfolio-main/My-Portfolio-main/src/components/CodingProfilesSection.jsx:98-136 | from any state, one loop iteration applies entry `i`'s update to entry `i` only, the update chosen from the list the pass started from; it logs the visit of entry `i`, followed by a pause unless `i` is the last entry |
| `Refresh.Mount` | My-Portfolio-main/My-Portfolio-main/src/components/CodingProfilesSection.jsx:140-147 | after the mount's one pass no card is loading, and the log reads visit 0, pause, visit 1, pause, visit 2 |

## Left out

- The HTTP request, `response.json()` and `console.error` in the LeetCode helper are not modelled. They are network I/O; their result is the `LeetCodeReply` input.
- Fetchers.LeetCodeData: models `totalSolved` as an integer or absent. A truthy non-numeric JSON value, which `|| 0` would pass through unchanged, is not modelled.
- The helpers' `username` argument is not modelled. It only forms the LeetCode URL, and the endpoint's answer is already an input.
- The `setTimeout` waits are not modelled: 1000 ms and 1200 ms in the stubs, 500 ms between cards, and the 100 ms mount timer with its cleanup. They are host timing and appear only as `Delay` events.
- Passes that overlap are not modelled. The Refresh button can start a second pass while one is running, which needs concurrency and interleaving. One pass at a time is modelled.
- React's deferred state updates are modelled as applied immediately and in order. The loop reads the list its closure captured; `FetchAllData` takes that list as `snapshot` and reads length and platform from it. Neither ever changes, as `PassSettlesAll` shows.
- The progress percentage `Math.min(solved / maxSolved * 100, 100)` is not modelled. It is floating-point display arithmetic.
- JSX rendering is not modelled: the spinner, the "Error" label and the CSS classes.
- The other components are not part of this model: the animated background, the navigation bar and the static sections.
