# Community showcase: feed pipeline, navigation history, cards and filter bar

This project models the logic of a single-page showcase of user-submitted
projects. It covers four parts:

- **Feed** (`ProjectFeed`, from `src/components/ProjectFeed.tsx`). The pure
  pipeline filters the project list by a category, ignoring case. It then
  stable-sorts the result in descending order of a metric or of the creation
  time. The feed shows the first `page × 6` projects of that list and has a
  small state machine: displayed list, page, loading flag and `hasMore`.
- **Navigation history** (`Navigation`, from `src/App.tsx`). A stack of
  strings starts as `["home"]`. Three click handlers push entries, compute the
  browser location and set the view fields. The back handler pops the stack
  (never past the root) and restores the view from the new top entry.
- **Project card** (`ProjectCard`, from `src/components/ProjectCard.tsx`). It
  covers the local upvote toggle, the "Top Project" badge (more than 400
  upvotes), the six-step animation stagger and click forwarding.
- **Filter bar** (`FilterBar`, from `src/components/FilterBar.tsx`). It covers
  the sort-label lookup with its `'Sort By'` fallback, the values the clicks
  report (`'All'` becomes `''`, removing a chip reports `'newest'` or `''`),
  and the highlight and visibility predicates.

`Types` holds the project record and the seven sort options from
`src/types/index.ts`. `Text` holds the string helpers the source uses:
`startsWith`, `split(':')[1]` and ASCII `toLowerCase`.

Main results:

- The sort step is a permutation. It is non-increasing in its key. It is stable:
  each group of equal-key projects keeps its order. It is the only list with
  these properties (`StableSortUnique`), so the engine's stable
  `Array.prototype.sort` (section 22.1.3.27 of ECMA-262, 10th edition) gives
  exactly the modelled list.
- The feed invariant: the displayed list is always a prefix of the current
  results. It is never longer than `page` pages. When `hasMore` is false, it is
  the whole result list.
- The history invariant: the history is never empty and its root is `'home'`.
  Every entry is one the back handler recognises. The view fields match the top
  entry.
- Encoding an entry and then decoding it keeps the entry exactly when its id
  has no `':'`. Otherwise the id is cut at the first `':'`.

## Model

| member | source | states |
|---|---|---|
| Types.SortValueInjective | src/types/index.ts:20-27 | the seven sort literals are pairwise distinct and non-empty, so comparing them as strings is comparing the options |
| Text.FirstSegment | src/App.tsx:40 | the part before the first ':' is a prefix without ':'; it is all of the string when there is no ':', and otherwise it is followed by the ':' |
| Text.SecondFieldAfterTag | src/App.tsx:40 | `(tag + ':' + rest).split(':')[1]` is the part of `rest` before its first ':' |
| Text.Lower | src/components/ProjectFeed.tsx:34 | the lowercased string has the same length, contains no upper-case ASCII letter, and leaves every other character where it was |
| Text.LowerIdempotent | src/components/ProjectFeed.tsx:34 | lowercasing twice is the same as lowercasing once |
| Text.SameIgnoringCaseEquivalence | src/components/ProjectFeed.tsx:34 | comparing lowercased strings is reflexive, symmetric and transitive, and a string matches its own lowercase form |
| ProjectFeed.Keep | src/components/ProjectFeed.tsx:32-36 | every kept project comes from the input and has a tag equal to the category, ignoring case |
| ProjectFeed.KeepMembership | src/components/ProjectFeed.tsx:32-36 | a project is kept if and only if it is in the input and carries the category (nothing qualifying is dropped) |
| ProjectFeed.KeepAppend | src/components/ProjectFeed.tsx:32-36 | filtering distributes over concatenation, so kept projects stay in their original relative order |
| ProjectFeed.KeepAllMatching | src/components/ProjectFeed.tsx:32-36 | when every project carries the category, the filter returns the input unchanged |
| ProjectFeed.KeepIgnoresCase | src/components/ProjectFeed.tsx:34 | two categories that are equal ignoring case select the same projects |
| ProjectFeed.FilterByCategory | src/components/ProjectFeed.tsx:32-36 | an empty category or 'All' keeps every project; any other category keeps exactly the projects with a tag equal to it ignoring case |
| ProjectFeed.KeepMembershipAll | src/components/ProjectFeed.tsx:32-36 | for every project at once: it is kept iff it is in the input and carries the category |
| ProjectFeed.MetricFor | src/components/ProjectFeed.tsx:39-57 | an option has no sort key exactly when it is most_liked or most_remixed, the two options the switch has no case for |
| ProjectFeed.Insert | src/components/ProjectFeed.tsx:41-53 | inserting one project adds exactly that project to the multiset |
| ProjectFeed.InsertSorted | src/components/ProjectFeed.tsx:41-53 | inserting into a non-increasing list keeps it non-increasing |
| ProjectFeed.SortBy | src/components/ProjectFeed.tsx:41-53 | the descending sort is a permutation of its input and is non-increasing in the key |
| ProjectFeed.WithKeyInsert | src/components/ProjectFeed.tsx:41-53 | an inserted project goes ahead of the others with its key, and every other key group is unchanged |
| ProjectFeed.SortByStable | src/components/ProjectFeed.tsx:41-53 | the sort keeps the relative order of projects with equal keys |
| ProjectFeed.StableSortUnique | src/components/ProjectFeed.tsx:41-53 | two lists that are both non-increasing and keep every key group in order are equal, so a stable sort has one possible result |
| ProjectFeed.SortProjects | src/components/ProjectFeed.tsx:39-57 | the result is always a permutation; for visits, upvotes, comments, shares and newest it is non-increasing in that key and keeps equal-key projects in order; for most_liked and most_remixed the list is returned as it is |
| ProjectFeed.SortProjectsIsTheStableSort | src/components/ProjectFeed.tsx:39-57 | any non-increasing, stable arrangement of the filtered list equals the modelled sort |
| ProjectFeed.FilteredAndSorted | src/components/ProjectFeed.tsx:22-60 | a source that is not an array yields the empty list; otherwise the result is a permutation of the filtered list |
| ProjectFeed.Window | src/components/ProjectFeed.tsx:89-92 | the displayed slice is a prefix of the results, of length min(6 × page, n) |
| ProjectFeed.MoreAfter | src/components/ProjectFeed.tsx:93 | `hasMore` is false exactly when the slice shown for the page is the whole result list |
| ProjectFeed.WindowGrows | src/components/ProjectFeed.tsx:89-92 | a later page's slice extends an earlier page's slice, and `hasMore` can only turn false |
| ProjectFeed.PagesNeeded | src/components/ProjectFeed.tsx:89-93 | `hasMore` holds at page p exactly when p < ceil(n / 6) |
| ProjectFeed.Feed.constructor | src/components/ProjectFeed.tsx:14-17 | the feed starts with nothing displayed, page 1, not loading, `hasMore` true |
| ProjectFeed.Feed.ChangeQuery | src/components/ProjectFeed.tsx:63-67 | a change of category or sort empties the list, sets page 1 and `hasMore` true; an unchanged query changes nothing |
| ProjectFeed.Feed.BeginLoad | src/components/ProjectFeed.tsx:72 | a load sets the loading flag and keeps the invariant |
| ProjectFeed.Feed.CompleteLoad | src/components/ProjectFeed.tsx:71-101 | a load shows the first min(6p, n) results, sets `hasMore` iff 6p < n, clears loading, and only appends to what was shown |
| ProjectFeed.Feed.Advance | src/components/ProjectFeed.tsx:107-119 | the page grows by exactly 1, and only when not loading and `hasMore` holds |
| ProjectFeed.AdvanceAndLoad | src/components/ProjectFeed.tsx:113-114 | with the query unchanged, an advance and its load only extend the displayed list |
| ProjectFeed.LoadFromMalformed | src/components/ProjectFeed.tsx:24-27 | a source that is not an array ends in an empty feed with `hasMore` false, without failing |
| Navigation.Encode | src/App.tsx:66-102 | every pushed entry is one the back handler recognises, and it is read back as the same entry when its id has no ':' |
| Navigation.Decode | src/App.tsx:31-48 | whatever the back handler recognises names an entry whose id has no ':' |
| Navigation.DecodeProjectEntry | src/App.tsx:39-42 | `'project:' + id` is read back as a project entry with the part of id before its first ':' |
| Navigation.DecodeUserEntry | src/App.tsx:43-47 | `'user:' + id` is read back as a user entry with the part of id before its first ':' |
| Navigation.DecodeEncode | src/App.tsx:31-48 | 'home' and 'profile' decode to themselves; project and user entries come back with their ids cut at the first ':' |
| Navigation.RoundTrip | src/App.tsx:31-48 | decode(encode(e)) == e if and only if e's id has no ':' |
| Navigation.DecodeStable | src/App.tsx:31-48 | re-encoding a recognised entry and reading it back gives the same entry again |
| Navigation.RoundTripTruncates | src/App.tsx:40 | the project id "a:b" comes back as "a" |
| Navigation.Location | src/App.tsx:74-106 | every pushed location starts with '/', and it is exactly '/' for the home entry |
| Navigation.LocationInjective | src/App.tsx:74-106 | distinct entries are pushed with distinct locations |
| Navigation.App.constructor | src/App.tsx:14-18 | history ['home'], feed view, nothing selected, previous path 'home' |
| Navigation.App.ProfileClick | src/App.tsx:64-80 | pushes `user:{id}` or 'profile', returns '/user/{id}' or '/profile', shows the profile, clears the project, selects id or 'user123', records 'project' iff a project was open on the profile view |
| Navigation.App.HomeClick | src/App.tsx:82-94 | pushes 'home', returns '/', clears the profile view, project and user, and keeps the previous path |
| Navigation.App.ProjectClick | src/App.tsx:96-111 | pushes `project:{id}`, returns '/project/{id}', selects the project, shows the profile view, keeps the user, and records 'profile' iff the profile view was shown |
| Navigation.App.Back | src/App.tsx:22-50 | with more than one entry, pops one and restores the view the new top names (home clears all; profile keeps the user; a project keeps the user; a user clears the project); with one entry it does nothing |
| Navigation.PushThenBack | src/App.tsx:24-27 | any push followed by one back leaves the history exactly as it was |
| Navigation.HomeThenBack | src/App.tsx:22-50 | a home click followed by a back restores the history and keeps the previous path, but the selections come from the restored top entry: only a project entry keeps a project and only a user entry keeps a user |
| Navigation.BackLosesSelectedUser | src/App.tsx:22-50 | a user profile, a project, home, then back: the project view is back but the selected user is gone |
| Navigation.BackKeepsPreviousPath | src/App.tsx:22-50 | a user profile, a project, then back: the history is back to two entries but the previous path still says 'profile' |
| Navigation.HomeProfileProjectBackBack | src/App.tsx:22-50 | home, a user profile, a project, then two backs: the feed view with nothing selected |
| ProjectCard.TopProjectBadge | src/components/ProjectCard.tsx:70 | the badge shows iff the project has over 400 upvotes, or exactly 400 and the viewer upvoted |
| ProjectCard.StaggerSlot | src/components/ProjectCard.tsx:41 | the stagger number is always between 1 and 6 |
| ProjectCard.StaggerSlotsCycle | src/components/ProjectCard.tsx:41 | six consecutive cards get six distinct delays, repeating every six cards |
| ProjectCard.DelayClass | src/components/ProjectCard.tsx:41 | the class is 'staggered-delay-' followed by the digit of the stagger number |
| ProjectCard.Card.constructor | src/components/ProjectCard.tsx:12-13 | a card starts not upvoted, showing its project's count |
| ProjectCard.Card.ToggleUpvote | src/components/ProjectCard.tsx:24-32 | adds 1 when not upvoted, subtracts 1 when upvoted, flips the flag, and keeps the count at base or base+1 with the flag set iff base+1 |
| ProjectCard.Card.ShowsTopBadge | src/components/ProjectCard.tsx:70 | on a consistent card, the badge shows iff the project has over 400 upvotes, or exactly 400 and the viewer upvoted |
| ProjectCard.Card.Click | src/components/ProjectCard.tsx:34-38 | forwards exactly the project id, and only when a callback is supplied |
| ProjectCard.ToggleTwice | src/components/ProjectCard.tsx:24-32 | two toggles restore both the count and the flag |
| ProjectCard.ToggleKeepsBadgeRule | src/components/ProjectCard.tsx:70 | after any toggle the badge follows the over-400 rule |
| FilterBar.FindLabelSpec | src/components/FilterBar.tsx:33 | the lookup finds nothing iff no option has the value, and otherwise finds the label of the first option that has it |
| FilterBar.Position | src/components/FilterBar.tsx:22-30 | every sort option has an entry in the table |
| FilterBar.SortOptionsListEachOnce | src/components/FilterBar.tsx:22-30 | each sort option is listed exactly once |
| FilterBar.SortLabel | src/components/FilterBar.tsx:32-34 | getSortLabel returns the label listed beside the option, never the 'Sort By' fallback |
| FilterBar.SortLabelNamesOption | src/components/FilterBar.tsx:32-34 | distinct options get distinct labels |
| FilterBar.CategoryClicked | src/components/FilterBar.tsx:97 | the reported category is empty iff 'All' (or '') was clicked, and otherwise is the clicked category |
| FilterBar.CategoryClickedFeedsFilter | src/components/FilterBar.tsx:97 | the reported category leaves the feed unfiltered iff the clicked one did, and mapping it again changes nothing |
| FilterBar.ClickHighlightsOnlyThatCategory | src/components/FilterBar.tsx:100 | in a list without '', a clicked category highlights exactly the items equal to it |
| FilterBar.SortHighlighted | src/components/FilterBar.tsx:67 | a sort item is highlighted iff it is the selected sort |
| FilterBar.CategoryHighlighted | src/components/FilterBar.tsx:100 | with a category selected, exactly the items equal to it are highlighted; with none, 'All' (or an empty item) |
| FilterBar.SortChipRemoved | src/components/FilterBar.tsx:122 | removing the sort chip reports 'newest' |
| FilterBar.CategoryChipRemoved | src/components/FilterBar.tsx:135 | removing the category chip reports a category that leaves the feed unfiltered and highlights 'All' |
| FilterBar.CategoryButtonLabel | src/components/FilterBar.tsx:86 | the category button shows the selected category, or 'All Categories' when there is none |
| FilterBar.ActiveFiltersShown | src/components/FilterBar.tsx:114 | with a well-typed sort selection, the active-filters row is always shown |
| FilterBar.ChipVisibility | src/components/FilterBar.tsx:114-140 | the sort chip is always shown; the category chip is shown iff a category is selected |
| FilterBar.ChipRemovalResets | src/components/FilterBar.tsx:122 | after the chips are removed: no category chip, 'All Categories' on the button, and 'Newest' highlighted and labelled |

## Left out

- Text.Lower: only ASCII letters are lowercased. The JavaScript `toLowerCase` also folds non-ASCII letters, and that is not modelled.
- The simulated 800 ms delay and React's effect scheduling (src/components/ProjectFeed.tsx:76): a load is two atomic steps, `BeginLoad` and `CompleteLoad`. Overlapping loads and stale closures are not modelled. The source does not stop a second load from starting while one is running. It only ignores advances during a load, and that guard is what `Advance` models.
- ProjectFeed.Feed.Advance: the observer callback reads `hasMore` from when the observer was created. The model reads the current value.
- The "filtered result is not an array" branch (src/components/ProjectFeed.tsx:81-87) and the `catch` branch (94-97) cannot be reached in the model. The pipeline always returns a list and nothing in it throws. A source that is not an array still gives an empty feed with `hasMore` false (`LoadFromMalformed`).
- IntersectionObserver creation, disconnection and observation (src/components/ProjectFeed.tsx:107-119) are not modelled. Only their guard is kept.
- `window.location.href` in the clear-filters button (src/components/ProjectFeed.tsx:124) is not modelled. It is a browser side effect.
- `window.history.pushState` and the popstate listener registration (src/App.tsx:52, 74) are not modelled. The push methods return the location string, and `App.Back` stands for the popstate event. The browser's own location after a back is not tracked.
- Date parsing (`new Date(...).getTime()`) and `Intl.DateTimeFormat`: `createdAt` is a given timestamp, and the card's date text is not modelled.
- Image `onError` placeholders, `console.error` logging and the dropdown open/closed flags are not modelled. They are presentation only.
- `mockProjects`, `mockCategories` and `ProfilePage` are not part of this model. The project source and the category list are parameters.
- `App.tsx`'s `handleCategoryChange`, `handleSortChange` and `isLoggedIn` only store values. The App passes `sortOption` where FilterBar declares `selectedSort`; the filter bar is modelled over its declared parameters.
- `Navbar`, `HeroSection` and `BottomCTA` are not modelled. They hold only markup and UI toggles.
- A back is meant to return to the view the entry was pushed from. The code falls short of that in four ways, and the model follows the code:
  - a project click leaves the selected user unchanged;
  - a back to 'profile' keeps whatever user was selected;
  - the restored view matches the top entry only up to the first ':' of an id;
  - a push followed by a back restores the history but not the view fields: the selections are rebuilt from the top entry alone, so a project opened from a user profile comes back without its user (`BackLosesSelectedUser`), and the previous path is never restored (`BackKeepsPreviousPath`).
