# Hack-or-Snooze data model in Dafny

This project models the client-side data model of Hack-or-Snooze, a browser
front end for a service where users submit news stories and mark favourites.
The model covers three things:

- `Story`, an immutable record of six fields keyed by `storyId`.
- `StoryList`, the story feed. Its methods create and delete stories on the
  server and update the local feed.
- `User`, the logged-in principal. It holds the `favorites` and `ownStories`
  lists and keeps them in step with the server.

Modules:

- `Stories` (stories.dfy): the record and Story datatypes, their conversion,
  and the filter/subsequence vocabulary the list contracts are written in.
- `FavoriteRemoval` (favorites.dfy): the `removeFav` loop as a function on
  lists, with its properties.
- `Models` (models.dfy): the classes `StoryList` and `User`. Their fields are
  `seq<Story>`. Their methods have `modifies` clauses naming the fields they
  change, and `ensures` clauses tying each new list to the old one.
- `Api` (api.dfy): base URL, requests, and how a promise settles.
- `StoryMarkup` (markup.dfy): the favourite test used to draw a story's star.
- `Scenarios` (scenarios.dfy): call sequences the page issues, proved from
  the contracts alone.
- `Wrappers` (wrappers.dfy): `Option`, standing for a value that may be
  `undefined`.

Each awaited HTTP call becomes a parameter. A call whose response is not used
takes `remoteOk: bool`. A call whose response is used takes an `Option` of the
response, where `None` means the request was rejected. The k-th DELETE that
`removeFav` issues succeeds exactly when `deleteOk(k)` holds. Each instance
method returns the request(s) it sent and a `Completion`: a promise that is
`Resolved` or `Rejected`. The static factories (`GetStories`, `Signup`,
`Login`) return only a `Completion`, and `LoginViaStoredCredentials`
returns a user or null.

Two names the source reads are bound nowhere in `js/models.js`: `token` in
`signup` and `clearAllFavorites` in the debug line of `clearAllFavorites`.
The page's global scope is not part of this model, so each binding is a
parameter: `globalToken` and `debugNameBound`.

The model follows the code as written; in particular:

- `addFav` and `addOwnStory` append before their request, and the append
  stays if the request fails.
- `addOwnStory` posts to the favourites endpoint.
- The add-then-remove-favourite round trip is proved to restore the list
  when the story was not already a favourite (`FavRoundTrip`); lists that
  already hold the story's key are not covered by that lemma.
- `removeFav` can leave a favourite behind (see Findings). The commented-out
  filter at js/models.js:249 shows the intended removal of every match.
- `signup` as written never yields a user when no global `token` exists.
  `login` builds its user with `response.data.token` (js/models.js:183).

## Model

| member | source | states |
|---|---|---|
| `Stories.FromRecordKeepsFields` | js/models.js:14-21 | constructing a Story from a record loses nothing: reading it back gives the record, key included |
| `Stories.FromRecords` | js/models.js:125-126 | mapping records to Stories keeps the length and puts the Story of record i at position i |
| `Stories.FromRecordsRoundTrip` | js/models.js:125-126 | reading the mapped list back yields exactly the input records, in the same order |
| `Stories.SessionRecord` | js/models.js:148-155 | the object given to the User constructor after signup or login carries the server user's username, name, createdAt and favourites and, as `ownStories`, its `stories` |
| `Wrappers.Option.GetOr` | js/models.js:119 | a missing list takes the default, a present one is used as is |
| `Stories.WithoutId` | js/models.js:102-105 | a story is in the filtered list exactly when it was in the input and its key differs; the list never grows |
| `Stories.MatchCount` | js/models.js:102 | the count of stories with a key is zero exactly when no story has that key |
| `Stories.WithoutIdCount` | js/models.js:102-105 | filtering drops exactly the stories with the key: new length plus matches equals old length |
| `Stories.WithoutIdIsSubsequence` | js/models.js:102-105 | the filtered list is the old list with elements deleted, order preserved |
| `Stories.WithoutIdAbsent` | js/models.js:102-105 | filtering out a key no story has leaves the list unchanged |
| `Stories.WithoutIdIdempotent` | js/models.js:102-105 | filtering by a key twice is filtering once, so a repeated removeStory changes nothing more |
| `Api.Settle` | js/models.js:228-232 | a method whose only await is one request resolves exactly when the request succeeds, and otherwise rejects with the request failure |
| `Api.Repeat` | js/models.js:253-257 | the requests removeFav sends: exactly n of them, every one the same DELETE |
| `Models.StoryList.constructor` | js/models.js:36-38 | the feed holds the given stories |
| `Models.StoryList.GetStories` | js/models.js:48-67 | on success a fresh list of the returned records as Stories, in the order received; on failure a rejection |
| `Models.StoryList.AddStory` | js/models.js:76-92 | sends POST /stories with the user's token and fields; on success the new Story is at index 0 of the feed and of the user's own stories, each tail is the old list, and it is returned; on failure nothing changes |
| `Models.StoryList.RemoveStory` | js/models.js:94-106 | sends DELETE /stories/{id} with the token; on success feed, own stories and favourites each become their old list without that key; on failure none changes |
| `Models.User.constructor` | js/models.js:119-130 | copies profile and token; each list is the records mapped to Stories, and is empty when it was not given |
| `Models.User.Signup` | js/models.js:139-158 | as written: rejects when the POST fails, rejects with a ReferenceError for `token` when no global binds it, and otherwise builds the session with the global's value rather than the server's token |
| `Models.User.SignupFixed` | js/models.js:139-158 | corrected signup: on success the session for the returned user with the returned token |
| `Models.User.Login` | js/models.js:166-185 | on success a fresh session for the returned user and token; on failure a rejection |
| `Models.User.LoginViaStoredCredentials` | js/models.js:191-215 | never rejects: on failure null, on success a fresh session that keeps the stored token |
| `Models.User.ClearAllFavorites` | js/models.js:217-220 | empties the favourites and sends nothing when the debug name resolves; otherwise rejects with a ReferenceError and leaves them as they were; no other field is in its frame |
| `Models.User.AddFav` | js/models.js:222-233 | appends the story at the end of the favourites, earlier ones unchanged, whether or not the POST to the favourite URL succeeds |
| `Models.User.AddOwnStory` | js/models.js:235-244 | appends the story at the end of the own stories, whatever the outcome, and sends the same request as addFav |
| `Models.User.RemoveFav` | js/models.js:246-261 | the in-place loop leaves exactly the list, request count and outcome the FavRemoval function gives; every request sent is the DELETE of that favourite |
| `FavoriteRemoval.FavRemoval` | js/models.js:251-260 | the loop never issues more DELETEs than there are stories and never lengthens the list |
| `FavoriteRemoval.FavRemovalKeepsOthers` | js/models.js:251-260 | every favourite with another key survives, in its original relative order |
| `FavoriteRemoval.FavRemovalIsSubsequence` | js/models.js:251-260 | the list left is the old list with elements deleted, order preserved |
| `FavoriteRemoval.FavRemovalCount` | js/models.js:253-258 | one DELETE per removed favourite, plus one if a DELETE was rejected |
| `FavoriteRemoval.FavRemovalNoMatch` | js/models.js:251-260 | a list without the key is left unchanged and no request is sent |
| `FavoriteRemoval.FavRemovalIsolated` | js/models.js:251-260 | when no two matches are adjacent and every DELETE succeeds, the list left is the old one without the key, after one DELETE per match |
| `FavoriteRemoval.SingleMatchIsIsolated` | js/models.js:251-260 | a list with at most one match has no adjacent matches, so that case removes every match |
| `FavoriteRemoval.FavRoundTrip` | js/models.js:224-260 | addFav then removeFav, with the DELETE succeeding, restores a list that did not hold the key, with one DELETE |
| `FavoriteRemoval.AdjacentMatchSurvives` | js/models.js:251-258 | of two adjacent copies of a favourite, one survives although every DELETE succeeds |
| `FavoriteRemoval.FavRemovalFixed` | js/models.js:249 | the repaired loop never issues more DELETEs than there are stories and never lengthens the list |
| `Models.User.RemoveFavFixed` | js/models.js:246-261 | the repaired in-place loop leaves exactly what FavRemovalFixed gives |
| `FavoriteRemoval.FixedKeepsOthers` | js/models.js:249 | the repaired loop keeps every favourite with another key, in order |
| `FavoriteRemoval.FixedRemovesEveryMatch` | js/models.js:249 | with every DELETE succeeding, the repaired loop removes every match, one DELETE each, like the filter in the commented-out line |
| `StoryMarkup.FavoriteIds` | js/stories.js:25 | the id list has one entry per favourite, position for position |
| `StoryMarkup.IndexOf` | js/stories.js:29 | -1 exactly when the id is absent; otherwise the first position holding it |
| `StoryMarkup.IsFavorite` | js/stories.js:25-29 | a story is drawn as a favourite exactly when some favourite has its key |
| `StoryMarkup.FavoriteAfterAdd` | js/stories.js:161-168 | after addFav the story is drawn as a favourite |
| `StoryMarkup.NotFavoriteAfterRemoveStory` | js/stories.js:103-112 | after removeStory of its key the story is not drawn as a favourite |
| `Scenarios.DeleteFavoritedStory` | js/stories.js:103-112 | feed [a, b] with favourite a: deleting a leaves the feed [b] and no favourites |
| `Scenarios.StarTwice` | js/stories.js:161-175 | starring then unstarring a story that was not a favourite restores the favourites, after one DELETE |
| `Scenarios.SignupDiscardsServerToken` | js/models.js:148-157 | a signup the server accepts still rejects for the unbound `token`, although the response carries one |
| `Scenarios.SignupFixedKeepsServerToken` | js/models.js:148-157 | the corrected signup gives the session the server's token |

## Left out

- `Story.getHostName` (js/models.js:25-28) is left out. It delegates to the platform URL parser, which is foreign code.
- Console logging is left out. It has no effect on the lists.
- Concurrency is left out. Overlapping calls and their interleaving are not modelled. Each method runs from start to settlement as one step.
- The HTTP transport, the server's behaviour and its persistence become parameters. The request bodies of signup and login (credentials) are not modelled, because only their responses reach local state.
- The GET /stories request of `getStories` (js/models.js:57-60) is not returned by `StoryList.GetStories`; only its response reaches local state.
- The GET /users/{username} request of `loginViaStoredCredentials` (js/models.js:193-197), which carries the token as a query parameter, is not returned by `User.LoginViaStoredCredentials`; only its response reaches local state.
- Sharing is left out. In the source, one Story object can be held by several lists at once. Here Stories are values, and the three lists are separate fields.
- Fields the server sends beyond the six story fields are left out. The Story constructor ignores them.
- js/stories.js is left out apart from its favourite test: rendering, jQuery wiring and the global `storyList`/`currentUser` variables. One example is `handleStarClick` passing `undefined` when no story has the clicked id.
- js/user.js and js/main.js are not part of this model. Names they might bind globally are parameters.

## Findings

| source | as written | input that shows it | evidently intended | confidence | as-written member | corrected member |
|---|---|---|---|---|---|---|
| js/models.js:251-258 | after `splice(i, 1)` the index still advances, so the favourite that slides into slot i is never examined | favourites `[s, s]` and `removeFav(s)` with both DELETEs succeeding leaves `[s]` | remove every favourite with the key, as the commented-out filter expression at line 249 computes | medium, not executed | `FavoriteRemoval.AdjacentMatchSurvives` | `FavoriteRemoval.FixedRemovesEveryMatch` |
| js/models.js:156 | `signup` passes the unbound name `token` to the User constructor, so the promise rejects with a ReferenceError after the account is created | any accepted signup, when the page declares no global `token` | pass the token from the response, as `login` does at line 183 | medium, not executed | `Scenarios.SignupDiscardsServerToken` | `Scenarios.SignupFixedKeepsServerToken` |
