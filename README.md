# MyTownhall: a verified model of the API routes and page logic

MyTownhall is a civic web application. Municipalities publish budgets
(split into categories), meetings (with agenda items) and a discussion
forum (threads with tags and comments, and up/down votes). Residents
search for their town, read these records, vote and chat with a canned
assistant.

This project models the application's logic in Dafny:

- the relational store as one `Schema.Database` object with one table
  (a sequence of rows) per model. Its invariant `Valid` says that ids and
  town slugs are unique and that every foreign key names an existing row;
- request bodies as JSON values (`Json.Value`) with JavaScript truthiness;
- replies as a status code plus either data or an error message
  (`Http.Reply`);
- the forum routes: vote and remove a vote, create a thread with its tag
  rows, create a comment;
- the list/create routes for meetings, budgets, budget categories and
  agenda items. Each listing is a filter, an ordering and a
  `skip`/`take` page with `{ total, limit, offset, hasMore }`. Each create
  runs a truthiness check (400), a parent check (404) and an insert (201);
- the towns route: a `GET` that retries up to three times with waits of
  1000 ms and 2000 ms, and a `POST` that answers a used slug with 409;
- the chat route's keyword dispatcher and reply;
- the client-side municipality store, the explore page's handlers, the
  forum section's tag filter and new-thread form, and the meetings
  section's committee filter and upcoming/past split.

Each state-changing handler is a method. Its `modifies` clause names only
the tables (or fields) it writes. Its `ensures` clauses give the reply and
the new state for every path, in the order the code checks them. Each
listing is a function proved against its meaning: which rows it keeps,
that the result is sorted and a permutation of those rows, and what the
pagination block holds. The lemmas state the properties that relate
several calls or show a quirk of the code.

## Model

| member | source | states |
|---|---|---|
| VoteRoute.ParseVoteType | app/api/forum/vote/route.ts:11-16 | `voteType` is accepted exactly when it is the string "up" or the string "down"; an accepted value is truthy |
| VoteRoute.VoteOnThreads | app/api/forum/vote/route.ts:35-41 | the thread with the id has only the chosen counter moved by delta; every other row and every other field is unchanged |
| VoteRoute.VoteOnComments | app/api/forum/vote/route.ts:51-57 | the same for comments: one comment's chosen counter moves, nothing else changes |
| VoteRoute.VoteThenRemoveThread | app/api/forum/vote/route.ts:88-95 | removing a vote after adding it restores the thread table exactly |
| VoteRoute.VoteThenRemoveComment | app/api/forum/vote/route.ts:103-109 | removing a vote after adding it restores the comment table exactly |
| VoteRoute.RemoveGoesNegative | app/api/forum/vote/route.ts:88-95 | a removal on a counter at 0 leaves -1: there is no lower bound |
| VoteRoute.VoteMovesOneCounter | app/api/forum/vote/route.ts:35-41 | with unique ids, a vote on an existing thread moves the table-wide total of the chosen counter by exactly delta and the other total not at all |
| VoteRoute.UpdateThread | app/api/forum/vote/route.ts:35-48 | a known string id: the table is updated and the reply carries the updated row's counters; otherwise 500 and no change |
| VoteRoute.UpdateComment | app/api/forum/vote/route.ts:51-64 | the comment counterpart of UpdateThread |
| VoteRoute.Post | app/api/forum/vote/route.ts:5-73 | vote type checked first, then "neither id" and "both ids" (400 each, no change); otherwise +1 on exactly the one target, and the other table unchanged |
| VoteRoute.Delete | app/api/forum/vote/route.ts:76-131 | vote type checked first; a truthy threadId wins over commentId; -1 with no lower bound; no id gives 400 with no change |
| ThreadsRoute.Strings | app/api/forum/threads/route.ts:19-21 | the tag list as strings exactly when every element is a string |
| ThreadsRoute.Draft | app/api/forum/threads/route.ts:12-22 | the draft exists exactly when title, content, author and municipalityId are strings and tags is an array of strings; its fields are the body's |
| ThreadsRoute.TagRows | app/api/forum/threads/route.ts:18-22 | one tag row per name, in order, duplicates included, each linked to the new thread |
| ThreadsRoute.Post | app/api/forum/threads/route.ts:7-38 | with no validation of its own: an accepted body appends exactly one thread (counters 0) and its tag rows and replies 201; anything else replies 500 and writes nothing |
| CommentsRoute.Draft | app/api/forum/comments/route.ts:11-17 | the draft exists exactly when content, author and threadId are strings, and holds them |
| CommentsRoute.Post | app/api/forum/comments/route.ts:7-27 | an accepted body appends exactly one comment and replies 201; a missing thread or other failure gives 500 and no insert; the threads table is unchanged |
| Listing.PageParam | app/api/meetings/route.ts:11-12 | a missing or empty parameter gives the default (50 or 0), otherwise its parsed value |
| Listing.PageBounds | app/api/meetings/route.ts:11-12 | both page parameters, exactly when both parse to natural numbers |
| Listing.Paginate | app/api/meetings/route.ts:43-59 | the page is the ordered matches from `offset`, at most `limit` of them, sorted; `total` is the match count and `hasMore` is `offset + limit < total` |
| Listing.HasMoreMeansFullPage | app/api/meetings/route.ts:59 | when `hasMore` is set, the page is full and the next page is not empty |
| Listing.NoMoreMeansRestShown | app/api/meetings/route.ts:59 | when `hasMore` is clear, the next page is empty |
| Listing.ConsecutivePages | app/api/meetings/route.ts:46-47 | consecutive pages neither skip nor repeat a row |
| Listing.LastPageExample | app/api/meetings/route.ts:51-59 | 12 matches with limit 5 and offset 10 give 2 rows and `hasMore` false |
| Seqs.Filter | lib/store.ts:37-41 | the kept elements are exactly those satisfying the predicate, each as often as before, in the original order |
| Seqs.SortBy | app/api/meetings/route.ts:43-45 | the result is a permutation of the input, sorted by the ordering |
| Seqs.SkipTake | app/api/meetings/route.ts:46-47 | `skip: offset, take: limit`: the right length, element i being input element offset + i |
| Seqs.PagesTile | app/api/meetings/route.ts:46-47 | two consecutive skip/take windows make up the window that spans both |
| Seqs.FilterFirst | app/explore/page.tsx:59-65 | when element i is the earliest one satisfying the predicate, the filter is not empty and starts with it |
| Seqs.FilterDisjoint | components/MeetingsSection.tsx:21-22 | filters with predicates that never hold together keep at most the input length between them |
| Seqs.Distinct | components/MeetingsSection.tsx:16 | each distinct element once, with the same elements, in order of first occurrence |
| Schema.FindBy | app/api/meetings/route.ts:85-87 | `findUnique`: a row with that key when one exists, and none exactly when the key is absent |
| Schema.AppendFreshKey | app/api/towns/route.ts:61-74 | inserting a row with an unused key keeps keys unique and adds exactly that key |
| Text.Lower | lib/store.ts:38-39 | `toLowerCase` on ASCII letters: same length, each character lower-cased |
| Text.ContainsLower | lib/store.ts:38-39 | an occurrence survives lower-casing of both strings |
| Text.ContainsPrefix | lib/store.ts:38-40 | whatever contains `a + b` contains `a` |
| Text.Trim | app/api/meetings/route.ts:99-103 | `trim`: the result has no surrounding white space and is the input minus white space at both ends |
| Text.TrimIdempotent | app/api/meetings/route.ts:99-103 | trimming twice is trimming once |
| Text.TrimAllSpace | app/api/meetings/route.ts:99 | a string of white space only trims to the empty string |
| Text.LexLeTotal | app/api/towns/route.ts:12-14 | any two names compare |
| Text.LexLeTransitive | app/api/towns/route.ts:12-14 | the name ordering is transitive |
| Text.LexLeAntisymmetric | app/api/towns/route.ts:12-14 | names that sort both ways round are equal |
| Text.ParseShowInt | app/api/budgets/route.ts:19-21 | `parseInt` reads back the decimal text of every integer |
| Json.StringField | app/api/meetings/route.ts:99-104 | a property read as a string exactly when it holds a string |
| Json.ParseIntThroughText | app/api/agenda-items/route.ts:89 | `parseInt` reads a number as itself and anything else through its text: a one-element array `[n]` and the text of n give n, while `true`, `null` and an object give NaN |
| Json.ZeroTextIsTruthy | app/api/agenda-items/route.ts:66-71 | the text "0" is truthy and parses to 0, while the number 0 is falsy |
| MeetingsRoute.Matching | app/api/meetings/route.ts:14-26 | a meeting is kept exactly when it equals each given filter (municipalityId, committee, status); empty or absent filters do not apply |
| MeetingsRoute.NoFilterMatchesAll | app/api/meetings/route.ts:14-26 | with no filter given, every meeting matches |
| MeetingsRoute.Ordered | app/api/meetings/route.ts:43-45 | the matches as a permutation, latest date first |
| MeetingsRoute.AgendaOf | app/api/meetings/route.ts:31-35 | a meeting's agenda is every item of that meeting, lowest `order` first |
| MeetingsRoute.AgendaIsAgendaItemsListing | app/api/meetings/route.ts:31-35 | the agenda included with a meeting is what the agenda items route lists for that meeting id |
| MeetingsRoute.WithAgendas | app/api/meetings/route.ts:30-35 | each listed meeting carries its own agenda |
| MeetingsRoute.Get | app/api/meetings/route.ts:5-69 | bad page parameters give 500; otherwise the page of the ordered matches with its agendas, `total` the match count and `hasMore` as defined |
| MeetingsRoute.Draft | app/api/meetings/route.ts:96-105 | the row data exists exactly when the text fields are strings and the date parses; title, time, committee and status are trimmed |
| MeetingsRoute.Post | app/api/meetings/route.ts:72-125 | 400 if a required field is falsy; 500 for a non-string municipalityId; 404 for an unknown municipality; otherwise one meeting appended and 201, or 500 with no insert |
| MeetingsRoute.BlankTitlePassesAndIsStoredEmpty | app/api/meetings/route.ts:77-99 | a title of white space only passes the 400 check and is stored as the empty string |
| MeetingsRoute.StoredTextIsTrimmed | app/api/meetings/route.ts:99-103 | the stored text fields are their own trim |
| AgendaItemsRoute.Matching | app/api/agenda-items/route.ts:12-16 | an item is kept exactly when its meetingId equals the given filter |
| AgendaItemsRoute.Ordered | app/api/agenda-items/route.ts:32-34 | the matches as a permutation, lowest `order` first |
| AgendaItemsRoute.Get | app/api/agenda-items/route.ts:5-58 | bad page parameters give 500; otherwise the page of the ordered matches, `total` the match count and `hasMore` as defined |
| AgendaItemsRoute.Draft | app/api/agenda-items/route.ts:85-91 | the row data exists exactly when content is a string and order parses; content is trimmed |
| AgendaItemsRoute.Post | app/api/agenda-items/route.ts:61-114 | 400 if content, order or meetingId is falsy; 500 for a non-string meetingId; 404 for an unknown meeting; otherwise one item appended and 201 (no uniqueness of `order`), or 500 with no insert |
| AgendaItemsRoute.ZeroOrderOnlyAsText | app/api/agenda-items/route.ts:66-71 | order 0 as a number is rejected with 400, while the text "0" passes and is stored as 0 |
| BudgetsRoute.Matching | app/api/budgets/route.ts:13-21 | a budget is kept exactly when it matches the given municipalityId and the given year as parsed |
| BudgetsRoute.YearFilterSelectsThatYear | app/api/budgets/route.ts:19-21 | a year filter selects exactly the budgets of that year |
| BudgetsRoute.Ordered | app/api/budgets/route.ts:38-40 | the matches as a permutation, latest year first |
| BudgetsRoute.CategoriesOf | app/api/budgets/route.ts:26-30 | a budget's categories are every category of that budget, largest amount first |
| BudgetsRoute.CategoriesAreCategoriesListing | app/api/budgets/route.ts:26-30 | the categories included with a budget are what the budget categories route lists for that budget id |
| BudgetsRoute.WithCategories | app/api/budgets/route.ts:25-37 | each listed budget carries its own categories |
| BudgetsRoute.Get | app/api/budgets/route.ts:5-64 | bad page parameters or a year that is not an integer give 500; otherwise the page of the ordered matches with their categories |
| BudgetsRoute.Draft | app/api/budgets/route.ts:91-97 | the row data exists exactly when year and totalBudget parse and municipalityId is a string |
| BudgetsRoute.Post | app/api/budgets/route.ts:67-117 | 400 if year, totalBudget or municipalityId is falsy; 500 for a non-string municipalityId; 404 for an unknown municipality; otherwise one budget appended and 201, or 500 with no insert |
| BudgetsRoute.ZeroTotalOnlyAsText | app/api/budgets/route.ts:72-77 | a total of 0 as a number is rejected with 400, while the text "0" passes and is stored as 0 |
| BudgetCategoriesRoute.Matching | app/api/budget-categories/route.ts:12-16 | a category is kept exactly when its budgetId equals the given filter |
| BudgetCategoriesRoute.Ordered | app/api/budget-categories/route.ts:32-34 | the matches as a permutation, largest amount first |
| BudgetCategoriesRoute.Get | app/api/budget-categories/route.ts:5-58 | bad page parameters give 500; otherwise the page of the ordered matches, `total` the match count and `hasMore` as defined |
| BudgetCategoriesRoute.Draft | app/api/budget-categories/route.ts:85-92 | the row data exists exactly when name and color are strings and amount parses; name and color are trimmed |
| BudgetCategoriesRoute.Post | app/api/budget-categories/route.ts:61-115 | 400 if name, amount, color or budgetId is falsy; 500 for a non-string budgetId; 404 for an unknown budget; otherwise one category appended and 201, or 500 with no insert |
| BudgetCategoriesRoute.OnlyZeroAmountRejected | app/api/budget-categories/route.ts:66-71 | an amount of 0 is rejected with 400; any other amount passes the check, and a negative one is stored as given |
| TownsRoute.NameFirstTotal | app/api/towns/route.ts:12-14 | ordering towns by name is a total preorder |
| TownsRoute.ByName | app/api/towns/route.ts:11-17 | every town, as a permutation of the table, ordered by name |
| TownsRoute.Delays | app/api/towns/route.ts:22-25 | the wait after failed attempt k is 1000·k ms |
| TownsRoute.Get | app/api/towns/route.ts:5-33 | 200 exactly when one of the 3 attempts returns; the first such attempt gives the towns by name after waits 1000·k for each earlier failure; three failures give 500 with the last error's message after waits 1000 and 2000 |
| TownsRoute.ServicedFlag | app/api/towns/route.ts:68 | `isServiced || false`: false for a falsy value, true for `true`, a store failure for any other truthy value |
| TownsRoute.Draft | app/api/towns/route.ts:61-73 | the row data exists exactly when name, state, zipCode and slug are strings, population parses, isServiced is usable and coordinates is not null |
| TownsRoute.Post | app/api/towns/route.ts:36-84 | 400 if a required field is missing; 500 for a non-string slug; 409 when the slug is taken; otherwise one town appended and 201, or 500 with no insert; slugs stay unique |
| TownsRoute.SlugTakenAfterCreate | app/api/towns/route.ts:50-59 | after a town is stored its slug is among the table's slugs, which is the condition `Post` answers with 409 |
| TownsRoute.PostTwice | app/api/towns/route.ts:36-84 | the same body posted twice: when the first `POST` creates the town, the second is answered 409 and stores nothing |
| MunicipalityStore.FilterTowns | lib/store.ts:33-42 | an empty query returns the list unchanged; otherwise an entry is kept exactly when its name or state contains the query ignoring case or its zip code contains it as typed, in order |
| MunicipalityStore.FoundByOwnName | lib/store.ts:37-41 | a town is found by its own name typed in any letter case |
| MunicipalityStore.LongerQueryNarrows | lib/store.ts:37-41 | typing more characters never adds results |
| MunicipalityStore.NameAndStateIgnoreCase | lib/store.ts:37-41 | a match by name or state survives lower-casing the query (the zip code test does not ignore case) |
| MunicipalityStore.Store.constructor | lib/store.ts:25-27 | the initial state: no municipalities, no selection, an empty query |
| MunicipalityStore.Store.SetMunicipalities | lib/store.ts:29 | replaces the list and leaves the other two fields unchanged |
| MunicipalityStore.Store.SetSelectedMunicipality | lib/store.ts:30 | replaces the selection and leaves the other two fields unchanged |
| MunicipalityStore.Store.SetSearchQuery | lib/store.ts:31 | replaces the query and leaves the other two fields unchanged |
| MunicipalityStore.Store.FilteredMunicipalities | lib/store.ts:33-42 | the stored list filtered by the stored query; it reads the store and writes nothing |
| ExplorePage.Explore.constructor | app/explore/page.tsx:25-26 | the page starts with no error shown, not loading and no navigation scheduled, over the shared store |
| ExplorePage.Explore.HandleSearchChange | app/explore/page.tsx:53-70 | stores the query and clears the error; an empty query clears the selection; otherwise the first match is selected, or the selection kept when nothing matches |
| ExplorePage.Explore.HandleMunicipalitySelect | app/explore/page.tsx:72-76 | selects the town, sets the query to "name, state" and clears the error |
| ExplorePage.Explore.HandleLaunch | app/explore/page.tsx:78-90 | no selection: nothing changes; an unserviced town: the error is shown; a serviced town: loading starts and navigation targets `/towns/<slug>` |
| ExplorePage.SearchSelectsFirstMatch | app/explore/page.tsx:58-66 | a search selects the earliest town in the list that matches it: that town heads the store's filtered list |
| ForumSection.FilteredThreads | components/ForumSection.tsx:23-25 | "all" shows every thread; otherwise exactly the threads whose tags include the selected tag, in order |
| ForumSection.ToggleTag | components/ForumSection.tsx:35-42 | a present tag is removed wherever it occurs and the other tags are kept; an absent tag is appended at the end |
| ForumSection.ToggleTwiceRestores | components/ForumSection.tsx:38-40 | toggling an absent tag twice gives back the original list |
| ForumSection.Section.constructor | components/ForumSection.tsx:14-20 | the initial state: tag "all", form hidden, empty draft |
| ForumSection.Section.Shown | components/ForumSection.tsx:23-25 | the threads on display under the current selection |
| ForumSection.Section.SelectTag | components/ForumSection.tsx:78 | selects the tag and keeps the form state |
| ForumSection.Section.SetFormShown | components/ForumSection.tsx:53 | shows or hides the form and keeps the draft |
| ForumSection.Section.SetTitle | components/ForumSection.tsx:185 | changes the draft title only |
| ForumSection.Section.SetContent | components/ForumSection.tsx:198 | changes the draft content only |
| ForumSection.Section.HandleTagToggle | components/ForumSection.tsx:35-42 | toggles the tag in the draft; title, content, selection and form visibility are kept |
| ForumSection.Section.HandleCreateThread | components/ForumSection.tsx:27-33 | hides the form and resets the draft; the selection is kept and no thread is added |
| MeetingsSection.CommitteeNames | components/MeetingsSection.tsx:16 | the committee of each meeting, in order |
| MeetingsSection.Committees | components/MeetingsSection.tsx:16 | "all", then every committee of the meetings once, in order of first occurrence |
| MeetingsSection.FilteredMeetings | components/MeetingsSection.tsx:17-19 | "all" keeps every meeting; otherwise exactly the meetings of that committee, each as often as in the list, in order |
| MeetingsSection.Upcoming | components/MeetingsSection.tsx:21 | exactly the meetings with status "upcoming", each as often as in the list, in order |
| MeetingsSection.Past | components/MeetingsSection.tsx:22 | exactly the meetings with status "past", each as often as in the list, in order |
| MeetingsSection.UpcomingPastPartition | components/MeetingsSection.tsx:21-22 | no meeting is both upcoming and past, and the two lists together hold at most the filtered meetings |
| MeetingsSection.Section.constructor | components/MeetingsSection.tsx:13-14 | the initial state: committee "all", no meeting open |
| MeetingsSection.Section.ShownUpcoming | components/MeetingsSection.tsx:17-21 | exactly the upcoming meetings of the selected committee, each as often as in the list, in their original order |
| MeetingsSection.Section.ShownPast | components/MeetingsSection.tsx:17-22 | exactly the past meetings of the selected committee, each as often as in the list, in their original order |
| MeetingsSection.Section.SelectCommittee | components/MeetingsSection.tsx:39 | selects the committee and keeps the open meeting |
| MeetingsSection.Section.OpenMeeting | components/MeetingsSection.tsx:66 | opens the meeting's details |
| MeetingsSection.Section.CloseMeeting | components/MeetingsSection.tsx:174 | closes the details (selection back to none) |
| ChatRoute.TopicOf | app/api/chat/route.ts:31-53 | the first keyword group, in the order budget, meetings, community, population, public safety, that occurs in the message; no earlier group occurs |
| ChatRoute.GenerateMockResponse | app/api/chat/route.ts:30-54 | the reply for the topic of the lower-cased message, and it always contains the municipality name |
| ChatRoute.CaseDoesNotMatter | app/api/chat/route.ts:31 | the letter case of the message does not change the reply |
| ChatRoute.BudgetAlwaysWins | app/api/chat/route.ts:33-35 | a message mentioning "budget" or "spending" always gets the budget reply |
| ChatRoute.PublicSafetyOnlyAfterEveryOtherGroup | app/api/chat/route.ts:49-51 | the public safety reply is chosen exactly when one of its keywords occurs and no earlier group's does |
| ChatRoute.NoKeywordGivesDefault | app/api/chat/route.ts:53 | with no keyword the default reply is given |
| ChatRoute.ContentOf | app/api/chat/route.ts:10 | `e.content` is usable text exactly when `e` is an object whose `content` is a string, and it is that string |
| ChatRoute.LastKey | app/api/chat/route.ts:10 | the key `messages.length - 1` prints as on an object: "NaN" when `length` does not coerce to a number, otherwise text that parses back to that number minus one |
| ChatRoute.LastContent | app/api/chat/route.ts:10 | for an array, the content of its last element, and none for an empty array; for any other object, the content of the element stored under the key its own `length - 1` prints as; text, numbers, booleans, `null` and `undefined` have none |
| ChatRoute.ArrayLikeMessagesAreRead | app/api/chat/route.ts:10 | an object with `length` 1 (as the number, the text "1" or `true`) is read through its key "0", and one with no `length` through its key "NaN" |
| ChatRoute.Post | app/api/chat/route.ts:3-28 | 500 when there is no last content to read; otherwise 200 with the reply for it, which contains the municipality name, and fixed token counts 100/50/150 |
| ChatRoute.OnlyLastMessageCounts | app/api/chat/route.ts:10 | only the last message matters: the earlier ones can be anything |
| ChatRoute.EmptyConversationFails | app/api/chat/route.ts:21-26 | an empty message list is answered 500 |
| ChatRoute.SystemPromptIgnored | app/api/chat/route.ts:5 | the system prompt does not affect the reply |
| Text.ParseInt | app/api/budgets/route.ts:20 | a value exactly for a canonical decimal text (digits, or `-` and at least one digit); a negative value only when the text starts with `-` |
| Json.ToText | app/api/chat/route.ts:34 | the text a value takes in a template literal or `String(v)`: a string is itself, and a number's text parses back to that number |
| Json.ParseIntValue | app/api/towns/route.ts:67 | `parseInt` of a body field: a number is itself, a string is parsed as decimal text, `undefined`, `null`, booleans and objects give NaN, and an array is parsed through its text |
| Json.ToNumber | app/api/chat/route.ts:10 | `Number(v)`: a number is itself; `null`, `false` and "" are 0 and `true` is 1; `undefined` and objects are NaN; other text, and an array through its text, is trimmed and parsed as decimal |
| Schema.Database.CreateMunicipality | app/api/towns/route.ts:61-74 | an insert with an unused id and slug appends exactly that row and keeps every table constraint |
| Schema.Database.CreateBudget | app/api/budgets/route.ts:91-97 | an insert with an unused id and an existing municipality appends exactly that row and keeps every constraint |
| Schema.Database.CreateCategory | app/api/budget-categories/route.ts:85-92 | an insert with an unused id and an existing budget appends exactly that row and keeps every constraint |
| Schema.Database.CreateMeeting | app/api/meetings/route.ts:96-105 | an insert with an unused id and an existing municipality appends exactly that row and keeps every constraint |
| Schema.Database.CreateAgendaItem | app/api/agenda-items/route.ts:85-91 | an insert with an unused id and an existing meeting appends exactly that row and keeps every constraint |
| Schema.Database.CreateThread | app/api/forum/threads/route.ts:12-23 | a thread with an unused id and an existing municipality is appended together with its tag rows, in order, and every constraint is kept |
| Schema.Database.CreateComment | app/api/forum/comments/route.ts:11-17 | a comment with an unused id on an existing thread appends exactly that row and keeps every constraint |

## Behaviour worth noting

The model follows the code, including these behaviours:

- Creating a thread for an unknown municipality is answered 500, not
  404. The thread route has no check of its own and the insert fails on
  the foreign key (`ThreadsRoute.Post`).
- Creating a comment does not check the thread first: an unknown thread
  makes the insert fail with 500. The thread itself is not touched, so its
  `updatedAt` stays as it was (`CommentsRoute.Post`).
- A budget category amount is only tested for truthiness: 0 is rejected
  with 400, and a negative amount is stored
  (`BudgetCategoriesRoute.OnlyZeroAmountRejected`).
- The towns `GET` waits 1000·k ms after failed attempt k, so the waits
  grow from one retry to the next (`TownsRoute.Get`).
- Removing a vote decrements the counter with no lower bound, so vote
  counters can go negative (`VoteRoute.RemoveGoesNegative`).

## Left out

- Store schema assumptions. The Prisma schema is not part of this model.
  These assumptions stand in for it: ids and slugs are unique, foreign keys
  are enforced, and the text fields are required strings. New thread and
  comment counters start at 0. The store generates each new row's id,
  passed in as `freshId`, and an id already in use makes the insert fail.
- ThreadsRoute.Post: the route names the relations `tags` and `comments`,
  while other code in the repository uses `ThreadTag` and `Comment`. The
  model assumes the route's names are the schema's, so a well-formed
  thread creation succeeds.
- Timestamps (`createdAt`, `updatedAt`), latitude and longitude are not
  stored. TownsRoute.Draft only checks that `coordinates[0]` can be read
  (it throws on `null`). It does not model `parseFloat` of the two
  coordinates.
- The included municipality `{ name, slug }` and the related rows that the
  list and create replies embed are not modelled. The exceptions are the
  agenda of a listed meeting and the categories of a listed budget.
- Numbers are integers. `parseFloat` of `totalBudget` and `amount` is
  modelled as integer parsing. Fractional JSON numbers do not occur.
- Json.ParseIntValue, Listing.PageParam, BudgetsRoute.YearParses and
  BudgetsRoute.Matching parse text with `Text.ParseInt`, which accepts only
  a canonical decimal text (optional `-`, then digits). JavaScript's
  `parseInt` also accepts leading white space, a `+` sign and trailing
  junk ("12abc" reads 12). Such inputs are NaN here. A request body with
  such a number gives 500 where the real route might store a number. A
  query string such as `?limit=%205` or `?year=2024x` gives 500 where the
  real route reads 5 or 2024.
- Integers are unbounded. The store's `Int` columns (population, year,
  order, upvotes, downvotes) are 32-bit, so the real store rejects a value
  beyond 2³¹−1 (or a counter pushed past it) with 500, while the model
  stores it. JSON numbers are doubles, and two of their effects are not
  modelled either. An integer at or above 2⁵³ loses precision when the
  body is parsed. At or above 10²¹ a number's text is in exponent
  notation, so `parseInt(1e21)` is 1 and `${1e21}` is "1e+21", where
  Json.ParseIntValue and Json.ToText give the number and its digits.
- Json.ToNumber reads trimmed text as decimal only. `Number` also accepts
  hexadecimal, exponents, fractions, a `+` sign and "Infinity"; such a
  `length` gives NaN here, so ChatRoute.LastKey gives "NaN" where the
  real key may differ.
- Text.Lower lower-cases ASCII letters only. JavaScript's `toLowerCase`
  also maps other Unicode letters.
- MeetingsRoute.Draft: `new Date(date)` is the `parseDate` parameter. It
  gives a timestamp, or None for an invalid date.
- The `details` text of 500 replies (the thrown error's message) is not
  modelled. Those replies carry no details here. The exception is the
  towns `GET`, whose last error message is modelled.
- MeetingsRoute.Get, BudgetsRoute.Get, BudgetCategoriesRoute.Get and
  AgendaItemsRoute.Get answer 500 for a negative `limit` or `offset`. The
  ORM would read a negative `take` backwards from the end of the ordering.
- MeetingsRoute.Get, BudgetsRoute.Get, BudgetCategoriesRoute.Get,
  AgendaItemsRoute.Get and TownsRoute.Get do not fix the order of rows
  that tie on the sort key. The database leaves that order open, so the
  contracts state only sortedness and the permutation.
- Text.LexLe compares names by character code. The database's collation
  may order names differently.
- A request body that is not a JSON object, or that fails to parse, is
  not modelled. Every body is a map from property names to values.
- Concurrency between requests is not modelled. Each handler runs alone
  on the database.
- The real delays are not modelled: the towns retry `setTimeout` and the
  explore page's 500 ms delay before navigation. `TownsRoute.Get` returns
  the waits it would make. `ExplorePage.Explore.HandleLaunch` records the
  navigation target.
- Logging (`console.error`, `console.log`) is not modelled.
- The municipalities loaded by the explore page's effect come from the
  network. Storing them is `MunicipalityStore.Store.SetMunicipalities`.
- Rendering, the map, charts, the chat widget, the thread detail view,
  the network client, seeding scripts and diagnostic endpoints are not
  part of this model.
