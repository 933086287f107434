# Bible AI: a verified model of the app's core logic

Bible AI is a React Native devotional app. Users chat with a scripture-grounded
assistant, read and search the King James text, bookmark verses, and go through
a fourteen-step onboarding questionnaire. This project models the parts of the
app that hold logic rather than layout, and proves what they promise:

- **Chat session store** (`ChatContext`). It keeps a list of sessions, newest
  first, and the id of the selected one. At most one blank chat is ever
  created. Operations: `createNewChat`, `selectChat`, `addMessage`,
  `setSessionTitle`, `deleteChat`, the `currentSession` lookup, loading and
  clearing storage.
- **Bookmark store** (`BookmarkContext`). It keeps an ordered list of verses
  whose identity is the verse id. Operations: toggle, remove and the membership
  query. Each change is saved.
- **Verse identity and the book table** (`BibleData`). The verse id
  `book-chapter-verse` and its parser form a round trip, even for book names
  that contain `-`. `BIBLE_BOOKS` has 66 books.
- **Chapter lookup and search** (`BibleService`). `getChapter` maps and sorts
  one chapter. `searchVerses` is a nested scan with an early stop. Both run
  over an abstract dataset.
- **Onboarding store** (`OnboardingContext`). It holds the tri-state completion
  flag, the answers and the loading flag. Storage is a key-value map.
- **Onboarding screen** (`OnboardingScreen`): the `STEPS` table, the age
  computation, the step cursor, the yes/no answer encoding and the rule that
  disables Next.
- **Chat model client** (`AiService`): the request message list, error
  classification, the empty-reply fallback and the chat-title clean-up.
- **Birth-date wheel** (`DatePicker`): the `YEARS`/`DAYS` tables,
  Gregorian month lengths, day clamping, scroll-index clamping, and reporting
  a date only when it changes.
- **Start screen guard** (`StartupRouter`). Of the fallback timer and the end
  of loading, only the first navigates.

Shared helpers:

- `Wrappers` holds `Option` and `Result`.
- `Strings` holds the JavaScript string operations the code relies on, at the
  level of ASCII characters. These are template-literal printing of integers,
  `parseInt`, `split`/`join`, `trim`, `toLowerCase` and `includes`.

Each stateful provider or component is a `class` whose fields are the React
state. A pure state datatype and one `After…` transition function per operation
state what each step does. Each method ensures `State() == AfterX(old(State()), …)`.
The properties are proved as lemmas about those functions.

The model follows the code as written, including these behaviours:

- An empty search query matches every verse with non-empty text, because
  `includes('')` always holds. It does not return an empty result.
- Loading bookmarks is a bare parse. No legacy `{v, t}` entries are
  normalised.
- `selectChat` does not check that the id exists.
- `getChapter` sorts by non-decreasing verse number. Equal numbers are allowed;
  the order is not strictly ascending.

## Model

| member | source | states |
|---|---|---|
| AiService.ToRequestMessages | services/aiService.ts:83 | one request message per chat message, in order, keeping role and content only |
| AiService.SendMessageRequest | services/aiService.ts:81-84 | the list is the system prompt, then every conversation message in order, with role and content; `max_tokens` is 1000 |
| AiService.SendMessageRequestOfAppend | services/aiService.ts:81-84 | adding one message to the conversation adds exactly its request message at the end |
| AiService.EffectiveErrorMessage | services/aiService.ts:62 | the error text is never empty; a present, non-empty message is used as is, otherwise 'Failed to get response' |
| AiService.ClassifyError | services/aiService.ts:65-72 | quota error iff the message contains 'quota' or 'limit'; invalid-key error iff not that and it contains 'invalid_api_key' or 'Incorrect API key'; otherwise the message itself; never the runtime's unreadable-body error |
| AiService.ErrorText | services/aiService.ts:66-71 | the fixed, non-empty texts of the quota and invalid-key errors; the message itself for the others the code builds; no chosen text for an unreadable body |
| AiService.MakeRequest | services/aiService.ts:60-76 | succeeds iff the status is OK and the body is readable; the content, or '' when missing; a non-OK status fails with the classified error; an unreadable body fails with the runtime's error |
| AiService.SendMessage | services/aiService.ts:79-90 | for the endpoint's answer to the system prompt followed by the conversation: a successful reply is never empty, as an empty one becomes the fallback sentence; errors, the unreadable-body one included, are rethrown unchanged |
| AiService.StripQuotes | services/aiService.ts:104 | a leading quote is removed, then a trailing quote of what is left; no other character is removed; the result is a contiguous piece of the input |
| AiService.StripClosingPunctuation | services/aiService.ts:105 | leaves a prefix at most one shorter, and changes the string iff it ends in `.`, `!` or `?` |
| AiService.CleanTitle | services/aiService.ts:103-105 | the clean-up removes at most three characters from the trimmed reply |
| AiService.CleanTitleIsSubstring | services/aiService.ts:103-105 | the cleaned title is a contiguous piece of the trimmed reply |
| AiService.CleanTitleKeepsWellFormedTitle | services/aiService.ts:103-105 | a title with no surrounding whitespace, quotes or closing punctuation survives the clean-up unchanged |
| AiService.GenerateChatTitle | services/aiService.ts:92-112 | for the endpoint's answer to the title instructions followed by the user's message, with 20 tokens: the title is never empty; it is the cleaned reply, or 'New Chat' after a failure or when nothing is left |
| BibleData.VerseReference | data/bibleData.ts:86-88 | the reference starts with the book and a space and ends with a colon and the printed verse number |
| BibleData.VerseId | data/bibleData.ts:90-92 | the id starts with the book and a dash; for non-negative numbers, splitting it on `-` gives the book's pieces, then the printed chapter and verse |
| BibleData.ParseVerseId | data/bibleData.ts:94-96 | `null` exactly when the id has fewer than two `-` |
| BibleData.FromParts | data/bibleData.ts:96-102 | `null` exactly when there are fewer than three parts |
| BibleData.FromPartsFields | data/bibleData.ts:98-100 | the last part is the verse, the one before it the chapter, and the rest joined with `-` the book |
| BibleData.ParseVerseIdOfParts | data/bibleData.ts:94-103 | an id that splits into book parts and two fields parses to the rejoined book and the two numbers |
| BibleData.ParsedBookPrecedesLastTwoFields | data/bibleData.ts:98-100 | the parsed book is everything before the second-to-last `-`, and the two fields after it are dash-free |
| BibleData.ParseVerseIdOfVerseId | data/bibleData.ts:90-103 | for non-negative chapter and verse, parsing a verse id gives back book, chapter and verse, even when the book contains `-` |
| BibleData.VerseIdInjective | data/bibleData.ts:90-92 | verses with non-negative numbers share an id only when they share book, chapter and verse |
| BibleData.VerseIdOfSameKey | data/bibleData.ts:86-92 | the id and the reference depend only on book, chapter and verse, not on the text |
| BibleData.VerseReferenceInjective | data/bibleData.ts:86-88 | verses with non-negative numbers share a reference only when they share book, chapter and verse |
| BibleData.OldTestamentBooksShape | data/bibleData.ts:16-55 | 39 Old Testament books, each with at least one chapter |
| BibleData.NewTestamentBooksShape | data/bibleData.ts:57-83 | 27 New Testament books, each with at least one chapter |
| BibleData.BibleBooksShape | data/bibleData.ts:15-84 | 66 books: the first 39 Old Testament, the rest New Testament, none without chapters |
| BibleService.FindBook | services/bibleService.ts:25-26 | the book of that name, or none exactly when no book has that name |
| BibleService.FindChapter | services/bibleService.ts:28-29 | the value under that chapter key, or none exactly when no chapter has that number |
| BibleService.ToVerses | services/bibleService.ts:31-36 | each entry becomes a verse of the requested book and chapter, with `v` and `t` copied, in order |
| BibleService.InsertByVerse | services/bibleService.ts:38 | inserting adds exactly one element |
| BibleService.InsertByVerseKeepsSorted | services/bibleService.ts:38 | inserting into a list sorted by verse number keeps it sorted |
| BibleService.SortByVerse | services/bibleService.ts:38 | the result is sorted by non-decreasing verse number and is a permutation of the input |
| BibleService.GetChapter | services/bibleService.ts:24-45 | `null` iff the book is missing, the chapter is missing, or it is not an array; otherwise the requested book and chapter, with the entries' verses sorted and permuted |
| BibleService.GetChapterKeepsEveryEntry | services/bibleService.ts:31-38 | every entry of the chapter appears among the returned verses |
| BibleService.EntryMatchesAreMatches | services/bibleService.ts:54-61 | every verse a chapter's scan yields matches the query and carries that book and chapter |
| BibleService.ChapterValueMatchesAreMatches | services/bibleService.ts:53-61 | a chapter value that is not an array yields nothing; every yielded verse matches |
| BibleService.ChapterMatchesAreMatches | services/bibleService.ts:52-64 | every verse a book's scan yields matches and carries that book |
| BibleService.AllMatches | services/bibleService.ts:51-66 | every verse of the full scan has non-empty text whose lower-cased form contains the query |
| BibleService.EntryMatchesPrefix | services/bibleService.ts:54-64 | scanning fewer entries yields a prefix of the matches |
| BibleService.ChapterMatchesPrefix | services/bibleService.ts:52-65 | scanning fewer chapters yields a prefix of the matches |
| BibleService.AllMatchesPrefix | services/bibleService.ts:51-66 | scanning fewer books yields a prefix of the matches |
| BibleService.EmptyQueryMatchesAnyText | services/bibleService.ts:49-55 | with an empty query a verse matches iff its text is non-empty |
| BibleService.Cap | services/bibleService.ts:62 | the scan stops after at least one match; for a positive limit, after `limit` |
| BibleService.SearchVerses | services/bibleService.ts:47-69 | the results are exactly the first `max(limit, 1)` matches in dataset order, or all of them; each has non-empty text containing the query |
| BibleService.SearchBook | services/bibleService.ts:52-65 | one book's scan appends all its matches, or stops exactly at the cap with a prefix of them |
| BibleService.SearchChapter | services/bibleService.ts:53-64 | one chapter's scan skips a non-array value, appends all matches, or stops exactly at the cap |
| BibleService.StopWithinBook | services/bibleService.ts:62 | stopping inside a chapter leaves a prefix of the whole book's matches |
| BibleService.EntryMatchesStep | services/bibleService.ts:54-63 | one more entry extends the matches by that entry's match, if any |
| BibleService.ChapterMatchesStep | services/bibleService.ts:52-64 | one more chapter extends the matches by that chapter's matches |
| BibleService.AllMatchesStep | services/bibleService.ts:51-65 | one more book extends the matches by that book's matches |
| BookmarkContext.HasVerse | context/BookmarkContext.tsx:45 | true iff some bookmark has the same verse id |
| BookmarkContext.Toggled | context/BookmarkContext.tsx:42-49 | a bookmarked verse id is removed with every entry carrying it, and every other entry stays; an absent verse is added after the unchanged list |
| BookmarkContext.WithoutId | context/BookmarkContext.tsx:48 | keeps exactly the bookmarks whose id differs, never more of them |
| BookmarkContext.WithoutIdConcat | context/BookmarkContext.tsx:48 | filtering distributes over concatenation, so the order of the survivors is kept |
| BookmarkContext.WithoutAbsentId | context/BookmarkContext.tsx:59 | removing an id no bookmark carries changes nothing |
| BookmarkContext.WithoutIdIdempotent | context/BookmarkContext.tsx:56-63 | removing twice is removing once |
| BookmarkContext.RemoveUnbookmarks | context/BookmarkContext.tsx:56-63 | after removal the verse is not bookmarked; removing an absent verse changes nothing |
| BookmarkContext.ToggleNegates | context/BookmarkContext.tsx:42-54 | toggling negates `isBookmarked` for that verse |
| BookmarkContext.ToggleTwiceRestores | context/BookmarkContext.tsx:45-49 | toggling an absent verse twice restores the list exactly |
| BookmarkContext.WithoutIdKeepsDistinct | context/BookmarkContext.tsx:48 | filtering keeps the bookmarks distinct by verse id |
| BookmarkContext.ToggleKeepsDistinct | context/BookmarkContext.tsx:45-49 | toggling keeps the bookmarks distinct by verse id |
| BookmarkContext.BookmarkStore.constructor | context/BookmarkContext.tsx:16-17 | the list starts empty, with storage as it was left |
| BookmarkContext.BookmarkStore.LoadBookmarks | context/BookmarkContext.tsx:23-32 | a stored list replaces the current one; nothing stored leaves it |
| BookmarkContext.BookmarkStore.IsBookmarked | context/BookmarkContext.tsx:65-68 | true iff some bookmark has the same verse id |
| BookmarkContext.BookmarkStore.ToggleBookmark | context/BookmarkContext.tsx:42-54 | a present verse is removed by id, an absent one appended; membership flips; the saved list is the new list |
| BookmarkContext.BookmarkStore.RemoveBookmark | context/BookmarkContext.tsx:56-63 | every bookmark with the id goes; the verse is no longer bookmarked; the saved list is the new list |
| ChatContext.NewSession | context/ChatContext.tsx:86-91 | a new chat is blank, its id is the printed timestamp, and it was created then |
| ChatContext.FirstBlank | context/ChatContext.tsx:72 | the index of the first blank session, or none exactly when no session is blank |
| ChatContext.FindById | context/ChatContext.tsx:67 | the index of the first session with the selected id, or none exactly when none has it |
| ChatContext.AppendWhere | context/ChatContext.tsx:101-107 | sessions with the selected id get the message at the end; every other session, and all ids, titles and the order, are unchanged |
| ChatContext.RetitleWhere | context/ChatContext.tsx:111-117 | sessions with the selected id get the title; messages and every other session are unchanged |
| ChatContext.Without | context/ChatContext.tsx:122 | keeps exactly the sessions whose id differs |
| ChatContext.AfterLoad | context/ChatContext.tsx:35-49 | a stored list replaces the sessions, and its first session is selected when there is one |
| ChatContext.AfterCreateNewChat | context/ChatContext.tsx:70-94 | with a blank chat, the first one is selected and the list is unchanged; otherwise a new blank chat goes in front and is selected |
| ChatContext.AfterSelectChat | context/ChatContext.tsx:96-98 | the id is selected without an existence check; the sessions are unchanged |
| ChatContext.AfterAddMessage | context/ChatContext.tsx:100-108 | the selection is unchanged |
| ChatContext.AfterSetSessionTitle | context/ChatContext.tsx:110-118 | the selection is unchanged |
| ChatContext.AfterDeleteChat | context/ChatContext.tsx:120-141 | sessions with the id go; a deleted current chat gives way to the first survivor, or to a single new blank chat |
| ChatContext.CurrentBlankMeansSomeBlank | context/ChatContext.tsx:80-83 | a blank current chat is a blank chat, so the second check of `createNewChat` never fires |
| ChatContext.BlankCountZero | context/ChatContext.tsx:72 | there are no blank chats iff the lookup finds none |
| ChatContext.CreateNewChatCountsBlanks | context/ChatContext.tsx:70-94 | afterwards a blank chat exists and the number of blank chats is `max(before, 1)` |
| ChatContext.CreateNewChatIdempotent | context/ChatContext.tsx:70-94 | a second `createNewChat`, at any time, changes nothing |
| ChatContext.CreateNewChatSelectsBlank | context/ChatContext.tsx:70-94 | with distinct ids, the selected chat afterwards exists and is blank |
| ChatContext.AppendWithoutMatch | context/ChatContext.tsx:100-108 | `addMessage` with no session carrying the selected id leaves the list as it was |
| ChatContext.AddMessageExtendsCurrent | context/ChatContext.tsx:100-108 | the current session afterwards is the one before with the message appended, and exists iff it did |
| ChatContext.AppendKeepsBlankCount | context/ChatContext.tsx:100-108 | `addMessage` never adds a blank chat |
| ChatContext.SetSessionTitleRenamesCurrent | context/ChatContext.tsx:110-118 | the current session afterwards is the one before with the new title, and exists iff it did |
| ChatContext.RetitleKeepsBlankCount | context/ChatContext.tsx:110-118 | a non-empty title never adds a blank chat |
| ChatContext.SameIdsSameFind | context/ChatContext.tsx:67 | the lookup of the current session depends only on the ids |
| ChatContext.WithoutConcat | context/ChatContext.tsx:122 | filtering distributes over concatenation, so survivors keep their order |
| ChatContext.WithoutAbsent | context/ChatContext.tsx:122 | deleting an id no session carries leaves the list unchanged |
| ChatContext.WithoutIdempotent | context/ChatContext.tsx:122 | filtering twice is filtering once |
| ChatContext.WithoutKeepsUniqueIds | context/ChatContext.tsx:122 | filtering keeps ids distinct |
| ChatContext.DeleteCurrentSelectsSurvivor | context/ChatContext.tsx:124-137 | deleting the current chat always leaves a selected session, which has another id unless nothing survived |
| ChatContext.DeleteChatKeepsUniqueIds | context/ChatContext.tsx:120-141 | after `deleteChat` the ids are distinct when they were before |
| ChatContext.CreateNewChatKeepsUniqueIds | context/ChatContext.tsx:70-94 | after `createNewChat` the ids are distinct when they were before and the timestamp it would use is not already an id |
| ChatContext.CurrentOf | context/ChatContext.tsx:67 | the first session with the selected id; none exactly when no session has it |
| ChatContext.ChatStore.constructor | context/ChatContext.tsx:22-23 | no sessions, nothing selected, storage as it was left |
| ChatContext.ChatStore.CurrentSession | context/ChatContext.tsx:67 | the first session in the list with the selected id, or none exactly when no session has it |
| ChatContext.ChatStore.LoadSessions | context/ChatContext.tsx:25-49 | the state becomes `AfterLoad` of the stored list, and storage then holds the sessions: the save effect's mount run writes the empty list after the read, and a parsed list is written back |
| ChatContext.ChatStore.CreateNewChat | context/ChatContext.tsx:70-94 | the state becomes `AfterCreateNewChat`; storage is written when the list changed |
| ChatContext.ChatStore.SelectChat | context/ChatContext.tsx:96-98 | the state becomes `AfterSelectChat`; storage is untouched |
| ChatContext.ChatStore.AddMessage | context/ChatContext.tsx:100-108 | the state becomes `AfterAddMessage`; storage holds the new list |
| ChatContext.ChatStore.SetSessionTitle | context/ChatContext.tsx:110-118 | the state becomes `AfterSetSessionTitle`; storage holds the new list |
| ChatContext.ChatStore.DeleteChat | context/ChatContext.tsx:120-141 | the state becomes `AfterDeleteChat`; storage holds the new list |
| ChatContext.ChatStore.ClearStorage | context/ChatContext.tsx:59-65 | the stored list goes; the sessions in memory stay |
| DatePicker.MonthLength | components/onboarding/DatePickerWheel.tsx:137-139 | a month has 28 to 31 days; February has 29 exactly in leap years |
| DatePicker.DayBeforeFirst | components/onboarding/DatePickerWheel.tsx:138 | day 0 of a month, after the year carry, is an existing calendar date |
| DatePicker.DaysInMonth | components/onboarding/DatePickerWheel.tsx:137-139 | between 28 and 31, and the Gregorian length of month `m` for `0 <= m < 12` |
| DatePicker.Years | components/onboarding/DatePickerWheel.tsx:16 | 100 years from ten before the current year, strictly decreasing |
| DatePicker.ClampedDay | components/onboarding/DatePickerWheel.tsx:142-144 | the smaller of the selected day row and the month's last row, never negative |
| DatePicker.ReportedDayIsCalendarDay | components/onboarding/DatePickerWheel.tsx:142-168 | the reported day, clamped day plus one, is an existing day of the month; an in-range row is kept |
| DatePicker.AvailableDays | components/onboarding/DatePickerWheel.tsx:146 | exactly the days 1 to the month's length, in order |
| DatePicker.ScrollEndIndex | components/onboarding/DatePickerWheel.tsx:52 | on non-empty data the row is clamped into `[0, len - 1]`, keeping an in-range row |
| DatePicker.FindIndex | components/onboarding/DatePickerWheel.tsx:132 | the first position of the value, or -1 exactly when it is absent |
| DatePicker.InitialYearIndex | components/onboarding/DatePickerWheel.tsx:131-134 | the initial year row is a row of the column |
| DatePicker.InitialYearIndexOf | components/onboarding/DatePickerWheel.tsx:131-134 | a listed default year selects its own row; an unlisted one falls back to row 24 |
| DatePicker.DateKey | components/onboarding/DatePickerWheel.tsx:170 | the date key is never the empty key held before the first report |
| DatePicker.DateKeyInjective | components/onboarding/DatePickerWheel.tsx:170-173 | dates with non-negative fields share a key only when they are equal |
| DatePicker.ReportsExactlyChangedDates | components/onboarding/DatePickerWheel.tsx:170-177 | a shown date's key differs from the last report's iff it is the first report or the date differs from the last one |
| DatePicker.ShownDate | components/onboarding/DatePickerWheel.tsx:166-168 | the shown date is a calendar date of the selected year and month |
| DatePicker.InitialWheel | components/onboarding/DatePickerWheel.tsx:121-134 | the initial state is valid, first-render, with nothing reported |
| DatePicker.AfterNotify | components/onboarding/DatePickerWheel.tsx:159-178 | skipped on the first render; later the shown date is reported iff its key differs from the last one; selections are unchanged |
| DatePicker.ReportKeepsValid | components/onboarding/DatePickerWheel.tsx:173-176 | a new report keeps every report a calendar date, each different from the one before |
| DatePicker.NotifyReportsExactlyChanges | components/onboarding/DatePickerWheel.tsx:159-178 | after the first render, the effect reports the shown date exactly when it differs from the last date reported |
| DatePicker.AfterSyncDay | components/onboarding/DatePickerWheel.tsx:181-185 | a day row past the month's end moves to the last day, and the shown date stays the same |
| DatePicker.AfterMonthScroll | components/onboarding/DatePickerWheel.tsx:49-56 | the month becomes the clamped row; nothing else changes |
| DatePicker.AfterDayScroll | components/onboarding/DatePickerWheel.tsx:49-56 | the shown day becomes the clamped row of the available days plus one; when that row is already the clamped selected day nothing changes, otherwise only the stored day does |
| DatePicker.AfterYearScroll | components/onboarding/DatePickerWheel.tsx:49-56 | the year row becomes the clamped row; nothing else changes |
| DatePicker.DateWheel.constructor | components/onboarding/DatePickerWheel.tsx:119-134 | the state is `InitialWheel` |
| DatePicker.DateWheel.NotifyDateChange | components/onboarding/DatePickerWheel.tsx:159-178 | the state becomes `AfterNotify` |
| DatePicker.DateWheel.SyncDay | components/onboarding/DatePickerWheel.tsx:181-185 | the state becomes `AfterSyncDay` |
| DatePicker.DateWheel.MonthScrollEnd | components/onboarding/DatePickerWheel.tsx:49-56 | the state becomes `AfterMonthScroll` |
| DatePicker.DateWheel.DayScrollEnd | components/onboarding/DatePickerWheel.tsx:49-56 | the state becomes `AfterDayScroll` |
| DatePicker.DateWheel.YearScrollEnd | components/onboarding/DatePickerWheel.tsx:49-56 | the state becomes `AfterYearScroll` |
| OnboardingContext.Initial | context/OnboardingContext.tsx:36-38 | completion unknown, no answers, loading |
| OnboardingContext.AfterLoad | context/OnboardingContext.tsx:44-61 | loading ends on every path; the flag is whether the stored flag is 'true', or false after a failed read or unparsable answers; stored answers replace the current ones |
| OnboardingContext.AfterUpdate | context/OnboardingContext.tsx:63-65 | the key gets the value; every other key and the rest of the state are unchanged |
| OnboardingContext.AfterComplete | context/OnboardingContext.tsx:67-77 | each successful write reaches storage; the flag becomes true only when both succeed; the answers never change |
| OnboardingContext.AfterReset | context/OnboardingContext.tsx:79-90 | each successful removal removes its key; only when both succeed do the flag become false and the answers empty; nothing is added to storage |
| OnboardingContext.CompleteThenLoad | context/OnboardingContext.tsx:46-73 | after a successful completion, loading yields flag true and the same answers |
| OnboardingContext.ResetThenLoad | context/OnboardingContext.tsx:46-86 | after a successful reset, loading yields flag false and no answers |
| OnboardingContext.CompleteThenReset | context/OnboardingContext.tsx:67-90 | completing then resetting leaves flag false, no answers and neither key stored |
| OnboardingContext.OnboardingStore.constructor | context/OnboardingContext.tsx:36-38 | the state is `Initial` |
| OnboardingContext.OnboardingStore.LoadOnboardingState | context/OnboardingContext.tsx:44-61 | the state becomes `AfterLoad` |
| OnboardingContext.OnboardingStore.UpdateOnboardingData | context/OnboardingContext.tsx:63-65 | the state becomes `AfterUpdate` |
| OnboardingContext.OnboardingStore.CompleteOnboarding | context/OnboardingContext.tsx:67-77 | the state becomes `AfterComplete` |
| OnboardingContext.OnboardingStore.ResetOnboarding | context/OnboardingContext.tsx:79-90 | the state becomes `AfterReset` |
| OnboardingScreen.StepsShape | app/onboarding.tsx:15-189 | 14 steps, one per cursor position; only the last, the vision step, fills no answer |
| OnboardingScreen.CalculateAge | app/onboarding.tsx:192-200 | the age is the number of whole years lived: that birthday has been reached, the next one has not |
| OnboardingScreen.AgeIsUnique | app/onboarding.tsx:192-200 | no other number of years has that property |
| OnboardingScreen.CurrentValue | app/onboarding.tsx:212-228 | undefined without an answer key; the slider value on the temptation-strength step; 'selected' iff a birth date is chosen; 'yes' for true, 'no' for false, undefined otherwise for the yes/no answers; the stored answer, or undefined when there is none, for the other keys |
| OnboardingScreen.OnboardingFlow.NextDisabled | app/onboarding.tsx:283-286 | on the current step and its current value: slider and vision steps are never disabled; a date step iff no date is chosen; a single-choice step iff its value is falsy |
| OnboardingScreen.IsNextDisabled | app/onboarding.tsx:285-286 | slider and vision steps are never disabled; a date step iff no date is chosen; a single-choice step iff its value is falsy |
| OnboardingScreen.OptionAnswer | app/onboarding.tsx:233-237 | the yes/no questions store whether the value is 'yes'; others store the string |
| OnboardingScreen.SelectOption | app/onboarding.tsx:230-238 | a step without a key changes nothing; otherwise only its key is set |
| OnboardingScreen.SelectThenRead | app/onboarding.tsx:212-238 | selecting then reading: 'yes' exactly after 'yes' and 'no' otherwise for yes/no steps; the chosen option for other steps |
| OnboardingScreen.ChoosingAnOptionEnablesNext | app/onboarding.tsx:30-286 | on every single-choice step, choosing any of its options enables Next |
| OnboardingScreen.AfterNext | app/onboarding.tsx:260-267 | forward one step before the last; on the last, the step stays and the loading screen shows |
| OnboardingScreen.AfterBack | app/onboarding.tsx:269-273 | back one step after the first; on the first, nothing changes |
| OnboardingScreen.NextAndBackAreInverse | app/onboarding.tsx:260-273 | Back undoes Next before the last step, and Next undoes Back after the first |
| OnboardingScreen.OnboardingFlow.constructor | app/onboarding.tsx:205-208 | step 0, no loading screen, slider at 0.5, no birth date |
| OnboardingScreen.OnboardingFlow.HandleNext | app/onboarding.tsx:260-267 | the cursor becomes `AfterNext` |
| OnboardingScreen.OnboardingFlow.HandleBack | app/onboarding.tsx:269-273 | the cursor becomes `AfterBack` |
| OnboardingScreen.OnboardingFlow.HandleOptionSelect | app/onboarding.tsx:230-238 | the answers become `SelectOption` of the current step; nothing else in the store changes |
| OnboardingScreen.OnboardingFlow.HandleSliderChange | app/onboarding.tsx:240-245 | the slider takes the value, which is recorded only on the temptation-strength step; the step, the loading screen, the chosen date, the completion flag, the loading flag and storage are kept |
| OnboardingScreen.OnboardingFlow.HandleDateChange | app/onboarding.tsx:247-258 | the date is selected, and its ISO form and the age are recorded; the step, the loading screen, the slider, the completion flag, the loading flag and storage are kept |
| StartupRouter.Destination | app/index.tsx:29-33 | the tabs iff the completion flag is true, onboarding otherwise |
| StartupRouter.Step | app/index.tsx:12-35 | nothing happens once a navigation happened, or while loading; the fallback goes to onboarding; the end of loading goes to the destination |
| StartupRouter.FirstNavigating | app/index.tsx:14-28 | the first event that navigates, or none when none does |
| StartupRouter.RunKeepsGuard | app/index.tsx:10-35 | over any sequence of the two effects, `router.replace` is called at most once |
| StartupRouter.RunAfterNavigation | app/index.tsx:15-27 | once navigated, no later event changes anything |
| StartupRouter.FirstNavigatingEventDecides | app/index.tsx:12-35 | the single navigation is decided by the first event that navigates; with none, nothing navigates |
| StartupRouter.StartScreen.constructor | app/index.tsx:10 | not navigated, no navigation made |
| StartupRouter.StartScreen.OnFallbackTimer | app/index.tsx:14-20 | the state becomes `Step` of the fallback event |
| StartupRouter.StartScreen.OnLoadStateChange | app/index.tsx:25-35 | the state becomes `Step` of the load event |
| Strings.NatToString | data/bibleData.ts:91 | a non-negative number prints as decimal digits, with no leading zero |
| Strings.IntToString | data/bibleData.ts:91 | a number prints as digits, with a minus sign in front when negative |
| Strings.DigitsValueOfNatToString | data/bibleData.ts:91 | the printed digits denote the number |
| Strings.NatToStringInjective | data/bibleData.ts:91 | different non-negative numbers print differently |
| Strings.ParseInt | data/bibleData.ts:98-99 | a string of digits reads as its value; NaN when, after leading whitespace, neither a digit nor a sign comes; a non-negative number when a digit comes |
| Strings.ParseIntOfIntToString | data/bibleData.ts:98-99 | `parseInt` reads back any printed integer |
| Strings.Trim | services/aiService.ts:103 | the trimmed string has no whitespace at either end; it is the piece of the input after its leading whitespace, and everything cut off on either side is whitespace |
| Strings.TrimIsSlice | services/aiService.ts:103 | the trimmed string is a contiguous piece of the original |
| Strings.Split | data/bibleData.ts:95 | one more part than separators, none containing the separator |
| Strings.JoinSplit | data/bibleData.ts:95-100 | joining the parts of a split gives the string back |
| Strings.SplitThree | data/bibleData.ts:95 | three dash-free fields joined by dashes split back into those fields |
| Strings.ToLower | services/bibleService.ts:49 | same length, each ASCII capital lowered, every other character kept |
| Strings.ContainsEmpty | services/bibleService.ts:55 | every string includes the empty string |

## Left out

- Storage. AsyncStorage and JSON encoding are not modelled as I/O. The bookmark
  and chat stores keep a field holding a copy of what storage holds. The onboarding store
  keeps a key-value map, and whether each read or write succeeds is a
  parameter. A `Raw` string under the answers key stands for text that does not
  parse.
- Save failures in the chat and bookmark stores. They are logged and ignored.
  The model always records the write.
- React scheduling. Each operation is one atomic step: stale closures, batching,
  and `setCurrentSessionId` inside a `setSessions` updater are not modelled.
- The HTTP call to the chat-completions endpoint, its headers, the model name,
  the temperature and the API key are left out. The endpoint is a parameter: a
  function from the `Request` sent to the `Response` it answers.
- `Date.now()`, `new Date()` for today, and `toISOString` are parameters.
- `DatePicker.DaysInMonth`: the Gregorian month length is stated for every
  year. JavaScript's `new Date(y, m + 1, 0)` reads a year from 0 to 99 as
  1900 + y, so for such a year the source's February can differ. Those years
  never appear in the wheel while the current year is 110 or later, because
  its years start at the current year minus 109.
- `ChatContext.NewSession`: the id is the printed millisecond timestamp, which
  the code does not check against the existing ids. Distinct ids after
  `createNewChat` therefore hold only under that freshness hypothesis, as
  `ChatContext.CreateNewChatKeepsUniqueIds` states. The code reads `Date.now()`
  twice, once for the id and once for `createdAt`; the model uses one reading
  for both.
- Text operations. `toLowerCase` and `trim` work on ASCII only, with no Unicode
  case mapping or Unicode whitespace.
- The scripture dataset. The King James JSON file is not part of this model.
  The dataset is an abstract sequence of books, chapters and entries.
- `BibleService.SortByVerse`: the sort is an insertion sort, proved sorted and a
  permutation. Which of two verses with the same number comes first, that is
  stability, is not stated.
- `searchVerses` is one method per loop level: `SearchVerses`, `SearchBook`,
  `SearchChapter`. The early `return` becomes a `stopped` result.
- `Strings.ParseInt`: NaN is `None`. Its value on text with a sign, or with
  characters after the digits, is stated only through
  `Strings.ParseIntOfIntToString`.
- `BibleService.FindBook` and `BibleService.FindChapter` return the first entry
  with that name or chapter number. A parsed JSON object keeps the last of
  duplicate keys instead. The two agree because the dataset is taken to have
  unique book names and chapter numbers.
- The unreadable-body error's text is the JavaScript runtime's, not something
  the code chooses, so `AiService.ErrorText` gives none for it.
- `BibleData.VerseIdInjective`, `BibleData.ParseVerseIdOfVerseId` and
  `DatePicker.DateKeyInjective` hold only for non-negative numbers. A negative
  number prints a `-` that the dash-separated formats cannot tell apart.
- Floating point. The scroll offset divided by the row height, and its rounding,
  are taken as an integer row. The slider value is a `real`. Progress bars and
  chart coordinates are UI.
- UI rendering and animation: layouts, option cards, the slider widget, the
  progress bar, the vision chart and the loading screen.
- The onboarding screen's `handleLoadingComplete`, which completes onboarding
  and then navigates, is not modelled. Its two steps are
  `OnboardingContext.OnboardingStore.CompleteOnboarding` and a navigation.
- `updateOnboardingData` with an `undefined` value is not modelled. Every value
  the screen passes is defined.
- `ChatContext.AfterAddMessage` and `ChatContext.AfterSetSessionTitle` state
  only that the selection is kept. What happens to the list is stated by
  `ChatContext.AppendWhere`, `ChatContext.RetitleWhere` and the lemmas about
  them.
- `FEATURED_VERSES` and the month names are display data and are not modelled.
