# Help articles: freshness cache, fetch flow, screen state and Markdown parsing

This project models the core of a help-articles Android app in Dafny and proves properties of it.
The app shows a list of help articles and the body of one article. Four pieces are modelled:

- **The freshness cache** (`article_cache.dfy`). It has one slot for the whole list and one slot per
  article id. Each slot holds the data and the time it was stored. A read is a *miss* when the slot
  is empty. It is *expired* once the data is 72 hours old, and an expired read deletes the slot.
  Otherwise the read is a *hit*, flagged *stale* once the data is 24 hours old. Saving the list also
  saves each article under its own id, at the same timestamp.
- **The fetch flow** (`repository.dfy`). Each read emits `Loading`, then any cached data, then
  fresh data or a classified error. A fresh hit ends the flow without a network call. A stale hit
  is shown and then refreshed. A failure is classified into a message and two flags:
  `isNetworkError` and `canRetry`. A network-class failure is suppressed when the cache still holds
  data at that point.
- **The two screen reducers** (`articles_list.dfy`, `article_detail.dfy`). Each screen's UI state
  is a fold of the flow's results. The list screen also keeps a filtered list: the articles whose
  title, summary or category contains the search query, ignoring case.
- **The body renderer's parsing** (`markdown.dfy`). It splits the body into lines and classifies
  each line as a heading, bullet, numbered item, code fence, blank or paragraph. It splits text into
  plain and bold segments around the regex `\*\*(.+?)\*\*|__(.+?)__`.
  `strings.dfy` holds the Kotlin string functions these rely on, such as `trim`, `removePrefix`,
  `substringBefore` and `lowercase`.

Time is an integer number of milliseconds and is passed explicitly to each operation:

- A cache operation takes one instant, `now`.
- A repository flow takes `now` for its first cache read.
- It takes `later` for whatever follows the network call: the save after a success, or the second
  cache read after a failure.

The network call itself is a parameter: `ApiCall.Ok(data)` or `ApiCall.Fail(failure)`. The failures
are:

- unknown host
- connection refused
- socket timeout
- HTTP status with an optional decoded error body
- any other exception with an optional message

Some behaviours of the code are proved as stated, even where they may surprise a reader:

- A forced refresh (the screens' retry) whose network call fails while the cache still holds data
  emits only `Loading`. The list screen is then left loading with no error to show
  (`Repository.ForcedRefreshMaskedFailureOnlyLoads`, `ArticlesList.RetryMaskedFailureKeepsLoading`).
- With a decoded error body, `canRetry` depends on the HTTP status being 404. It does not depend on
  the body's error code.
- `prefetchArticles` makes one attempt and reports whether it succeeded. It has no retry loop of
  its own.

## Model

| member | source | states |
|---|---|---|
| ArticleCache.Classify | shared/src/commonMain/kotlin/com/lovishraheja27/shared/cache/ArticleCache.kt:37-51 | a read is a Miss exactly when the slot is empty; Expired exactly when the data is at least 72h old; otherwise a Hit carrying the stored data and timestamp, younger than 72h, and stale exactly when at least 24h old |
| ArticleCache.IsStale | shared/src/commonMain/kotlin/com/lovishraheja27/shared/cache/ArticleCache.kt:88-91 | data is stale once its age reaches 24 hours (used by `Classify`) |
| ArticleCache.IsExpired | shared/src/commonMain/kotlin/com/lovishraheja27/shared/cache/ArticleCache.kt:93-96 | data is expired once its age reaches 72 hours (used by `Classify`) |
| ArticleCache.AfterRead | shared/src/commonMain/kotlin/com/lovishraheja27/shared/cache/ArticleCache.kt:40-44 | after a read the slot is empty exactly when the read was a miss or expired; otherwise it is unchanged |
| ArticleCache.Lookup | shared/src/commonMain/kotlin/com/lovishraheja27/shared/cache/ArticleCache.kt:64 | the per-article slot is present exactly when the id is a key of the map, and then holds the map's entry |
| ArticleCache.FanOut | shared/src/commonMain/kotlin/com/lovishraheja27/shared/cache/ArticleCache.kt:57-60 | the map after writing each article of a list in order at one instant; its keys, last-wins values and untouched entries are stated by `FanOutKeys`, `FanOutLastWins` and `FanOutElsewhere` |
| ArticleCache.FanOutKeys | shared/src/commonMain/kotlin/com/lovishraheja27/shared/cache/ArticleCache.kt:57-60 | saving a list adds exactly the ids of its articles to the per-article map's keys |
| ArticleCache.FanOutLastWins | shared/src/commonMain/kotlin/com/lovishraheja27/shared/cache/ArticleCache.kt:57-60 | after a list save, an id maps to the last article in the list with that id, stamped with the save time |
| ArticleCache.FanOutElsewhere | shared/src/commonMain/kotlin/com/lovishraheja27/shared/cache/ArticleCache.kt:57-60 | a list save leaves the entry of every id not in the list as it was |
| ArticleCache.SavedListArticleReadsFresh | shared/src/commonMain/kotlin/com/lovishraheja27/shared/cache/ArticleCache.kt:53-77 | write-through: right after a list save, reading any saved id at the same instant is a fresh (non-stale) hit on the last article saved under that id |
| ArticleCache.ExpiredThenMiss | shared/src/commonMain/kotlin/com/lovishraheja27/shared/cache/ArticleCache.kt:40-44 | an expired read deletes the entry, so any later read of it is a miss |
| ArticleCache.StaleIsNotDestructive | shared/src/commonMain/kotlin/com/lovishraheja27/shared/cache/ArticleCache.kt:45-49 | a stale hit leaves the slot unchanged, and the slot reads as the same stale hit at every later instant before expiry |
| ArticleCache.InMemoryArticleCache.constructor | shared/src/commonMain/kotlin/com/lovishraheja27/shared/cache/ArticleCache.kt:33-35 | a new cache has an empty list slot and an empty per-article map |
| ArticleCache.InMemoryArticleCache.GetArticles | shared/src/commonMain/kotlin/com/lovishraheja27/shared/cache/ArticleCache.kt:37-51 | returns the classification of the list slot and removes the list exactly when it is expired |
| ArticleCache.InMemoryArticleCache.SaveArticles | shared/src/commonMain/kotlin/com/lovishraheja27/shared/cache/ArticleCache.kt:53-61 | the list slot becomes the saved list at `now`; the per-article map becomes the old map with every article written in order at `now` |
| ArticleCache.InMemoryArticleCache.GetArticle | shared/src/commonMain/kotlin/com/lovishraheja27/shared/cache/ArticleCache.kt:63-77 | returns the classification of the id's slot; removes that id, and only that id, exactly when the read is expired |
| ArticleCache.InMemoryArticleCache.SaveArticle | shared/src/commonMain/kotlin/com/lovishraheja27/shared/cache/ArticleCache.kt:79-81 | replaces only the slot of the article's own id |
| ArticleCache.InMemoryArticleCache.Clear | shared/src/commonMain/kotlin/com/lovishraheja27/shared/cache/ArticleCache.kt:83-86 | both slots are emptied |
| Strings.StartsWith | app/src/main/java/com/lovishraheja27/helparticles/ui/components/MarkdownText.kt:26-50 | Kotlin `startsWith`: the prefix fits in `s` and equals its first characters |
| Strings.IndexOf | app/src/main/java/com/lovishraheja27/helparticles/ui/components/MarkdownText.kt:62 | Kotlin `indexOf`: the first occurrence of the pattern, searching from position 0 (its contract is the one `IndexOfFrom` states, and `IndexOfFirst` characterises it) |
| Strings.Contains | app/src/main/java/com/lovishraheja27/helparticles/ui/list/ArticlesListViewModel.kt:98-100 | Kotlin `contains` on strings: the pattern occurs somewhere in `s` |
| Strings.IsWhitespace | app/src/main/java/com/lovishraheja27/helparticles/ui/components/MarkdownText.kt:50 | Kotlin `Char.isWhitespace()` on the JVM: the Java whitespace characters and the Unicode space separators, written out as ranges |
| Strings.IsBlank | app/src/main/java/com/lovishraheja27/helparticles/ui/list/ArticlesListViewModel.kt:94 | Kotlin `isBlank`: empty or whitespace only |
| Strings.RemovePrefix | app/src/main/java/com/lovishraheja27/helparticles/ui/components/MarkdownText.kt:28 | when `s` starts with the prefix, prefix + result == s; otherwise the result is `s` |
| Strings.IndexOfFrom | app/src/main/java/com/lovishraheja27/helparticles/ui/components/MarkdownText.kt:62 | the result is an occurrence of the pattern at or after `from`, and no occurrence lies between `from` and it (none at all when the result is None) |
| Strings.IndexOfFirst | app/src/main/java/com/lovishraheja27/helparticles/ui/components/MarkdownText.kt:62 | an occurrence with no occurrence before it is the index `indexOf` returns |
| Strings.SubstringBefore | app/src/main/java/com/lovishraheja27/helparticles/ui/components/MarkdownText.kt:62 | the text before the first occurrence of the delimiter, or the whole string when there is none |
| Strings.SubstringAfter | app/src/main/java/com/lovishraheja27/helparticles/ui/components/MarkdownText.kt:66 | the text after the first occurrence of the delimiter, or the whole string when there is none |
| Strings.TrimStart | app/src/main/java/com/lovishraheja27/helparticles/ui/components/MarkdownText.kt:50 | the first index at or after `i` that is not whitespace; everything skipped is whitespace |
| Strings.TrimEnd | app/src/main/java/com/lovishraheja27/helparticles/ui/components/MarkdownText.kt:50 | the end of the last non-whitespace character before `j`; everything dropped is whitespace |
| Strings.Trim | app/src/main/java/com/lovishraheja27/helparticles/ui/components/MarkdownText.kt:50 | the result is a slice of `s` between a whitespace-only prefix and a whitespace-only suffix; it is empty exactly when `s` is blank; otherwise its first and last characters are not whitespace |
| Strings.LowercaseChar | app/src/main/java/com/lovishraheja27/helparticles/ui/list/ArticlesListViewModel.kt:96 | an ASCII capital maps to its small letter (code + 32); every other character is unchanged |
| Strings.Lowercase | app/src/main/java/com/lovishraheja27/helparticles/ui/list/ArticlesListViewModel.kt:96 | same length, each character lower-cased |
| Strings.NatToString | app/src/main/java/com/lovishraheja27/helparticles/data/repository/ArticlesRepository.kt:158 | non-empty decimal digits whose value is `n`; no leading zero: it starts with `0` only for zero, which is exactly "0" |
| Strings.IntToString | app/src/main/java/com/lovishraheja27/helparticles/data/repository/ArticlesRepository.kt:158 | a non-negative number is written as the digits of its value; a negative one as a minus sign and the digits of its magnitude; no leading zero: zero is exactly "0" and no digit string after a minus sign starts with `0` |
| Repository.IsNetworkFailure | app/src/main/java/com/lovishraheja27/helparticles/data/repository/ArticlesRepository.kt:110-151 | the failures `handleException` marks as network errors: unknown host, connect, socket timeout, and an HTTP 5xx whose body does not decode |
| Repository.HandleException | app/src/main/java/com/lovishraheja27/helparticles/data/repository/ArticlesRepository.kt:108-174 | always an Error; network-class exactly for unknown host, connect, timeout and 5xx without a body; retryable unless HTTP 404; error code only from a decoded body; the message for each case (body message, no-connection, timeout, server error, not found, "An error occurred (HTTP code)", "An unexpected error occurred: message-or-null") |
| Repository.Emissions | app/src/main/java/com/lovishraheja27/helparticles/data/repository/ArticlesRepository.kt:31-63 | 1 to 3 results: Loading first and only first, an error only last; every result between the first and the last is the cached Success of a first-read hit, and no result after the second is a cached Success, so a miss or expired read emits no interim Success; any first-read hit is emitted second; a fresh hit gives exactly [Loading, cached]; otherwise a successful call ends on its data, and a final network Success is always the call's data; a final error is the classified error of the failed call; the flow ends in an error exactly when the call failed, no fresh hit came first, and the failure is not a network failure masked by a hit at the second read |
| Repository.FirstRead | app/src/main/java/com/lovishraheja27/helparticles/data/repository/ArticlesRepository.kt:34-35 | the first cache read of a flow, skipped (None) when forceRefresh is set |
| Repository.AfterFirstRead | app/src/main/java/com/lovishraheja27/helparticles/data/repository/ArticlesRepository.kt:34-35 | the slot after the first read: purged if that read found it expired, untouched when forceRefresh skips the read |
| Repository.FlowEmissions | app/src/main/java/com/lovishraheja27/helparticles/data/repository/ArticlesRepository.kt:31-63 | the results of a whole flow over the slot it reads: `Emissions` of the first read, the call and the second read of what the first read left |
| Repository.ListAfterFlow | app/src/main/java/com/lovishraheja27/helparticles/data/repository/ArticlesRepository.kt:34-62 | the list slot after a flow: a successful call leaves the fresh list stored at `later`; otherwise the slot is either unchanged or empty, and it is empty exactly when it was empty, when the first read found it expired, or when a network failure led to a second read that found it expired |
| Repository.MapAfterListFlow | app/src/main/java/com/lovishraheja27/helparticles/data/repository/ArticlesRepository.kt:47-50 | after a list flow the per-article map is the fan-out of the fetched articles (each id gains its article stamped at the write time, the last duplicate winning) when the call was made and succeeded, so it gains exactly the fetched ids, and is unchanged otherwise |
| Repository.MapAfterArticleFlow | app/src/main/java/com/lovishraheja27/helparticles/data/repository/ArticlesRepository.kt:65-95 | after an article flow: a successful call stores the returned article under its own id at `later`; every other id keeps its entry; the requested id (unless the saved article replaced it) keeps its entry or loses it, and loses it exactly when the first read found it expired or a network failure led to a second read that found it expired |
| Repository.FreshHitShortCircuits | app/src/main/java/com/lovishraheja27/helparticles/data/repository/ArticlesRepository.kt:34-41 | a fresh hit emits exactly [Loading, Success(cached, fromCache)], whatever the API would have returned |
| Repository.StaleHitThenRefresh | app/src/main/java/com/lovishraheja27/helparticles/data/repository/ArticlesRepository.kt:34-50 | a stale hit and a successful call emit Loading, the cached data, then the fresh data |
| Repository.MissNeverMasksFailure | app/src/main/java/com/lovishraheja27/helparticles/data/repository/ArticlesRepository.kt:51-61 | after a miss or expired read, a failed call emits exactly [Loading, the classified error] |
| Repository.StaleHitMasksNetworkFailure | app/src/main/java/com/lovishraheja27/helparticles/data/repository/ArticlesRepository.kt:51-58 | after a stale hit, a network failure while the data has not expired emits only Loading and the cached data, with no error |
| Repository.ForcedRefreshMaskedFailureOnlyLoads | app/src/main/java/com/lovishraheja27/helparticles/data/repository/ArticlesRepository.kt:34-58 | with forceRefresh, a network failure while the cache holds data emits only [Loading] |
| Repository.ServerRejectionAlwaysSurfaces | app/src/main/java/com/lovishraheja27/helparticles/data/repository/ArticlesRepository.kt:51-61 | a failure that is not network-class always ends the flow with its classified error, whatever the cache holds, unless a fresh hit ended the flow first |
| Repository.NotFoundIsFinal | app/src/main/java/com/lovishraheja27/helparticles/data/repository/ArticlesRepository.kt:152-156 | HTTP 404 without a body after a miss emits Loading then one non-network, non-retryable error |
| Repository.ArticlesRepository.constructor | app/src/main/java/com/lovishraheja27/helparticles/data/repository/ArticlesRepository.kt:26-29 | the repository holds the given cache |
| Repository.ArticlesRepository.GetArticles | app/src/main/java/com/lovishraheja27/helparticles/data/repository/ArticlesRepository.kt:31-63 | emits the flow's results for the list slot; the list slot ends as `ListAfterFlow` and the per-article map as `MapAfterListFlow` give it |
| Repository.ArticlesRepository.GetArticle | app/src/main/java/com/lovishraheja27/helparticles/data/repository/ArticlesRepository.kt:65-96 | emits the flow's results for the id's slot; the per-article map ends as `MapAfterArticleFlow` gives it; the list slot is untouched |
| Repository.ArticlesRepository.PrefetchArticles | app/src/main/java/com/lovishraheja27/helparticles/data/repository/ArticlesRepository.kt:98-106 | reports success exactly when the call succeeds; a success saves the list and fans it out; a failure changes nothing |
| ArticlesList.MatchesQuery | app/src/main/java/com/lovishraheja27/helparticles/ui/list/ArticlesListViewModel.kt:97-101 | an article matches when its lower-cased title, summary or category contains the lower-cased query |
| ArticlesList.FilterMatching | app/src/main/java/com/lovishraheja27/helparticles/ui/list/ArticlesListViewModel.kt:97-101 | the filtered list is no longer than the input |
| ArticlesList.FilterMatchingMembers | app/src/main/java/com/lovishraheja27/helparticles/ui/list/ArticlesListViewModel.kt:97-101 | an article is kept exactly when it is in the input and its lower-cased title, summary or category contains the query |
| ArticlesList.FilterMatchingAppend | app/src/main/java/com/lovishraheja27/helparticles/ui/list/ArticlesListViewModel.kt:97-101 | the filter distributes over concatenation, so the kept articles keep their relative order |
| ArticlesList.FilterMatchingIdempotent | app/src/main/java/com/lovishraheja27/helparticles/ui/list/ArticlesListViewModel.kt:97-101 | filtering twice by the same query is filtering once |
| ArticlesList.FilterArticles | app/src/main/java/com/lovishraheja27/helparticles/ui/list/ArticlesListViewModel.kt:93-102 | a blank query keeps the list as it is; otherwise the result is the order-preserving filter `FilterMatching` by the lower-cased query, so it keeps the input's order and duplicates (by `FilterMatchingAppend`) and an article is kept exactly when it is in the list and matches; never longer than the input |
| ArticlesList.OnResult | app/src/main/java/com/lovishraheja27/helparticles/ui/list/ArticlesListViewModel.kt:44-73 | loading exactly on Loading; an error shown exactly on Error, with its message and flags; Success replaces articles and fromCache; other results keep them; the query is kept; the filtered list stays the filter of the articles by the query |
| ArticlesList.ReplayConsistent | app/src/main/java/com/lovishraheja27/helparticles/ui/list/ArticlesListViewModel.kt:40-77 | collecting any sequence of results keeps the shown list equal to the filter of the articles by the query |
| ArticlesList.ReplayAfterLoading | app/src/main/java/com/lovishraheja27/helparticles/ui/list/ArticlesListViewModel.kt:43-73 | collecting Loading and then up to two non-Loading results: a final Success is shown, not loading, with no error; a final Error clears loading and shows the error over the articles of a Success before it; loading remains exactly when only Loading was collected |
| ArticlesList.FlowOutcomeShown | app/src/main/java/com/lovishraheja27/helparticles/ui/list/ArticlesListViewModel.kt:40-77 | after a whole flow: ending in Success shows that data, not loading, no error; ending in Error shows the error over the cached data, if any; the screen is left loading exactly when the flow was only [Loading] |
| ArticlesList.RetryMaskedFailureKeepsLoading | app/src/main/java/com/lovishraheja27/helparticles/ui/list/ArticlesListViewModel.kt:89-91 | a retry whose network failure is masked by the cache leaves the screen loading with no error |
| ArticlesList.LoadThenRetryKeepsLoading | app/src/main/java/com/lovishraheja27/helparticles/ui/list/ArticlesListViewModel.kt:29-38 | a first load that fetched the list, then a retry within 72 hours that fails on the network: the saved list masks the failure and the screen keeps loading with no error |
| ArticlesList.Replay | app/src/main/java/com/lovishraheja27/helparticles/ui/list/ArticlesListViewModel.kt:42-43 | the state after collecting a sequence of results in order (stated by `ReplayConsistent`, `ReplayAfterLoading`) |
| ArticlesList.ArticlesListViewModel.constructor | app/src/main/java/com/lovishraheja27/helparticles/ui/list/ArticlesListViewModel.kt:29-38 | starts from the initial state and collects one non-forced load; the filtered list is consistent; the cache ends as that load leaves it (`ListAfterFlow`, `MapAfterListFlow`) |
| ArticlesList.ArticlesListViewModel.LoadArticles | app/src/main/java/com/lovishraheja27/helparticles/ui/list/ArticlesListViewModel.kt:40-77 | the new state is the old state with every result of the flow applied in order; consistency is preserved; the cache ends as the flow leaves it |
| ArticlesList.ArticlesListViewModel.OnSearchQueryChange | app/src/main/java/com/lovishraheja27/helparticles/ui/list/ArticlesListViewModel.kt:79-87 | stores the query and re-filters the current articles; everything else is kept |
| ArticlesList.ArticlesListViewModel.Retry | app/src/main/java/com/lovishraheja27/helparticles/ui/list/ArticlesListViewModel.kt:89-91 | a load with forceRefresh set: the state folds the forced flow's results and the cache ends as the forced flow leaves it |
| ArticleDetail.OnResult | app/src/main/java/com/lovishraheja27/helparticles/ui/detail/ArticleDetailViewModel.kt:41-68 | loading exactly on Loading; an error shown exactly on Error, with its message and flags; Success shows its article and fromCache; other results keep them |
| ArticleDetail.Replay | app/src/main/java/com/lovishraheja27/helparticles/ui/detail/ArticleDetailViewModel.kt:39-40 | the state after collecting a sequence of results in order (stated by `ReplayKeepsArticle`, `ReplayShowsLastSuccess`) |
| ArticleDetail.ReplayKeepsArticle | app/src/main/java/com/lovishraheja27/helparticles/ui/detail/ArticleDetailViewModel.kt:41-68 | once an article is shown, no sequence of results removes it |
| ArticleDetail.ReplayShowsLastSuccess | app/src/main/java/com/lovishraheja27/helparticles/ui/detail/ArticleDetailViewModel.kt:46-55 | the article and fromCache shown are those of the last Success collected |
| ArticleDetail.ArticleDetailViewModel.constructor | app/src/main/java/com/lovishraheja27/helparticles/ui/detail/ArticleDetailViewModel.kt:23-35 | keeps the article id; starts from the initial state and collects one non-forced load of that id; the per-article map ends as that load leaves it (`MapAfterArticleFlow`) and the list slot is untouched |
| ArticleDetail.ArticleDetailViewModel.LoadArticle | app/src/main/java/com/lovishraheja27/helparticles/ui/detail/ArticleDetailViewModel.kt:37-72 | the new state is the old state with every result of the article flow applied in order; the cache ends as the flow leaves it |
| ArticleDetail.ArticleDetailViewModel.Retry | app/src/main/java/com/lovishraheja27/helparticles/ui/detail/ArticleDetailViewModel.kt:74-76 | a load with forceRefresh set: the state folds the forced flow's results and the cache ends as the forced flow leaves it |
| Markdown.BreakLength | app/src/main/java/com/lovishraheja27/helparticles/ui/components/MarkdownText.kt:24 | `lines()` treats "\r\n" as one break of length 2, any other break as length 1; the break stays inside the text |
| Markdown.IsLineTerminator | app/src/main/java/com/lovishraheja27/helparticles/ui/components/MarkdownText.kt:99 | the characters Java's regex `.` does not match: \n, \r, U+0085, U+2028, U+2029 |
| Markdown.FirstBreakFrom | app/src/main/java/com/lovishraheja27/helparticles/ui/components/MarkdownText.kt:24 | the first line break at or after `from`, or the end of the text |
| Markdown.Lines | app/src/main/java/com/lovishraheja27/helparticles/ui/components/MarkdownText.kt:24 | at least one line, and no line contains `\n` or `\r` |
| Markdown.LinesJoinBack | app/src/main/java/com/lovishraheja27/helparticles/ui/components/MarkdownText.kt:24 | for text without `\r`, joining the lines with `\n` gives the text back |
| Markdown.DigitRun | app/src/main/java/com/lovishraheja27/helparticles/ui/components/MarkdownText.kt:60 | the length of the longest all-digit prefix |
| Markdown.IsNumberedItem | app/src/main/java/com/lovishraheja27/helparticles/ui/components/MarkdownText.kt:60 | the whole trimmed line matches `\d+\. .*`: one or more digits, ". ", then no line terminator |
| Markdown.NumberedItemParts | app/src/main/java/com/lovishraheja27/helparticles/ui/components/MarkdownText.kt:60-66 | for a line matching `\d+\. .*`, substringBefore(".") is its digits, substringAfter(". ") is the rest, and the two with ". " between them rebuild the line |
| Markdown.HeadingPrefixesExclusive | app/src/main/java/com/lovishraheja27/helparticles/ui/components/MarkdownText.kt:26-48 | at most one heading prefix holds for any line |
| Markdown.BlankLineIsNoHeading | app/src/main/java/com/lovishraheja27/helparticles/ui/components/MarkdownText.kt:26-79 | a blank line has no heading prefix |
| Markdown.ClassifyLine | app/src/main/java/com/lovishraheja27/helparticles/ui/components/MarkdownText.kt:25-88 | the kind of a line by the first test that holds; stated by `ClassifyHeadings`, `ClassifyListItems`, `ClassifyRest` and `IndentedHashIsNotHeading` |
| Markdown.ClassifyHeadings | app/src/main/java/com/lovishraheja27/helparticles/ui/components/MarkdownText.kt:26-48 | a line is a level-n heading exactly when it starts with that level's prefix; prefix + text rebuilds the line |
| Markdown.ClassifyListItems | app/src/main/java/com/lovishraheja27/helparticles/ui/components/MarkdownText.kt:50-71 | when no heading prefix matched: a trimmed line starting with "- " is a bullet with the text after it; failing that, a trimmed line matching `\d+\. .*` is a numbered item with its digits and the text after ". "; conversely a bullet or numbered item only arises that way, and its trimmed line is rebuilt from its parts |
| Markdown.ClassifyRest | app/src/main/java/com/lovishraheja27/helparticles/ui/components/MarkdownText.kt:73-87 | a code fence exactly when no heading or list test matched and the trimmed line starts with three backticks; Blank exactly for blank lines; a paragraph, holding the whole line, exactly for every other line |
| Markdown.IndentedHashIsNotHeading | app/src/main/java/com/lovishraheja27/helparticles/ui/components/MarkdownText.kt:26-48 | a line starting with whitespace is never a heading, since the heading tests use the untrimmed line |
| Markdown.CloseFrom | app/src/main/java/com/lovishraheja27/helparticles/ui/components/MarkdownText.kt:99 | a found closing delimiter is the first doubled delimiter at or after `k`, with no line terminator before it |
| Markdown.DelimitedAt | app/src/main/java/com/lovishraheja27/helparticles/ui/components/MarkdownText.kt:99 | a match found at `s` is a bold span of the text with that delimiter |
| Markdown.MatchAt | app/src/main/java/com/lovishraheja27/helparticles/ui/components/MarkdownText.kt:99 | a match at `s` is a bold span; it is the lazy match of its own alternative (`DelimitedAt`), so it closes at the first doubled delimiter (shortest span, by `SpanIsFound`); an `__` match is taken only when no `**` match exists at `s` |
| Markdown.CloseFromFinds | app/src/main/java/com/lovishraheja27/helparticles/ui/components/MarkdownText.kt:99 | the lazy search misses no closing delimiter: one reachable without crossing a line terminator makes it succeed, at that position or earlier |
| Markdown.SpanIsFound | app/src/main/java/com/lovishraheja27/helparticles/ui/components/MarkdownText.kt:99 | every bold span is found at its start with its delimiter, the found one being the shortest (lazy `.+?`); a `**` span there is always the one taken |
| Markdown.FirstMatchFrom | app/src/main/java/com/lovishraheja27/helparticles/ui/components/MarkdownText.kt:100 | a found match starts at or after `from` and is the match at its start |
| Markdown.NoMatchPastEnd | app/src/main/java/com/lovishraheja27/helparticles/ui/components/MarkdownText.kt:99 | no match starts at or past the end of the text |
| Markdown.FirstMatchIsLeftmost | app/src/main/java/com/lovishraheja27/helparticles/ui/components/MarkdownText.kt:100 | no match starts between `from` and the found match, and none at all after `from` when nothing is found |
| Markdown.FindAll | app/src/main/java/com/lovishraheja27/helparticles/ui/components/MarkdownText.kt:100 | each match starts at or after the end of the previous one and lies within the text |
| Markdown.FindAllIsRepeatedSearch | app/src/main/java/com/lovishraheja27/helparticles/ui/components/MarkdownText.kt:100 | each match is the first search result from the previous match's end, and the search after the last match finds nothing |
| Markdown.FindAllSpan | app/src/main/java/com/lovishraheja27/helparticles/ui/components/MarkdownText.kt:99-100 | every match of findAll is a bold span of the text |
| Markdown.FindAllIsLeftmost | app/src/main/java/com/lovishraheja27/helparticles/ui/components/MarkdownText.kt:100 | no match is skipped: none starts between a match's search start and the match, nor after the last match |
| Markdown.FindAllAreSearchMatches | app/src/main/java/com/lovishraheja27/helparticles/ui/components/MarkdownText.kt:99-100 | findAll's matches are ordered, non-overlapping bold spans of the text |
| Markdown.FindAllMissesNoSpan | app/src/main/java/com/lovishraheja27/helparticles/ui/components/MarkdownText.kt:99-100 | findAll skips no bold span: none starts between a search start and the match it found, and all start before the final, fruitless search |
| Markdown.SegmentationDropsDelimiters | app/src/main/java/com/lovishraheja27/helparticles/ui/components/MarkdownText.kt:94-114 | the text the segments show is the input with the four delimiter characters of every match removed and nothing else changed |
| Markdown.ParseInlineFormatting | app/src/main/java/com/lovishraheja27/helparticles/ui/components/MarkdownText.kt:94-114 | for each of findAll's matches, the plain text from where its search began up to the match, then its inner text in bold; last the plain rest; the text shown is the input with each match's delimiters removed; no match gives the input as one plain segment |
| Markdown.AppendSegments | app/src/main/java/com/lovishraheja27/helparticles/ui/components/MarkdownText.kt:100-113 | for any ordered, non-overlapping bold spans, the loop builds the segmentation: each plain segment is the text from the current index to the match, each bold one the match's inner text, and the last the text after the final match |

## Left out

- Rendering: the Compose layout, text styles and spacing are not modelled. A line's kind and a
  list of plain and bold segments stand in for the `Text` and `AnnotatedString` they produce.
  Adjacent or empty plain segments are kept as separate list entries.
- Markdown.ClassifyLine: has no contract of its own. Which kind each line gets, branch by branch
  in the order of the tests, is stated by `ClassifyHeadings`, `ClassifyListItems` and
  `ClassifyRest`.
- Markdown.LinesJoinBack: proved only for text without `\r`. With `\r\n` or a lone `\r`, the break
  characters are not recoverable from the lines.
- Strings.LowercaseChar: maps ASCII capitals only. Kotlin's `lowercaseChar()` uses the full
  Unicode case mapping, which needs tables not modelled here.
- Strings.Lowercase: lower-cases character by character with `LowercaseChar`, so ASCII letters
  only. Kotlin's `lowercase()` also applies multi-character Unicode mappings, which can change
  the length.
- Strings.IsWhitespace: the JVM whitespace set is written out as character ranges. No Unicode
  database is consulted.
- JSON decoding of an HTTP error body is not modelled. The decoded body is a parameter,
  `Option<ErrorResponse>`; a body that fails to decode is `None`.
- The HTTP client, the mock API service and its simulated delays and failures are not modelled.
  Each call's outcome is a parameter.
- Coroutines, the flows' asynchrony, `StateFlow` and a second load launched while one is still
  collecting are not modelled. Each operation runs to completion before the next starts.
- The clock is not modelled. Each read and write takes its instant as a parameter, and within one
  cache read staleness and expiry are judged at the same instant.
- The `ArticleCache` interface is not modelled separately from its in-memory implementation.
- Dependency injection, the background refresh worker and its scheduling are not modelled.
  `PrefetchArticles` models the single attempt the worker calls.
- A missing `articleId` navigation argument, which throws before the detail screen exists, is not
  modelled. The detail screen takes its id as a parameter.
- Other exception types, such as cancellation, are all treated as the generic `Other` failure with
  an optional message.
