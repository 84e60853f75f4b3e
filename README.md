# Achievements service and film bot — a Dafny model

The repository holds two programs.

- **An achievements backend** (`TZ_work`). It is a small web service over three tables: users, achievements and awarded achievements. It has filtered lookups, creation endpoints that validate their input, a per-user report of awards translated into the user's language, and a statistics endpoint. The statistics endpoint computes five things:
  - the user with the most awards;
  - the user with the most points;
  - the largest pairwise point gap between users;
  - the smallest pairwise point gap;
  - the users with awards on seven days.
- **A Telegram film bot** (`tg_bot`). It answers button presses and typed values and builds search filters step by step in a conversation state machine. It queries a film database site over HTTP, caches actors and file ids in SQLite, and keeps a history of each user's requests.

The model covers the parts of both programs that decide what happens: the data, the checks, the routing and the text that is built. Everything that only moves bytes to the network, the chat service or the database driver is left out.

Modules (one per source file, plus three shared helpers):

| module | models |
|---|---|
| `Wrappers`, `PyValues`, `Strings` | Option/Result; Python values with `dict.get` and truthiness; `str.split`, `str.join`, ASCII `lower`, integer rendering |
| `Ledger` | the filtered lookups `get_users`, `get_achieves`, `get_belong_achieves` |
| `Reporter` | `get_user_achieve`: the join of awards with achievements and the translation |
| `Statistics` | `get_static_data` over the three SQL result tables, with what SQLite guarantees of each |
| `LedgerApi` | the endpoint checks of `main.py`, and the store that hands out ids |
| `Keys` | the button tables and keyboard builders |
| `Commands` | the handler registry, `safe_send_message` chunking, `get_message` |
| `Crud` | the file-id cache, the actor cache, `execute_sql` |
| `SiteApi` | request URLs, the filter query string, `_make_response` |
| `UsersData` | the pure rules inside the handlers: filter maps, film length text, history codes, date buttons, actor buttons, fact numbering, actor freshness |
| `TgHandler` | `process_all_callback`, the `set_filter_*` handlers, and the filter summaries |

## Model

| member | source | states |
|---|---|---|
| Ledger.Select | TZ_work/schemas.py:10-27 | a `where` over optional equality filters keeps exactly the matching rows, each as often as in the table, and never more rows than the table |
| Ledger.SelectAppend | TZ_work/schemas.py:80-82 | selecting from a table with rows appended gives the old selection followed by the selection of the new rows |
| Ledger.GetUsers | TZ_work/schemas.py:10-27 | the users returned are exactly those whose id, name and lang equal every filter that is given |
| Ledger.GetAchieves | TZ_work/schemas.py:36-54 | the achievements returned are exactly those matching the given id, name and count filters |
| Ledger.GetBelongAchieves | TZ_work/schemas.py:64-82 | the awards returned are exactly those matching the given id, user and achievement filters |
| Ledger.NoFilterReturnsAll | TZ_work/schemas.py:10-82 | with no filter given, each lookup returns the whole table in table order |
| Ledger.LookupAfterAward | TZ_work/schemas.py:85-94 | after an award is added, every award lookup returns its earlier result followed by the new award when the award matches the filters |
| Reporter.JoinRowsMembership | TZ_work/schemas.py:104 | whatever the ids, a row is in a user's join exactly when it pairs one of the user's awards with an achievement of the id that award refers to |
| Reporter.UniqueMatch | TZ_work/schemas.py:104 | when achievement ids are unique and the award's achievement exists, the award joins exactly one achievement |
| Reporter.JoinOneRowPerAward | TZ_work/schemas.py:104-105 | when ids are unique and every award resolves, the join has one row per award of the user, in award order, each with the award's achievement |
| Reporter.EntryOf | TZ_work/schemas.py:110-116 | an entry keeps the award id, issue date and point count; name and text are kept for "ru" users and translated from "ru" into the user's language otherwise |
| Reporter.BuildEntries | TZ_work/schemas.py:107-116 | the report has one entry per join row, each the entry of that row, in order |
| Reporter.NonEmptySelectHasMatch | TZ_work/schemas.py:98-99 | the user lookup by id is non-empty exactly when some user has that id, and its first row has that id |
| Reporter.GetUserAchieve | TZ_work/schemas.py:97-119 | an unknown id gives "user not found"; a known id gives one entry per join row of that user, localised into that user's language |
| Reporter.GetUserAchieveAsWritten | TZ_work/schemas.py:97-119 | the guard `len(user) < 0` never holds: an unknown id ends in an IndexError and never in "user not found" |
| Statistics.JoinRowsSound | TZ_work/schemas.py:129 | every joined row of a user is an award of that user with an existing achievement of the award's id |
| Statistics.JoinRowsComplete | TZ_work/schemas.py:129 | a user with an award whose achievement exists has at least one joined row |
| Statistics.SumCountsNonNegative | TZ_work/schemas.py:129 | with positive point values, a point sum is non-negative, and positive when anything is summed |
| Statistics.MaxAchievementsAsWritten | TZ_work/schemas.py:124-125 | the statistic is the first row of the count table, and a TypeError when that table is empty |
| Statistics.FirstCountRowOwnsLowestAward | TZ_work/schemas.py:124 | because the count table is ordered by award id, its first row belongs to the owner of the lowest award id when that award is the owner's only one, whatever the counts are |
| Statistics.MaxAchievementsNotMaximum | TZ_work/schemas.py:124-125 | in a three-award ledger where user 2 holds two awards, every admissible count table makes the statistic name user 1 with one award |
| Statistics.ArgMax | TZ_work/schemas.py:123 | the candidate chosen has a maximal score among all candidates |
| Statistics.MostAwarded | TZ_work/schemas.py:123-125 | the intended statistic: none for an empty ledger, otherwise a user holding awards whose award count is at least every user's count |
| Statistics.ArgMaxFirst | TZ_work/schemas.py:123 | on ties the first candidate of maximal score is chosen: every candidate before it scores less |
| Statistics.MostAwardedFirst | TZ_work/schemas.py:123-125 | ties go to the user met first in the award table: the holder of every earlier award has fewer awards |
| Statistics.MaxSumIsMaximum | TZ_work/schemas.py:127-132 | with positive point values, the first row of the sum table ordered by `cc desc` has a total at least every user's total |
| Statistics.PairwiseGaps | TZ_work/schemas.py:136-151 | the double loop's max and min bound the gap of every pair of rows of different users; each reported pair is such a pair with the reported gap; the sentinels remain exactly when no pair exists, or no pair is below the minimum's sentinel |
| Statistics.GapKeysAsWritten | TZ_work/schemas.py:144 | the loop compares each sum row's representative point value `i[1].count` |
| Statistics.IntendedGaps | TZ_work/schemas.py:134-151 | the gap loop run over the users' point totals: every gap between the totals of two different users of the join lies between the reported minimum and maximum; each is the gap between the totals of the two users reported with it; the maximum's users are empty exactly when fewer than two users have points; on the sample ledger both gaps are 10 |
| Statistics.SampleTotals | TZ_work/schemas.py:129 | in the sample ledger the totals are 10 and 20, and every representative value is 10 |
| Statistics.TwoUserRows | TZ_work/schemas.py:129-130 | rows of distinct users covering exactly users 1 and 2 are two rows, one per user |
| Statistics.DistinctUsersCount | TZ_work/schemas.py:129-130 | a grouped table with pairwise distinct users has as many users as rows |
| Statistics.SampleSumTable | TZ_work/schemas.py:129-130 | every admissible sum table of the sample ledger has two rows, one per user, both with representative value 10 |
| Statistics.GapIgnoresTotals | TZ_work/schemas.py:141-151 | on the sample ledger every gap the loop compares is 0, although the two users' totals differ by 10 |
| Statistics.UsersSevenDays | TZ_work/schemas.py:156-159 | the users reported are exactly those of a row whose pair count is at least 7 |
| Statistics.PartnerCountOther | TZ_work/schemas.py:153 | an award of another user has no partner in the self-join for this user |
| Statistics.PairCountOwnAwards | TZ_work/schemas.py:153 | a user's pair count of the self-join depends only on that user's awards on the left |
| Statistics.PartnerCountOwnAwards | TZ_work/schemas.py:153 | an award's partners for a user depend only on that user's awards on the right |
| Statistics.PartnersInCluster | TZ_work/schemas.py:153 | among same-window awards of one user with distinct ids, an award partners all others, or all of them when it is not among them |
| Statistics.ClusterPartners | TZ_work/schemas.py:153 | inside a cluster each award has one partner fewer than the cluster has awards |
| Statistics.PairCountUniform | TZ_work/schemas.py:153 | when every award has m partners, the pair count is the award count times m |
| Statistics.ClusterPairCount | TZ_work/schemas.py:153 | a user whose awards all fall in one window has k·(k−1) ordered pairs for k awards |
| Statistics.PairCountSameFirst | TZ_work/schemas.py:153 | pair counts agree when every left award has as many partners on either right side |
| Statistics.ClusterQualifiesFromFour | TZ_work/schemas.py:153-159 | a user whose awards all fall in one window passes the 7-pair test exactly when they hold at least four awards |
| Statistics.SevenPairsFromFour | TZ_work/schemas.py:158 | k·(k−1) ≥ 7 exactly when k ≥ 4 |
| Statistics.SevenDayMembership | TZ_work/schemas.py:153-159 | against an admissible self-join table, an award holder has a qualifying row exactly when their pair count is at least 7 |
| Statistics.CountTableNonEmpty | TZ_work/schemas.py:124-132 | when the sum table has a row, so does the count table, so the first statistic cannot fail after the second succeeded |
| Statistics.GetStaticData | TZ_work/schemas.py:121-164 | an empty sum table ends in an IndexError; otherwise the result is the first count row, the first sum row with its total, the gaps of the double loop over the compared values (bounds on every pair, the reported pairs at the reported gaps, the sentinels exactly when no pair exists), and exactly the award holders with at least 7 pairs, every listed user being such a holder |
| LedgerApi.CheckAchievement | TZ_work/main.py:53-54 | an achievement is refused, with the count message, exactly when its count is not positive |
| LedgerApi.CheckAward | TZ_work/main.py:63-66 | an award is refused exactly when an id is not positive; the user id is checked first and decides the message |
| LedgerApi.AppendKey | TZ_work/schemas.py:30-33 | a table whose ids increase stays so when the next id is appended |
| LedgerApi.Store.constructor | TZ_work/schemas.py:30-94 | the store starts with three empty tables |
| LedgerApi.Store.AddUser | TZ_work/schemas.py:30-33 | adding a user appends one row with the next id, changes no other table and keeps ids increasing |
| LedgerApi.Store.CreateAchieve | TZ_work/main.py:51-57 | a non-positive count is refused and changes nothing; otherwise one achievement with the next id is appended and nothing else changes |
| LedgerApi.Store.GiveAchieve | TZ_work/main.py:60-69 | an award is refused exactly when CheckAward refuses it and then changes nothing; otherwise one award with the next id and the given time is appended |
| LedgerApi.StoreKeysUnique | TZ_work/schemas.py:57-60 | achievement ids handed out by the store are unique, which the report's join relies on |
| LedgerApi.AwardVisibleToUser | TZ_work/schemas.py:64-94 | a new award is returned last by the award lookup filtered by its user |
| Keys.Layout | tg_bot/tg_API/utils/keys.py:98-122 | buttons are laid out two per row, the last row possibly one, in order, and nothing is lost |
| Keys.CustomButtons | tg_bot/tg_API/utils/keys.py:153-173 | every button keeps its text; a code ending in '.' gets the key appended and every other code is kept |
| Keys.Start | tg_bot/tg_API/utils/keys.py:125-134 | the main menu shows the seven start buttons in four rows, the last with one button |
| Keys.RandomFilms | tg_bot/tg_API/utils/keys.py:137-150 | the film menu keys the six film-detail codes with the film id and keeps the "another film" button last |
| Keys.KeyedCodeSplits | tg_bot/tg_API/utils/keys.py:169-170 | a keyed code splits back into its event and its key |
| Commands.DefaultAction | tg_bot/tg_API/utils/commands.py:346-355 | the default action returns an empty dict whatever its arguments |
| Commands.ArgsFor | tg_bot/tg_API/utils/commands.py:178-186 | an event handler gets data_key, state and history exactly when it declares them, with the given values |
| Commands.Registry.constructor | tg_bot/tg_API/utils/commands.py:75-80 | a new registry holds only the two defaults |
| Commands.Registry.RegisterAction | tg_bot/tg_API/utils/commands.py:82-98 | registering an action adds or replaces that one entry and keeps the defaults |
| Commands.Registry.RegisterEvent | tg_bot/tg_API/utils/commands.py:100-116 | registering an event handler adds or replaces that one entry and keeps the defaults |
| Commands.Registry.DoAction | tg_bot/tg_API/utils/commands.py:118-141 | the action under the name runs, or "default" when the name is unknown; a raise yields None; an unknown name with the stock default yields an empty dict |
| Commands.Registry.DoEvent | tg_bot/tg_API/utils/commands.py:144-199 | every handler receives the event object; a registered handler gets only the keyword arguments it declares; an unknown name runs "default" with all of them; a raise yields False |
| Commands.RegisterAffects | tg_bot/tg_API/utils/commands.py:82-141 | registering a name other than "default" leaves every other name's action alone; registering "default" changes the fallback of every unknown name |
| Commands.GetMessage | tg_bot/tg_API/utils/commands.py:276-294 | a button press gives its message, a message gives itself, anything else None |
| Commands.ChunksFrom | tg_bot/tg_API/utils/commands.py:228-248 | the paragraph loop sends at least one answer, and only the last carries the keyboard |
| Commands.LaterChunksStartWithNewline | tg_bot/tg_API/utils/commands.py:241-242 | every answer after the first opens with '\n', since a flushed chunk restarts as "" and the next paragraph is added after a newline |
| Commands.SafeSendMessage | tg_bot/tg_API/utils/commands.py:202-252 | the loop, with its `while … else`, sends exactly the answers of the chunking rule, and the fixed reply for an empty text |
| Commands.TextsAppend | tg_bot/tg_API/utils/commands.py:202-252 | the text of two runs of answers is the concatenation of their texts |
| Commands.ChunksSpellText | tg_bot/tg_API/utils/commands.py:228-248 | the answers spell the chunk being built followed by each remaining paragraph after a newline |
| Commands.JoinByNewline | tg_bot/tg_API/utils/commands.py:223-225 | joining paragraphs by newlines is the first paragraph followed by each other paragraph after a newline |
| Commands.SendPlanSpellsText | tg_bot/tg_API/utils/commands.py:202-248 | the answers for a non-empty text, put together, are that text: nothing is lost, duplicated or reordered |
| Commands.ChunkOverLimit | tg_bot/tg_API/utils/commands.py:232-243 | paragraphs of 4095, 1, 4096 and any fourth make a first answer of 4097 characters, one over the limit; the first three alone make one answer of 8194 characters, since the last paragraph is never tested |
| Commands.BoundedChunksFrom | tg_bot/tg_API/utils/commands.py:228-248 | the corrected chunking also sends at least one answer, with the keyboard on the last only |
| Commands.BoundedLaterChunksStartWithNewline | tg_bot/tg_API/utils/commands.py:241-242 | in the corrected chunking too, every answer after the first opens with '\n' |
| Commands.BoundedChunksSpellText | tg_bot/tg_API/utils/commands.py:202-248 | the corrected answers also spell the whole text |
| Commands.BoundedChunksWithinLimit | tg_bot/tg_API/utils/commands.py:221-222 | with every paragraph shorter than 4096 characters, no corrected answer exceeds 4096 characters |
| Crud.FileType | tg_bot/database/utils/crud.py:276-285 | a URL's file type is decided by its lower-cased suffix: "image" for an image suffix, else "video" for a video suffix, else "document" for a document suffix, else "unknown" |
| Crud.FileTypeIgnoresCase | tg_bot/database/utils/crud.py:276-285 | a URL and its lower-cased form have the same type |
| Crud.UpperCaseJpegIsImage | tg_bot/database/utils/crud.py:276-277 | a poster URL ending in ".JPEG" is an image |
| Crud.FirstCode | tg_bot/database/utils/crud.py:250-257 | the code found for a URL is the code of a row with that URL, and there is none exactly when no row has that URL |
| Crud.FirstCodeAppend | tg_bot/database/utils/crud.py:250-257 | after a row is appended, the first code for a URL is the earlier one when there was one |
| Crud.FileStore.constructor | tg_bot/database/utils/crud.py:241-297 | the cache starts empty |
| Crud.FileStore.GetFileId | tg_bot/database/utils/crud.py:241-259 | an empty URL, or a URL with no row, gives ""; otherwise the code of the first row with that URL |
| Crud.FileStore.SaveFileId | tg_bot/database/utils/crud.py:262-297 | an empty URL or code stores nothing; otherwise one row with the URL's type, the URL and the code is appended |
| Crud.SaveThenGet | tg_bot/database/utils/crud.py:241-297 | after saving, a new URL gives back the saved code; an already cached URL keeps its first code |
| Crud.ActorName | tg_bot/database/utils/crud.py:220-222 | the stored name is "name" when truthy; otherwise "enName" when present; otherwise "None!" |
| Crud.HistoryText | tg_bot/database/utils/crud.py:208-209 | an integer history id is stored as its decimal text and a bool, an int to `isinstance`, as "True" or "False"; anything else is stored as it is; the stored id is text exactly when it was an int, a bool or text |
| Crud.FindActor | tg_bot/database/utils/crud.py:169-192 | an actor found has the key looked up, and none is found exactly when no row has that key |
| Crud.ActorStore.constructor | tg_bot/database/utils/crud.py:194-230 | the actor cache starts empty |
| Crud.ActorStore.SaveActorIfAbsent | tg_bot/database/utils/crud.py:194-230 | a cached key changes nothing; a new actor whose name resolves to None is refused by the NOT NULL column and changes nothing; otherwise one row is appended with the history text, the key, the JSON and the name |
| Crud.SavedActorIsFound | tg_bot/database/utils/crud.py:194-230 | an actor just saved is found by its key |
| Crud.ExecuteSql | tg_bot/database/utils/crud.py:57-80 | all rows are returned unchanged; a single-value query with no row raises TypeError; a one-column row gives the text of its value; a wider row gives the text of the tuple |
| SiteApi.EntryPairs | tg_bot/site_API/utils/site_api_handler.py:152-160 | a falsy value adds nothing; a text adds `key=quoted value`; a list adds one pair per item, in order |
| SiteApi.QueryPairsCount | tg_bot/site_API/utils/site_api_handler.py:150-160 | the query has as many pairs as the filter's truthy values contribute |
| SiteApi.QueryPairsFromPresentEntries | tg_bot/site_API/utils/site_api_handler.py:150-160 | every pair of the query comes from a filter entry with a truthy value under that entry's key |
| SiteApi.BuildQuery | tg_bot/site_API/utils/site_api_handler.py:150-160 | the loop over the filter builds exactly the pairs of the query rule |
| SiteApi.FilmByName | tg_bot/site_API/utils/site_api_handler.py:52-77 | the name search asks the auto-complete path with the text as its only parameter |
| SiteApi.PersonById | tg_bot/site_API/utils/site_api_handler.py:79-95 | a person is asked for under `/v1/person/<id>` with no parameters |
| SiteApi.RandomFilms | tg_bot/site_API/utils/site_api_handler.py:97-110 | a random film is asked for under `/v1.3/movie/random` with no parameters |
| SiteApi.OneFilm | tg_bot/site_API/utils/site_api_handler.py:112-127 | a film id that is a string gives `/v1.3/movie/<id>`; any other id fails in `str.join` |
| SiteApi.FilterUrl | tg_bot/site_API/utils/site_api_handler.py:163 | the URL is base, version and head joined by '/', followed by the pairs joined by '&' |
| SiteApi.FilmByFilter | tg_bot/site_API/utils/site_api_handler.py:129-173 | the film search URL is the v1.3 movie head followed by the query pairs joined by '&' |
| SiteApi.PersonByFilter | tg_bot/site_API/utils/site_api_handler.py:175-212 | the person search URL is the v1 person head followed by the query pairs joined by '&' |
| SiteApi.QueryRoundTrip | tg_bot/site_API/utils/site_api_handler.py:150-163 | when the quoting function never yields '&', the keys have none and the query is not empty, splitting the query on '&' gives back the pairs |
| SiteApi.PairHasNoAmpersand | tg_bot/site_API/utils/site_api_handler.py:150-160 | under the same conditions no pair contains '&' |
| SiteApi.MakeResponse | tg_bot/site_API/utils/site_api_handler.py:11-39 | status 200 gives the response; any other status gives that status code |
| SiteApi.FilterSearchOutcome | tg_bot/site_API/utils/site_api_handler.py:167-173 | a request that raised gives 0; otherwise the outcome of the response |
| UsersData.FilterFromSound | tg_bot/users_data.py:158-173 | every filter entry comes from a stored state key, under that key's API name, with the stored value |
| UsersData.FilterFromComplete | tg_bot/users_data.py:158-173 | every stored state key of the table appears in the filter under its API name |
| UsersData.FilterFromExact | tg_bot/users_data.py:158-173 | with distinct API names, an API name is in the filter exactly when its state key is stored, and always with the stored value |
| UsersData.SearchFilmFilter | tg_bot/users_data.py:157-173 | the eight `if key in data` tests build the filter of the film table, in table order |
| UsersData.SearchPersonsFilter | tg_bot/users_data.py:1371-1379 | the four tests build the filter of the person table, in table order |
| UsersData.FilterTablesDistinct | tg_bot/users_data.py:158-173 | the API names of each table are distinct |
| UsersData.MinutesText | tg_bot/users_data.py:455-456 | a length reads as hours, "ч", two-digit minutes, "мин", using floor division and modulo |
| UsersData.MovieLengthText | tg_bot/users_data.py:453-462 | an int (a bool counts as one) is shown as hours and minutes, anything else by `str` |
| UsersData.MinutesTextReadBack | tg_bot/users_data.py:455-456 | reading the hours and minutes back from the text gives the length again, negative lengths included |
| UsersData.MinutesTextInjective | tg_bot/users_data.py:455-456 | two different lengths never give the same text |
| UsersData.NormalizeHistoryCode | tg_bot/users_data.py:288-291 | a code whose first segment is not a legacy prefix is its segments; a legacy prefix alone raises IndexError; a success has at least one segment |
| UsersData.LegacyCodeMerged | tg_bot/users_data.py:288-291 | a legacy code `p.s1.s2…` reads as the current code `p_s1.s2…` |
| UsersData.LegacyCodeSplits | tg_bot/users_data.py:288 | segments without '.' joined by '.' split back into those segments |
| UsersData.MergedJoin | tg_bot/users_data.py:290-291 | merging the first two segments with '_' turns the first '.' into '_' |
| UsersData.LoneLegacyPrefixFails | tg_bot/users_data.py:288-291 | the code "bf" raises IndexError |
| UsersData.HistoryDateButtons | tg_bot/users_data.py:364-368 | at most 16 date buttons are made, from the newest dates, each labelled with its date and coded `mm_history.<date>` |
| UsersData.ActorButtons | tg_bot/users_data.py:759-787 | there are never more actor buttons than persons |
| UsersData.CountActors | tg_bot/users_data.py:759-787 | the loop counts exactly the buttons of the actor rule, one per named actor with an id |
| UsersData.ActorButtonCodesSplit | tg_bot/users_data.py:784-787 | each actor button code splits into `ap_one_person`, the film key and the person's id |
| UsersData.ShownFacts | tg_bot/users_data.py:1080-1083 | only facts with a truthy value are shown, in order |
| UsersData.FactShownStep | tg_bot/users_data.py:1082-1087 | a shown fact is numbered one more than the facts shown before it |
| UsersData.FactSkippedStep | tg_bot/users_data.py:1082-1083 | a fact with a falsy value is skipped and takes no number |
| UsersData.NumberedFactsSnoc | tg_bot/users_data.py:1084-1087 | adding a fact adds its numbered line after a blank line |
| UsersData.NumberFacts | tg_bot/users_data.py:1074-1095 | the count is the number of shown facts; the text is the title, the shown facts numbered from 1, and the total, or "no facts" when none is shown |
| UsersData.NumberedFactsFromInit | tg_bot/users_data.py:1080-1087 | numbering from a start splits into the first facts and the last |
| UsersData.NumberedFactsInOrder | tg_bot/users_data.py:1080-1087 | the facts are numbered 1, 2, 3 … in the order they are shown |
| UsersData.NeedsRefreshAsWritten | tg_bot/users_data.py:856-876 | an unknown actor and every cached actor with a readable date are fetched again; an undated (None or missing) entry is fetched, and any other falsy date keeps the entry; a truthy non-string date makes strptime raise a caught TypeError and is fetched; a non-empty string strptime cannot read raises ValueError |
| UsersData.NeedsRefresh | tg_bot/users_data.py:856-876 | the intended rule: an unknown actor and an undated (None or missing) entry are fetched; any other falsy date keeps the entry; a truthy non-string date is fetched; an unreadable string raises ValueError; a readable date is fetched only when more than 7 days old |
| UsersData.FreshActorRefetched | tg_bot/users_data.py:856-876 | an actor updated today is fetched again as written but not by the intended rule |
| UsersData.RefreshRulesAgreeWithoutDate | tg_bot/users_data.py:856-876 | without a readable date, both rules decide alike |
| TgHandler.FilmIndex | tg_bot/tg_API/utils/commands.py:439-446 | each film field has its place in the button order |
| TgHandler.PersonIndex | tg_bot/tg_API/utils/commands.py:453-456 | each person field has its place in the button order |
| TgHandler.FilmFieldOf | tg_bot/tg_API/utils/tg_api_handler.py:133-180 | a "bf_" event names a film field exactly when it is that field's code |
| TgHandler.PersonFieldOf | tg_bot/tg_API/utils/tg_api_handler.py:198-217 | a "bp_" event names a person field exactly when it is that field's code |
| TgHandler.AnyStoredExists | tg_bot/tg_API/utils/tg_api_handler.py:463-498 | a stored key of the table sets the "something stored" flag |
| TgHandler.AnyStoredWitness | tg_bot/tg_API/utils/tg_api_handler.py:463-498 | the flag is set only when some key of the table is stored |
| TgHandler.SummaryEmptyIffNothingStored | tg_bot/tg_API/utils/tg_api_handler.py:462-495 | the summary lists nothing exactly when no key of the table is stored |
| TgHandler.AddSummaryLine | tg_bot/tg_API/utils/tg_api_handler.py:465-467 | one `if key in data` step adds that key's line and sets the flag exactly when the key is stored |
| TgHandler.LabelsMatchSearchKeys | tg_bot/tg_API/utils/tg_api_handler.py:465-495 | the summaries list the same state keys, in the same order, as the searches read and the handlers write |
| TgHandler.Fsm.constructor | tg_bot/tg_API/utils/commands.py:427-456 | a conversation starts with no state and no data |
| TgHandler.Fsm.Clear | tg_bot/tg_API/utils/tg_api_handler.py:127 | clearing forgets both the state and the stored values |
| TgHandler.Fsm.SetState | tg_bot/tg_API/utils/tg_api_handler.py:501 | setting the state keeps the stored values |
| TgHandler.Fsm.UpdateData | tg_bot/tg_API/utils/tg_api_handler.py:531 | storing a value changes that key only and keeps the state |
| TgHandler.ProcessAllCallback | tg_bot/tg_API/utils/tg_api_handler.py:87-241 | a press is routed as the routing rule says, and the state is cleared, set, or left alone as that rule says |
| TgHandler.MakeAnswerByFilter | tg_bot/tg_API/utils/tg_api_handler.py:450-501 | the answer is the film header and one line per stored film value, in button order; the run and reset buttons appear exactly when some value is stored |
| TgHandler.MakeAnswerForPerson | tg_bot/tg_API/utils/tg_api_handler.py:767-809 | the same for the four person values |
| TgHandler.SetFilmFilter | tg_bot/tg_API/utils/tg_api_handler.py:504-764 | text is stored under the field's key, the dialogue waits for a command, and the summary with the run and reset buttons is answered; anything but text is refused and changes nothing |
| TgHandler.SetPersonFilter | tg_bot/tg_API/utils/tg_api_handler.py:812-941 | the same for the person fields |
| TgHandler.PlainRoute | tg_bot/tg_API/utils/tg_api_handler.py:119 | data without '.' is an event without keys |
| TgHandler.FilmCodeRoutes | tg_bot/tg_API/utils/tg_api_handler.py:130-180 | a film field's code prompts for that field |
| TgHandler.PersonCodeRoutes | tg_bot/tg_API/utils/tg_api_handler.py:195-217 | a person field's code prompts for that field |
| TgHandler.FilmButtonCodes | tg_bot/tg_API/utils/keys.py:57-73 | the film filter buttons carry the film field codes in field order |
| TgHandler.FilmButtonRoutes | tg_bot/tg_API/utils/tg_api_handler.py:130-180 | the i-th film filter button prompts for the i-th film field |
| TgHandler.PersonButtonCodes | tg_bot/tg_API/utils/keys.py:76-81 | the person filter buttons carry the person field codes in field order |
| TgHandler.PersonButtonRoutes | tg_bot/tg_API/utils/tg_api_handler.py:195-217 | the i-th person filter button prompts for the i-th person field |
| TgHandler.FilmFilterEndRoutes | tg_bot/tg_API/utils/tg_api_handler.py:181-190 | "bf_doit" keeps the stored values and runs the film search; "bf_reset" clears them and shows the film filter |
| TgHandler.PersonFilterEndRoutes | tg_bot/tg_API/utils/tg_api_handler.py:218-227 | the same for the person filter |
| TgHandler.StartButtonCodes | tg_bot/tg_API/utils/keys.py:35-43 | the main-menu codes start with "mm" and carry no key |
| TgHandler.MenuCodeShape | tg_bot/tg_API/utils/keys.py:35-43 | each main-menu code starts with "mm" and has no '.' |
| TgHandler.StartButtonRoutes | tg_bot/tg_API/utils/tg_api_handler.py:119-129 | every main-menu button clears the state and reaches the handler of its own name |
| TgHandler.FilmDetailButtonRoutes | tg_bot/tg_API/utils/tg_api_handler.py:119-129 | a film-detail button keyed with a film id reaches its handler with that id, after the state is cleared |
| TgHandler.DetailCodeShape | tg_bot/tg_API/utils/keys.py:46-54 | the six film-detail codes are an "af" event followed by '.' |
| TgHandler.ActorButtonRoutes | tg_bot/tg_API/utils/tg_api_handler.py:119-129 | an actor button `ap_one_person.<film>.<id>` reaches the person handler with both keys |

## Left out

- Network, chat and database I/O. HTTP requests, `message.answer`, `sleep`, logging, the `print` in `get_static_data` and the commit of the database session are left out. Handlers return what they would send, and the stores are sequences that methods append to.
- The echo message "Это …!" that every `set_filter_*` handler sends, and the "Только текст понимаю я." reply to non-text input, are not modelled. The model keeps only the refusal and the unchanged state.
- The history registration (`on_event.do_action`) at the top of the `set_filter_*` handlers is not modelled. It only writes a history row.
- Keyboard rendering is not modelled beyond the buttons and their layout: markup options and placeholders are carried as data.
- SQL evaluation is not modelled. Grouped queries take an arbitrary representative row, and ties in ORDER BY fall in any order. The result tables are inputs constrained by ghost predicates (`IsCountTable`, `IsSumTable`, `IsDaysTable`) that state exactly what SQLite guarantees.
- `ROUND(julianday(a) - julianday(b)) = 0` is modelled on integer seconds as an absolute difference under 43200 seconds.
- The translator, `json.dumps`, `str()`, `urllib.parse.quote`, `strptime` and the clock are function parameters. Nothing is assumed of them beyond what a contract says.
- The fallback when the translator raises is not modelled.
- `str.lower` is modelled on ASCII letters only.
- PyValue keys are compared by structural equality, not by SQLite's type coercion.
- Reporter.JoinOneRowPerAward: the join query has no ORDER BY, so SQL fixes no row order. The model returns the rows in award order, the order SQLite's plain scan gives, and the contract states that order.
- Reporter.BuildEntries: follows the row order of the join, which is fixed by the model and not by SQL.
- Crud.FirstCode: `get_file_id` reads the first row of a query without ORDER BY. The model takes the earliest inserted row with the URL; SQL promises only some row with it.
- Crud.FindActor: `get_actor_by_id` has no ORDER BY either. The model takes the earliest row with the key; SQL promises only some row with it. Crud.SaveThenGet and Crud.FileStore.GetFileId rest on the same choice.
- Ledger.NoFilterReturnsAll: the lookups of `get_users`, `get_achieves` and `get_belong_achieves` have no ORDER BY. The model returns their rows in table order; SQL promises the same rows in some order.
- Statistics.PairwiseGaps: does not state which of several equal gaps is reported (the first in loop order). It states only that the reported pair has the reported gap and bounds all others.
- The `/achieve/get` endpoint declares `count` as a string, so its filter compares text with an integer column. The model filters on integers.
- `save_actor_if_absent` as called from the person-list loop of `get_persons_films` is not modelled there. The loop is modelled without the cache, and the cache operation on its own.
- `get_user_info`, `get_last_record_from_history` and the generic create/retrieve/update helpers of `crud.py` are not modelled; they are thin wrappers over the ORM.
- UsersData.NormalizeHistoryCode: only the code normalisation is modelled. The descriptions looked up for each event (film and actor names from the database) are not.
- The film-list handlers (`get_rating_films`, `get_companies_films`, `get_trailers_films`, `get_similar_films`) are not modelled. They only format site replies.
- `get_static_data`'s seven-day statistic counts same-window pairs, not distinct days. The model follows the code: six awards on one day give 30 pairs and qualify (Statistics.ClusterQualifiesFromFour).
- The film and person dialogues share the `wait_command` and `command_doit` states of their common base group. The model keeps one shared `CommandDoit` state, as the code does.

## Findings

| source | as written | input that shows it | evidently intended | confidence | as-written member | corrected member |
|---|---|---|---|---|---|---|
| TZ_work/schemas.py:100-103 | the not-found guard tests `len(user) < 0`, which never holds | an id no user has: `user[0]` raises IndexError | answer "user not found" for an unknown id | high, not executed | Reporter.GetUserAchieveAsWritten | Reporter.GetUserAchieve |
| TZ_work/schemas.py:124-125 | "most awards" takes the first row of the count table ordered by award id | user 1 holds award 1; user 2 holds awards 2 and 3: user 1 with one award is reported | the user with the largest award count | high, not executed | Statistics.MaxAchievementsNotMaximum | Statistics.MostAwarded |
| TZ_work/schemas.py:141-151 | the gap loop compares each group's representative point value `i[1].count`, not the group total `i[2]` | users with 10 and 20 points, all from 10-point awards: every gap is 0 | gaps between the users' point totals (10 here) | high, not executed | Statistics.GapIgnoresTotals | Statistics.IntendedGaps |
| tg_bot/tg_API/utils/commands.py:232-243 | the flush test ignores the newline it then adds, and never tests the last paragraph | paragraphs of 4095, 1, 4096 and a fourth of any length: the first answer has 4097 characters; the first three alone: the last paragraph is appended untested and one answer has 8194 characters | no answer longer than 4096 characters | medium, not executed | Commands.ChunkOverLimit | Commands.BoundedChunksFrom |
| tg_bot/users_data.py:856-876 | `datetime.now() - date` raises TypeError, which is caught and marks the entry stale | an actor updated today is fetched again | fetch again only after 7 days | high, not executed | UsersData.FreshActorRefetched | UsersData.NeedsRefresh |
