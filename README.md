# gapgram in Dafny

gapgram is a Persian directory of Telegram groups and channels. Visitors browse and
filter ads. Users submit and edit ads. Moderators review and delete them.
Administrators assign roles, import ads from the public preview of a Telegram
channel, look at view, click and like statistics, and build the sitemap.

This project models the part of the system that carries logic:

- the edge function `scrape-telegram`. It normalises the channel address, extracts
  images, links, post texts, names and member counts from the scraped page, and
  shapes the response.
- the record mapping of the ad store (`src/lib/ads.ts`).
- the filters and sort orders of the listing pages.
- the review, moderation, role and analytics pages.
- the submission and edit forms.
- the SEO helpers and the sitemap panel.
- the password pages, the role hook and the client-side tracking.

Each source file is one module:

| module | source |
|---|---|
| `ScrapeScan` | the regex matchers of the edge function |
| `ScrapeText` | the edge function's text cleaning, post splitting and member counts |
| `ScrapeTelegram` | resolves the edge function's handler |
| `Types` | `RankedAd`, `AdFormData` |
| `Constants` | the category, province, tag, age-group and type tables |
| `Ads` | `src/lib/ads.ts` |
| `Listing` | what `Index.tsx` and `FilteredAds.tsx` share |
| `IndexPage`, `FilteredAdsPage` | the two listing pages |
| `ScraperPage` | `TelegramScraper.tsx` |
| `AnalyticsPage` | `Analytics.tsx` |
| `Access` | the redirect rule of the guarded pages |
| `AdminPanel` | `AdminPanel.tsx` |
| `ManageAds` | `ManageAds.tsx` |
| `ManageRoles` | `ManageRoles.tsx` |
| `UserRoleHook` | `useUserRole.tsx` |
| `ListEdits` | the tag and keyword list edits both forms share |
| `AdSubmissionForm` | `AdSubmissionForm.tsx` |
| `EditAd` | `EditAd.tsx` |
| `Seo` | `src/lib/seo.ts` |
| `SeoPanel` | `SEOPanel.tsx` |
| `FilterSidebar` | `FilterSidebar.tsx` |
| `Passwords` | `ChangePassword.tsx`, `ResetPassword.tsx` |
| `Tracking` | `src/lib/analytics.ts` |

`Wrappers`, `Text`, `Seqs` and `Sorting` hold what the modules share:

- `Option`;
- the JavaScript string operations used (`includes`, `split`, `trim`, `toLowerCase`);
- filtering, de-duplication and removal;
- the sort, an insertion sort by a key, with its order, permutation and stability lemmas.

How each kind of source code is modelled:

- **Component state becomes classes.** State that a component updates (React
  `useState`) becomes a class whose methods state the new state in terms of the old.
  Pure mappings and predicates become functions.
- **Loops become methods.** The source's loops are methods with invariants, proved
  against specification functions:
  - the image `exec` loop;
  - the primary and fallback passes of the edge function;
  - the count `reduce` of the statistics page;
  - the sitemap assembly;
  - the update builder.
- **Outside calls become parameters.** Every database, network, clock and random
  call is a parameter of the member that uses it. Its `None` stands for an error
  reply unless the member's comment says otherwise.

Behaviour of the code worth knowing:

- a scraped page's images are handed out in order, not round-robin;
- invite links are never extracted;
- a name is cut to 50 characters;
- the fallback pass does not check for the source channel;
- a submission's selected cities never reach the `cities` column, because `addAd`
  and `updateAd` read a `provinces` field the forms do not send.

## Model

| member | source | states |
|---|---|---|
| ScrapeTelegram.FirstTruthy | supabase/functions/scrape-telegram/index.ts:79-80 | `a \|\| b \|\| ''`: the first present non-empty value, else the fallback |
| ScrapeTelegram.NormalizedUrl | supabase/functions/scrape-telegram/index.ts:42-51 | the preview address always starts with `https://` |
| ScrapeTelegram.NormalizedBare | supabase/functions/scrape-telegram/index.ts:42-51 | `t.me/<handle>` becomes `https://t.me/s/<handle>` |
| ScrapeTelegram.NormalizedPlain | supabase/functions/scrape-telegram/index.ts:42-51 | `https://t.me/<handle>` becomes `https://t.me/s/<handle>` |
| ScrapeTelegram.NormalizedPreview | supabase/functions/scrape-telegram/index.ts:42-51 | a preview address `https://t.me/s/<handle>` is left as it is |
| ScrapeTelegram.PreviewUrl | supabase/functions/scrape-telegram/index.ts:42-51 | the step-wise rewriting of `webUrl` computes the normalised address |
| ScrapeScan.MatchHandle | supabase/functions/scrape-telegram/index.ts:46 | a captured handle is non-empty and all word characters |
| ScrapeScan.MatchHandleFromFirst | supabase/functions/scrape-telegram/index.ts:46 | the handle found is that of the leftmost match; no match starts earlier |
| ScrapeScan.SourceChannel | supabase/functions/scrape-telegram/index.ts:101-102 | the source channel is lower-cased, or `""` without a match |
| ScrapeScan.NextImage | supabase/functions/scrape-telegram/index.ts:86-90 | `exec` from `lastIndex` moves forward and yields a non-empty `src` |
| ScrapeScan.LastSrcIsLast | supabase/functions/scrape-telegram/index.ts:86 | the greedy `[^>]+` settles on the last `src="` that completes the pattern |
| ScrapeTelegram.ExtractImages | supabase/functions/scrape-telegram/index.ts:86-94 | the `exec` loop yields exactly the kept sources of all image tags, in document order |
| ScrapeTelegram.KeptImagesAreTelegramFiles | supabase/functions/scrape-telegram/index.ts:91-92 | every kept image holds `telesco.pe` and neither `emoji` nor `icon`, and the kept images are a subsequence of all sources |
| ScrapeScan.AllLinks | supabase/functions/scrape-telegram/index.ts:97-98 | every link match is `http(s)://t.me/<handle>` |
| ScrapeTelegram.LinkHandleCaseInsensitive | supabase/functions/scrape-telegram/index.ts:106 | a link's handle is what the case-insensitive handle pattern finds in it |
| ScrapeTelegram.UniqueLinksProperties | supabase/functions/scrape-telegram/index.ts:104-110 | the candidate links are distinct, a subsequence of the first occurrences, and none names the source channel or `s` |
| ScrapeTelegram.NoCandidatesIff | supabase/functions/scrape-telegram/index.ts:104-110 | there are no candidates exactly when every page link names the source channel or `s` |
| ScrapeText.CleanTextIsClean | supabase/functions/scrape-telegram/index.ts:113-122 | the cleaned text has only characters of the input, no formatting character, no three newlines in a row, and no outer white space |
| ScrapeText.RemoveMarkupChars | supabase/functions/scrape-telegram/index.ts:115-117 | removing images, links and URLs only deletes characters |
| ScrapeText.CollapseNewlines | supabase/functions/scrape-telegram/index.ts:120 | the result has no three newlines in a row, and keeps whether the text starts with a newline |
| ScrapeText.Sections | supabase/functions/scrape-telegram/index.ts:125 | `split` yields at least one section |
| ScrapeText.SplitNoSeparator | supabase/functions/scrape-telegram/index.ts:125 | text without a separator is one section |
| ScrapeTelegram.FindPostText | supabase/functions/scrape-telegram/index.ts:136-142 | the inner loop takes the cleaned first section that mentions the link or its handle, `""` if none does |
| ScrapeTelegram.PostText | supabase/functions/scrape-telegram/index.ts:145-147 | the post text has at least ten characters |
| ScrapeTelegram.NameOf | supabase/functions/scrape-telegram/index.ts:150-157 | the name is always the handle or a line of 4 to 50 characters that does not start with a digit |
| ScrapeTelegram.NameFromFirstLine | supabase/functions/scrape-telegram/index.ts:150-157 | the first line of the post text with more than 3 trimmed characters, trimmed and cut to 50, is the name unless it starts with a digit, when the handle is |
| ScrapeTelegram.NameWithoutLongLine | supabase/functions/scrape-telegram/index.ts:150-157 | a post text with no line longer than 3 trimmed characters gives the handle as the name |
| ScrapeTelegram.GenericTextName | supabase/functions/scrape-telegram/index.ts:145-157 | with the generic text, the name is that text cut to 50 |
| ScrapeText.MembersOnes | supabase/functions/scrape-telegram/index.ts:160-169 | digit groups joined by single commas or white space (`1,200`, `1 200`), after text without digits and followed by ` عضو`, ` نفر` or ` member`, give the number their digits spell with the separators removed |
| ScrapeText.MembersThousands | supabase/functions/scrape-telegram/index.ts:160-169 | the same groups followed by `k عضو` give a thousand times that number |
| ScrapeText.MembersCommaExample | supabase/functions/scrape-telegram/index.ts:160-169 | `1,200 عضو` gives 1200 |
| ScrapeText.NoUnitNoMembers | supabase/functions/scrape-telegram/index.ts:160-162 | a text in which no unit alternative occurs has no member count, whatever digits it holds |
| ScrapeText.NoDigitsNoMembers | supabase/functions/scrape-telegram/index.ts:160-162 | a text without digits has no member count |
| ScrapeTelegram.Candidate | supabase/functions/scrape-telegram/index.ts:171-183 | a primary ad has a text of 10 to 500 characters, a non-empty name, link `https://t.me/<handle>`, category `chat`, the requested type and the image it was given |
| ScrapeTelegram.CandidateGeneric | supabase/functions/scrape-telegram/index.ts:145-157 | a link whose section says too little gets the generic text as text and as name |
| ScrapeTelegram.PrimaryPass | supabase/functions/scrape-telegram/index.ts:127-184 | the `for` loop over the candidate links computes the primary pass |
| ScrapeTelegram.PrimaryImages | supabase/functions/scrape-telegram/index.ts:127-173 | images are handed out in order: the k-th ad with an image gets `images[k]`, and once they run out no ad gets one |
| ScrapeTelegram.PrimaryOnePerLink | supabase/functions/scrape-telegram/index.ts:129-184 | each candidate link yields exactly one ad, in order, linking to its handle |
| ScrapeTelegram.FallbackPass | supabase/functions/scrape-telegram/index.ts:187-204 | the fallback loop computes the fallback ads |
| ScrapeTelegram.FallbackLinksProperties | supabase/functions/scrape-telegram/index.ts:188-191 | the `/s/` filter removes nothing, and the fallback links are the first 20 distinct page links |
| ScrapeTelegram.FallbackAdsShape | supabase/functions/scrape-telegram/index.ts:191-202 | one fallback ad per link, carrying that link, its text, the image at its index, and the handle (or the anonymous name) as name |
| ScrapeTelegram.FallbackOnlySourceOrS | supabase/functions/scrape-telegram/index.ts:104-110 | when the fallback runs, its links name only the source channel or `s` |
| ScrapeTelegram.PrimaryEmptyIff | supabase/functions/scrape-telegram/index.ts:129-131 | the primary pass is empty exactly when every page link names the source channel or `s` |
| ScrapeTelegram.ScrapePage | supabase/functions/scrape-telegram/index.ts:79-204 | images, links, sections, the primary pass and the fallback compute the page's ads |
| ScrapeTelegram.HandleRequest | supabase/functions/scrape-telegram/index.ts:17-225 | the handler's response and the address it asks the scrape service for |
| ScrapeTelegram.RespondOutcomes | supabase/functions/scrape-telegram/index.ts:25-77 | no URL gives 400; no key gives 500; success exactly when URL, key and an ok reply are there; then at most 30 ads and the preview address; a failed reply passes its status and error through |
| Constants.Find | src/lib/constants.ts:23-99 | `find` by value: a found entry has that value, and nothing is found exactly when no entry has it |
| Constants.CategoriesShape | src/lib/constants.ts:23-37 | 13 categories with distinct values and captions, none `all` |
| Constants.ProvincesShape | src/lib/constants.ts:40-75 | 31 provinces with distinct values and captions; `CITIES` is the same table |
| Constants.TagsShape | src/lib/constants.ts:77-86 | 8 tags with distinct values and captions |
| Constants.AgeGroupsShape | src/lib/constants.ts:88-94 | 5 age groups with distinct values, one of them `all` |
| Constants.AdTypesShape | src/lib/constants.ts:96-99 | the ad types are `group` and `channel` |
| Ads.MapDbAdToRankedAd | src/lib/ads.ts:173-207 | the mapped ad keeps id, name, text, category, link and date, and always has an image, a relevance and a type |
| Ads.MapDefaults | src/lib/ads.ts:196-205 | null image, members, tags, cities and age groups take their defaults; provinces come from `cities`; null ages stay undefined while 0 is kept; relevance 0 or null is 0.5; no type is `group` |
| Ads.MapRows | src/lib/ads.ts:227-296 | `map` yields one ad per row, in order |
| Ads.GetAds | src/lib/ads.ts:209-231 | an error gives no ads; an empty or null table is seeded and read again; otherwise the rows read are mapped |
| Ads.GetAdsSeedsOnlyEmpty | src/lib/ads.ts:220-228 | the read after seeding matters only when the first read found an empty or null table |
| Ads.GetUserAdsRows | src/lib/ads.ts:284-297 | one ad per row returned, with its id, date and a non-empty image; newest-first rows give newest-first ads; the result equals the public listing's reading of the same reply without seeding, so an error or null data gives none |
| Ads.DeleteThenRead | src/lib/ads.ts:299-323 | when `deleteAd` reports success the ad can no longer be read by `getAdById` and every other row stays, in order; when it reports failure the table is unchanged |
| Ads.GetAdById | src/lib/ads.ts:310-323 | null exactly for an error or no row; otherwise the mapped row |
| Ads.SeedRows | src/lib/ads.ts:233-246 | one insert row per seed entry, in order |
| Ads.SeedRoundTrip | src/lib/ads.ts:234-246 | a seeded row reads back as the seed entry |
| Ads.AddAd | src/lib/ads.ts:254-282 | null exactly when the insert failed |
| Ads.SubmittedCitiesDropped | src/lib/ads.ts:254-281 | a submitted ad reads back with no provinces, type `group` and a relevance in [0.7, 1.0) |
| Ads.PatchIgnoresCities | src/lib/ads.ts:335 | a patch's `cities` field plays no part; the `cities` column is fed from `provinces` |
| Ads.BuildUpdate | src/lib/ads.ts:326-339 | the update holds a column exactly when the patch defines its field, with that field's value |
| Ads.UpdateAd | src/lib/ads.ts:348-353 | null exactly for an error or no row; otherwise the mapped row with that id |
| Listing.ParamOr | src/pages/Index.tsx:40-41 | `get(key) \|\| d`: the value when non-empty, else the default |
| Listing.ParamList | src/pages/Index.tsx:44-46 | the comma list has no empty element and none with a comma; an absent key gives `[]` |
| Listing.WithFilter | src/pages/Index.tsx:58-72 | `updateFilter` leaves every other key as it was |
| Listing.ListRoundTrip | src/pages/Index.tsx:44-72 | a list written by `updateFilter` reads back as the same list; an empty one deletes the key |
| Listing.OneRoundTrip | src/pages/FilteredAds.tsx:33-51 | a value written by `updateFilter` reads back; an empty one deletes the key |
| Listing.MatchesQueryCase | src/pages/Index.tsx:98-105 | the search ignores letter case, and a query that starts the name matches |
| Sorting.SortByStable | src/pages/Index.tsx:130-156 | the sort is stable: for every key, the ads with that key keep their input order, as `Array.prototype.sort` guarantees |
| Listing.SortOrder | src/pages/Index.tsx:130-156 | sorting by the option's key gives the promised order and is a permutation |
| IndexPage.ReadFilters | src/pages/Index.tsx:38-46 | sort and type always have a value, and the tag list has no empty entry |
| IndexPage.ApplyFilters | src/pages/Index.tsx:84-128 | narrowing by each active filter in turn keeps exactly the ads that pass them all, in order |
| IndexPage.FilteredAndSortedAds | src/pages/Index.tsx:84-157 | the result holds exactly the passing ads, each as often as before, in the chosen order |
| IndexPage.InactiveKeeps | src/pages/Index.tsx:159 | without active filters only the type and the search text can hide an ad |
| IndexPage.IndexState.UpdateFilter | src/pages/Index.tsx:58-72 | the parameters become `WithFilter` of the old ones |
| IndexPage.IndexState.ClearFilter | src/pages/Index.tsx:74-78 | only that key is removed |
| IndexPage.IndexState.ClearAllFilters | src/pages/Index.tsx:80-82 | no parameter is left, so no filter is active, the type is `all` and the search is empty |
| FilteredAdsPage.ReadFilters | src/pages/FilteredAds.tsx:33-41 | sort always has a value; the badge filters are the raw parameters |
| FilteredAdsPage.ApplyFilters | src/pages/FilteredAds.tsx:93-131 | the six filters in turn keep exactly the ads that pass them all |
| FilteredAdsPage.FilteredAndSortedAds | src/pages/FilteredAds.tsx:93-160 | the passing ads, each as often as before, in the chosen order |
| FilteredAdsPage.GetFilterInfo | src/pages/FilteredAds.tsx:54-88 | no header exactly when no badge filter is set |
| FilteredAdsPage.FilterInfoPriority | src/pages/FilteredAds.tsx:54-88 | tag before province before age before category, and an unknown value is shown as itself |
| FilteredAdsPage.FilterInfoKnownCaption | src/pages/FilteredAds.tsx:56-84 | a value in the table is shown by its caption |
| FilteredAdsPage.BadgeState.UpdateFilter | src/pages/FilteredAds.tsx:43-51 | a non-empty value is set, an empty one deletes the key, and other keys stay |
| ScraperPage.PageView | src/pages/TelegramScraper.tsx:208-232 | the tool shows exactly for a signed-in admin once loading ends; a spinner while either loads |
| ScraperPage.StampAll | src/pages/TelegramScraper.tsx:66-74 | each scraped ad gets the default category and type, is unselected and gets all provinces |
| ScraperPage.StampedForAllProvinces | src/pages/TelegramScraper.tsx:66-73 | a fresh candidate is offered for every province |
| ScraperPage.RowOf | src/pages/TelegramScraper.tsx:120-132 | the insert row is approved and active, `members \|\| 0`, `imageUrl \|\| null`, and the fields copied |
| ScraperPage.RowsOf | src/pages/TelegramScraper.tsx:171-183 | one row per selected ad, in order |
| ScraperPage.ToggledAt | src/pages/TelegramScraper.tsx:95-99 | only the entry at the index flips its selection |
| ScraperPage.WithCategoryAt | src/pages/TelegramScraper.tsx:101-105 | only the entry at the index changes category |
| ScraperPage.WithTypeAt | src/pages/TelegramScraper.tsx:107-111 | only the entry at the index changes type |
| ScraperPage.OtherIndicesSpec | src/pages/TelegramScraper.tsx:144 | dropping an index keeps the rest in order; an index off the list drops nothing |
| ScraperPage.SelectedCount | src/pages/TelegramScraper.tsx:234 | the count is at most the list's length |
| ScraperPage.ToggleTwice | src/pages/TelegramScraper.tsx:95-99 | toggling twice restores the list |
| ScraperPage.ToggleCount | src/pages/TelegramScraper.tsx:95-234 | a toggle moves the selected count by one |
| ScraperPage.EditKeepsSelection | src/pages/TelegramScraper.tsx:101-111 | a category or type change keeps the selected count |
| ScraperPage.SelectionSplits | src/pages/TelegramScraper.tsx:158-195 | every entry is either saved with the selection or left on the list |
| ScraperPage.TelegramScraper.constructor | src/pages/TelegramScraper.tsx:34-39 | empty address and list, category `chat`, type `group` |
| ScraperPage.TelegramScraper.HandleScrape | src/pages/TelegramScraper.tsx:41-93 | a blank address is refused without a call and the list is kept; success stamps the returned ads; any failure leaves an empty list and the error notice |
| ScraperPage.TelegramScraper.ToggleAdSelection | src/pages/TelegramScraper.tsx:95-99 | the list becomes `ToggledAt` of the old one |
| ScraperPage.TelegramScraper.UpdateAdCategory | src/pages/TelegramScraper.tsx:101-105 | the list becomes `WithCategoryAt` of the old one |
| ScraperPage.TelegramScraper.UpdateAdType | src/pages/TelegramScraper.tsx:107-111 | the list becomes `WithTypeAt` of the old one |
| ScraperPage.TelegramScraper.SaveSingleAd | src/pages/TelegramScraper.tsx:113-155 | an index off the list does nothing; otherwise its row is sent, and a successful insert removes that entry only |
| ScraperPage.TelegramScraper.SaveSelectedAds | src/pages/TelegramScraper.tsx:157-206 | nothing selected is refused; otherwise the selected rows are sent, and success keeps only the unselected |
| AnalyticsPage.CountBy | src/pages/Analytics.tsx:95-108 | the `reduce` has a key exactly for each id that occurs, counting its rows |
| AnalyticsPage.TallyCounts | src/pages/Analytics.tsx:95-98 | the tally counts each id's rows |
| AnalyticsPage.StatsPerAd | src/pages/Analytics.tsx:110-117 | one row per ad, in order, with its counts or 0 |
| AnalyticsPage.SortedByViews | src/pages/Analytics.tsx:120 | views never increase down the table, and no row is lost or added |
| AnalyticsPage.SortKeepsTotal | src/pages/Analytics.tsx:120 | sorting keeps the sum of views |
| AnalyticsPage.ViewsWithinTotal | src/pages/Analytics.tsx:110-124 | with distinct ad ids, the table's views add up to at most the number of view rows |
| AnalyticsPage.TopRows | src/pages/Analytics.tsx:245 | the first 20 rows, or all when fewer |
| AnalyticsPage.Analytics.FetchAnalytics | src/pages/Analytics.tsx:62-140 | any failed read keeps the table and totals and shows the error; otherwise the sorted table and the row counts; loading ends |
| Access.Redirect | src/pages/AdminPanel.tsx:35-46 | to `/auth` exactly when there is no signed-in user; to `/` exactly when the role is known and insufficient; otherwise no redirect |
| Access.RedirectSettled | src/pages/Analytics.tsx:43-54 | once both loads end there is no redirect exactly for a signed-in user with the role; without a user it is `/auth` |
| AdminPanel.Payload | src/pages/AdminPanel.tsx:80-83 | approved exactly for an approval, with status `approved` or `rejected` to match |
| AdminPanel.PayloadsDiffer | src/pages/AdminPanel.tsx:80-83 | the two verdicts send different statuses |
| AdminPanel.WithStatus | src/pages/AdminPanel.tsx:114-116 | a tab holds exactly the ads with its status, in order |
| AdminPanel.TabsPartition | src/pages/AdminPanel.tsx:114-116 | the three tabs are disjoint subsequences, and an ad with another status is in none |
| AdminPanel.TabCounts | src/pages/AdminPanel.tsx:114-116 | the tab sizes plus the untabbed ads add up to all ads |
| AdminPanel.ActionsUnlessApproved | src/pages/AdminPanel.tsx:150-222 | a card has the review buttons exactly when its ad is not approved |
| AdminPanel.Reviewed | src/pages/AdminPanel.tsx:75-93 | after a review the ads with that id carry the verdict's status, the others are unchanged |
| AdminPanel.ReviewMovesTab | src/pages/AdminPanel.tsx:75-116 | a reviewed ad moves to its verdict's tab, the others stay |
| AdminPanel.AdminReview.FetchAds | src/pages/AdminPanel.tsx:54-73 | an error keeps the list and shows the toast; otherwise the list read, or none for null data |
| AdminPanel.AdminReview.BeginUpdate | src/pages/AdminPanel.tsx:75-84 | the card is marked processing and the payload is the verdict's |
| AdminPanel.AdminReview.FinishUpdate | src/pages/AdminPanel.tsx:86-103 | processing ends; a failure keeps the list; a success re-reads it, which ends loading, and no other path touches loading |
| ManageAds.FilteredAds | src/pages/ManageAds.tsx:123-129 | an ad is shown exactly when it matches the search, the status and the category, in order |
| ManageAds.InitialFiltersKeepAll | src/pages/ManageAds.tsx:54-129 | with the initial filters every ad is shown |
| ManageAds.SelectsNarrow | src/pages/ManageAds.tsx:126-127 | a status or category selection only narrows the list |
| ManageAds.WithoutId | src/pages/ManageAds.tsx:110 | the ads with that id are gone and the rest stay, in order |
| ManageAds.WithoutIdTwice | src/pages/ManageAds.tsx:110 | removing the same id twice is removing it once |
| ManageAds.DeleteThenFilter | src/pages/ManageAds.tsx:110-129 | filtering after a delete is deleting from the filtered list |
| ManageAds.Moderation.FetchAds | src/pages/ManageAds.tsx:77-96 | an error keeps the list and shows the toast; otherwise the rows read, or none for null data, with no error shown; loading ends |
| ManageAds.Moderation.DeleteAd | src/pages/ManageAds.tsx:98-121 | a successful delete drops that id from the list; a failed one keeps the list and shows the error |
| ManageRoles.FindProfile | src/pages/ManageRoles.tsx:90-94 | a found profile belongs to that user; none only when no profile does |
| ManageRoles.DisplayName | src/pages/ManageRoles.tsx:92 | the name is never empty, and is `کاربر` when no profile belongs to the user |
| ManageRoles.FirstProfileNames | src/pages/ManageRoles.tsx:92 | the user's first profile supplies the name |
| ManageRoles.WithDetails | src/pages/ManageRoles.tsx:90-94 | one entry per role row, in order, with that user's name |
| ManageRoles.RoleManager.FetchUsers | src/pages/ManageRoles.tsx:74-107 | a failed role read keeps the list and reports it; otherwise the rows with their names |
| ManageRoles.RoleManager.AddUserRole | src/pages/ManageRoles.tsx:109-171 | a blank email is refused without a lookup; an error reply or an unknown user is reported as not found, a lookup that throws as a failure to add; a duplicate and a failed insert are reported; a success re-reads the list, which ends loading, and no other path touches loading |
| ManageRoles.RoleManager.RemoveUserRole | src/pages/ManageRoles.tsx:173-206 | removing one's own role is refused without a call; a failure keeps the list; a success re-reads it, which ends loading, and no other path touches loading |
| UserRoleHook.ResolvedRole | src/hooks/useUserRole.tsx:26-34 | the stored role when the read gives a non-empty one, `user` otherwise |
| UserRoleHook.FlagsFromReply | src/hooks/useUserRole.tsx:26-45 | only an `admin` or `moderator` row grants review, only `admin` grants administration, and no role is both |
| UserRoleHook.FailedRoleRedirected | src/hooks/useUserRole.tsx:26-34 | a failed or empty role read sends a signed-in user home from the review pages |
| UserRoleHook.RoleState.FetchRole | src/hooks/useUserRole.tsx:13-37 | no user gives no role; otherwise the resolved role; loading ends |
| ListEdits.AddTrimmed | src/components/AdSubmissionForm.tsx:90-95 | a trimmed, non-empty entry not yet in the list is appended; otherwise the list is unchanged |
| ListEdits.AddTrimmedKeeps | src/components/AdSubmissionForm.tsx:90-95 | adding keeps a list distinct and free of untrimmed or empty entries |
| ListEdits.AddTrimmedTwice | src/components/AdSubmissionForm.tsx:90-95 | adding the same input twice is adding it once |
| ListEdits.RemoveUndoesAdd | src/components/AdSubmissionForm.tsx:90-102 | removing an accepted entry gives the list back |
| AdSubmissionForm.TelegramPatternPrefixes | src/components/AdSubmissionForm.tsx:45 | the link rule holds exactly for the four Telegram address prefixes |
| AdSubmissionForm.DefaultsRefused | src/components/AdSubmissionForm.tsx:32-82 | the blank form is refused for category, name, text and link |
| AdSubmissionForm.Submission | src/components/AdSubmissionForm.tsx:112-133 | all cities send `[]`, all ages send `["all"]`, ages only for a custom range, the default image when blank, the rest copied |
| AdSubmissionForm.ValidSubmission | src/components/AdSubmissionForm.tsx:32-133 | a form without issues submits a category, a name of 3 to 100 characters, a text of 10 to 500, a Telegram link, non-negative members, an image and ages within 0 to 120 |
| AdSubmissionForm.CheckCity | src/components/AdSubmissionForm.tsx:348-356 | checking adds the city and unchecking removes it; in single mode at most one city is selected |
| AdSubmissionForm.CheckUncheck | src/components/AdSubmissionForm.tsx:348-356 | checking then unchecking a new city gives the selection back |
| AdSubmissionForm.OutcomeAsWritten | src/components/AdSubmissionForm.tsx:122-147 | as written, the form reports failure only on an exception |
| AdSubmissionForm.FailedInsertAnnounced | src/components/AdSubmissionForm.tsx:122-147 | as written, a failed insert is announced as a success |
| AdSubmissionForm.Outcome | src/components/AdSubmissionForm.tsx:122-147 | corrected: success exactly when no exception and a stored ad came back |
| AdSubmissionForm.SubmissionForm.AddTag | src/components/AdSubmissionForm.tsx:90-95 | the tags become `AddTrimmed` of the old ones, and the input is cleared exactly when it was accepted |
| AdSubmissionForm.SubmissionForm.RemoveTag | src/components/AdSubmissionForm.tsx:97-102 | every occurrence of the tag is removed |
| AdSubmissionForm.SubmissionForm.ToggleCity | src/components/AdSubmissionForm.tsx:348-356 | the selection becomes `CheckCity` of the old one |
| AdSubmissionForm.SubmissionForm.Submit | src/components/AdSubmissionForm.tsx:109-147 | a form with issues sends nothing; otherwise it sends the submission, and navigates home only on the corrected success |
| EditAd.SubmissionLinkEditable | src/pages/EditAd.tsx:36-39 | every link the submission form accepts, the edit form accepts |
| EditAd.EditLinkLooser | src/pages/EditAd.tsx:36-39 | the edit form also accepts a non-Telegram address that mentions `telegram` |
| EditAd.LoadedValues | src/pages/EditAd.tsx:95-105 | the form is reset with the ad's fields |
| EditAd.StoredLocationsNotShown | src/pages/EditAd.tsx:95-105 | an ad read from the table shows no selected cities |
| EditAd.EditPatch | src/pages/EditAd.tsx:114-124 | the patch sets the form's fields, the image only when non-empty, and sends no `provinces` |
| EditAd.EditColumns | src/pages/EditAd.tsx:114-124 | the update never writes the `cities` column, and writes the image only when non-empty |
| EditAd.LoadThenSave | src/pages/EditAd.tsx:95-124 | saving an unchanged form writes back the ad's name, members, tags and image |
| EditAd.EditPage.LoadAd | src/pages/EditAd.tsx:83-108 | a missing ad sends the user to `/dashboard`; otherwise the form holds the ad and loading ends |
| EditAd.EditPage.Submit | src/pages/EditAd.tsx:110-133 | a form with issues sends nothing; otherwise it sends the patch and navigates on success |
| Seo.AdStructured | src/lib/seo.ts:25-43 | a schema.org `Product` with an in-stock offer, carrying the ad's name, text, image and link |
| Seo.StructuredRoundTrip | src/lib/seo.ts:25-43 | the ad's fields can be read back from its structured data |
| Seo.MetaTags | src/lib/seo.ts:45-60 | the tags have exactly the fixed set of keys |
| Seo.MetaTagsAgree | src/lib/seo.ts:45-60 | the Open Graph and Twitter tags repeat the title, description and image |
| Seo.KeywordsJoin | src/lib/seo.ts:49 | keywords are joined with `, ` |
| Seo.SitemapEntryShape | src/lib/seo.ts:62-77 | the entry holds the ad's address, the change frequency and the priority, and the date has no time part |
| SeoPanel.SitemapShape | src/pages/SEOPanel.tsx:68-117 | home and search first, then one entry per distinct category, then one per ad, with their priorities; the fixed and category entries carry today's date and each ad its update date |
| SeoPanel.OneEntryPerCategory | src/pages/SEOPanel.tsx:84-95 | a category has an entry exactly when an ad uses it, and no two category entries share an address |
| SeoPanel.SitemapXmlBlocks | src/pages/SEOPanel.tsx:168-177 | the XML has one `<url>` block per entry, holding its address |
| SeoPanel.Panel.GenerateSitemap | src/pages/SEOPanel.tsx:68-117 | a failed read keeps the entries and shows the toast; otherwise the two loops build `Sitemap` of the ads read |
| SeoPanel.Panel.AddKeyword | src/pages/SEOPanel.tsx:119-127 | the keywords become `AddTrimmed` of the old ones, and the input is cleared exactly when it was accepted |
| SeoPanel.Panel.RemoveKeyword | src/pages/SEOPanel.tsx:129-134 | every occurrence of the keyword is removed |
| FilterSidebar.ToggleTwice | src/components/FilterSidebar.tsx:30-52 | toggling a new value twice gives the selection back |
| FilterSidebar.ToggleFlips | src/components/FilterSidebar.tsx:30-52 | a toggle flips the value's membership and keeps every other value's |
| FilterSidebar.ToggleDistinct | src/components/FilterSidebar.tsx:30-52 | toggling keeps a selection without repeats |
| FilterSidebar.ToggleLength | src/components/FilterSidebar.tsx:30-52 | a toggle adds one value or removes the present one |
| FilterSidebar.BadgeAfterToggle | src/components/FilterSidebar.tsx:30-70 | selecting a new value shows a badge of one more; unselecting the only value hides it; on a list without repeats unselecting hides it exactly when the value was the only one |
| Passwords.PasswordProblem | src/pages/ChangePassword.tsx:37-53 | too short exactly under 6 characters; a mismatch exactly when long enough but different; no problem otherwise |
| Passwords.LengthFirst | src/pages/ResetPassword.tsx:45-61 | the length rule is checked before the match |
| Passwords.ChangePageView | src/pages/ChangePassword.tsx:21-32 | the form shows exactly for a signed-in user once loading ends |
| Passwords.ChangePasswordPage.HandleSubmit | src/pages/ChangePassword.tsx:34-74 | a refused password sends nothing; otherwise it is sent, and success goes to `/dashboard` |
| Passwords.ResetPasswordPage.View | src/pages/ResetPassword.tsx:84-110 | the form shows exactly for a valid session once checking ends |
| Passwords.ResetPasswordPage.CheckSession | src/pages/ResetPassword.tsx:23-29 | a session makes the link valid, and checking ends |
| Passwords.ResetPasswordPage.OnAuthStateChange | src/pages/ResetPassword.tsx:33-37 | only a recovery event with a session makes the link valid |
| Passwords.ResetPasswordPage.HandleSubmit | src/pages/ResetPassword.tsx:42-82 | a refused password sends nothing; otherwise it is sent, and success goes to `/` |
| Tracking.SessionStore.GetSessionId | src/lib/analytics.ts:3-10 | a stored id is returned and nothing is written; otherwise the fresh id is stored and returned |
| Tracking.SessionIdStable | src/lib/analytics.ts:3-10 | once an id is handed out, later calls hand out the same id and write nothing; other keys are untouched |
| Tracking.UserColumn | src/lib/analytics.ts:16-40 | `userId \|\| null` never sends an empty id, reading the column back with null as "" gives the caller's value, and applying it twice changes nothing |
| Tracking.Track | src/lib/analytics.ts:12-46 | the row sent carries the target, the user or null and the session id; there is no failure to report |
| Tracking.Succeeded | src/lib/analytics.ts:48-75 | `likeAd` and `unlikeAd` return true exactly when no error occurred |
| Tracking.RepliesOfTable | src/lib/analytics.ts:77-105 | read against the `ad_likes` rows, the count is the number of the ad's likes and `isAdLikedByUser` holds exactly when the user's like is stored once; a failed read gives 0 and false |
| Tracking.LikeThenRead | src/lib/analytics.ts:48-105 | after a successful like, a successful count is one higher, and the like is read as present exactly when the user had not liked the ad before |
| Tracking.UnlikeThenRead | src/lib/analytics.ts:62-105 | after a successful unlike the like is read as absent, and the count drops by the number of the user's rows for the ad |
| Tracking.LikeCounts | src/lib/analytics.ts:48-89 | a successful like raises the ad's count by one and is found; a failed one changes nothing |
| Tracking.UnlikeRemoves | src/lib/analytics.ts:62-105 | a successful unlike removes that user's like of the ad and keeps all others |

## Left out

- Network, database and service calls are not modelled; their replies are parameters. This covers Supabase, the Firecrawl scrape service and `supabase.functions.invoke`.
- Clocks, randomness and `crypto.randomUUID` are parameters (`stamp`, `random`, `freshId`, `today`, `now`, `ts`).
- Toasts, icons, layout, routing details and `console` logging are not modelled. The CORS headers and the `OPTIONS` reply are not modelled either.
- `z.string().url()` is the parameter `isUrl`, because the URL grammar it accepts is not part of this model.
- String lengths count Unicode code points, not UTF-16 code units. `toLowerCase` folds ASCII letters only.
- JavaScript numbers are `int` and `real`. `parseInt` overflow and floating-point rounding are not modelled.
- `new Date(...)` parsing is the parameter `ts`; `toISOString` is the parameter `iso`.
- The sorts are modelled as stable sorts on values, not in-place on arrays.
- `URLSearchParams` is a map, so the order of its parameters is not modelled.
- The initial seeding flow of `getAds` (the inserts of `seedDatabase` and their error log) is a parameter of `Ads.GetAds`.
- `generateMetaTags`, `generateRobotsTxt`, `generateStructuredData` and `copyToClipboard` inside `SEOPanel.tsx` are text templates and are not modelled.
- The access guard of `SEOPanel.tsx` is likewise not modelled.
- `Dashboard.tsx`, `AdCard.tsx`, `OnlineCounter.tsx`, `Auth.tsx`, `WelcomeModal.tsx` and the other context components are not part of this model.
- `AdSubmissionForm.SubmissionForm.Submit`: the form calls `addAd` with one argument, so the user id it sends is undefined. The model's submission carries no user id.
- `EditAd.EditPage.Submit`: the optional zod fields of the edit schema are modelled as always present.
- `Tracking.Track`: the three tracking functions are one member with a table parameter, because their bodies differ only in the table.
- `Tracking.LikeCounts`: the `ad_likes` table is a sequence of rows. No unique constraint is modelled, so a repeated like adds a second row (and `maybeSingle` then fails).
- `ScraperPage.TelegramScraper.SaveSingleAd` and `ScraperPage.TelegramScraper.SaveSelectedAds`: handlers run one at a time, each to completion. Interleaved completions are not modelled: two single saves in flight at once remove entries by indices taken before either removal, and the one `isSaving` flag is cleared by whichever save ends first.
- `ScrapeTelegram.HandleRequest`: the body's `adType` is a string or absent. A JSON `null` or non-string `adType` does not take the `'group'` default in the handler and is copied into every ad; the model has no such value. Likewise a truthy `channelUrl` that is not a string makes `.trim()` throw, which the outer catch answers with 500; the model reaches that answer only through an unreadable body.

## Findings

| source | as written | input that shows it | evidently intended | confidence | as-written member | corrected member |
|---|---|---|---|---|---|---|
| src/components/AdSubmissionForm.tsx:122-147 with src/lib/ads.ts:276-279 | `onSubmit` treats any return of `addAd` as success, but `addAd` returns null instead of throwing when the insert fails | an insert that fails with a database error: `addAd` returns null, and the form shows the success toast and navigates home | success only when a stored ad came back | not executed | AdSubmissionForm.OutcomeAsWritten, AdSubmissionForm.FailedInsertAnnounced | AdSubmissionForm.Outcome |
