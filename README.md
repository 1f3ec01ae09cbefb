# Travel-GPT data handling, modelled in Dafny

Travel-GPT is an AI trip planner. A FastAPI backend asks a language model for an itinerary, cleans up the answer and fills every activity with photos from Unsplash and Pexels. A Next.js frontend collects the trip request, shows the result and handles sign-up and password reset. This project models the deterministic data handling of that system and proves what it guarantees:

- **Image selection** (`backend/app/image_search.py`):
  - the activity name is cleaned of action prefixes and shop suffixes;
  - a category is chosen by keyword priority and an ordered list of search queries is built;
  - at most three distinct URLs are collected from two search back-ends, Unsplash first and Pexels to top up;
  - also the city image and the placeholder images.
- **Itinerary post-processing** (`backend/app/agent.py`):
  - the JSON candidate is cut out of the model's answer and the required keys are checked;
  - the model's own images are cleared;
  - fetched images are assigned with a global de-duplication by image id (`_extract_image_id`);
  - the budget estimate.
- **Duplicate-history cleanup** (`backend/clean_duplicates.py`): one user's records are grouped by (destination, days), the newest of each group is kept and the rest are deleted after a confirmation.
- **Image-source audit** (`backend/debug_images.py`): counters over days, activities and images, and one source bucket per URL.
- **Photo and weather tools** (`backend/app/tools.py`).
- **Request and itinerary records** (`backend/app/models.py`).
- **Frontend**:
  - the result page's image allow-list filter (`frontend/app/result/page.tsx`);
  - the home page's preference toggle, preset cards and submit rule (`frontend/app/page.tsx`);
  - the password-reset page's validation order, error classification and resend countdown (`frontend/app/forgot-password/page.tsx`);
  - the register page's validation (`frontend/app/register/page.tsx`).

One Dafny module per source file: `ImageSearch`, `Agent`, `CleanDuplicates`, `DebugImages`, `Tools`, `Models`, `ResultPage`, `HomePage`, `ForgotPassword`, `Register`. Three support modules hold shared helpers:

- `Wrappers`: `Option`, `Result`, and the `Outcome` of an awaited call.
- `Text`: Python and JavaScript string built-ins, such as `strip`, `find`, `rfind`, `in`, `split`, `lower`, `.length`.
- `Seqs`: filtering, subsequences, de-duplication, and Python slicing.

Code that changes state step by step is modelled as imperative Dafny:

- the collection loops;
- the de-duplication loop;
- the grouping and deletion loops;
- the audit counters;
- the two auth pages, which are classes.

Each method is proved equal to a specification function, and the properties are proved about that function. Pure code is modelled as functions and lemmas.

Everything the system gets from outside is a parameter:

- the search back-ends: `(query, count) -> URLs`;
- the image fetcher as the agent sees it: `Fetched(urls)` or `Raised`;
- the WHATWG URL parser: `url -> hostname?`;
- `json.loads` and the pydantic constructor;
- the answer typed at the confirmation prompt;
- the weather service's reply;
- the settled outcome of each authentication call.

## Model

| member | source | states |
|---|---|---|
| ImageSearch.StripPrefix | backend/app/image_search.py:47-66 | one pattern `^P[:：]?` leaves a suffix of the name; a name that does not start with `P` is unchanged (the exact value is pinned by the two lemmas below) |
| ImageSearch.PrefixAndColonStripped | backend/app/image_search.py:47-66 | `P` followed by a colon (`:` or `：`) and `rest` becomes exactly `rest`: the pattern and one colon go |
| ImageSearch.PrefixStripped | backend/app/image_search.py:47-66 | `P` followed by `rest` that does not start with a colon becomes exactly `rest`: only the pattern goes |
| ImageSearch.StripPrefixes | backend/app/image_search.py:65-66 | applying the patterns once each in order leaves a suffix of the name |
| ImageSearch.StripPrefixesFirst | backend/app/image_search.py:65-66 | the first pattern is applied first and the rest to what it leaves, as the `for` loop rebinds `clean_name` |
| ImageSearch.StripPrefixesNoMatch | backend/app/image_search.py:65-66 | a name that starts with none of the patterns is unchanged |
| ImageSearch.StripEachPrefix | backend/app/image_search.py:65-66 | the prefix loop's result is each pattern applied once, in list order, to the previous result |
| ImageSearch.LunchPrefixShadowsLunchRecommendation | backend/app/image_search.py:52-57 | "午餐" (index 5) is tried before "午餐推荐" (index 10). After it runs, "午餐推荐：锅包肉" is left as "推荐：锅包肉", so the longer pattern no longer matches |
| ImageSearch.ShopSuffixLength | backend/app/image_search.py:69 | a shop-suffix match at the front opens with a bracket and ends at the first closing bracket, which follows 店/铺/馆/厅, and is at least three characters long |
| ImageSearch.RemoveShopSuffixes | backend/app/image_search.py:69 | removing every bracketed shop suffix leaves an order-preserving subsequence of the name |
| ImageSearch.NoBracketNoChange | backend/app/image_search.py:69 | text without an opening bracket is left unchanged |
| ImageSearch.ShopSuffixRemoved | backend/app/image_search.py:69 | a bracketed 店/铺/馆/厅 suffix following bracket-free text is removed, and the rest of the text is processed on its own |
| ImageSearch.TrailingShopSuffixRemoved | backend/app/image_search.py:69 | a name without brackets followed by one bracketed shop suffix is reduced to the name |
| ImageSearch.BranchNameRemoved | backend/app/image_search.py:68-69 | "哈尔滨红肠（中央大街店）" becomes "哈尔滨红肠" |
| ImageSearch.CleanName | backend/app/image_search.py:43-70 | the cleaned name is the prefix loop, then the suffix removal, then `strip()`, and is never longer than the activity name |
| ImageSearch.DetectCategory | backend/app/image_search.py:75-90 | the category is always one of the ten known ones, and a known category given by the caller is kept |
| ImageSearch.FirstMatchingRule | backend/app/image_search.py:77-90 | the first rule of a priority table whose words occur decides; "景点" when none does |
| ImageSearch.DetectionFollowsPriority | backend/app/image_search.py:76-90 | an unknown category is detected from the raw name with priority food > museum > temple > park > shopping > hotel > sight |
| ImageSearch.FirstFoodMatch | backend/app/image_search.py:224-228 | the English words of the first keyword from a given row on that occurs in the name; "" exactly when none occurs |
| ImageSearch.ExtractFoodKeywords | backend/app/image_search.py:199-228 | "" exactly when no dish keyword occurs; otherwise the English words of the first listed keyword that occurs |
| ImageSearch.GetRegionalCuisine | backend/app/image_search.py:231-245 | the mapped cuisine for a listed city, "chinese food" for any other, never empty |
| ImageSearch.MentioningALandmarkIsFamous | backend/app/image_search.py:248-255 | a name with one of the seventeen landmarks anywhere in it is famous, so its sight queries end with the bare name |
| ImageSearch.FoodQueries | backend/app/image_search.py:97-109 | one to three non-empty queries. The last is "Chinese food dish cuisine". The regional query comes just before it when a city is given. The dish query comes first exactly when a dish was recognised |
| ImageSearch.SightQueries | backend/app/image_search.py:111-119 | one to three queries including "<name> travel attraction"; the last is the bare name exactly when it is a famous landmark |
| ImageSearch.OtherQueries | backend/app/image_search.py:121-150 | one to three non-empty queries; without a city only the temple branch gives two |
| ImageSearch.BuildSearchQueries | backend/app/image_search.py:93-152 | never empty and at most three queries; food categories use the food branch and "景点" the sight branch |
| ImageSearch.AppendAbsent | backend/app/image_search.py:177-180 | the merge keeps what was held as a prefix, and its elements are exactly those held plus those offered |
| ImageSearch.AppendAbsentAddsDistinct | backend/app/image_search.py:178-180 | every element the merge appends differs from every other element of the result |
| ImageSearch.AppendEachAbsent | backend/app/image_search.py:178-180 | the Pexels loop's result is the merge of the held images with Pexels' answer |
| ImageSearch.FirstThreeDistinct | backend/app/image_search.py:184-196 | at most three images and no duplicates. The result is the first min(3, distinct) elements of the order-preserving de-duplication and contains only collected images |
| ImageSearch.RunRound | backend/app/image_search.py:167-181 | the loop body for one query equals the specification of a round. That round asks Unsplash for 3 − held images and appends them. If fewer than three are then held, it asks Pexels for the remainder and merges its URLs without repeats |
| ImageSearch.CollectImages | backend/app/image_search.py:158-181 | the loop's images and calls are those of the query-by-query collection that stops once three images are held |
| ImageSearch.GetImageForActivity | backend/app/image_search.py:19-196 | the result is that of the full pipeline. It has at most three URLs and no duplicates. Every URL came from one of the calls made, and every call asks for one to three images |
| ImageSearch.RoundProvenance | backend/app/image_search.py:167-181 | every image held after a round was held before or came from one of that round's calls |
| ImageSearch.CollectProvenance | backend/app/image_search.py:161-181 | every collected image was held at the start or came from one of the calls made |
| ImageSearch.CollectCallCounts | backend/app/image_search.py:161-175 | each call asks for 1 to 3 images, and there are at most two calls per query. Each Pexels call directly follows an Unsplash call for the same query and asks for no more than it |
| ImageSearch.CollectWithEmptyBackends | backend/app/image_search.py:161-181 | with back-ends that return nothing, the loop adds nothing |
| ImageSearch.NothingFoundWhenBackendsEmpty | backend/app/image_search.py:188-196 | with two back-ends that return nothing, the result is the empty list |
| ImageSearch.GetImageForLocation | backend/app/image_search.py:258-282 | the first Unsplash result for "<city> <type> travel", else the first Pexels result, else "" |
| ImageSearch.Utf8 | backend/app/image_search.py:473 | a character encodes to 1, 2, 3 or 4 bytes as its code point is below U+0080, U+0800, U+10000 or not; the lead byte announces the length and the other bytes are continuation bytes |
| ImageSearch.Utf8RoundTrip | backend/app/image_search.py:473 | decoding the bytes gives the code point back, so the encoding is UTF-8's |
| ImageSearch.Utf8OfZhong | backend/app/image_search.py:473 | "中" (U+4E2D) encodes to E4 B8 AD |
| ImageSearch.PercentEncode | backend/app/image_search.py:473 | each byte becomes three URL-safe characters |
| ImageSearch.PercentEncodeAt | backend/app/image_search.py:473 | byte `k` becomes characters `3k` to `3k + 2`: `%`, its upper-case high nibble, its upper-case low nibble |
| ImageSearch.Quote | backend/app/image_search.py:473 | `quote` produces only safe characters and `%` escapes, and leaves text made only of safe characters unchanged |
| ImageSearch.QuoteAppend | backend/app/image_search.py:473 | quoting works character by character: `Quote(a + b) == Quote(a) + Quote(b)` |
| ImageSearch.QuoteOfZhong | backend/app/image_search.py:473 | an unsafe character becomes the escapes of its UTF-8 bytes: "中" is quoted as "%E4%B8%AD" |
| ImageSearch.GetPlaceholderImages | backend/app/image_search.py:462-484 | exactly `count` URLs (none for a negative count); URL `i` uses colour `i % 5` and the quoted first 20 characters of the text |
| ImageSearch.PlaceholderColorsDistinct | backend/app/image_search.py:477-482 | placeholders of different colours are different URLs |
| Agent.SecondPart | backend/app/agent.py:441 | `split(sep)[1]` is the part after the first `sep` up to the second `sep` (or to the end): a prefix of that text holding no `sep`, followed by `sep` exactly when it stops short; strictly shorter than the text |
| Agent.BraceSlice | backend/app/agent.py:449-454 | with both braces, the slice runs from the first `{` through the last `}` (empty when the last `}` comes first); otherwise the text is unchanged |
| Agent.JsonFenceBody | backend/app/agent.py:439-441 | when the text after the first ```json fence contains no second one, the candidate is that text up to the next ``` fence, stripped |
| Agent.DecodeAgentOutput | backend/app/agent.py:456-504 | invalid JSON is rejected as such; a missing `overview` or `dailyPlans` is rejected with the missing-fields error; success exactly when both keys exist and the itinerary builds |
| Agent.FindPexels | backend/app/agent.py:638 | the leftmost match of `/photos/(\d+)/`, or −1 when there is none |
| Agent.FindUnsplash | backend/app/agent.py:643 | the leftmost match of `/photo-([a-zA-Z0-9-]+)`, or −1 when there is none |
| Agent.PexelsDigits | backend/app/agent.py:638-640 | the Pexels capture is a non-empty run of digits |
| Agent.UnsplashCapture | backend/app/agent.py:643-645 | the Unsplash capture is a non-empty run of `[a-zA-Z0-9-]` |
| Agent.ExtractImageId | backend/app/agent.py:633-648 | `pexels_<digits>` when the Pexels pattern matches (taking precedence), else `unsplash_<id>`, else the URL itself |
| Agent.PlainUrlsKeepTheirIdentity | backend/app/agent.py:647-648 | two URLs matching neither pattern share an id exactly when they are equal |
| Agent.PexelsIdOf | backend/app/agent.py:637-640 | a URL whose first "/photos/" is followed by digits and "/" has the id `pexels_` plus those digits |
| Agent.PexelsSizesShareId | backend/app/agent.py:637-640 | two URLs of the same Pexels photo (say two sizes) share an id |
| Agent.DigitRuns | backend/app/agent.py:657 | every run found is a non-empty digit run, and none is found exactly when the text has no digit |
| Agent.DigitRunFoundWhole | backend/app/agent.py:657 | a digit run on its own is found whole, as one number |
| Agent.DigitRunsSplit | backend/app/agent.py:657 | a non-digit separates runs: the runs of `a + [c] + b` are the runs of `a` followed by those of `b`, none dropped, merged or cut |
| Agent.Amounts | backend/app/agent.py:660 | one amount per run, each the run's decimal value |
| Agent.EstimateBudget | backend/app/agent.py:650-662 | an empty budget gives 2000·days·travelers; digits give the mean of the amounts; a text without digits gives 2000·days |
| Agent.MeanBounded | backend/app/agent.py:660 | a mean lies between the smallest and the largest amount |
| Agent.EstimateIsMeanOfAmounts | backend/app/agent.py:657-661 | when the budget names amounts, the estimate lies between the smallest and largest of them, whatever the days and travelers |
| Agent.BudgetWithoutAmountsIgnoresTravelers | backend/app/agent.py:662 | a non-empty budget without digits gives 2000·days for any number of travelers |
| Agent.ClassifyActivity | backend/app/agent.py:566-576 | one of 美食, 博物馆, 公园, 购物, 景点. Each is stated as an if-and-only-if. 美食 exactly when the title names 餐/吃/美食. 博物馆 exactly when it does not but names 博物/寺/庙. 公园 exactly when neither holds but it names 公园/花园. 购物 exactly when none of those holds but it names 购物/商场. 景点 exactly when none of the ten keywords occurs |
| Agent.ClassificationFollowsPriority | backend/app/agent.py:566-576 | the category is the first row of the keyword table (food, museum, park, shopping) whose words occur in the title, else 景点 |
| Agent.ClassifiedCategoryIsKept | backend/app/agent.py:583-587 | the image search keeps the category the agent passes on, whatever the activity name |
| Agent.AssignActivitiesUnique | backend/app/agent.py:589-602 | within a day no id appears twice, no kept image has an id used before, and the used ids grow by exactly the kept images' ids |
| Agent.AssignDaysUnique | backend/app/agent.py:555-602 | the same across all days, sharing one set of used ids |
| Agent.AddImagesGloballyUnique | backend/app/agent.py:523 | after the images are added, no image id appears twice anywhere in the itinerary |
| Agent.AssignActivitiesShape | backend/app/agent.py:590-620 | the activities keep their number and every field but `images`. Each activity's images are an order-preserving subsequence of what was fetched for it, and empty when the fetch raised |
| Agent.AssignDaysShape | backend/app/agent.py:555-620 | the days keep their number, their activity counts and every field but `activities`. Every activity of every day keeps every field but `images`, and gets an order-preserving subsequence of its fetch, empty when that fetch raised |
| Agent.AddImagesShape | backend/app/agent.py:508-631 | the same over the returned itinerary: only `dailyPlans` changes, and every activity's images are a subsequence of its own fetch, empty when it raised |
| Agent.SearchFetcherAtMostThree | backend/app/agent.py:583-604 | with the image search of the running system as the fetcher, no activity ends up with more than three images |
| Agent.ClearedActivitiesAssignAlike | backend/app/agent.py:529-534 | the images the language model produced play no part: assigning after clearing gives the same activities and used ids |
| Agent.ClearedDaysAssignAlike | backend/app/agent.py:529-534 | the same over all days |
| Agent.KeepUnusedImages | backend/app/agent.py:590-602 | the de-duplication loop keeps, in order, each image whose id is unused and marks it used; the used set grows by exactly the kept ids |
| Agent.AssignActivity | backend/app/agent.py:565-620 | one activity gets the fetched images with unused ids (none when the fetch raised) and nothing else changes |
| Agent.AssignDay | backend/app/agent.py:561-620 | the loop over a day's activities equals the specification of one day's assignment, including the used ids it leaves |
| Agent.ClearDay | backend/app/agent.py:530-534 | a day's non-empty image lists are emptied, and the count is the number of activities that had images |
| Agent.ClearItinerary | backend/app/agent.py:528-534 | the first pass empties every non-empty image list in the itinerary and counts them |
| Agent.FillDays | backend/app/agent.py:555-620 | the second pass equals the assignment over all days starting from no used ids |
| Agent.AddImagesToItinerary | backend/app/agent.py:508-631 | the itinerary gets its images and returns with no repeated image id, and the count is the number of activities whose model-made images were cleared. Days and activities keep their number, and each activity gets a subsequence of its fetch, empty when it raised |
| Agent.ParseAgentOutput | backend/app/agent.py:428-504 | a decoding failure is returned as that error; otherwise the decoded itinerary with its images, searched for the request's destination |
| CleanDuplicates.Users | backend/clean_duplicates.py:14 | the distinct user ids: every user with a record, once each |
| CleanDuplicates.SortPermutes | backend/clean_duplicates.py:22-25 | the per-user ordering is a permutation of the user's records |
| CleanDuplicates.SortIsNewestFirst | backend/clean_duplicates.py:24 | the per-user ordering is by `created_at` descending |
| CleanDuplicates.RecordsOfMembers | backend/clean_duplicates.py:22-25 | a user's query returns exactly that user's records, newest first, without repeats |
| CleanDuplicates.GroupRecords | backend/clean_duplicates.py:27-33 | the `groups` dict has one entry per distinct trip key, in order of first appearance, holding that key's records in query order |
| CleanDuplicates.GroupKeysMembers | backend/clean_duplicates.py:28-33 | the dict's keys are the keys of the records, each once |
| CleanDuplicates.QueueSurplus | backend/clean_duplicates.py:36-49 | the deletion loop queues every record of each group but its first, group by group |
| CleanDuplicates.FindSurplus | backend/clean_duplicates.py:27-49 | one user's pass queues the surplus of the grouped records |
| CleanDuplicates.CleanDuplicateRecords | backend/clean_duplicates.py:10-61 | `total_deleted` is the number of records deleted. With nothing to delete nothing changes. Otherwise the deletions are committed exactly when the answer lower-cases to "yes", and rolled back if not |
| CleanDuplicates.SurplusMembers | backend/clean_duplicates.py:36-43 | a record is queued exactly when its key is among the groups and it is in its group's tail |
| CleanDuplicates.GroupHead | backend/clean_duplicates.py:41 | a group's first record is the first record in query order with that key |
| CleanDuplicates.DeletedIffPreceded | backend/clean_duplicates.py:36-49 | a record is deleted exactly when an earlier (no older) record of the same user has the same destination and days |
| CleanDuplicates.FirstOfTripStays | backend/clean_duplicates.py:41 | the first record of a trip in query order is kept |
| CleanDuplicates.NewestOfTripStays | backend/clean_duplicates.py:41 | for every record a record of its trip is kept that is no older than it |
| CleanDuplicates.OneOfTripStays | backend/clean_duplicates.py:40-48 | no two kept records of one user share a trip |
| CleanDuplicates.SingleOfTripStays | backend/clean_duplicates.py:37 | the only record of a trip is kept |
| CleanDuplicates.AllSurplusMembers | backend/clean_duplicates.py:18-33 | a record is deleted by the loop over users exactly when its own user's pass deletes it |
| CleanDuplicates.DeletedMembers | backend/clean_duplicates.py:18-25 | records of different users are never compared: deletion of a table row is decided by its own user's records alone |
| CleanDuplicates.SurvivorMembers | backend/clean_duplicates.py:52-55 | after a commit, the rows left are exactly those their user's pass does not delete |
| CleanDuplicates.KeepsTheNewest | backend/clean_duplicates.py:40-41 | after a commit every trip of every user keeps a row, and it is no older than any row of that trip |
| CleanDuplicates.KeepsOnlyOne | backend/clean_duplicates.py:40-48 | after a commit no trip of any user has two rows |
| CleanDuplicates.SingleRowsStay | backend/clean_duplicates.py:37 | a trip with a single row is never touched |
| CleanDuplicates.UserSurplusSize | backend/clean_duplicates.py:36-49 | one user's pass deletes the number of that user's records minus the number of distinct trips |
| CleanDuplicates.DeletedCount | backend/clean_duplicates.py:46-49 | `total_deleted` is the number of records minus the number of distinct (user, destination, days) trips |
| DebugImages.BucketPriority | backend/debug_images.py:47-61 | the first test wins: a picsum URL counts as picsum even when it also names an Unsplash host; "other" only when none of the five hosts occurs |
| DebugImages.BucketImages | backend/debug_images.py:43-61 | the innermost loop adds one to the bucket of each image, as the specification of the counters does |
| DebugImages.CountDayActivities | backend/debug_images.py:32-61 | the loop over a day's activities matches the specification of the counters |
| DebugImages.AuditImages | backend/debug_images.py:28-61 | the script's counters, or none when it stops on a `KeyError` |
| DebugImages.CountImagesAdds | backend/debug_images.py:43-61 | counting a list of images adds, per bucket, exactly the number of its images in that bucket |
| DebugImages.CountActivitiesAdds | backend/debug_images.py:32-61 | counting activities adds their number, the number with images, and their images per bucket |
| DebugImages.CountDaysAdds | backend/debug_images.py:28-61 | over readable days, the counters add the days' activities and images |
| DebugImages.CountDaysFails | backend/debug_images.py:29 | counting stops exactly when some day lacks `day` or `title` |
| DebugImages.AuditStops | backend/debug_images.py:29 | the audit stops exactly when some day lacks `day` or `title` |
| DebugImages.AuditCounts | backend/debug_images.py:20-61 | every activity is counted; those with images are counted and never exceed the total; each bucket holds exactly its URLs, and the buckets add up to all images seen |
| DebugImages.BucketsPartition | backend/debug_images.py:46-61 | every URL falls in exactly one bucket, so the five bucket sizes add up to the number of URLs |
| DebugImages.WarningFromCounts | backend/debug_images.py:79 | the warning is printed exactly when some image seen is a picsum or placeholder image |
| Tools.GetPlaceImages | backend/app/tools.py:92-121 | Unsplash is asked for `count`. Pexels is asked exactly when Unsplash returned fewer, and for exactly the shortfall. The result has at most `count` URLs, and is empty when neither returned anything |
| Tools.PlaceImagesOrder | backend/app/tools.py:109-121 | Unsplash's results come first; Pexels only fills the places Unsplash left |
| Tools.GetWeatherInfo | backend/app/tools.py:124-157 | the service is asked only with a key. A 200 reply with a temperature and a description gives the report; everything else gives the fixed fallback sentence for the city |
| Tools.ReportIsNotFallback | backend/app/tools.py:152-157 | a report never equals the fallback sentence |
| Models.MakeRequest | backend/app/models.py:5-13 | every field of an accepted request is the value the client gave (an explicit `null` included) or, when omitted, its default (我的周末旅行, "", 2, "", 2, [], ""). A request is rejected exactly when it gives days outside 1..5 or travelers below 1, and an accepted one satisfies the bounds |
| Models.DefaultsAreValid | backend/app/models.py:7-13 | the defaults satisfy the bounds, and an empty request gives them |
| Models.EmptyDestinationAccepted | backend/app/models.py:8 | no bound is placed on the destination: an empty one is accepted |
| ResultPage.ValidUrlHosts | frontend/app/result/page.tsx:60-67 | a URL is valid exactly when it parses to one of the three allowed hostnames; subdomains, other hosts and unparsable URLs fail |
| ResultPage.FilterValidImagesProperties | frontend/app/result/page.tsx:70-73 | a missing or empty list gives []. Otherwise the result is an order-preserving subsequence holding exactly the valid URLs given, and filtering it again changes nothing |
| ResultPage.CleanActivitiesShape | frontend/app/result/page.tsx:92-95 | every activity is kept, with its images replaced by their filtered list |
| ResultPage.CleanDaysShape | frontend/app/result/page.tsx:90-96 | every day is kept, with its activities replaced by their cleaned list |
| ResultPage.CleanedActivities | frontend/app/result/page.tsx:92-95 | activities keep their number and every field but `images`, which holds exactly the valid URLs the activity had |
| ResultPage.CleanSavedPlansShape | frontend/app/result/page.tsx:89-97 | data with `dailyPlans` keeps its days and every field but `activities`; data without it is unchanged |
| ResultPage.SliceColorsCycle | frontend/app/result/page.tsx:194 | slice colours repeat every six slices and neighbouring slices differ |
| ResultPage.ShownImages | frontend/app/result/page.tsx:255-257 | an activity card shows at most four images: the first four of its list, all of a shorter list, none of a missing list |
| HomePage.InitialSubmitDisabled | frontend/app/page.tsx:270 | submit is disabled when the page opens, since the destination is empty |
| HomePage.ToggleEffect | frontend/app/page.tsx:73-80 | only `preferences` changes. A present value disappears with all its copies and the rest keep their order; an absent value is appended |
| HomePage.ToggleTwiceRestores | frontend/app/page.tsx:76-78 | toggling an absent value twice gives the form back |
| HomePage.LoadPresetEffect | frontend/app/page.tsx:89-97 | a preset overwrites exactly destination, days, budget and preferences, and keeps the name, travelers and extra requirements; a later preset replaces it entirely |
| HomePage.PresetLightsNoButton | frontend/app/page.tsx:23-58 | as written, loading any preset lights no preference button, although each card lists labels that have buttons |
| HomePage.Presets | frontend/app/page.tsx:23-48 | there is one corrected card per preset card |
| HomePage.CorrectedPresetValues | frontend/app/page.tsx:50-58 | the corrected cards carry the button values food; outdoor, food; culture, shopping |
| HomePage.LightsFirstPreset | frontend/app/page.tsx:50-58 | ["food"] lights exactly the 美食 button |
| HomePage.LightsSecondPreset | frontend/app/page.tsx:50-58 | ["outdoor", "food"] lights exactly the 户外 and 美食 buttons |
| HomePage.LightsThirdPreset | frontend/app/page.tsx:50-58 | ["culture", "shopping"] lights exactly the 文化 and 购物 buttons |
| HomePage.CorrectedPresetLightsItsButtons | frontend/app/page.tsx:238-244 | with the corrected cards, a preset lights exactly the buttons whose labels the card lists, and enables submit |
| ForgotPassword.TimerAfterValue | frontend/app/forgot-password/page.tsx:29-34 | the countdown drops by one per tick and stops at zero: after n ticks it is max(t − n, 0) |
| ForgotPassword.ResendWaitsSixtyTicks | frontend/app/forgot-password/page.tsx:29-34 | from 60 the countdown is still running after 59 ticks and has reached zero after 60 |
| ForgotPassword.SendFailureMessage | frontend/app/forgot-password/page.tsx:52 | a failed send shows the error's message, or the default when it has none; never an empty text |
| ForgotPassword.ResetErrorOrder | frontend/app/forgot-password/page.tsx:64-77 | the reset goes ahead exactly when all three checks pass; a mismatch is reported first, then a short password |
| ForgotPassword.ClassifyResetErrorCases | frontend/app/forgot-password/page.tsx:91-97 | a message naming 验证码/无效/过期 becomes the code-problem text. Any other message is shown unchanged, and no message gives the default. Classifying again keeps the result |
| ForgotPassword.DefaultIsNoCodeProblem | frontend/app/forgot-password/page.tsx:91 | the default failure text is not itself a code problem |
| ForgotPassword.ResetPasswordPage.constructor | frontend/app/forgot-password/page.tsx:16-25 | the page opens with empty fields and messages, nothing loading or sending, countdown 0 and no code sent |
| ForgotPassword.ResetPasswordPage.Edit | frontend/app/forgot-password/page.tsx:16-19 | typing changes the four inputs and nothing else |
| ForgotPassword.ResetPasswordPage.BeginSendCode | frontend/app/forgot-password/page.tsx:37-47 | an empty email sets the error and makes no call; otherwise sending starts, the error is cleared and the code is requested |
| ForgotPassword.ResetPasswordPage.FinishSendCode | frontend/app/forgot-password/page.tsx:46-55 | success reports it, starts the 60 s countdown and marks the code sent; failure shows the message; sending always ends |
| ForgotPassword.ResetPasswordPage.HandleSendResetCode | frontend/app/forgot-password/page.tsx:37-56 | the whole send handler: an empty email makes no call; otherwise exactly one request. Success starts the countdown and hides the send button (rendered only while no code is sent, page.tsx:133), so the countdown never shows on it. Failure shows the error, and the countdown stays within 0..60 |
| ForgotPassword.ResetPasswordPage.Tick | frontend/app/forgot-password/page.tsx:29-34 | one tick lowers a running countdown by one and changes nothing else |
| ForgotPassword.ResetPasswordPage.BeginReset | frontend/app/forgot-password/page.tsx:59-82 | both messages are cleared. The first failing check sets the error with no call; otherwise loading starts and the reset is requested |
| ForgotPassword.ResetPasswordPage.FinishReset | frontend/app/forgot-password/page.tsx:82-101 | success reports it and keeps loading; failure shows the classified error and stops loading |
| ForgotPassword.ResetPasswordPage.HandleResetPassword | frontend/app/forgot-password/page.tsx:59-102 | the whole reset handler: the three outcomes (a failed check, success, failure) and the new state of each |
| Register.RegisterErrorOrder | frontend/app/register/page.tsx:27-35 | registration goes ahead exactly when both checks pass; a short password is reported before a mismatch |
| Register.ChecksRunInOppositeOrders | frontend/app/register/page.tsx:27-35 | a short, mismatched password is a length error here and a mismatch error on the reset page |
| Register.RegisterPage.constructor | frontend/app/register/page.tsx:16-20 | the page opens with empty fields, no error and nothing loading |
| Register.RegisterPage.Edit | frontend/app/register/page.tsx:16-18 | typing changes the three inputs and nothing else |
| Register.RegisterPage.BeginSubmit | frontend/app/register/page.tsx:22-40 | the error is cleared first. A failing check sets it with no call; otherwise loading starts and `register` is called |
| Register.RegisterPage.FinishSubmit | frontend/app/register/page.tsx:45-48 | failure shows the thrown message and stops loading; success changes nothing |
| Register.RegisterPage.HandleSubmit | frontend/app/register/page.tsx:22-49 | the whole submit handler: the three outcomes and the new state of each |
| Seqs.DedupByProperties | backend/app/agent.py:590-602 | de-duplication by key keeps, in order, elements whose keys are new and pairwise distinct. Every key offered ends up seen, and of the elements sharing a new key the first is kept |
| Seqs.DedupByKeepsFirst | backend/app/agent.py:597-602 | the first element with a key that is not yet used is kept |
| Seqs.DedupBySnoc | backend/app/agent.py:597-602 | offering one more element appends it exactly when its key is neither used nor the key of an earlier element |
| Seqs.Dedup | backend/app/image_search.py:184 | `dict.fromkeys`: no duplicates, the same elements, and order kept |
| Seqs.DedupSnoc | backend/app/image_search.py:184 | the insertion law of `dict.fromkeys`: a new element goes to the end and a repeated one changes nothing, which fixes first-occurrence order |
| Seqs.FilterMembers | frontend/app/result/page.tsx:72 | `filter` keeps exactly the elements satisfying the test |
| Seqs.FilterIdempotent | frontend/app/result/page.tsx:72 | filtering twice is filtering once |
| Text.TrimLeft | backend/app/image_search.py:70 | `strip` removes exactly the leading whitespace |
| Text.TrimRight | backend/app/image_search.py:70 | `strip` removes exactly the trailing whitespace |
| Text.IndexFrom | backend/app/agent.py:449 | `find`: the first occurrence at or after a position, or −1 |
| Text.LastIndexOfChar | backend/app/agent.py:450 | `rfind`: the last occurrence of a character, or −1 |
| Text.Before | backend/app/agent.py:441 | `split(sep)[0]`: the longest prefix without `sep`, which ends where the first `sep` starts |
| Text.After | backend/app/agent.py:441 | the text after the first `sep` |
| Text.AsciiLower | backend/clean_duplicates.py:54 | lower-casing changes exactly the upper-case ASCII letters |
| Text.Utf16Length | frontend/app/forgot-password/page.tsx:69 | JavaScript's `.length`: a single character counts 2 at or above U+10000 and 1 otherwise; between one and two code units per character |
| Text.Utf16LengthAppend | frontend/app/forgot-password/page.tsx:69 | code units add up over a concatenation |
| Text.ThreeAstralCharactersAreSix | frontend/app/register/page.tsx:27 | three characters outside the Basic Multilingual Plane count 6 and so pass the 6-unit length check |

## Left out

- The frontend has no polling, cancellation or share-link workflow: `frontend/app/plan/page.tsx:106-138` plays timed progress steps, makes one POST request and navigates away. That page is not part of this model.

- The search back-ends, the image fetcher as the agent sees it, the URL parser, `json.loads` and the pydantic constructor, the weather service and the authentication calls are parameters. Their HTTP bodies, keys and rate limits are not modelled, and nothing is assumed about how many results a back-end returns.
- Logging and `print` output are left out. The cleared-image messages of `_add_images_to_itinerary` and the audit's per-image lines are examples.
- Python's `re` is replaced by explicit scans:
  - the prefix patterns become literal prefixes with an optional `:`/`：`;
  - the shop-suffix pattern becomes a bracket scan;
  - the image-id patterns become leftmost-match searches.
  `re.IGNORECASE` and `activity_name.lower()` are dropped because every keyword is Chinese text without case, so lower-casing cannot create or destroy a match.
- Text.IsDigit: `\d` is modelled as ASCII and full-width digits only; other Unicode decimal digits are not.
- Agent.EstimateBudget: the mean is an exact `real`, not an IEEE double.
- Agent.DecodeAgentOutput: a candidate that parses to JSON other than an object is treated like invalid JSON. The source goes on to the key check and fails with the "Failed to create TravelItinerary" error instead. Both are failures.
- Agent.ParseAgentOutput: a missing request destination searches with the empty city. The source behaves the same, since `if loc:` treats `None` like "".
- The agent's prompt, language-model calls and `generate_itinerary` are not part of this model.
- Mutation in place is modelled as rebuilt sequences. The agent's activities, the dicts of the cleanup and the counters of the audit are copied, not aliased.
- CleanDuplicates.CleanDuplicateRecords has several gaps:
  - The order of `SELECT DISTINCT user_id` is unspecified in SQL; the model takes first appearance. Which records are deleted does not depend on it.
  - Records created at the same instant keep their table order, since the sort is stable. The database may order such ties differently.
  - Exceptions and the `finally`/rollback path are not modelled.
  - `input()` is the `answer` parameter, and `lower()` is ASCII lower-casing. No other character lower-cases to y, e or s, so the comparison with "yes" agrees.
- DebugImages.AuditImages: a JSON `null` for `dailyPlans` or `activities` would make the script raise; the model only covers absence. A `null` `images` list counts as no images, as in the script.
- ResultPage: `JSON.parse`, `localStorage`, the redirect when no data is saved and all rendering are left out. Pie-chart percentages are left out too.
- HomePage: `handleSubmit` (`localStorage` and navigation), the other inputs' `onChange` handlers and the `parseInt` of days and travelers are left out.
- ForgotPassword and Register: each handler is split at its `await`; the whole handlers assume the call settles before another event.
  - Timers other than the one-second countdown tick are not modelled, namely the 2 s and 100 ms redirects.
  - Navigation, the show-password toggle and rendering are not modelled.
  - An error without a `message` is modelled as the empty message. On the register page the source would then set `error` to `undefined`.
- Tools.GetWeatherInfo: the temperature is taken as already formatted text; Python's `str()` of a float is not modelled. A reply lacking `main.temp` or `weather[0].description` raises in the source and ends in the fallback, as modelled.
- Models.MakeRequest: pydantic's type coercion and its error messages are not modelled; only the defaults and the numeric bounds are.
- The history, login and plan pages, the API and auth client code, the database, auth, email and PDF modules, and the test scripts are not part of this model.

## Findings

| source | as written | input that shows it | evidently intended | confidence | as-written member | corrected member |
|---|---|---|---|---|---|---|
| frontend/app/page.tsx:29-45 | preset cards list preferences by their Chinese labels ("美食", "户外", "文化", "购物"), while the buttons test `preferences.includes(pref.value)` with English values ("food", ...) | loading "上海2天美食之旅" sets `preferences` to ["美食"], and the 美食 button (value "food") stays unlit | presets carry button values, so loading one lights the buttons it names | not executed | HomePage.PresetLightsNoButton | HomePage.CorrectedPresetLightsItsButtons |
