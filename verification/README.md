# Blinkboard list, cart, form and chart logic in Dafny

Blinkboard is a Next.js dashboard for "blinks": cards with a name, a
description and like/share/view counters. Under its JSX there is a small layer
of state logic that several pages repeat. This project models that layer as
pure functions over immutable records and proves what it promises.

- **List pages.** The blinkboard overview, the blink section component, the
  home page and the dashboard page all do the same things:
  - case-insensitive search on name (or title) and description;
  - a stable sort by likes, ascending or descending;
  - three cards per page, with a "Load More" button;
  - creating a blink, either by putting it in front or by appending it in the
    mock store;
  - marking all notifications read.
- **Mock data layer.** `createBlink`, `searchBlinks`,
  `markNotificationsAsRead`, `createBlinkFromTemplate` and the key set of
  `fetchTokenPrices`.
- **Commerce cart.** Add-or-increment, remove by id, the total price,
  checkout, and order pagination.
- **Forms.** The payments, gift, staking, NFT and swap forms: validity, what a
  submit clears and keeps, mode toggles, pool lookup, the token switch, and
  each page's 1-based pagination.
- **Charts.** The blink-creation charts: total, rounded average, the
  half-split trend, the first-to-last trend sign, and the period label.
- **Small mappers.** Stat-card sign and colour, leaderboard rank badge and
  change icon, leaderboard retry and selection state, and the sidebar's
  active-link predicates, collapse toggle and theme toggle.

Shared modules:

- `Text`: ASCII `toLowerCase`, `includes`, JavaScript `trim`, and decimal
  numerals.
- `Amount`: the decimal-literal grammar of `parseFloat` and `parseInt`, exact
  enough to decide `parseFloat(x) > 0`.
- `Seqs`: `filter` and `slice`.
- `Paging`: 0-based and 1-based page slices and `Math.ceil` page counts.
- `Sorting`: a stable insertion sort by an integer key.
- `Series`: the chart sum and `Math.round` average.
- `Blinks`: the records and the shared search and mark-read code.
- `BlinkList`: the sorted, paged card list.

Each page has its own module, named after the page.

Four behaviours of the code worth knowing:

- **Page numbers are never clamped.** `loadMore` only increments the page,
  and a page past the end shows nothing (`Paging.PageBeyondLastIsEmpty`,
  `BlinkList.Visible`).
- **Creating a blink does not reset the page.** Under the default descending
  order, a new blink with 0 likes is sorted last, not first
  (`Blinkboard.CreatedBlinkLastWhenDescending`).
- **Search differs by page.**
  - The blinkboard overview searches the current list, so the list only
    shrinks (`Blinkboard.ClearingSearchRestoresNothing`).
  - The blink section and the home page search their fixed seed lists.
  - The dashboard page ignores an empty term instead of resetting.
- **The home page's search effect never settles.** It depends on the
  payload object, and every write of the payload, its own included, builds
  a new object. So it runs again after each of its runs, after every create
  and after every "mark all as read". Each run resets the list from the mock
  blinks, so a created blink disappears at once.

## Model

| member | source | states |
|---|---|---|
| Text.LowerIsIdempotent | app/blinkboard/page.tsx:181-182 | after `toLowerCase` no upper-case ASCII letter is left, and lower-casing again changes nothing |
| Text.ContainsIffOccurs | app/blinkboard/page.tsx:181-182 | `includes` holds exactly when the needle occurs at some index of the haystack |
| Text.ContainsEmpty | app/blinkboard/page.tsx:181-182 | every string includes the empty string |
| Text.TrimStart | app/blinkboard/pages/payments/page.tsx:56 | `parseFloat` skips a leading run of JavaScript white space: the rest is a suffix that does not start with white space, and everything dropped is white space |
| Text.TrimEnd | app/blinkboard/assets/nft.tsx:48 | the trailing white space is dropped: the result is a prefix that does not end with white space |
| Text.TrimEmptyIffBlank | app/blinkboard/assets/nft.tsx:48 | `trim()` is empty exactly when the string is empty or all white space |
| Text.NatToString | app/blinkboard/page.tsx:163 | `(n).toString()` is a non-empty digit string with no leading zero unless n is 0 |
| Text.NatToStringRoundTrip | app/blinkboard/page.tsx:163 | the decimal id string reads back as the number it was made from |
| Text.NatToStringInjective | app/blinkboard/page.tsx:163 | two numbers give the same id string exactly when they are equal |
| Amount.PositiveFieldIsParse | app/blinkboard/pages/payments/page.tsx:56 | `amount && parseFloat(amount) > 0` is the parse test alone, because the empty string parses to NaN |
| Amount.PositiveField | app/blinkboard/pages/payments/page.tsx:56 | an amount that passes `amount && parseFloat(amount) > 0` is filled and does not start with "-" |
| Amount.ParseFloat | app/blinkboard/pages/payments/page.tsx:56 | empty or all-space text parses to NaN |
| Amount.EmptyIsNotPositive | app/blinkboard/pages/payments/page.tsx:56 | `parseFloat("")` is NaN and not positive |
| Amount.NoLiteralIsNaN | app/pages/swap/page.tsx:47 | text that does not start with space, a sign, a digit, a point or "Infinity" parses to NaN |
| Amount.MinusIsNotPositive | app/blinkboard/pages/payments/page.tsx:56 | an amount typed with a leading minus is never accepted |
| Amount.ParseNatString | app/blinkboard/pages/payments/page.tsx:56 | a whole-number amount parses to exactly that number and is accepted iff it is not 0 |
| Amount.NegatedIsNotPositive | app/blinkboard/pages/payments/page.tsx:56 | "-n" is never accepted |
| Amount.ZeroWithFractionIsNotPositive | app/blinkboard/pages/payments/page.tsx:56 | zeros with a point and more zeros ("0.00", ".0") parse to zero and are rejected |
| Amount.TrailingGarbageIsIgnored | app/blinkboard/pages/payments/page.tsx:56 | digits followed by anything that cannot continue a literal ("12abc") parse as the digits alone |
| Amount.ParseInt | app/blinkboard/pages/staking/page.tsx:74 | empty or all-space text gives NaN (no number) |
| Amount.ParseIntNatString | app/blinkboard/pages/staking/page.tsx:74 | `parseInt` of a decimal option value gives back its number |
| Amount.ParseIntNeedsDigits | app/blinkboard/pages/staking/page.tsx:74 | text without any digit makes `parseInt` fail (NaN) |
| Seqs.Filter | app/blinkboard/page.tsx:180-183 | `filter` keeps exactly the elements satisfying the test, in their original order, and no more than the input |
| Seqs.FilterPartitions | app/blinkboard/page.tsx:180-183 | what a filter keeps plus what it drops is the input, as a multiset |
| Paging.TotalPages | app/blinkboard/pages/payments/page.tsx:36 | `Math.ceil(n / size)` is the fewest pages of `size` that hold n items |
| Paging.PageFromZero | app/blinkboard/page.tsx:202 | page p holds at most `size` items, the items from index `p*size` on, and is empty exactly when `p*size >= n` |
| Paging.PageFromOne | app/blinkboard/pages/payments/page.tsx:37 | 1-based page p is 0-based page p-1 |
| Paging.PagesInRange | app/blinkboard/pages/payments/page.tsx:36-37 | every page from 1 to the page count is non-empty and holds at most `size` items |
| Paging.PageBeyondLastIsEmpty | app/blinkboard/pages/payments/page.tsx:37 | a page number past the page count gives an empty slice: nothing is clamped |
| Paging.FirstPagesArePrefix | app/pages/gift/page.tsx:40-41 | the first m pages, concatenated, are the list's first `min(m*size, n)` items |
| Paging.LastPageIsSlice | app/blinkboard/page.tsx:202 | a page is the list slice between the two clamped bounds |
| Paging.PagesPartition | app/pages/gift/page.tsx:40-41 | the pages 1..count, concatenated, are the whole list in order, each of at most `size` items |
| Sorting.Toggle | app/blinkboard/page.tsx:517 | the sort button always changes the order |
| Sorting.ToggleTwice | app/blinkboard/page.tsx:517 | pressing the sort button twice gives the original order back |
| Sorting.SortBy | app/blinkboard/page.tsx:198-200 | the sort is a permutation, ordered by the key in the chosen direction |
| Sorting.SortIsStable | app/blinkboard/page.tsx:198-200 | within every key, the sorted list keeps the original relative order |
| Series.TotalAppend | components/dashboard/blink-creation-overtime.tsx:86 | the total over two adjacent runs is the sum of their totals |
| Series.TotalNonNegative | components/dashboard/blink-creation-overtime.tsx:86 | a series of non-negative counts never totals below 0 |
| Series.RoundDiv | components/dashboard/blink-creation-overtime.tsx:89 | `Math.round(total / n)` is the integer nearest to the quotient, with halves rounded up |
| Series.Average | components/dashboard/blink-creation-overtime.tsx:88-90 | the average is 0 for an empty series and otherwise the nearest integer to total / length |
| Series.PeriodLabel | components/dashboard/blink-creation-overtime.tsx:158 | "week" exactly for "1m", "quarter" exactly for "1y", "month" otherwise |
| Blinks.EmptyTermMatches | app/blinkboard/page.tsx:180-183 | the empty search term matches every blink |
| Blinks.NameMatchesItself | lib/dummy-api.ts:82-85 | a blink is found by a search for its own name |
| Blinks.OrDefault | lib/dummy-api.ts:69-70 | `value \|\| fallback` gives the fallback for a missing or empty string and the value otherwise |
| Blinks.Fresh | app/blinkboard/page.tsx:162-172 | a created blink has id `n+1`, name "New Blink n+1" and zero counters |
| Blinks.SequentialIsUnique | lib/dummy-api.ts:7-11 | ids numbered by position never repeat |
| Blinks.SearchKeepsExactlyMatches | app/blinkboard/page.tsx:180-184 | search keeps exactly the matching blinks, in order, and loses nothing it does not drop |
| Blinks.SearchCounts | app/blinkboard/page.tsx:180-184 | search keeps every copy of a matching blink and no copy of any other |
| Blinks.SearchEmptyKeepsAll | app/blinkboard/page.tsx:180-184 | searching for the empty term keeps the whole list |
| Blinks.SearchIdempotent | app/blinkboard/page.tsx:180-184 | searching the result again for the same term changes nothing |
| Blinks.SearchTwice | app/blinkboard/page.tsx:180-184 | two searches in a row keep what matches both terms, whichever runs first |
| Blinks.MarkAllRead | app/blinkboard/page.tsx:208-210 | every notification is read afterwards, with its id and message and the count unchanged |
| Blinks.MarkAllReadIdempotent | app/blinkboard/page.tsx:208-210 | marking twice is marking once |
| Blinks.MarkAllReadClearsDot | app/blinkboard/page.tsx:229 | after marking, the bell's dot is gone, and marking a list with nothing unread changes nothing |
| BlinkList.Sorted | app/blinkboard/page.tsx:198-200 | the sorted cards are a permutation of the blinks, ordered by likes |
| BlinkList.SortedIsStable | app/blinkboard/page.tsx:198-200 | blinks with equal likes keep their relative order |
| BlinkList.ZeroLikesInFrontSortsFirst | app/blinkboard/page.tsx:198-200 | a 0-like blink in front of blinks without negative likes comes first in ascending order |
| BlinkList.LeastLikedInFrontSortsLast | app/blinkboard/page.tsx:198-200 | a blink in front of blinks that all have more likes comes last in descending order |
| BlinkList.Visible | app/blinkboard/page.tsx:202 | the visible cards are the sorted slice `[3p, min(3p+3, n))`: at most three, and none exactly when `3p >= n` |
| BlinkList.LoadMoreShownAsWritten | app/blinkboard/page.tsx:591 | as written, the button shows exactly when there are more than three blinks, or on any later page while there is a blink at all |
| BlinkList.LoadMoreNeverDisappears | app/blinkboard/page.tsx:591 | as written, with more than three blinks the button shows on every page |
| BlinkList.LoadMoreOnEmptyPage | app/blinkboard/page.tsx:591 | as written, four blinks on page 2 show no card but still show the button |
| BlinkList.LoadMoreShownIffNextPageNonEmpty | app/blinkboard/page.tsx:591 | the corrected button shows exactly when the next page has a card |
| Blinkboard.CreateBlink | app/blinkboard/page.tsx:161-173 | create puts one blink in front: id and name numbered `n+1`, the fixed description, all counters 0; the old blinks and every other field are unchanged |
| Blinkboard.CreateKeepsIdsUnique | app/blinkboard/page.tsx:161-173 | while every id is a number up to the list length, ids stay unique and stay within the new length |
| Blinkboard.CreatedBlinkFirstWhenAscending | app/blinkboard/page.tsx:161-173 | in ascending order a created blink is the first card when no blink has negative likes |
| Blinkboard.CreatedBlinkLastWhenDescending | app/blinkboard/page.tsx:161-173 | in descending order a created blink is the last card when every other blink has a like |
| Blinkboard.SearchFor | app/blinkboard/page.tsx:180-186 | search keeps the current list's matching blinks in order, each as often as it occurs and nothing else, goes back to page 0, and keeps the notifications and the sort order |
| Blinkboard.ClearingSearchRestoresNothing | app/blinkboard/page.tsx:180-186 | after a search, clearing the term brings nothing back, and a second search can only narrow the list |
| Blinkboard.LoadMore | app/blinkboard/page.tsx:204-206 | "Load More" moves one page on and changes nothing else |
| Blinkboard.LoadMoreShowsNextPage | app/blinkboard/page.tsx:202-206 | after "Load More" the cards are those from index `3p+3` of the sorted list |
| Blinkboard.LoadMoreBringsCards | app/blinkboard/page.tsx:591 | the corrected button is offered exactly when pressing it shows a card |
| Blinkboard.ToggleSort | app/blinkboard/page.tsx:517 | the sort button flips the order and leaves the list and the page alone |
| Blinkboard.ToggleSortTwice | app/blinkboard/page.tsx:517 | pressing it twice restores the board |
| Blinkboard.MarkAllNotificationsAsRead | app/blinkboard/page.tsx:208-210 | no notification is unread afterwards; the count, each notification's id and message, and every other field are unchanged |
| Blinkboard.Leaderboard | app/blinkboard/page.tsx:450 | the leaderboard shows the first `min(5, n)` blinks in list order, unsorted |
| Blinkboard.InitialBlinksNumbered | app/blinkboard/page.tsx:73-140 | the six seed blinks have the ids 1 to 6, without repeats |
| Blinkboard.InitialBellHasDot | app/blinkboard/page.tsx:68-72 | the bell shows its dot on first render and not after marking all read |
| BlinkSection.CreateBlink | components/ui/blink-section.tsx:34-51 | create puts one blink in front: id and name numbered `n+1`, the fixed description, all counters 0; nothing else changes |
| BlinkSection.SearchFor | components/ui/blink-section.tsx:53-67 | search keeps the seed list's matching blinks in order, whatever the current list, and goes back to page 0 |
| BlinkSection.SearchForgetsCreatedBlinks | components/ui/blink-section.tsx:55-59 | the result depends only on the term: created blinks are dropped, and the empty term gives the seed list |
| BlinkSection.LoadMore | components/ui/blink-section.tsx:86-88 | "Load More" moves one page on and changes nothing else |
| BlinkSection.LoadMoreBringsCards | components/ui/blink-section.tsx:219 | the corrected button is offered exactly when pressing it shows a card |
| BlinkSection.ToggleSort | components/ui/blink-section.tsx:140 | the sort button flips the order and changes nothing else |
| BlinkSection.EngagementRate | components/ui/blink-section.tsx:211 | the progress value times the views is 100 times likes plus shares plus comments, and there is none when views are 0 |
| BlinkSection.CreatedBlinkHasNoEngagementRate | components/ui/blink-section.tsx:211 | a created blink, with 0 views, has no finite engagement rate |
| BlinkSection.SeedEngagement | components/ui/blink-section.tsx:211 | the seed blink's rate is 6500/230 |
| HomePage.FetchData | app/page.tsx:122-136 | after the fetch the dashboard holds the mock blinks and the total 1234 |
| HomePage.SearchEffect | app/page.tsx:142-160 | with data present, the effect replaces only the blinks, with the mock blinks matching the term, in order |
| HomePage.SearchEffectSettles | app/page.tsx:142-160 | the effect body applied to its own result gives an equal payload; this is equality of values, not the identity the effect's dependency check uses |
| HomePage.CreateBlink | app/page.tsx:162-186 | create puts one blink in front: id "4", the given title and description or "New Blink" and "New Blink Description", no likes and no shares (the fields the code leaves out are blank); it adds 1 to the total, changes nothing else, and leaves missing data missing |
| HomePage.CreateDefaultsAndIds | app/page.tsx:165-171 | a missing or empty title and a missing or empty description fall back to the defaults, and two creates give two blinks with the same id |
| HomePage.SearchIgnoresCreatedBlinks | app/page.tsx:142-160 | the effect lists the same blinks with or without a created one, so a created blink is gone while the total keeps its increment |
| HomePage.MarkAllNotificationsAsRead | app/page.tsx:194-200 | with data present, every notification is read, the count and each notification's id and message are kept, and nothing else changes; missing data stays missing |
| HomePage.RunEffect | app/page.tsx:142-160 | a run records the term and the payload object it saw and writes the filtered payload as a new object, so with a payload it is due again at once; without one it settles |
| HomePage.RunEffectTimes | app/page.tsx:142-160 | after any positive number of runs on a loaded payload the effect is still due, while the payload's value is that of the first run |
| HomePage.CreateOnScreen | app/page.tsx:162-176 | a create on a loaded page writes a new payload object, so the identity moves on |
| HomePage.MarkReadOnScreen | app/page.tsx:194-200 | marking read on a loaded page makes the search effect due again; an effect keyed on the term would not be |
| HomePage.CreatedBlinkVanishesAsWritten | app/page.tsx:160-176 | as written, a create always makes the effect due, and its run drops the created blink while the total keeps its + 1 |
| HomePage.RunTermEffect | app/page.tsx:142-160 | corrected, the same body keyed on the term alone is not due after its run |
| HomePage.TypeTerm | app/page.tsx:142-160 | with the corrected effect, a new debounced term makes the effect due exactly when it differs from the last one |
| HomePage.CreatedBlinkStaysWithTermEffect | app/page.tsx:160-176 | with the corrected effect, a create does not trigger a search and the created blink stays in front of the list |
| DashboardPage.FetchSettled | app/dashboard.tsx:40-51 | loading ends; success stores the data and clears the error; failure keeps the data and sets the message |
| DashboardPage.SearchSettled | app/dashboard.tsx:57-73 | a non-empty term with results replaces only the blinks; an empty term or a failure changes nothing |
| DashboardPage.CreateSettled | app/dashboard.tsx:75-93 | a created blink goes in front of the list; a failure changes nothing |
| DashboardPage.MarkAllNotificationsAsRead | app/dashboard.tsx:99-106 | "mark all as read" leaves the dashboard unchanged, the dot included |
| DashboardPage.FailuresChangeNothing | app/dashboard.tsx:57-93 | failed searches, creates and fetches keep the data, and clearing the term does not restore the list |
| DummyApi.CreateBlink | lib/dummy-api.ts:65-78 | the store gets the new blink at the end, with id `n+1`, defaults for falsy fields and zero counters, and nothing else changes |
| DummyApi.MockIsSequential | lib/dummy-api.ts:7-11 | the seed store numbers its blinks 1, 2, 3 by position |
| DummyApi.CreateKeepsSequential | lib/dummy-api.ts:65-77 | appending keeps the store numbered by position, so its ids stay unique |
| DummyApi.SearchBlinks | lib/dummy-api.ts:80-86 | the result is the store's matching blinks, in order, each as often as it occurs in the store |
| DummyApi.CreatedBlinkIsSearchable | lib/dummy-api.ts:80-86 | a created blink is found by its name, and the empty term returns the whole store |
| DummyApi.MarkNotificationsAsRead | lib/dummy-api.ts:88-91 | every notification is read afterwards, the count and each notification's id and message are kept, and the rest of the store is unchanged |
| DummyApi.CreateBlinkFromTemplate | lib/dummy-api.ts:250-261 | the template blink gets id `n+1`, the template defaults for falsy fields, and no likes, shares or views |
| DummyApi.TemplateIdIsReused | lib/dummy-api.ts:250-261 | the store is not extended, so the next create hands out the same id |
| DummyApi.FetchTokenPrices | lib/dummy-api.ts:287-294 | the keys are exactly the given addresses, each priced by its last index |
| BlinkCollection.Filtered | components/dashboard/blink-collection.tsx:49-58 | the shown cards are exactly the matching ones, in order, each as often as it occurs, with all of them for the empty term |
| BlinkCollection.EmptyBranchIsFiltering | components/dashboard/blink-collection.tsx:49-58 | the empty-term branch gives the same list as filtering would |
| BlinkCollection.ImageSource | components/dashboard/blink-collection.tsx:134 | a present, non-empty image is used as is; a missing or empty one is the treasure-chest fallback |
| BlinkCollection.Truncate | components/dashboard/blink-collection.tsx:139 | descriptions of up to 100 characters are unchanged; longer ones become their first 100 characters and "...", 103 in all |
| BlinkCollection.TruncateIdempotent | components/dashboard/blink-collection.tsx:139 | truncating a truncated description changes nothing |
| BlinkCollection.TruncateCanLookUncut | components/dashboard/blink-collection.tsx:139 | a 103-character description already ending in "..." is shown uncut, the same as a truncated one |
| BlinkCollection.AvatarFallback | components/dashboard/blink-collection.tsx:145 | the avatar fallback is the creator's first character, or "?" with no creator |
| BlinkCollection.CreatorLabel | components/dashboard/blink-collection.tsx:147 | the label is the creator, or "Unknown Creator" when there is none |
| Commerce.Bump | app/blinkboard/pages/commerce/page.tsx:38-40 | the line with the product's id gets one more item; every line keeps its id, name, price and image, in order |
| Commerce.AddToCart | app/blinkboard/pages/commerce/page.tsx:35-48 | a product already in the cart gets one more item on its own line and nothing else changes; a new one is appended with one item; either way it is in the cart |
| Commerce.QuantityBump | app/blinkboard/pages/commerce/page.tsx:38-40 | incrementing raises the count of that id by one when it is in the cart and changes no other count |
| Commerce.AddCountsOneMore | app/blinkboard/pages/commerce/page.tsx:35-48 | adding raises the product's count by exactly one and leaves every other count alone |
| Commerce.AddKeepsWellFormed | app/blinkboard/pages/commerce/page.tsx:35-48 | adding keeps one line per id, each with at least one item |
| Commerce.RemoveFromCart | app/blinkboard/pages/commerce/page.tsx:50-52 | removal drops every line with the id and keeps the other lines in order |
| Commerce.RemoveAbsentIsNoOp | app/blinkboard/pages/commerce/page.tsx:50-52 | removing an id that is not in the cart changes nothing |
| Commerce.RemoveKeepsWellFormed | app/blinkboard/pages/commerce/page.tsx:50-52 | removing keeps one line per id, each with at least one item |
| Commerce.RemoveUndoesFirstAdd | app/blinkboard/pages/commerce/page.tsx:35-52 | removing a product that was just added for the first time gives the old cart back |
| Commerce.TotalPriceNonNegative | app/blinkboard/pages/commerce/page.tsx:54-56 | a cart of non-negative prices and quantities never totals below 0 |
| Commerce.TotalBump | app/blinkboard/pages/commerce/page.tsx:54-56 | incrementing a line raises the total by the product's price |
| Commerce.AddRaisesTotal | app/blinkboard/pages/commerce/page.tsx:54-56 | adding a product raises the total by exactly its price |
| Commerce.RemoveLowersTotal | app/blinkboard/pages/commerce/page.tsx:50-56 | removing a product takes its price times its quantity off the total |
| Commerce.Checkout | app/blinkboard/pages/commerce/page.tsx:58-68 | after checkout the cart is empty, its total is 0 and the button is disabled |
| Commerce.AddEnablesCheckout | app/blinkboard/pages/commerce/page.tsx:128 | after any add the checkout button is enabled |
| Commerce.OrderPage | app/blinkboard/pages/commerce/page.tsx:31-33 | order page p (from 1) is the orders from index `(p-1)*3`, at most three of them |
| Commerce.OrdersFitOnePage | app/blinkboard/pages/commerce/page.tsx:20-33 | the three mock orders make one page; page 2 is empty |
| Payments.IsFormValid | app/blinkboard/pages/payments/page.tsx:56 | the form is valid exactly with a recipient and an amount that parses above 0; a valid amount never starts with "-" |
| Payments.PaymentSettled | app/blinkboard/pages/payments/page.tsx:39-54 | a sent payment clears the recipient and the amount, stops loading and keeps the token |
| Payments.SettledFormIsInvalid | app/blinkboard/pages/payments/page.tsx:56 | the cleared form, and the initial one, cannot be submitted |
| Payments.ValidityOfWholeAmounts | app/blinkboard/pages/payments/page.tsx:56 | with a recipient, a whole amount is valid iff it is not 0; a negative amount never is; no recipient, never valid |
| Payments.PaymentPage | app/blinkboard/pages/payments/page.tsx:35-37 | a page holds at most three payments, starting at index `(p-1)*3` |
| Payments.PaymentPages | app/blinkboard/pages/payments/page.tsx:19-37 | the five payments make two pages, three and two; page 3 is empty |
| Gift.IsFormValid | app/pages/gift/page.tsx:61 | the form is valid exactly with a recipient and an amount that parses above 0; a valid amount never starts with "-" |
| Gift.MessageIsOptional | app/pages/gift/page.tsx:61 | the message never affects validity |
| Gift.GiftSettled | app/pages/gift/page.tsx:43-59 | a sent gift clears the recipient, the amount and the message, and keeps the token |
| Gift.SettledFormIsInvalid | app/pages/gift/page.tsx:61 | the cleared form, and the initial one, cannot be submitted |
| Gift.MessageShown | app/pages/gift/page.tsx:136 | the confirmation shows the message, or "No message" when it is empty |
| Gift.BlankMessageIsShown | app/pages/gift/page.tsx:136 | a blank (space) message is shown as typed; the cleared one as "No message" |
| Gift.GiftPage | app/pages/gift/page.tsx:39-41 | a page holds at most three gifts, starting at index `(p-1)*3` |
| Gift.GiftPages | app/pages/gift/page.tsx:22-41 | the five gifts make two pages; page 3 is empty |
| Staking.IsFormValid | app/blinkboard/pages/staking/page.tsx:47 | the form is valid exactly when the amount parses above 0; a valid amount never starts with "-" |
| Staking.ToggleMode | app/blinkboard/pages/staking/page.tsx:86 | the mode button flips stake/unstake and changes nothing else |
| Staking.ToggleModeTwice | app/blinkboard/pages/staking/page.tsx:86 | flipping twice restores the form; validity does not depend on the mode |
| Staking.ActionLabel | app/blinkboard/pages/staking/page.tsx:36 | the action is "Staked" exactly in stake mode, "Unstaked" otherwise |
| Staking.SwitchLabel | app/blinkboard/pages/staking/page.tsx:87 | the button reads "Switch to Unstake" exactly in stake mode |
| Staking.FindPool | app/blinkboard/pages/staking/page.tsx:74 | `find` returns the first pool with the id, or nothing when no pool has it |
| Staking.SelectPool | app/blinkboard/pages/staking/page.tsx:74 | the selection is always a listed pool: the one with the parsed id, or the first pool when parsing or lookup fails; nothing else changes |
| Staking.SelectRoundTrip | app/blinkboard/pages/staking/page.tsx:71-79 | choosing option k selects pool k for 1..3, and any other number falls back to the first pool |
| Staking.StakeSettled | app/blinkboard/pages/staking/page.tsx:30-45 | a submit clears only the amount; the pool and the mode are kept |
| Staking.SettledFormIsInvalid | app/blinkboard/pages/staking/page.tsx:47 | the cleared form, and the initial one, cannot be submitted |
| Staking.PoolPage | app/blinkboard/pages/staking/page.tsx:26-28 | a page holds at most three pools, starting at index `(p-1)*3` |
| Staking.PoolsFitOnePage | app/blinkboard/pages/staking/page.tsx:12-28 | the three pools make one page |
| Nft.IsFormValid | app/blinkboard/assets/nft.tsx:48 | the trimmed-emptiness test is the same as neither field being all white space |
| Nft.BlankFieldsAreInvalid | app/blinkboard/assets/nft.tsx:48 | a name of spaces alone, or a description of spaces, tabs and line breaks alone, makes the form invalid whatever the other field holds; text with padding around it is valid |
| Nft.MintSettled | app/blinkboard/assets/nft.tsx:31-46 | minting clears the name and the description and keeps the selection |
| Nft.SettledFormIsInvalid | app/blinkboard/assets/nft.tsx:48 | the cleared form cannot be submitted |
| Nft.Select | app/blinkboard/assets/nft.tsx:118 | clicking an NFT opens the dialog on it and changes nothing else, the loading flag included |
| Nft.Close | app/blinkboard/assets/nft.tsx:145 | closing shuts the dialog and changes nothing else, the loading flag included |
| Nft.SelectThenClose | app/blinkboard/assets/nft.tsx:135-145 | opening then closing the dialog returns to the page as it was |
| Nft.GalleryPage | app/blinkboard/assets/nft.tsx:27-29 | a gallery page holds at most four NFTs, starting at index `(p-1)*4` |
| Nft.GalleryPages | app/blinkboard/assets/nft.tsx:11-29 | the five mock NFTs make two pages, four and one |
| Swap.IsFormValid | app/pages/swap/page.tsx:57 | the form is valid exactly when the from-amount parses above 0 and the quote is not empty; a valid from-amount never starts with "-" |
| Swap.SwitchTokens | app/pages/swap/page.tsx:50-55 | switching exchanges the two tokens and the two amounts, all read before the switch |
| Swap.SwitchTwice | app/pages/swap/page.tsx:50-55 | switching twice restores the form |
| Swap.FromAmountChanged | app/pages/swap/page.tsx:43-48 | typing stores the amount and sets the quote, which is "NaN" when the amount does not parse; nothing else changes |
| Swap.ClearedFieldShowsNaN | app/pages/swap/page.tsx:43-48 | clearing the field shows "NaN" as the quote, and after a switch the form is invalid |
| Swap.SwapSettled | app/pages/swap/page.tsx:26-41 | a swap clears both amounts and keeps both tokens |
| Swap.SettledFormIsInvalid | app/pages/swap/page.tsx:57 | the cleared form, and the initial one, cannot be submitted |
| CreationOverTime.TrendOf | components/dashboard/blink-creation-overtime.tsx:92-99 | neutral exactly below two points; otherwise up exactly when the second half's mean is above the first half's, with ties down |
| CreationOverTime.TrendAgainstOverall | components/dashboard/blink-creation-overtime.tsx:92-99 | up exactly when the second half's mean is above the whole series' mean |
| CreationOverTime.ConstantSeriesIsNotUp | components/dashboard/blink-creation-overtime.tsx:98 | a flat series of two or more points shows "down" |
| CreationOverTime.ConstantTotal | components/dashboard/blink-creation-overtime.tsx:86 | the total of a flat series is its length times its value |
| CreationOverTime.OneMonthFigures | components/dashboard/blink-creation-overtime.tsx:36-41 | the one-month mock series gives total 68, average 17, trend up, label "week" |
| CreationChart.TrendIsUp | components/dashboard/blink-creation-chart.tsx:38 | with a positive first value, the trend is up exactly when the last value is higher; an up trend needs two points whose ends differ |
| CreationChart.TrendIsUpIff | components/dashboard/blink-creation-chart.tsx:38 | the first-to-last trend is positive exactly when the last value moved away from a non-zero first value in its own sign, or is positive after a first value of 0 |
| CreationChart.TrendColor | components/dashboard/blink-creation-chart.tsx:105-110 | green exactly when the trend is positive, red otherwise |
| CreationChart.FlatIsRed | components/dashboard/blink-creation-chart.tsx:105-110 | a series that ends where it began shows red |
| StatCard.ChangeClass | components/dashboard/stat-card.tsx:27-30 | green exactly when the change is positive; zero is red |
| StatCard.ChangePrefix | components/dashboard/stat-card.tsx:31 | a "+" exactly when the change is positive |
| StatCard.SeparatorShown | components/dashboard/stat-card.tsx:34 | the separator shows exactly when a change and a non-empty subtext are both present |
| StatCard.SeparatorNeedsBothParts | components/dashboard/stat-card.tsx:24-34 | a separator only appears on a line that is shown; no line without a change or a subtext; a zero change shows the line in red |
| Leaderboard.MockRanksFollowLikes | components/dashboard/community-leaderboard.tsx:24-30 | the mock entries have ranks 1 to 5 in list order, with likes and blinks strictly falling |
| Leaderboard.FetchSettled | components/dashboard/community-leaderboard.tsx:44-60 | loading ends; success stores the entries with no error; failure keeps the entries and sets the message |
| Leaderboard.Render | components/dashboard/community-leaderboard.tsx:123-135 | five skeletons while loading, then the error panel with the error's message if there is an error, otherwise the entries |
| Leaderboard.RetryAsWritten | components/dashboard/community-leaderboard.tsx:132 | as written, "Retry" restores the mock entries but leaves the error, the loading flag and the selection as they were |
| Leaderboard.RetryAsWrittenStaysOnError | components/dashboard/community-leaderboard.tsx:129-135 | as written, pressing "Retry" on the error panel leaves the error panel on screen |
| Leaderboard.Retry | components/dashboard/community-leaderboard.tsx:132 | corrected, "Retry" restores the mock entries and clears the error |
| Leaderboard.RetryShowsList | components/dashboard/community-leaderboard.tsx:123-135 | corrected, "Retry" after loading shows the mock entries |
| Leaderboard.RankBadgeColor | components/dashboard/community-leaderboard.tsx:62-73 | yellow exactly for rank 1, gray for 2, amber for 3, the default colour for every other rank |
| Leaderboard.ChangeIcon | components/dashboard/community-leaderboard.tsx:75-84 | up, down and same get the green up arrow, the red down arrow and the gray minus |
| Leaderboard.ChangeIconInjective | components/dashboard/community-leaderboard.tsx:75-84 | the three changes get three different icons |
| Leaderboard.Select | components/dashboard/community-leaderboard.tsx:148 | clicking an entry opens its detail without changing the list view |
| Leaderboard.Close | components/dashboard/community-leaderboard.tsx:179 | closing the detail clears the selection without changing the list view |
| Leaderboard.Initial | components/dashboard/community-leaderboard.tsx:151 | the avatar fallback is the name's first character, and nothing for an empty name |
| Sidebar.NavItemsNested | components/ui/layout/sidebar.tsx:14-37 | every sub-item's link extends its group's link |
| Sidebar.ItemActive | components/ui/layout/sidebar.tsx:73-116 | an item is highlighted on its own path, and only on paths that start with its link |
| Sidebar.SubItemActive | components/ui/layout/sidebar.tsx:96 | a sub-item is highlighted only on a path that starts with its link and is exactly as long |
| Sidebar.GroupActiveOnDeeperPaths | components/ui/layout/sidebar.tsx:73 | a group stays highlighted on every deeper path below one where it is |
| Sidebar.ActiveSubItemActivatesGroup | components/ui/layout/sidebar.tsx:73-101 | with nested links, an active sub-item makes its group active |
| Sidebar.AtMostOneLinkActive | components/ui/layout/sidebar.tsx:114-121 | two different plain links are never active together |
| Sidebar.PrefixIsNotSegmentAware | components/ui/layout/sidebar.tsx:73 | the Assets group is active for "/blinkboard/assetsX" as well: the prefix test ignores path segments |
| Sidebar.ToggleTheme | components/ui/layout/sidebar.tsx:138 | "dark" becomes "light", and every other theme becomes "dark" |
| Sidebar.ToggleThemeTwice | components/ui/layout/sidebar.tsx:138 | toggling twice restores exactly "dark" and "light"; "system" ends up "light" |
| Sidebar.ThemeLabel | components/ui/layout/sidebar.tsx:139 | the label offers light mode exactly under the dark theme |
| Sidebar.Click | components/ui/layout/sidebar.tsx:147 | a click always flips the collapsed state |
| Sidebar.KeyDown | components/ui/layout/sidebar.tsx:44-48 | a key flips the collapsed state exactly when it is Enter or Space |
| Sidebar.KeyThenClickCancels | components/ui/layout/sidebar.tsx:144-153 | when both the key handler and the browser's click run on an activating key, each on the state the other left, the two flips cancel |
| Sidebar.WidthClass | components/ui/layout/sidebar.tsx:53 | the sidebar is narrow exactly when collapsed |

## Left out

- Network and foreign calls are not modelled: `lib/api.ts`, the price and chart fetches, Prisma, and the wallet adapter.
- Awaited calls appear only as their outcome: a value or a rejection (`Outcome`). This covers `setTimeout` latency, the lodash `debounce`, the `useDebounce` hook, toasts and `console.log`.
- React's render cycle is not modelled. Effect runs are explicit steps, and the home page's effect is due when its dependencies differ by identity from its last run (`HomePage.EffectDue`). React's batching, strict-mode double runs and the resulting render loop are left out.
- Sidebar.KeyThenClickCancels: the order of the key and click events, and whether React renders between them, are not modelled. Both handlers compute `!isCollapsed` from the render that created them. So with no render in between, the two would flip once, not twice.
- Dates (`createdAt`, `toLocaleDateString`), images, icons, animations, charts and layout markup are left out. Dates are not part of any record.
- Floating point is left out: the swap rate `* 1.5` and `toFixed(2)`, token values, and percentage magnitudes. The swap quote for a parsable amount is a parameter.
- Amount.ParseFloat: decimal literals are read exactly. IEEE rounding, overflow to Infinity and underflow to 0 for very long literals are not modelled. Only positivity is ever used, and that stays exact except for underflow.
- Amount.ParseInt: a `0x` prefix (read as hexadecimal) and the 2^53 precision limit are not modelled. The only input is a pool id.
- Series.RoundDiv: `Math.round` of the exact quotient; double rounding of `total / length` before rounding is not modelled.
- CreationOverTime.TrendOf: the half averages are compared as exact rationals, not as doubles.
- BlinkSection.EngagementRate: division by zero views is one `None`, instead of JavaScript's NaN (no engagement) or Infinity. The rate is an exact real.
- DummyApi.FetchTokenPrices: the mock price `1 + index * 0.1` is the exact real `1 + index/10`.
- Text.Lower: only ASCII letters are folded; Unicode case mapping is not modelled. Strings are sequences of characters, not UTF-16 code units.
- The dashboard page's handlers start from a loaded dashboard. Spreading `null` when a search settles before the data has loaded is not modelled.
- The mock API's other functions (analytics, governance, swap quotes, staking info, commerce items, transactions, market chart) return constants and are not modelled.
- The `Pagination` component's own page bounds are not part of this model, so nothing here assumes page numbers are clamped.
- The token page, the donations page and the other navigation components are not part of this model.

## Findings

| source | as written | input that shows it | evidently intended | confidence | as-written member | corrected member |
|---|---|---|---|---|---|---|
| app/blinkboard/page.tsx:591 | "Load More" shows while the visible page is shorter than the whole sorted list | four blinks, page 2 (0-based): no card is visible, the button is still shown; with more than three blinks it never disappears | offer the button only while the next page has a card | medium, not executed | BlinkList.LoadMoreOnEmptyPage | BlinkList.LoadMoreShownIffNextPageNonEmpty |
| components/ui/blink-section.tsx:219 | the same test as the overview page | four blinks, page 2: empty page with the button | offer the button only while the next page has a card | medium, not executed | BlinkList.LoadMoreNeverDisappears | BlinkSection.LoadMoreBringsCards |
| components/dashboard/community-leaderboard.tsx:132 | "Retry" sets the entries but never clears the error | a failed fetch, then "Retry": the error panel stays on screen | clear the error so the restored entries show | medium, not executed (the error path needs the awaited call to reject) | Leaderboard.RetryAsWrittenStaysOnError | Leaderboard.RetryShowsList |
| app/page.tsx:160 | the search effect depends on the payload object, and every write of the payload makes a new one | load the page, then "Create Blink": the effect runs again and resets the list to the mock blinks, so the created blink disappears at once while the total shows + 1 | key the effect on the search term alone | medium, not executed | HomePage.CreatedBlinkVanishesAsWritten | HomePage.CreatedBlinkStaysWithTermEffect |
