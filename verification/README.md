# Restaurant platform core, modelled in Dafny

This project models the decision and transformation rules of a multi-tenant
restaurant ordering platform. Every restaurant is a user account (the
tenant). Every record it owns carries its `userId`. The model lifts the
rules out of the HTTP routes and React pages into pure functions over an
in-memory store (`Store.Db`: one sequence per table and an id counter).
The session becomes an `Option<Id>`, and every route answer is a
`Response` (`Ok(status, body)` or `Error(status, message)`), returned
together with the store it leaves behind.

Modules, one per file:

- `Common`: options, the `x || default` idioms, `Filter`, a stable
  insertion sort, ASCII case mapping and decimal numerals.
- `Store`: the records, the store, order-line arithmetic and QR addresses.
- `OrderStats`: the revenue statistics route (four time buckets).
- `AdminOrders`: the order-history page (order totals, status filter, labels, colours).
- `AdminBookings`: the bookings page (the buttons each status offers, filter, tab counts, labels).
- `Signup`: slug normalisation and the restaurant-name → slug auto-fill of the sign-up form.
- `Register`: the registration route (checks in order, conflict reporting, seeding).
- `DefaultMenu`: the seed categories and dishes, and their structural invariants.
- `MenuApi`: creating a menu item (ownership check, field defaults).
- `CategoriesApi`: listing and creating categories.
- `TablesApi`: listing tables, and creating a table with its QR code.
- `SettingsApi`: reading and updating a restaurant's settings, and the admin-language route.
- `Localisation`: the language key and the fall-back to the English text.
- `SpicySelector`, `MenuItemCard`, `CustomerMenu`: the customer menu.

Two behaviours of the code are easy to miss; the model follows the code:

- Registration looks up one user holding the email OR the slug
  (`findFirst`). It reports "Email already in use" only when that first
  match holds the email. If an earlier user holds the slug and a later
  one the email, the answer is "Slug already taken"
  (`Register.EarlierSlugHolderWins`).
- Updating settings and the admin language for a session whose user
  record is gone makes the database call throw. The route has no handler
  for this, so the framework answers 500. This is modelled as
  `Error(500, "")`.

## Model

| member | source | states |
|---|---|---|
| OrderStats.BucketOrders | app/api/orders/stats/route.ts:19-36 | A bucket holds only the session restaurant's non-cancelled orders created at or after the bucket start. Every such order of the table is in it. |
| OrderStats.GetStats | app/api/orders/stats/route.ts:6-45 | Without a session user the answer is 401. Otherwise it is 200 with the four buckets of the session restaurant, and the all-time count is the number of its non-cancelled orders. |
| OrderStats.BucketStartsBeforeToday | app/api/orders/stats/route.ts:14-17 | The week start and the month start both lie a whole number of days at or before today's midnight: at most 6 days back for the week, at most 30 for the month. |
| OrderStats.WeekAndMonthUnordered | app/api/orders/stats/route.ts:15-17 | Week and month starts are not ordered: there are days where either one starts first. |
| OrderStats.RevenueAppend | app/api/orders/stats/route.ts:38-39 | Revenue is 0 for no orders, and additive over concatenated order lists. |
| OrderStats.RevenueOfFilterBounded | app/api/orders/stats/route.ts:38-39 | Leaving out orders whose lines are non-negative never raises the revenue. |
| OrderStats.LaterWindowIsSubBucket | app/api/orders/stats/route.ts:19-35 | A bucket with a later start is exactly the earlier bucket's orders created since that later start. |
| OrderStats.BucketsNest | app/api/orders/stats/route.ts:19-45 | today ⊆ week ⊆ all-time and today ⊆ month ⊆ all-time. So the counts grow along these inclusions, and the revenues do too when prices and quantities are non-negative. |
| OrderStats.OtherTenantsIgnored | app/api/orders/stats/route.ts:19-36 | The statistics over the whole order table equal those over the session restaurant's own orders. |
| OrderStats.CancelledBucketOrders | app/api/orders/stats/route.ts:19-36 | Cancelling order i leaves in a bucket its orders before and after i, without order i. |
| OrderStats.CancellingRemovesFromBucket | app/api/orders/stats/route.ts:19-45 | Cancelling an order takes one from the count of every bucket it was in, and its value from that bucket's revenue. Other buckets are unchanged. |
| OrderStats.CancelledOrdersIgnored | app/api/orders/stats/route.ts:19-36 | Removing the cancelled orders beforehand changes none of the four buckets. |
| Store.ItemsTotalAppend | app/admin/orders/page.tsx:82-83 | The value of concatenated order lines is the sum of their values. |
| Store.ItemsTotalNonNegative | app/api/orders/stats/route.ts:38-39 | Lines with non-negative prices and quantities have a non-negative value. |
| AdminOrders.OrderTotal | app/admin/orders/page.tsx:82-83 | An order without lines totals 0. Non-negative lines give a non-negative total. |
| AdminOrders.OrderTotalSplits | app/admin/orders/page.tsx:82-83 | The total of an order whose lines are a ++ b is total(a) + total(b). One line is worth its price times its quantity. |
| AdminOrders.FilteredOrders | app/admin/orders/page.tsx:80 | `all` returns the list unchanged. Any other filter returns only orders of that status, and every order of that status. |
| AdminOrders.FilteredOrdersKeepOrder | app/admin/orders/page.tsx:80 | Filtering distributes over concatenation, so the original order is kept. |
| AdminOrders.StatusTabsPartition | app/admin/orders/page.tsx:98-106 | No tab shows more than `all`. The six status tabs together count each order of a known status exactly once. |
| AdminOrders.StatusCountsAdd | app/admin/orders/page.tsx:98-106 | The six per-status counts add up to the number of orders with a known status. |
| AdminOrders.StatusLabel | app/admin/orders/page.tsx:72-78 | An unknown status is shown as itself. A known one is shown with its translated label, unless that label is empty. |
| AdminOrders.BadgeColour | app/admin/orders/page.tsx:42-49 | A known status gets its entry of the colour table. Any other status gets the default badge. |
| AdminOrders.OneStatusVocabulary | app/admin/orders/page.tsx:42-106 | The label table, the colour table and the filter tabs cover exactly the same six distinct statuses. |
| AdminBookings.ActionsFollowWorkflow | app/admin/bookings/page.tsx:150-190 | A status change is offered exactly when the workflow allows it. pending offers confirm, cancel and delete; confirmed offers complete, cancel and delete. Any other status offers delete alone. |
| AdminBookings.WorkflowMovesForward | app/admin/bookings/page.tsx:150-182 | No offered change leads back to pending. Each one raises the stage and targets a known status. |
| AdminBookings.FilteredBookings | app/admin/bookings/page.tsx:63 | `all` returns every booking. Any other filter returns only bookings of that status, and every booking of that status. |
| AdminBookings.FilteredBookingsKeepOrder | app/admin/bookings/page.tsx:63 | Filtering distributes over concatenation, so the original order is kept. |
| AdminBookings.CountWithStatus | app/admin/bookings/page.tsx:95 | A tab count is the length of that tab's filtered list, and at most the number of bookings. |
| AdminBookings.TabCountsAdd | app/admin/bookings/page.tsx:82-98 | The four tab counts add up to the number of bookings whose status is one of the four. |
| AdminBookings.FilterCountsAdd | app/admin/bookings/page.tsx:82-98 | The per-status filters partition the bookings of known status. |
| AdminBookings.StatusLabel | app/admin/bookings/page.tsx:65-73 | An unknown status or language shows the raw status. A known status in EN or TH shows its table label. |
| AdminBookings.PageLanguage | app/admin/bookings/page.tsx:32 | The page language is the session's admin language when that is non-empty, otherwise `EN`. |
| AdminBookings.PageLanguageLabels | app/admin/bookings/page.tsx:32-73 | A session without an admin language sees the English labels. A session set to EN or TH sees that language's labels. |
| AdminBookings.BadgeColour | app/admin/bookings/page.tsx:23-28 | Unknown statuses get the grey fallback. Known ones never do. |
| AdminBookings.BadgeColoursDistinct | app/admin/bookings/page.tsx:23-28 | The four known statuses have four different badge colours. |
| Signup.RewriteChars | app/auth/signup/page.tsx:24 | The character rewrite keeps the length, works position by position, and yields only `[a-z0-9-]`. |
| Signup.CollapseHyphens | app/auth/signup/page.tsx:24 | Collapsing runs of hyphens never lengthens the text. It keeps the first and last characters (so leading and trailing hyphens stay) and leaves no `--`. |
| Signup.CollapseRun | app/auth/signup/page.tsx:24 | A run of one or more hyphens anywhere in the text collapses exactly as a single hyphen would. With `CollapseKeepsSingleHyphens`, this fixes the result of the collapse on every input. |
| Signup.CollapseRunStart | app/auth/signup/page.tsx:24 | The same, for a run at the start of the text. |
| Signup.CollapseRemovesOnlyHyphens | app/auth/signup/page.tsx:24 | Collapsing removes hyphens and nothing else, and keeps the slug alphabet. |
| Signup.NormalizeSlug | app/auth/signup/page.tsx:23-26 | A normalised slug has only `[a-z0-9-]`, no `--`, and is no longer than the input. It is non-empty when the input is. |
| Signup.TypedCharRewrite | app/auth/signup/page.tsx:24 | Slug characters pass through, `A`–`Z` become `a`–`z`, and anything else becomes `-`. |
| Signup.NormalizeRewritesEachChar | app/auth/signup/page.tsx:24 | Normalisation rewrites each input character as above, then only removes hyphens. |
| Signup.CollapseKeepsSingleHyphens | app/auth/signup/page.tsx:24 | A text without `--` is left alone by the collapse. |
| Signup.RewriteKeepsSlugChars | app/auth/signup/page.tsx:24 | Text already in the slug alphabet is left alone by lower-casing and rewriting. |
| Signup.NormalizeIdempotent | app/auth/signup/page.tsx:24 | Normalising a normalised slug returns it unchanged. |
| Signup.OnSlugInput | app/auth/signup/page.tsx:23-26 | Typing into the slug field stores the normalised text and changes nothing else in the form. |
| Signup.OnRestaurantNameInput | app/auth/signup/page.tsx:82-85 | Typing a name stores it, and derives the slug from it only while the slug field is empty. |
| Signup.TypedNameFillsFirstCharOnly | app/auth/signup/page.tsx:82-85 | As written, typing a name keystroke by keystroke leaves the slug as the normalised first character. |
| Signup.TypingThaiGivesT | app/auth/signup/page.tsx:82-85 | Typing "Thai" gives the slug "t", although "Thai" normalises to "thai". |
| Signup.OnRestaurantNameInputFixed | app/auth/signup/page.tsx:82-85 | The corrected rule: the slug follows the name until the owner edits the slug. |
| Signup.OnSlugInputFixed | app/auth/signup/page.tsx:23-26 | Under the corrected rule, typing into the slug field stores its normalisation and marks the slug as edited. |
| Signup.TypedNameFillsWholeSlug | app/auth/signup/page.tsx:82-85 | Under the corrected rule, the slug equals the normalised name typed so far, and a hand-edited slug is never touched. |
| Register.FindConflict | app/api/register/route.ts:25-27 | The match found holds the email or the slug. None is found exactly when no user holds either. |
| Register.RejectReason | app/api/register/route.ts:10-40 | Checks in order: a missing field, then the slug format, then a conflict. No conflict is reported exactly when nobody holds the email or the slug, and each conflict message names a value someone holds. |
| Register.ConflictPrecedence | app/api/register/route.ts:25-40 | The email is reported when it is held and every slug holder also holds it. The slug is reported when nobody holds the email. |
| Register.EarlierSlugHolderWins | app/api/register/route.ts:25-39 | With an earlier slug holder and a later email holder, the answer is "Slug already taken". |
| Register.RejectReasonEmailFirst | app/api/register/route.ts:10-40 | The corrected check. The same missing-field and format answers, then the email is looked for among all users before the slug. |
| Register.EmailAlwaysReportedFirst | app/api/register/route.ts:25-40 | Under the corrected check, a held email is always the reason given. The corrected check agrees with the route whenever every slug holder also holds the email, or nobody holds the email. |
| Register.EmailFirstOnEarlierSlugHolder | app/api/register/route.ts:25-39 | On the input where the route answers "Slug already taken", the corrected check answers "Email already in use". |
| Register.NormalizedSlugAccepted | app/api/register/route.ts:18-23 | Any slug the sign-up form produces from non-empty text passes the route's `^[a-z0-9-]+$` check. |
| Register.FormSlugNeverBadFormat | app/api/register/route.ts:17-23 | So a complete request carrying a form-made slug is never rejected for its slug format. |
| Register.CategoryRecords | app/api/register/route.ts:54-60 | One category record per seed category. |
| Register.ItemRecords | app/api/register/route.ts:62-75 | At most one item record per seed dish. |
| Register.TableRecords | app/api/register/route.ts:79-82 | `count` table records. |
| Register.QrRecords | app/api/register/route.ts:83-89 | One QR record per table. |
| Register.CategoryRecordsShape | app/api/register/route.ts:54-60 | The i-th record is made from the i-th seed category with the i-th id. |
| Register.ItemRecordsShape | app/api/register/route.ts:62-75 | With valid indexes, no dish is skipped. The j-th item is made from the j-th dish, under the category its index names, with the j-th id. |
| Register.SkippedDishesTakeNoId | app/api/register/route.ts:62-75 | A dish whose category is missing is skipped and consumes no id. The records equal those of the placeable dishes alone. |
| Register.TableRecordsShape | app/api/register/route.ts:77-90 | Table k is number k+1. Its QR code has the next id, points at that table and carries `baseUrl/menu/slug/tableId`. |
| Register.SeedRecordsDescribed | app/api/register/route.ts:53-90 | Seeding creates one category per seed category, in order, owned by the user. Every dish becomes an available item of the user under its category. Tables are numbered 1..15, each with one QR code of the same owner pointing at its menu address. |
| Register.DefaultSeedComplete | app/api/register/route.ts:53-75 | With the default menu: six categories numbered 1..6, and all thirty dishes created. |
| Register.SeedCategories | app/api/register/route.ts:54-60 | The loop creates the category records in list order, and advances the id counter by their number. |
| Register.SeedItems | app/api/register/route.ts:62-75 | The loop creates exactly the item records (skipping unplaceable dishes), and advances the counter by their number. |
| Register.SeedTables | app/api/register/route.ts:77-90 | The loop creates the 15 tables and their QR codes, two ids each. |
| Register.Register | app/api/register/route.ts:6-95 | A rejected request gets 400 with its reason and a store left as it was. An accepted one gets 201 with the new id; the store gains the user, the seed categories, items, tables and QR codes, and nothing before changes. |
| Register.CreateAccount | app/api/register/route.ts:42-90 | The writes of an accepted request, field by field, for any seed data whose indexes are valid. |
| DefaultMenu.DefaultCategoriesNumbered | lib/default-menu.ts:1-50 | Six categories with sortOrder 1..6, strictly increasing. |
| DefaultMenu.DefaultItemsIndexesValid | lib/default-menu.ts:62-249 | Thirty dishes, each naming an existing category. |
| DefaultMenu.DefaultItemsGrouped | lib/default-menu.ts:62-249 | Dishes are listed category by category, in category order. |
| DefaultMenu.GroupedBetween | lib/default-menu.ts:62-249 | The grouping holds on each half of the list. |
| DefaultMenu.DefaultItemsNumbered | lib/default-menu.ts:62-249 | Within each category, the dishes are numbered 1, 2, 3, … consecutively. |
| DefaultMenu.DefaultItemsPriced | lib/default-menu.ts:62-249 | Every dish has a positive price and a picture. |
| DefaultMenu.PricedBetween | lib/default-menu.ts:62-249 | Prices are positive on each half of the list. |
| DefaultMenu.EveryDishPictured | lib/default-menu.ts:62-249 | Every seed dish has an image URL. |
| Store.FillNames | app/api/menu/route.ts:30-39 | Each of the five texts is the given one, or `''` when absent. |
| Store.FindUser | app/api/tables/route.ts:28 | The user found has that id. None is found exactly when no record has it. |
| Store.BaseUrl | app/api/tables/route.ts:43 | `NEXTAUTH_URL` when set and non-empty, otherwise `http://localhost:3000`. |
| Store.QrUrlShape | app/api/tables/route.ts:44 | A QR address is `baseUrl/menu/slug/` followed by the table id's digits, which read back as the id. |
| MenuApi.FlagOrFalse | app/api/menu/route.ts:42 | `hasSpicy` is true only when sent as true. |
| MenuApi.PresentOrTrue | app/api/menu/route.ts:43 | `available` is kept when sent (an explicit false included), and is true when absent. |
| MenuApi.NewItem | app/api/menu/route.ts:26-45 | The new item belongs to the session user and the requested category. Names default to `''`, an unparsable price to 0, an empty image to null, hasSpicy to false, available to true, and sortOrder to 0. |
| MenuApi.CreateMenuItem | app/api/menu/route.ts:6-48 | 401, then 400 without a category, then 404 when the category is missing or another restaurant's, each leaving the store unchanged. It succeeds exactly when the session owns the category, with 201 and the item appended. |
| MenuApi.CreateKeepsItemsWithOwner | app/api/menu/route.ts:18-29 | If every item sits under a category of its own owner, that stays true after any request. |
| MenuApi.CreateChangesOnlyMenuItems | app/api/menu/route.ts:14-48 | A rejection leaves the store unchanged. A success appends one item and touches no other table. |
| CategoriesApi.ItemsOf | app/api/categories/route.ts:15-19 | A category's items, exactly those filed under it, sorted by sortOrder. |
| CategoriesApi.ItemsOfCounts | app/api/categories/route.ts:15-19 | Each item filed under the category appears as many times as the table holds it, and no other item appears. |
| CategoriesApi.WithItems | app/api/categories/route.ts:12-20 | Each category is paired with its own items, in the given order. |
| CategoriesApi.OwnCategories | app/api/categories/route.ts:12-14 | Exactly the restaurant's categories, sorted by sortOrder. |
| CategoriesApi.OwnCategoriesCounts | app/api/categories/route.ts:12-14 | Each of the restaurant's categories appears as many times as the table holds it, and no other restaurant's category appears. |
| CategoriesApi.ListCategories | app/api/categories/route.ts:6-23 | 401 without a session user, otherwise 200. |
| CategoriesApi.ListingScoped | app/api/categories/route.ts:12-20 | Only the restaurant's categories are listed, each with exactly its own items, sorted. |
| CategoriesApi.ListingSorted | app/api/categories/route.ts:14 | Categories come in ascending sortOrder. |
| CategoriesApi.ListingComplete | app/api/categories/route.ts:12-13 | Every category of the restaurant is listed. |
| CategoriesApi.CreateCategory | app/api/categories/route.ts:25-46 | 401, or 201 with a category owned by the session user (names default to `''`, sortOrder to 0), appended under the next id. |
| CategoriesApi.CreatedCategoryListedForOwnerOnly | app/api/categories/route.ts:12-46 | A created category appears in its owner's listing and in no other restaurant's. |
| TablesApi.QrOf | app/api/tables/route.ts:15 | The code found points at the table. None is found exactly when no code does. |
| TablesApi.WithQr | app/api/tables/route.ts:12-16 | Each table is paired with its QR code, in the given order. |
| TablesApi.OwnTables | app/api/tables/route.ts:12-14 | Exactly the restaurant's tables, sorted by table number. |
| TablesApi.OwnTablesCounts | app/api/tables/route.ts:12-14 | Each of the restaurant's tables appears as many times as the table holds it, and no other restaurant's table appears. |
| TablesApi.ListTables | app/api/tables/route.ts:6-19 | 401 without a session user, otherwise 200. |
| TablesApi.TableListingScoped | app/api/tables/route.ts:12-16 | Only the restaurant's tables are listed, each with a code that points at it. |
| TablesApi.TableListingSorted | app/api/tables/route.ts:14 | Tables come in ascending table number. |
| TablesApi.TableListingComplete | app/api/tables/route.ts:12-13 | Every table of the restaurant is listed. |
| TablesApi.CreateTable | app/api/tables/route.ts:21-55 | 401, then 404 without a user record, each leaving the store unchanged. Otherwise 201 with the table (an empty name stored as null) and one QR code of the same owner, whose address is `baseUrl/menu/slug/tableId`. |
| TablesApi.CreateKeepsOneQrPerTable | app/api/tables/route.ts:34-52 | If every table has exactly one QR code of its owner, that stays true after creating a table. |
| TablesApi.CreatedTableFindsItsQr | app/api/tables/route.ts:46-54 | The new table's QR code is the one found for it. |
| TablesApi.QrOfLast | app/api/tables/route.ts:15 | A code appended for a table no earlier code points at is the one found. |
| SettingsApi.ViewOf | app/api/settings/route.ts:12-24 | The GET projection copies every column except the password. |
| SettingsApi.UpdatedViewOf | app/api/settings/route.ts:46-54 | The PUT projection copies every column except the email and the password. |
| SettingsApi.ViewsHidePassword | app/api/settings/route.ts:12-54 | Changing the password hash (or, for PUT, the email) changes neither answer. |
| SettingsApi.GetSettings | app/api/settings/route.ts:6-27 | 401 without a session user. Otherwise 200 with the session user's settings, or null exactly when there is no such record. |
| SettingsApi.Keep | app/api/settings/route.ts:40-44 | A field left out of the request keeps its value. |
| SettingsApi.Patched | app/api/settings/route.ts:37-45 | Only name, logo, colour, currency and admin language change. The logo is always written, as null when missing or empty. |
| SettingsApi.PatchUsers | app/api/settings/route.ts:37-39 | Only the record with the session id is patched. |
| SettingsApi.PutSettings | app/api/settings/route.ts:29-58 | 401, or 500 without a user record, each leaving the store unchanged. Otherwise 200 with the patched settings, and only the users table changes. |
| SettingsApi.PutKeepsIdentity | app/api/settings/route.ts:37-45 | Every user's id, email, slug and password hash survive. Other restaurants and other tables are untouched. |
| SettingsApi.PutOfReadBackIsIdentity | app/api/settings/route.ts:12-45 | Saving back what GET returned changes nothing (except an empty logo, which becomes null). |
| SettingsApi.SetAdminLang | app/api/settings/lang/route.ts:17-20 | Only the session user's admin language changes. |
| SettingsApi.PutAdminLang | app/api/settings/lang/route.ts:6-23 | 401, then 400 unless EN or TH, then 500 without a user record, each leaving the store unchanged. Otherwise 200 echoing the language, which is stored. |
| SettingsApi.AdminLangStaysValid | app/api/settings/lang/route.ts:13-20 | Through the language route, a stored admin language changes only to EN or TH, only for the session user, and nothing else changes. (The settings route writes `adminLang` unchecked; see `SettingsApi.Patched`.) |
| Localisation.LangKey | components/menu/MenuItemCard.tsx:24 | The key has the code's length: its first character upper-cased, the rest lower-cased. |
| Localisation.LangKeySelectsLanguage | components/menu/CustomerMenu.tsx:49-50 | The key of each language code selects that language's column. |
| Localisation.LangKeyIgnoresCase | components/menu/CustomerMenu.tsx:49-50 | The key does not depend on how the code is capitalised. |
| Localisation.Localised | components/menu/MenuItemCard.tsx:31-32 | The text in the chosen language, or the English text when that one is empty. |
| Localisation.LocalisedEmptyOnlyIfBothEmpty | components/menu/MenuItemCard.tsx:31-32 | The shown text is empty exactly when both the chosen and the English text are. |
| SpicySelector.LevelsTable | components/menu/SpicySelector.tsx:11-16 | Four levels 0..3 in order: a cross, then one, two and three chilies. |
| SpicySelector.Buttons | components/menu/SpicySelector.tsx:24-35 | One button per level, in order. A button is highlighted exactly when its level equals the value. |
| SpicySelector.Clicked | components/menu/SpicySelector.tsx:27 | Every value a click reports lies in 0..3. |
| SpicySelector.OneHighlight | components/menu/SpicySelector.tsx:24-35 | At most one button is highlighted, and one is exactly when the value is in 0..3. After a click, only the clicked button is highlighted. |
| MenuItemCard.CurrencySymbol | components/menu/MenuItemCard.tsx:35-38 | A known currency shows its symbol. Any other code shows itself. |
| MenuItemCard.SymbolsDistinct | components/menu/MenuItemCard.tsx:35-36 | Known currencies have distinct symbols, except that JPY and CNY share ¥. |
| MenuItemCard.PriceLabelReadsBack | components/menu/MenuItemCard.tsx:34-39 | A price label is the symbol, a space, the digits and `.00`, and the digits read back as the price. |
| MenuItemCard.PriceLabelInjective | components/menu/MenuItemCard.tsx:34-39 | Two prices with the same label in the same currency are equal. |
| MenuItemCard.RenderCard | components/menu/MenuItemCard.tsx:41-74 | The card shows the localised name, a description only when non-empty, and the image only when set. It is dimmed and badged exactly when unavailable, shows the selector exactly when spicy and available, and shows the formatted price. |
| MenuItemCard.BadgeAndSelectorExclusive | components/menu/MenuItemCard.tsx:66-74 | A card never shows both the badge and the selector. An available item is neither badged nor dimmed. |
| MenuItemCard.InitialLevelIsNoChili | components/menu/MenuItemCard.tsx:27 | A new card's selector highlights the "no chili" cross and nothing else. |
| CustomerMenu.DisplayCategories | components/menu/CustomerMenu.tsx:121-123 | `all` shows every category. A selected id shows only categories with that id, and all of them. |
| CustomerMenu.OnlyShowsOne | components/menu/CustomerMenu.tsx:121-123 | With distinct ids, selecting a category's id shows exactly that category. |
| CustomerMenu.FilterNone | components/menu/CustomerMenu.tsx:123 | No category carries the selected id, so none is shown. |
| CustomerMenu.FilterBar | components/menu/CustomerMenu.tsx:175-203 | An "all" button, then one button per category with its localised name. Each is highlighted exactly when it is the current selection. |
| CustomerMenu.CategoryButtons | components/menu/CustomerMenu.tsx:188-201 | One button per category, selecting its id and captioned with its localised name. |
| CustomerMenu.ClickHighlightsIt | components/menu/CustomerMenu.tsx:177-201 | Clicking any bar button highlights that button alone. |
| CustomerMenu.ClickShowsWhatItNames | components/menu/CustomerMenu.tsx:121-201 | Clicking "all" shows every category. Clicking a category shows that category alone. |
| CustomerMenu.PageColour | components/menu/CustomerMenu.tsx:118 | The restaurant's colour, or `#f97316` when it is empty. |
| CustomerMenu.SectionOf | components/menu/CustomerMenu.tsx:206-223 | A section is headed by the localised category name, with one card per item. |
| CustomerMenu.Cards | components/menu/CustomerMenu.tsx:212-220 | One card per item, in order. |
| CustomerMenu.Sections | components/menu/CustomerMenu.tsx:206-223 | One section per displayed category, in order. |
| CustomerMenu.RenderMenu | components/menu/CustomerMenu.tsx:117-229 | The filter bar shows exactly when there are two or more categories. The sections are those of the categories the selection displays, in order. The empty state shows exactly when no displayed category has items, which includes when none is displayed. |
| CustomerMenu.EmptyStateIffNoCards | components/menu/CustomerMenu.tsx:225 | The empty state shows exactly when the page shows no card. |
| CustomerMenu.CardCountZero | components/menu/CustomerMenu.tsx:225 | No card is rendered exactly when every displayed category is empty. |
| CustomerMenu.AfterFetch | components/menu/CustomerMenu.tsx:69-95 | Loading always ends. A non-OK menu response or a throw sets an error. A loaded menu becomes the restaurant. |
| CustomerMenu.ScreenOf | components/menu/CustomerMenu.tsx:101-115 | Loading first. Then not-found when there is an error or no restaurant. The menu shows exactly when loading is over, there is no error and there is a restaurant. |
| CustomerMenu.LoadingEndsInMenuOrNotFound | components/menu/CustomerMenu.tsx:61-115 | The page starts loading and then shows the menu exactly when the menu arrived, otherwise the not-found screen. |
| CustomerMenu.AvatarOf | components/menu/CustomerMenu.tsx:131-146 | The logo when set, otherwise the restaurant name's first character. |
| CustomerMenu.BookLabel | components/menu/CustomerMenu.tsx:11-17 | Every language has a non-empty booking-button label. |
| CustomerMenu.BookLabelsDistinct | components/menu/CustomerMenu.tsx:11-17 | No two languages share a booking label. |

## Left out

- Persistence, sessions and password hashing are foreign calls. Prisma becomes the in-memory `Db`, next-auth a session `Option<Id>`, and bcrypt the `hash` parameter of `Register.Register`.
- The database assigns cuid string ids. Here ids are natural numbers from the store's counter, in creation order. Only their freshness is relied on.
- Schema defaults of a new user (colour, currency, admin language) are the `ColumnDefaults` parameter. The schema is not part of this model.
- Prices are floating point in the source. Here they are whole numbers, so `toFixed(2)` always ends in `.00`, and `toLocaleString` is not modelled.
- `parseFloat(price)` is taken as already parsed: an `Option<int>`, with `None` for `NaN`.
- TablesApi.CreateTable: `tableNumber` is taken as an `int`. A `parseInt` result of `NaN` makes the database write throw, and the framework answers 500; that path is not modelled.
- TablesApi.CreateKeepsOneQrPerTable: the table and its QR code are two separate writes. A failure between them would leave a table without a code; the model treats the two writes as one step.
- MenuApi.CreateMenuItem: request fields are taken as well-typed. A JSON `null` or a wrong-typed value (`available: null`, `sortOrder: "5"`) reaches the database and makes it throw (500); that is not modelled.
- SettingsApi.PutSettings: likewise, a `null` or wrong-typed field such as `restaurantName: null` makes the update throw (500); that is not modelled.
- CustomerMenu.AvatarOf: strings are sequences of Unicode scalar values, so the first character of a name is a whole code point. `charAt(0)` takes one UTF-16 code unit, so for a name starting with an emoji the page shows a lone surrogate where the model shows the emoji.
- MenuItemCard.CurrencySymbol: only the symbol table's own keys are modelled. The lookup also finds members that every JavaScript object inherits, so a currency such as `constructor` shows the text of a function instead of itself. The settings route stores the currency unchecked.
- AdminBookings.StatusLabel: only the label table's own keys are modelled, for statuses and for the admin language. An admin language such as `constructor` would find an inherited function, which the page renders as nothing.
- AdminOrders.StatusLabel: only the label table's own keys are modelled. A status such as `constructor` would find an inherited member instead of falling back to the raw status.
- AdminOrders.BadgeColour: only the colour table's own keys are modelled. An inherited member found by an unusual status is not modelled.
- AdminBookings.BadgeColour: only the colour table's own keys are modelled. An inherited member found by an unusual status is not modelled.
- Local-time `Date` arithmetic is out of scope: timezones, daylight saving and month lengths. Today's midnight, the weekday and the day of the month are inputs, and a day is 24 hours.
- `Promise.all` concurrency is not modelled. The four statistics queries, and the page's two fetches, read one snapshot.
- `toLowerCase`/`toUpperCase` are modelled on ASCII only. Other characters are left unchanged.
- Prisma returns ties of `orderBy` in an unspecified order. The listings sort stably by the key. Their contracts state each record's multiplicity and the ascending keys; only the order of ties is left open.
- `findFirst` has no `orderBy` in registration. The model takes store order, which is what `Register.EarlierSlugHolderWins` relies on (see Findings).
- Register.Register: the catch-all 500 answer is not modelled. It covers a failure of the database or of hashing, and those are not modelled.
- The framework's answer when a settings update throws is modelled as `Error(500, "")`. The framework's actual error body is not modelled.
- Translation tables (`getCustomerT`, `adminTranslations`) are not part of this model. Translated captions are parameters, such as `AdminOrders.StatusTexts` and the "all" caption of `CustomerMenu.FilterBar`.
- The table line of the customer-menu header, the language picker and the browser-language detection are not modelled. They are rendering only, or they need translation tables and the browser.
- Submitting the sign-up form (posting it and showing `data.error || 'Registration failed'`) is not modelled. It is I/O around `Register.Register`.
- The booking and order mutation routes (status change, delete) are not modelled. Their handlers are not part of this model; only the buttons the bookings page offers are.
- Pure rendering details are not modelled: CSS classes other than badge colours, icons, and image sizes.

## Findings

| source | as written | input that shows it | evidently intended | confidence | as-written member | corrected member |
|---|---|---|---|---|---|---|
| app/auth/signup/page.tsx:82-85 | The name field fills in the slug only `if (!form.slug)`. After the first keystroke the slug holds that character, so the auto-fill stops. | Typing "Thai" into an empty form leaves the slug at "t" instead of "thai". | The slug follows the restaurant name until the owner edits the slug field. | not executed | Signup.TypingThaiGivesT | Signup.TypedNameFillsWholeSlug |
| app/api/register/route.ts:25-39 | One `findFirst` looks for a user holding the email OR the slug, and the email is reported only if that first match holds it. | Store [user 1 with slug "thai", user 2 with email "b@x.com"]; registering "b@x.com" with slug "thai" answers "Slug already taken", when the database returns user 1 first. | A taken email is reported whoever holds the slug. | not executed; the answer depends on the database's row order | Register.EarlierSlugHolderWins | Register.EmailAlwaysReportedFirst |
