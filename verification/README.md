# marg theme logic, modelled in Dafny

`marg` is a WordPress theme for a publisher's WooCommerce shop. Besides templates and styles it
carries a number of small decision procedures and data transformations. This project models
them in Dafny and proves what each promises. The WordPress, WooCommerce and ACF calls they lean
on are replaced by explicit inputs: a token store, a clock, decoded JSON files, a database
lookup, product records, and the `$menu`/`$submenu` globals.

One module per source file:

- `Php` (`php.dfy`): the slice of PHP and JavaScript runtime behaviour the theme relies on.
  It covers `empty()`, `strpos` and its truthiness, ASCII `strtolower`, `trim`, the single-pass
  `str_replace`, `explode`/`implode`, `intval`, and `isset`/`unset` on associative arrays.
- `SecurePdf` (`secure_pdf.dfy`): one-hour PDF access tokens.
  - `get_secure_pdf_url` runs its guards in order and mints a token into the transient store (the `TokenStore` class).
  - `serve_secure_pdf` runs its ordered check chain (400, 401, 403).
  - The fetched content is validated (404, 400, `%PDF` magic).
- `AcfFieldGroups` (`acf_field_groups.dfy`): the decoded `acf-json` files, the stored field groups (the `FieldGroupStore` class), and the per-file decision the two sync flows share.
- `AcfSyncNow` (`acf_sync_now.dfy`): the stand-alone sync script with its counters and printed total.
- `AcfSync` (`acf_sync.dfy`): the `ACFSync` class.
  - The JSON save and load points.
  - The "needs sync" report and its admin-bar node.
  - The unconditional "sync all".
- `AcfCleanupDuplicates` (`acf_cleanup_duplicates.dfy`): buckets field-group posts by key, keeps the earliest post date per key, and deletes the rest.
- `WpMenu` (`wp_menu.dfy`): the admin-menu globals as the `AdminMenu` class, with WordPress's `remove_menu_page`, `add_submenu_page`, `remove_submenu_page` and `unset`.
- `AdminMenuCustomizer` (`admin_menu_customizer.dfy`): the `parent_file` classifier and the menu sweeps that regroup the admin menu under Content, Site Settings and Advanced.
- `DisableComments` and `DisableProductReviews` (`disable_comments.dfy`, `disable_product_reviews.dfy`): the key-removal filters, the redirects, and the removal of comment and review entries from the admin menu.
- `AcfCategoryFilter` (`acf_category_filter.dfy`): keeps the "Uncategorized" product category out of ACF queries, results and choices.
- `PersonPostType` (`person_post_type.dfy`): the generated person title and the list-screen heading.
- `DashboardDocumentation` (`dashboard_documentation.dfy`): the widget moved to the front of the dashboard column, and the header and paragraph steps of the markdown converter.
- `WooCustomizations` (`woo_customizations.dfy`):
  - the filters that remove grouped and external products and upsells;
  - the conversion and upsell-clearing routines over a `ProductStore` class.
- `WooMemberships` (`woo_memberships.dfy`): member-button eligibility, the selected variation, and the member's download link.
- `ConditionalTaxonomy` (`conditional_taxonomy.dfy`): the slug-based show/hide script for the Taxonomy field group. Its show and hide lists are those `ACFConditionalLogic.php` passes at lines 69-70.
- `ConditionalTaxonomySimple` (`conditional_taxonomy_simple.dfy`): the "subscription" script that `ACFConditionalLogic.php` actually enqueues (line 56), compared with the slug-based one.
- `ThemeBootstrap` (`theme_bootstrap.dfy`): the local-environment flag and the fallback class autoloader of `functions.php`.

Code with loops that update state (token store, field-group store, admin-menu globals, product
store, the choice and variation scans, the paragraph loop) is written as methods proved against
specification functions; the rest is functions and lemmas.

## Model

| member | source | states |
|---|---|---|
| SecurePdf.CheckRequest | themes/marg/src/SecurePDFEndpoint.php:81-110 | the request is admitted exactly when the token is non-empty, stored, not past `expires` (strict `>`), and the logged-in user is the stored user; otherwise the first failing check decides: 400 "Invalid token", 401 "Token expired or invalid", 401 "Token expired", 403 "Unauthorized access" |
| SecurePdf.ValidatePdf | themes/marg/src/SecurePDFEndpoint.php:176-199 | the content is served exactly when it has at least four bytes starting with "%PDF", with Content-Length equal to its byte length; empty content is exactly the 400 "Empty PDF content", and non-empty content without the magic is exactly the 400 "Invalid PDF format" |
| SecurePdf.ServePdfWithHeaders | themes/marg/src/SecurePDFEndpoint.php:129-188 | a URL starting with "http" is fetched and needs a body and HTTP 200 (else 404); a local path needs to exist (404), be readable (403) and be read (500); the body fetched or read then gets the PDF check's answer, so whatever is served passes it |
| SecurePdf.ServeAsWritten | themes/marg/src/SecurePDFEndpoint.php:81-120 | a rejected request answers with the check's status and message; an admitted one answers with the fetched PDF and its headers and keeps the store; the token's entry is lost exactly when the check answers 401 "Token expired", and in every other case the store is unchanged |
| SecurePdf.ServeSingleUse | themes/marg/src/SecurePDFEndpoint.php:117-120 | the reply is the as-written reply; the store is the as-written store, less the token's entry when a PDF was served, so after a served PDF the store is the old one without the token |
| SecurePdf.MintedTokenWindow | themes/marg/src/SecurePDFViewer.php:237-251 | as long as the stored entry is there, a minted token admits its owner at every time up to and including `now + 3600`, the `expires` check refuses it with 401 "Token expired" after that, and it is refused to a logged-out user |
| SecurePdf.AsWrittenTokenReplays | themes/marg/src/SecurePDFEndpoint.php:117-120 | after a successful serve the token is still stored and the same request is served again with the same body |
| SecurePdf.SingleUseTokenRefusedAfterServe | themes/marg/src/SecurePDFEndpoint.php:119-120 | with the clean-up in effect, the next use of a served token is refused with 401 "Token expired or invalid" |
| SecurePdf.ChoosePdfUrl | themes/marg/src/SecurePDFViewer.php:117-180 | a URL is chosen exactly when every guard passes; the first failing guard gives its message, each exactly when the guards before it pass and it fails (nonce, login, membership, product, "Product is not downloadable", "No downloads available", "PDF file not found", "PDF file not accessible"); the URL is the first download's file, or the fixed local file for variation 222 |
| SecurePdf.SecureUrl | themes/marg/src/SecurePDFViewer.php:190-194 | the secure URL starts with the admin-ajax URL and continues with `?` (or `&` when a query is present), the action and the token |
| SecurePdf.TokenStore.GenerateSecureUrl | themes/marg/src/SecurePDFViewer.php:237-255 | returns the token and adds exactly its entry: URL, user and `now + 3600`, with a one-hour TTL; the key set grows by that key |
| SecurePdf.TokenStore.ServeSecurePdf | themes/marg/src/SecurePDFEndpoint.php:81-120 | response and new store are those of `ServeAsWritten`: a rejection carries the check's status and message, a served PDF leaves the store unchanged, and the token is deleted exactly on the 401 "Token expired" |
| SecurePdf.TokenStore.ServeSecurePdfSingleUse | themes/marg/src/SecurePDFEndpoint.php:117-120 | response and new store are those of `ServeSingleUse`; a served PDF removes exactly its token |
| SecurePdf.GetSecurePdfUrl | themes/marg/src/SecurePDFViewer.php:117-202 | success exactly when every guard passes; then one entry is minted for the chosen URL and the reply carries the secure URL and product name; every refusal carries the guard's message and leaves the store unchanged |
| AcfFieldGroups.Decide | themes/marg/acf-sync-now.php:72-104 | a file is invalid exactly when it has no data or no key; it is imported exactly when its key is not stored; it is updated exactly when it is stored and the JSON `modified` (default 0) is newer; otherwise it is up to date |
| AcfFieldGroups.AfterImport | themes/marg/acf-sync-now.php:108-122 | after an import the key is stored with the new post ID; its `_acf_modified` becomes the JSON's when the JSON has one and otherwise stays; every other group is unchanged |
| AcfFieldGroups.FieldGroupStore.Import | themes/marg/acf-sync-now.php:108-126 | succeeds exactly when the importer returns an ID; the store then becomes `AfterImport`, and a failed import leaves it unchanged |
| AcfSyncNow.Step | themes/marg/acf-sync-now.php:65-127 | per file: invalid adds one error; up to date adds one skip; a failed import adds one error; a successful import adds one to imported or updated by prior existence; exactly one counter moves, by one |
| AcfSyncNow.SyncFoldAccountsEveryFile | themes/marg/acf-sync-now.php:65-127 | imported + updated + skipped + errors equals the number of files |
| AcfSyncNow.TotalProcessed | themes/marg/acf-sync-now.php:149-166 | an error result prints no total; otherwise the total plus the number of errors accounts for every counted file |
| AcfSyncNow.DisplayedTotalIsFilesWithoutErrors | themes/marg/acf-sync-now.php:165 | the printed total is the number of files minus the number of errors |
| AcfSyncNow.SyncFoldLeavesBatchUpToDate | themes/marg/acf-sync-now.php:85-122 | after a run over valid, stamped, importable files with distinct keys, every one of those files is up to date |
| AcfSyncNow.SyncFoldOverUpToDateSkipsAll | themes/marg/acf-sync-now.php:99-102 | over files that are all up to date, the run skips every file and changes nothing |
| AcfSyncNow.SecondSyncSkipsEverything | themes/marg/acf-sync-now.php:43-139 | running the sync twice over such a batch: the second run skips every file and leaves the database as the first run left it |
| AcfSyncNow.PerformJsonSync | themes/marg/acf-sync-now.php:43-139 | a missing directory or no files gives its error result and leaves the store unchanged; otherwise counters and store are those of the fold over the files |
| AcfSync.SaveJsonPoint | themes/marg/src/ACFSync.php:46-50 | the save point is the stylesheet directory followed by "/acf-json" |
| AcfSync.SaveJsonPointIgnoresInput | themes/marg/src/ACFSync.php:46-50 | the incoming path plays no part |
| Php.UnsetKeyKeepsOrder | themes/marg/src/ACFSync.php:60 | `unset` only deletes entries: the ones left keep their relative order |
| AcfSync.SetJsonLoadPoint | themes/marg/src/ACFSync.php:58-66 | key 0 is dropped, every other entry is kept in its order (a list without key 0 is kept whole), and the theme's path is appended last under the next free key |
| AcfSync.LoadPointAppendsFreshKey | themes/marg/src/ACFSync.php:58-66 | on a well-formed list the appended key is new, so no kept entry is overwritten, and the result is well-formed |
| AcfSync.NeedOf | themes/marg/src/ACFSync.php:135-163 | a file gives a report row exactly when it is valid and its group is missing or older; the row holds key, title (default "Unknown"), status and file name |
| AcfSync.NeedsSyncListExact | themes/marg/src/ACFSync.php:132-166 | a row is in the report exactly when some file gives it; there are no more rows than files |
| AcfSync.GetGroupsNeedingSync | themes/marg/src/ACFSync.php:117-167 | without ACF the report is empty; otherwise it is the rows of the files in order |
| AcfSync.AdminBarNode | themes/marg/src/ACFSync.php:175-193 | a node appears exactly for a user who may manage options when the report is non-empty, and shows its length |
| AcfSync.AdminBarShownIffSomeFileNeedsSync | themes/marg/src/ACFSync.php:175-193 | the node appears exactly when the user may manage options and some file needs an import or an update |
| AcfSync.SyncAllStep | themes/marg/src/ACFSync.php:240-268 | per file: invalid or failed imports add an error; a successful import counts as updated or imported by prior existence and stores the group; exactly one counter moves |
| AcfSync.SyncAllAccountsEveryFile | themes/marg/src/ACFSync.php:240-268 | imported + updated + errors equals the number of files |
| AcfSync.SyncAllIgnoresStamps | themes/marg/src/ACFSync.php:248-258 | no timestamp is compared: databases with the same keys give the same counters and key sets |
| AcfSync.SyncAllFieldGroups | themes/marg/src/ACFSync.php:222-276 | without ACF the result is "ACF not available" and the store is unchanged; otherwise counters and store are those of the fold |
| AcfCleanupDuplicates.StrCmp | themes/marg/acf-cleanup-duplicates.php:93-95 | the sign of `strcmp` is -1, 0 or 1, and 0 exactly for equal strings |
| AcfCleanupDuplicates.StrCmpAntisymmetric | themes/marg/acf-cleanup-duplicates.php:93-95 | swapping the arguments negates the comparison |
| AcfCleanupDuplicates.StrCmpTransitive | themes/marg/acf-cleanup-duplicates.php:93-95 | the date order is transitive, so the sort below is well defined |
| AcfCleanupDuplicates.InsertByDate | themes/marg/acf-cleanup-duplicates.php:93-95 | inserting adds exactly the one row: same multiset plus the row |
| AcfCleanupDuplicates.SortByDate | themes/marg/acf-cleanup-duplicates.php:93-95 | the sort is a permutation of its input |
| AcfCleanupDuplicates.InsertByDateSorted | themes/marg/acf-cleanup-duplicates.php:93-95 | inserting into a date-sorted bucket keeps it sorted |
| AcfCleanupDuplicates.SortByDateSorted | themes/marg/acf-cleanup-duplicates.php:93-95 | the sorted bucket is ordered by `strcmp` of the post dates |
| AcfCleanupDuplicates.SortByDateStable | themes/marg/acf-cleanup-duplicates.php:93-95 | the sort is stable: for every date, the rows with that date come out in the order they went in |
| AcfCleanupDuplicates.HeadFirst | themes/marg/acf-cleanup-duplicates.php:98 | the first row of a sorted bucket has a date no later than any row of it |
| AcfCleanupDuplicates.RowOf | themes/marg/acf-cleanup-duplicates.php:78-86 | a collected row carries the post's ID, date and the ACF key |
| AcfCleanupDuplicates.BucketExact | themes/marg/acf-cleanup-duplicates.php:65-87 | a row is in a key's bucket exactly when it comes from a post whose ACF record has that key; posts without a record or key are skipped |
| AcfCleanupDuplicates.KeyOrderExact | themes/marg/acf-cleanup-duplicates.php:74-76 | a key is listed exactly when its bucket is non-empty, and no key is listed twice |
| AcfCleanupDuplicates.EntryFor | themes/marg/acf-cleanup-duplicates.php:93-100 | the entry for a key: keep followed by delete is exactly the date-sorted bucket |
| AcfCleanupDuplicates.DuplicatesOfSound | themes/marg/acf-cleanup-duplicates.php:90-102 | every entry is for a listed key whose bucket holds more than one row |
| AcfCleanupDuplicates.DuplicatesOfComplete | themes/marg/acf-cleanup-duplicates.php:90-102 | every listed key whose bucket holds more than one row has its entry |
| AcfCleanupDuplicates.DuplicatesSplitEachBucket | themes/marg/acf-cleanup-duplicates.php:90-102 | a key has an entry exactly when more than one keyed post carries it; keep and delete together are the bucket; delete holds count−1 rows; keep has the earliest date |
| AcfCleanupDuplicates.IdentifyDuplicateFieldGroups | themes/marg/acf-cleanup-duplicates.php:43-105 | the method returns exactly the specified duplicates |
| AcfCleanupDuplicates.GroupByKey | themes/marg/acf-cleanup-duplicates.php:61-87 | the first loop's map holds exactly the met keys, each bound to its bucket in query order |
| AcfCleanupDuplicates.BucketStep | themes/marg/acf-cleanup-duplicates.php:72-86 | one more post changes only its own key's bucket, by one row at the end, and lists its key if new |
| AcfCleanupDuplicates.RowIds | themes/marg/acf-cleanup-duplicates.php:159-160 | the IDs of the rows, one per row, in order |
| AcfCleanupDuplicates.DeleteIdsCount | themes/marg/acf-cleanup-duplicates.php:140-162 | as many posts are deleted as the announced total |
| AcfCleanupDuplicates.DisplayCleanupResults | themes/marg/acf-cleanup-duplicates.php:140-163 | the announced total is the sum of the delete sizes; without confirm nothing is deleted; with confirm every delete entry is deleted once, in order, and the count equals the total |
| WpMenu.SlugIndex | themes/marg/src/AdminMenuCustomizer.php:147-148 | the slot `remove_menu_page` finds: the first with the given slug, and none when no slot has it |
| Php.UnsetKeyMembers | themes/marg/src/AdminMenuCustomizer.php:176 | `unset( $menu[$key] )` keeps exactly the entries with another key |
| WpMenu.UnsetKeyRemovesOnly | themes/marg/src/AdminMenuCustomizer.php:176 | with distinct keys, unsetting one slot's key removes exactly that slot and keeps the order of the rest |
| WpMenu.UnsetKeyAfterKept | themes/marg/src/AdminMenuCustomizer.php:172-180 | while a `foreach` over a snapshot unsets some slots, unsetting the next slot's key removes just that slot from the live list |
| WpMenu.KeepUnlessMembers | themes/marg/src/AdminMenuCustomizer.php:528-557 | the slots a sweep keeps are exactly those it does not move |
| WpMenu.ParentLinks | themes/marg/src/AdminMenuCustomizer.php:62-69 | the items `add_submenu_page` copies into a fresh submenu all carry the parent's slug, at most one per top-level slot |
| WpMenu.ParentLinksMembers | themes/marg/src/AdminMenuCustomizer.php:61-67 | an item is copied exactly when it is a top-level item with the parent's slug |
| WpMenu.ParentLinksConcat | themes/marg/src/AdminMenuCustomizer.php:61-67 | the copies keep the order of the top-level menu: the links of two runs of slots are the links of the first, then those of the second |
| WpMenu.PushAll | themes/marg/src/AdminMenuCustomizer.php:62-69 | appending keeps the existing slots and adds each item under the next keys in turn |
| WpMenu.RemoveMenuPage | themes/marg/src/AdminMenuCustomizer.php:147-168 | the first top-level slot with the slug is removed and nothing else changes; with no such slot the state is unchanged |
| WpMenu.AddSubmenuPage | themes/marg/src/AdminMenuCustomizer.php:62-145 | the top-level menu and every other parent's submenu are unchanged; an existing submenu gets the item appended under its next key; a fresh one holds the copied parent links under keys 0, 1, … in menu order (none when the item links to the parent itself), then the item under the next key |
| WpMenu.UnsetMenuKey | themes/marg/src/AdminMenuCustomizer.php:176 | only the top-level slot with the key is removed |
| WpMenu.UnsetSubmenuKey | themes/marg/src/AdminMenuCustomizer.php:184 | only the slot with the key under that parent is removed; an absent parent stays absent |
| WpMenu.RemoveSubmenuPage | themes/marg/src/DisableProductReviews.php:148 | the first slot under the parent with the slug is removed; otherwise nothing changes |
| WpMenu.FirstSubmenuPageGetsParentLink | themes/marg/src/AdminMenuCustomizer.php:62-69 | the first item added under a fresh parent with one top-level item lands at key 1, after the parent's own link at key 0 (which is why entry 0 is later unset) |
| WpMenu.AdminMenu.RemoveMenuPageCall | themes/marg/src/AdminMenuCustomizer.php:147-168 | the globals become `RemoveMenuPage` of the old globals |
| WpMenu.AdminMenu.AddSubmenuPageCall | themes/marg/src/AdminMenuCustomizer.php:62-145 | the globals become `AddSubmenuPage` of the old globals |
| WpMenu.AdminMenu.UnsetMenuKeyCall | themes/marg/src/AdminMenuCustomizer.php:176 | the globals become `UnsetMenuKey` of the old globals |
| WpMenu.AdminMenu.UnsetSubmenuKeyCall | themes/marg/src/AdminMenuCustomizer.php:184 | the globals become `UnsetSubmenuKey` of the old globals |
| WpMenu.AdminMenu.RemoveSubmenuPageCall | themes/marg/src/DisableComments.php:94 | the globals become `RemoveSubmenuPage` of the old globals |
| AdminMenuCustomizer.AdjustParentFile | themes/marg/src/AdminMenuCustomizer.php:571-632 | a content-type screen maps to content-menu before any other rule; then `edit.php` to content-menu; the five settings pages to site-settings-menu; listed advanced slugs, parents containing "payments" or "Payments" and screen ids containing "woocommerce" to advanced-menu; any other parent is returned unchanged |
| AdminMenuCustomizer.MovedPagesHighlightTheirParent | themes/marg/src/AdminMenuCustomizer.php:582-629 | off content screens, every settings page highlights Site Settings and every slug the Advanced sweeps move highlights Advanced, whatever the screen id |
| AdminMenuCustomizer.FirstMatch | themes/marg/src/AdminMenuCustomizer.php:121-131 | the hit of a sweep with `break` is the first slot whose title matches; no earlier slot matches, and none at all when there is no hit |
| AdminMenuCustomizer.OnlyFirstMatchRemoved | themes/marg/src/AdminMenuCustomizer.php:173-180 | a removing sweep takes out only the first matching item; every other item, later matches included, stays in order |
| AdminMenuCustomizer.FirstMatchAt | themes/marg/src/AdminMenuCustomizer.php:174-179 | a matching slot with no earlier match is the hit |
| AdminMenuCustomizer.ApplyHitCall | themes/marg/src/AdminMenuCustomizer.php:123-130 | the globals become those after adding the hit's submenu entry and unsetting it, as asked |
| AdminMenuCustomizer.SweepFirst | themes/marg/src/AdminMenuCustomizer.php:121-131 | the loop reports a hit exactly when some slot matches, and the globals become those after handling the first hit |
| AdminMenuCustomizer.AnalyticsSweep | themes/marg/src/AdminMenuCustomizer.php:309-322 | the loop over the snapshot gives the globals of the Analytics fold: each hit added under Advanced, then removed by slug |
| AdminMenuCustomizer.RemoveSlugAfter | themes/marg/src/AdminMenuCustomizer.php:319 | `remove_menu_page` of a slug first met at a slot removes that slot |
| AdminMenuCustomizer.AnalyticsFoldPrefix | themes/marg/src/AdminMenuCustomizer.php:309-322 | after visiting a prefix of the snapshot, the menu is the unmatched part of the prefix followed by the unvisited slots |
| AdminMenuCustomizer.AnalyticsMovesEveryMatch | themes/marg/src/AdminMenuCustomizer.php:309-322 | with distinct slugs every item whose title contains "Analytics" (case-sensitive) is moved, not only the first, and every other item stays in order |
| AdminMenuCustomizer.KeywordSweep | themes/marg/src/AdminMenuCustomizer.php:528-557 | the loop gives the globals of the keyword fold: each hit added under Advanced under its own title, then unset |
| AdminMenuCustomizer.KeywordFoldPrefix | themes/marg/src/AdminMenuCustomizer.php:528-557 | after visiting a prefix, the menu is the kept part of the prefix followed by the unvisited slots |
| AdminMenuCustomizer.KeywordSweepRemovesExactlyMatches | themes/marg/src/AdminMenuCustomizer.php:528-557 | the keyword sweep removes exactly the items with a title, a slug outside the core menus and a keyword in the title (any case); items without a title or slug, or with a core slug, always stay |
| AdminMenuCustomizer.RemoveMenuPages | themes/marg/src/AdminMenuCustomizer.php:259-263 | removing top-level pages leaves the submenus unchanged |
| AdminMenuCustomizer.RemoveMenuPagesLoop | themes/marg/src/AdminMenuCustomizer.php:366-369 | the loop removes each slug in turn |
| AdminMenuCustomizer.RemovePlaceholder | themes/marg/src/AdminMenuCustomizer.php:183-185 | the placeholder removal is `unset` of key 0 under the parent, and nothing when the parent has no submenu |
| AdminMenuCustomizer.RemovePlaceholderCall | themes/marg/src/AdminMenuCustomizer.php:183-185 | the globals become `RemovePlaceholder` of the old globals |
| AdminMenuCustomizer.FirstPeopleType | themes/marg/src/AdminMenuCustomizer.php:105-117 | the chosen People post type is listed and exists; with none chosen, no listed type exists |
| AdminMenuCustomizer.FirstPeopleTypeAt | themes/marg/src/AdminMenuCustomizer.php:105-117 | the loop with `break` picks the first existing type in list order |
| AdminMenuCustomizer.AddPeople | themes/marg/src/AdminMenuCustomizer.php:101-133 | People goes under Content from the first existing People post type, else from the first item whose title contains "People" (any case) |
| AdminMenuCustomizer.RemovePeopleTypes | themes/marg/src/AdminMenuCustomizer.php:164-170 | `remove_menu_page` is called for each existing People post type, in list order |
| AdminMenuCustomizer.AddContentItems | themes/marg/src/AdminMenuCustomizer.php:58-144 | the globals become those after the Content `add_submenu_page` calls |
| AdminMenuCustomizer.RemoveContentOriginals | themes/marg/src/AdminMenuCustomizer.php:146-185 | the globals become those after the Content removals, the first "People" item removal and the placeholder removal |
| AdminMenuCustomizer.ReorganizeAdminMenu | themes/marg/src/AdminMenuCustomizer.php:58-186 | the globals become those of the whole Content reorganisation |
| AdminMenuCustomizer.ContentSubmenuIsTheContentItems | themes/marg/src/AdminMenuCustomizer.php:58-186 | under a fresh Content parent, exactly the Content entries remain, in order, at keys 1, 2, ...: Posts, Pages, Products with WooCommerce, Events with an `event` type, People from the first People type or the first "People" item, and the Events Calendar's events; the copied parent link at key 0 is what the placeholder removal takes out |
| AdminMenuCustomizer.ReorganizeSettingsMenu | themes/marg/src/AdminMenuCustomizer.php:210-269 | the globals become those of the Site Settings reorganisation |
| AdminMenuCustomizer.SettingsSubmenuIsTheFivePages | themes/marg/src/AdminMenuCustomizer.php:210-269 | under a fresh Site Settings parent, exactly the five settings pages remain, in order, at keys 1-5; the copied parent link at key 0 is what the placeholder removal takes out |
| AdminMenuCustomizer.AdvancedStep1 | themes/marg/src/AdminMenuCustomizer.php:297-356 | the globals become those after WooCommerce, the Analytics sweep, Marketing, ACF and FileBird |
| AdminMenuCustomizer.AdvancedStep2 | themes/marg/src/AdminMenuCustomizer.php:360-426 | the globals become those after the Payments and Code Snippets sweeps |
| AdminMenuCustomizer.AdvancedStep3 | themes/marg/src/AdminMenuCustomizer.php:429-474 | the globals become those after AltText.ai and WP Synchro |
| AdminMenuCustomizer.AdvancedStep4 | themes/marg/src/AdminMenuCustomizer.php:477-562 | the globals become those after All Export, All Import, the keyword sweep and the placeholder removal |
| AdminMenuCustomizer.ReorganizeAdvancedMenu | themes/marg/src/AdminMenuCustomizer.php:293-563 | the globals become those of the four phases of the Advanced reorganisation, in order |
| AdminMenuCustomizer.AdvancedMenuCollectsPlugins | themes/marg/src/AdminMenuCustomizer.php:293-563 | afterwards Advanced lists AltText.ai and WP Synchro, Snippets with Code Snippets, All Export with WP All Export and All Import with WP All Import; no entry is left at the placeholder key 0; every entry Advanced had at another key stays; no other parent's submenu changes |
| DisableComments.RemoveCommentsFromRestApi | themes/marg/src/DisableComments.php:163-171 | neither comment route is set afterwards; every other endpoint is kept with its value, and nothing is added |
| DisableComments.RemoveXPingback | themes/marg/src/DisableComments.php:207-212 | only the `X-Pingback` header goes; every other header is kept with its value |
| DisableComments.RemoveXmlrpcPingback | themes/marg/src/DisableComments.php:220-228 | only the two pingback methods go; every other method is kept with its value |
| DisableComments.CommentFiltersIdempotent | themes/marg/src/DisableComments.php:163-228 | applying any of the three filters twice is the same as applying it once |
| DisableComments.HideCommentsNumber | themes/marg/src/DisableComments.php:142-144 | the comment count is always the empty string |
| DisableComments.CommentsAdminRedirect | themes/marg/src/DisableComments.php:65-72 | the redirect to the dashboard happens exactly on `edit-comments.php` and `options-discussion.php` |
| DisableComments.RemoveCommentsMenuSpec | themes/marg/src/DisableComments.php:92-95 | the top-level Comments page is removed as by `remove_menu_page`; without a Settings submenu the submenus are unchanged |
| DisableComments.RemoveCommentsMenu | themes/marg/src/DisableComments.php:92-95 | the globals become `RemoveCommentsMenuSpec` of the old globals |
| DisableComments.CommentsMenuEntriesGone | themes/marg/src/DisableComments.php:92-95 | when Comments and Discussion each appear once at most, the top-level menu keeps exactly the items other than Comments, the Settings submenu keeps exactly the entries other than Discussion (with its next key), and every other submenu is unchanged |
| DisableProductReviews.RemoveReviewsTab | themes/marg/src/DisableProductReviews.php:114-119 | `reviews` is not set afterwards; every other tab is kept with its value |
| DisableProductReviews.RemoveReviewsColumn | themes/marg/src/DisableProductReviews.php:160-165 | `comments` is not set afterwards; every other column is kept with its value |
| DisableProductReviews.RemoveRatingFromStructuredData | themes/marg/src/DisableProductReviews.php:204-212 | `aggregateRating` and `review` are not set afterwards; every other key is kept with its value |
| DisableProductReviews.ReviewFiltersIdempotent | themes/marg/src/DisableProductReviews.php:114-212 | applying any of the key-removal filters twice is the same as applying it once |
| DisableProductReviews.RemoveReviewSorting | themes/marg/src/DisableProductReviews.php:318-325 | when `meta_key` is `_wc_average_rating` it is removed and `orderby` becomes `date`, with every other key unchanged; otherwise the args are unchanged |
| DisableProductReviews.RemoveReviewSortingIdempotent | themes/marg/src/DisableProductReviews.php:318-325 | a second pass changes nothing |
| DisableProductReviews.DisableProductReviewsOpen | themes/marg/src/DisableProductReviews.php:174-180 | comments are closed on products; other posts pass through |
| DisableProductReviews.RemoveProductReviewsFromList | themes/marg/src/DisableProductReviews.php:189-195 | products get an empty comment list; other posts pass through |
| DisableProductReviews.ReviewsRedirect | themes/marg/src/DisableProductReviews.php:86-96 | the redirect to the products list happens exactly on `edit.php` with `post_type=product` and `page=product-reviews` |
| DisableProductReviews.ReviewSweepPrefix | themes/marg/src/DisableProductReviews.php:131-137 | after a prefix of the loop, the parent's entries are the kept part of the prefix followed by the unvisited entries |
| DisableProductReviews.ReviewSweepRemovesExactlyReviews | themes/marg/src/DisableProductReviews.php:131-145 | the sweep over one parent removes exactly the entries whose slug contains `edit-comments.php` or `product-reviews`; the rest keep their keys and order, and nothing else changes |
| DisableProductReviews.ReviewSweep | themes/marg/src/DisableProductReviews.php:131-137 | an absent parent leaves the globals unchanged; otherwise they become those of the sweep over the parent's snapshot |
| DisableProductReviews.RemoveReviewsAdminMenu | themes/marg/src/DisableProductReviews.php:126-152 | the globals become those after both sweeps and the two explicit removals |
| DisableProductReviews.ProductReviewsIsAReviewSlug | themes/marg/src/DisableProductReviews.php:148 | the `product-reviews` page is itself a review entry, so the sweep has already removed it |
| DisableProductReviews.ReviewEntriesGoneFromBothParents | themes/marg/src/DisableProductReviews.php:126-152 | both submenus end up holding exactly their non-review entries, in order and under their old keys; every other parent is unchanged |
| AcfCategoryFilter.PriorExcludes | themes/marg/src/ACFCategoryFilter.php:47-53 | an unset `exclude` becomes an empty list, a list is kept, and a scalar is wrapped in a one-element list |
| AcfCategoryFilter.FilterUncategorizedCategory | themes/marg/src/ACFCategoryFilter.php:39-60 | on a `product_cat` field, when the `uncategorized` term exists, its id is appended to the normalised exclusions and every other argument is kept; otherwise the args are returned unchanged |
| AcfCategoryFilter.EarlierExclusionsKept | themes/marg/src/ACFCategoryFilter.php:51-55 | the existing exclusion list is kept, in order, as a prefix, and the term id follows it |
| AcfCategoryFilter.FilterUncategorizedResult | themes/marg/src/ACFCategoryFilter.php:71-80 | the text is blanked exactly for the `uncategorized` term on a `product_cat` field; otherwise it is returned unchanged |
| Php.UnsetKeyAbsent | themes/marg/src/ACFCategoryFilter.php:94-96 | unsetting a key that no choice has leaves the choices as they were, so the `isset` guard changes nothing |
| AcfCategoryFilter.KeptChoicesMembers | themes/marg/src/ACFCategoryFilter.php:99-103 | the surviving choices are exactly the choices whose key is not `uncategorized` and whose label does not lowercase to `uncategorized` |
| AcfCategoryFilter.KeptChoicesIgnoresFirstUnset | themes/marg/src/ACFCategoryFilter.php:94-103 | unsetting the `uncategorized` key before the loop changes nothing the loop would not remove anyway |
| AcfCategoryFilter.ChoiceLoopStep | themes/marg/src/ACFCategoryFilter.php:99-103 | each pass of the loop keeps "choices kept so far, then the unvisited choices" |
| AcfCategoryFilter.UnsetUncategorizedChoices | themes/marg/src/ACFCategoryFilter.php:99-103 | the loop over a snapshot of the choices, unsetting each matching one by key, leaves exactly the kept choices in order |
| AcfCategoryFilter.FilterFieldChoices | themes/marg/src/ACFCategoryFilter.php:88-105 | on the Publication Type field with array choices, only the kept choices remain, in order; any other field passes through unchanged |
| AcfCategoryFilter.KeptChoicesExact | themes/marg/src/ACFCategoryFilter.php:88-105 | the surviving choices are exactly the non-"uncategorized" input choices, and a second pass over them removes nothing |
| PersonPostType.PersonTitle | themes/marg/src/PersonPostType.php:60-67 | a non-empty first name begins the title, and a non-empty last name ends it; with both, they are joined by one space; with one, the title is that name; with neither, the title is empty |
| PersonPostType.TitleEmptyIffNoName | themes/marg/src/PersonPostType.php:60-70 | the title is `empty()` exactly when both names are |
| PersonPostType.GenerateTitle | themes/marg/src/PersonPostType.php:37-83 | non-Person posts are left alone, hook state included; a Person post gets an update exactly when some name is set, the update carries the title and its sanitised slug, and the callback is hooked again afterwards |
| PersonPostType.SanitizeKey | themes/marg/src/PersonPostType.php:122 | the key holds only `[a-z0-9_-]`; it is the lowercased input with every other character dropped: each key character occurs as often as in the lowercased input, in the same order |
| PersonPostType.SanitizeKeyLowersKeys | themes/marg/src/PersonPostType.php:122 | input whose lowercase holds only key characters is just lowercased |
| PersonPostType.SanitizeKeyIdempotent | themes/marg/src/PersonPostType.php:122 | sanitising twice is sanitising once |
| PersonPostType.HidePersonTitleField | themes/marg/src/PersonPostType.php:91-136 | nothing is emitted exactly off the Person screens; the heading script is emitted exactly on the list screen with a `person-type` whose key is one of the three, and it carries that type's heading |
| PersonPostType.HeadingForEachPersonType | themes/marg/src/PersonPostType.php:116-132 | each of `contributor`, `general-editor` and `team` gets its own heading on the list screen |
| PersonPostType.HeadingLookupIgnoresCase | themes/marg/src/PersonPostType.php:122-123 | `Team` is lowercased to `team` before the lookup and gets the `Team` heading |
| DashboardDocumentation.KeyIndex | themes/marg/src/DashboardDocumentation.php:75-76 | the index found holds the key and no earlier entry does; no index means the key is absent |
| DashboardDocumentation.ArrayMergeConcat | themes/marg/src/DashboardDocumentation.php:77 | `array_merge` with a list in two parts is two merges in turn |
| DashboardDocumentation.ArrayMergeFresh | themes/marg/src/DashboardDocumentation.php:77 | merging entries whose keys are all new appends them in order |
| DashboardDocumentation.MoveToFrontPromise | themes/marg/src/DashboardDocumentation.php:75-77 | the widget goes first and every other box follows in its old order; when the widget was present, the column keeps its length and its boxes |
| DashboardDocumentation.MoveToFrontAbsent | themes/marg/src/DashboardDocumentation.php:75-77 | when the widget is missing, a null entry under its key is put in front of the unchanged column |
| DashboardDocumentation.MoveToFrontPresent | themes/marg/src/DashboardDocumentation.php:75-77 | when the widget is present, it moves to the front, the others keep their order, and no box is gained or lost |
| DashboardDocumentation.DocumentationWidgetFirst | themes/marg/src/DashboardDocumentation.php:66-78 | after the widget is added and the column reordered, the new widget is first and all the other boxes follow in their old order |
| DashboardDocumentation.HeaderPassLines | themes/marg/src/DashboardDocumentation.php:102-104 | a multi-line header `preg_replace` maps the lines one by one and keeps their number |
| DashboardDocumentation.ConvertHeadersPerLine | themes/marg/src/DashboardDocumentation.php:102-104 | the three header passes together act line by line |
| DashboardDocumentation.ThreeHashesMakeAnH3 | themes/marg/src/DashboardDocumentation.php:102-104 | a `### x` line becomes an h3 of `x`, and the later `##` and `#` passes leave it alone |
| DashboardDocumentation.ConcatMapConcat | themes/marg/src/DashboardDocumentation.php:136-147 | the output of a concatenation of chunks is the concatenation of their outputs |
| DashboardDocumentation.WrapParagraphs | themes/marg/src/DashboardDocumentation.php:134-149 | the loop's output is the outputs of the `\n\n`-separated chunks, in order |
| DashboardDocumentation.BlockShape | themes/marg/src/DashboardDocumentation.php:137-146 | a chunk gives nothing exactly when it trims to an `empty()` string; otherwise it gives its trimmed text and a newline, inside `<p>` tags unless it starts with an `h1`-`h6`, `ul`, `ol` or `div` tag |
| WooCustomizations.RemoveUnwantedProductTypes | themes/marg/src/WooCommerceCustomizations.php:56-68 | neither `grouped` nor `external` is set afterwards; every other key is kept with its value, and nothing is added |
| WooCustomizations.RemoveUnwantedProductOptions | themes/marg/src/WooCommerceCustomizations.php:76-83 | only `external_url` goes; every other option is kept with its value |
| WooCustomizations.ProductFiltersIdempotent | themes/marg/src/WooCommerceCustomizations.php:56-83 | applying either filter twice is applying it once |
| WooCustomizations.FilterProductTypeQuery | themes/marg/src/WooCommerceCustomizations.php:184-193 | the keys are unchanged; a grouped or external `type` becomes `simple`; every other value is kept |
| WooCustomizations.FilterProductTypeQueryIdempotent | themes/marg/src/WooCommerceCustomizations.php:184-193 | a second pass changes nothing, and no grouped or external type survives |
| WooCustomizations.PreventUnwantedInApi | themes/marg/src/WooCommerceCustomizations.php:277-290 | only POST, PUT and PATCH requests are rewritten, and then as the query filter rewrites them |
| WooCustomizations.RemoveUpsellsFromApi | themes/marg/src/WooCommerceCustomizations.php:405-414 | the keys are unchanged; a set `upsell_ids` becomes an empty list; every other value is kept |
| WooCustomizations.TypesToConvert | themes/marg/src/WooCommerceCustomizations.php:306-315 | only grouped and external types are ever processed |
| WooCustomizations.ProductStore.ConvertType | themes/marg/src/WooCommerceCustomizations.php:318-355 | the store becomes one conversion pass for that type, and the report lists the converted products in query order |
| WooCustomizations.ProductStore.ConvertUnwantedToSimple | themes/marg/src/WooCommerceCustomizations.php:299-360 | the store becomes the conversion of every chosen type in turn; the count equals the number of report lines, and no errors are counted |
| WooCustomizations.ConvertedInAfterOtherPass | themes/marg/src/WooCommerceCustomizations.php:318-349 | a pass over one type does not change what a pass over another type finds |
| WooCustomizations.ConvertedInCounts | themes/marg/src/WooCommerceCustomizations.php:328-349 | one pass reports exactly as many products as the store holds of that type |
| WooCustomizations.ConvertAllPromise | themes/marg/src/WooCommerceCustomizations.php:299-360 | converting `all` leaves no grouped or external product; each one becomes simple and loses its type meta; all other products are untouched; each is reported exactly once |
| WooCustomizations.InvalidTypeConvertsNothing | themes/marg/src/WooCommerceCustomizations.php:311-315 | an unknown type converts and reports nothing |
| WooCustomizations.ProductStore.ClearAllUpsells | themes/marg/src/WooCommerceCustomizations.php:436-480 | the store becomes the clear pass over the ids the getter returns, filter included; the count equals the number of report lines |
| WooCustomizations.ProductStore.ClearAllStoredUpsells | themes/marg/src/WooCommerceCustomizations.php:436-480 | the store becomes the clear pass over the stored ids; the count equals the number of report lines |
| WooCustomizations.ProductStore.RemoveUpsellIdsOnSave | themes/marg/src/WooCommerceCustomizations.php:393-395 | only the saved product loses its upsell ids; nothing else in the store changes |
| WooCustomizations.ProductStore.PreventUpsellsViaApi | themes/marg/src/WooCommerceCustomizations.php:424-428 | only the product written through the REST API loses its upsell ids; nothing else in the store changes |
| WooCustomizations.StoredClearEmptiesEveryUpsell | themes/marg/src/WooCommerceCustomizations.php:451-473 | reading the stored ids, every product ends with no upsells, and exactly those that had some are reported |
| WooCustomizations.FilteredClearIsANoOp | themes/marg/src/WooCommerceCustomizations.php:452-455 | with the getter filter in place, the routine changes nothing and reports nothing |
| WooCustomizations.FilteredClearMissesStoredUpsells | themes/marg/src/WooCommerceCustomizations.php:452-455 | a product with a stored upsell keeps it under the as-written routine and loses it under the stored-id routine |
| WooMemberships.FirstWhere | themes/marg/src/WooCommerceMemberships.php:282-286 | the index found is the first whose element satisfies the test; none found means no element does |
| WooMemberships.UserHasActiveMembership | themes/marg/src/WooCommerceMemberships.php:241-251 | a visitor who is not logged in is never a member; a logged-in user is one exactly when active in plan 667 |
| WooMemberships.ShouldShowMemberButton | themes/marg/src/WooCommerceMemberships.php:274-308 | the early-returning scan over the variations decides exactly as the eligibility predicate: no null product; a variable product when some available variation is downloadable; otherwise the Ars Botanica variant, a downloadable product, or a simple virtual one |
| WooMemberships.AttributesMatchLoop | themes/marg/src/WooCommerceMemberships.php:404-411 | the loop that stops at the first mismatch answers exactly "every default attribute is set on the variation with its default value" |
| WooMemberships.GetSelectedVariationId | themes/marg/src/WooCommerceMemberships.php:384-418 | the result is the non-empty query-string id, else the non-empty posted id, each through `intval`; else, when the product has default attributes, the first available variation carrying all of them; else none |
| WooMemberships.FirstVariationFile | themes/marg/src/WooCommerceMemberships.php:341-354 | the loop returns the first file of the first available variation that exists, is downloadable and has a file |
| WooMemberships.GetMemberDownloadUrl | themes/marg/src/WooCommerceMemberships.php:316-375 | a variable product links to the selected variation's file when there is one (a selection of 0 is skipped), else to the fallback; any other product links to its first file when downloadable |
| WooMemberships.UnselectedLinkImpliesButton | themes/marg/src/WooCommerceMemberships.php:274-288 | a link that does not come from an explicitly selected variation belongs to a product that also gets the member button |
| WooMemberships.NonNumericQueryHidesPostedVariation | themes/marg/src/WooCommerceMemberships.php:386-392 | a query-string `variation_id` of `x` is read as 0, hides the posted id, and the link falls back to the first variation with a file |
| WooMemberships.ModifyAddToCartText | themes/marg/src/WooCommerceMemberships.php:118-124 | the text is "View" exactly for an active member on an eligible product; otherwise it is unchanged |
| WooMemberships.ModifyAddToCartUrl | themes/marg/src/WooCommerceMemberships.php:133-140 | the URL is the product's permalink exactly for an active member on an eligible product; otherwise it is unchanged |
| ConditionalTaxonomy.DashSpaces | themes/marg/assets/js/admin/acf-conditional-taxonomy.js:65 | the result holds no white space |
| ConditionalTaxonomy.DashSpacesKeepsText | themes/marg/assets/js/admin/acf-conditional-taxonomy.js:65 | every character that is neither white space nor a hyphen occurs as often after the replacement as before |
| ConditionalTaxonomy.DashAroundRun | themes/marg/assets/js/admin/acf-conditional-taxonomy.js:65 | a run of white space between space-free text and text starting with a non-space becomes exactly one hyphen, the text before it is kept as it is, and the replacement goes on after it |
| ConditionalTaxonomy.KeepSlugChars | themes/marg/assets/js/admin/acf-conditional-taxonomy.js:66 | the result holds only `[a-z0-9-]`; each of those characters occurs as often as in the input, and in the input's order |
| ConditionalTaxonomy.SlugTextIsItsOwnSlug | themes/marg/assets/js/admin/acf-conditional-taxonomy.js:60-67 | text made only of slug characters converts to itself |
| ConditionalTaxonomy.TermSlugIdempotent | themes/marg/assets/js/admin/acf-conditional-taxonomy.js:60-67 | converting a slug again gives the same slug |
| ConditionalTaxonomy.SubscriptionPlansSlug | themes/marg/assets/js/admin/acf-conditional-taxonomy.js:60-67 | the option text "Subscription Plans" converts to the hidden slug `subscription-plans` |
| ConditionalTaxonomy.ShouldShow | themes/marg/assets/js/admin/acf-conditional-taxonomy.js:49-89 | the group is shown exactly when the select has a non-empty value and the option's slug is in the show list |
| ConditionalTaxonomy.HiddenUnlessListed | themes/marg/assets/js/admin/acf-conditional-taxonomy.js:70-88 | a slug in the hide list and an unlisted slug both hide the group |
| ConditionalTaxonomy.InitConditionalLogic | themes/marg/assets/js/admin/acf-conditional-taxonomy.js:30-44 | setup aborts exactly when the type field or the group is missing; otherwise the group starts as the decision says |
| ConditionalTaxonomySimple.ChangeEffect | themes/marg/assets/js/admin/acf-conditional-taxonomy-simple.js:40-58 | a change does nothing exactly when the group is missing; otherwise the group is hidden exactly when the trimmed, lowercased text contains `subscription`, and shown otherwise |
| ConditionalTaxonomySimple.Handled | themes/marg/assets/js/admin/acf-conditional-taxonomy-simple.js:23-36 | the selects that get the handler are exactly those inside a field keyed `field_68ac2f304ad26` |
| ConditionalTaxonomySimple.InitialEffects | themes/marg/assets/js/admin/acf-conditional-taxonomy-simple.js:23-63 | the initial `change` triggers give one effect per handled select, in page order |
| ConditionalTaxonomySimple.ApplyAllUnchanged | themes/marg/assets/js/admin/acf-conditional-taxonomy-simple.js:48-57 | changes that find no group leave the visibility as it was |
| ConditionalTaxonomySimple.ApplyAllLastWins | themes/marg/assets/js/admin/acf-conditional-taxonomy-simple.js:48-57 | when every change hides or shows, the last one decides |
| ConditionalTaxonomySimple.InitialVisibility | themes/marg/assets/js/admin/acf-conditional-taxonomy-simple.js:23-63 | after setup the group keeps its visibility when it is missing or no select is handled; otherwise it is shown exactly when the last handled select's text does not mention `subscription` |
| ConditionalTaxonomySimple.KeepSlugCharsLength | themes/marg/assets/js/admin/acf-conditional-taxonomy.js:66 | the filtered slug is as long as the input's count of slug characters |
| ConditionalTaxonomySimple.DashSpacesKeepsCount | themes/marg/assets/js/admin/acf-conditional-taxonomy.js:65 | dashing the spaces loses no slug character |
| ConditionalTaxonomySimple.NeedleCount | themes/marg/assets/js/admin/acf-conditional-taxonomy-simple.js:50 | text that contains `subscription` holds at least twelve slug characters |
| ConditionalTaxonomySimple.SimpleHideImpliesSlugHide | themes/marg/assets/js/admin/acf-conditional-taxonomy-simple.js:48-56 | whenever the loaded script hides the group, the slug-based script would hide it too |
| ConditionalTaxonomySimple.UnlistedTypeShownBySimpleScript | themes/marg/assets/js/admin/acf-conditional-taxonomy-simple.js:53-56 | a type outside both lists, `reviews`, is shown by the loaded script but hidden by the slug-based one |
| ThemeBootstrap.StrposTruthy | themes/marg/functions.php:19 | a `strpos` result is truthy exactly when the needle occurs but not at position 0 |
| ThemeBootstrap.IsLocal | themes/marg/functions.php:18-20 | the site is local exactly when its environment type is `local` or `development`, or when its home URL contains `.test` or `.local` somewhere other than at its start |
| ThemeBootstrap.SchemeUrlLocalIffContains | themes/marg/functions.php:19-20 | for a home URL starting with `http`, the URL test is plain containment |
| ThemeBootstrap.MarkerAtStartIsNotLocal | themes/marg/functions.php:19-20 | a production site whose home URL is `.test` is not local, because `strpos` returns 0 |
| ThemeBootstrap.RelativePath | themes/marg/functions.php:56-57 | with a separator that holds no backslash, the relative path holds none |
| ThemeBootstrap.AutoloadPath | themes/marg/functions.php:49-58 | a path exists exactly for class names that start with `TenUpTheme\`; it is `<dir>/src/<relative path>.php` |
| ThemeBootstrap.Autoload | themes/marg/functions.php:49-63 | a file is required exactly when the class is in the namespace and its path exists, and it is that path |
| ThemeBootstrap.NamespaceFirstAfter | themes/marg/functions.php:52 | a namespace occurrence after backslash-free text is the first one `strpos` finds |
| ThemeBootstrap.NamespaceStrippedEverywhere | themes/marg/functions.php:56 | `str_replace` strips the namespace where it first occurs and goes on after it |
| ThemeBootstrap.NamespacedClassPath | themes/marg/functions.php:49-58 | `TenUpTheme\rest` maps to `<dir>/src/` and the rest, with every namespace occurrence stripped and backslashes replaced by the separator, then `.php` |
| Php.IndexOf | themes/marg/functions.php:52 | `strpos` finds the first position where the needle occurs, and no position when it occurs nowhere |
| Php.ContainsIff | themes/marg/assets/js/admin/acf-conditional-taxonomy-simple.js:50 | `includes` holds exactly when the needle occurs at some position |
| Php.Lower | themes/marg/assets/js/admin/acf-conditional-taxonomy.js:64 | lowercasing keeps the length; no capital A-Z remains; each capital becomes its small letter (code point plus 32) and every other character stays as it is |
| Php.LowerIdempotent | themes/marg/assets/js/admin/acf-conditional-taxonomy.js:64 | lowercasing twice is lowercasing once |
| Php.Trim | themes/marg/src/DashboardDocumentation.php:137 | the trimmed text is a contiguous slice of the input, everything cut before and after it is white space, and it neither starts nor ends with white space |
| Php.ReplaceCharRemovesAll | themes/marg/functions.php:57 | after `str_replace` of a character by text that does not hold it, the character is gone |
| Php.JoinExplode | themes/marg/src/DashboardDocumentation.php:134 | joining the pieces of `explode` with the same separator gives back the text |
| Php.ExplodePartsFree | themes/marg/src/DashboardDocumentation.php:134 | no piece of `explode` holds the separator |
| Php.ExplodeJoin | themes/marg/src/DashboardDocumentation.php:134 | exploding a join of separator-free pieces gives back the pieces |
| Php.UnsetEach | themes/marg/src/DisableComments.php:163-171 | after the `isset`-guarded unsets of a list of keys, the keys not in the list remain, together with listed keys bound to null (for which `isset` is false), all with their values |
| Php.UnsetEachIdempotent | themes/marg/src/DisableComments.php:163-171 | unsetting the same keys twice is unsetting them once |

## Left out

- Everything the theme outputs as HTML, CSS or inline JavaScript. This covers the style blocks, the modal and button markup, the admin-footer script of `filter_field_choices` (`ACFCategoryFilter.php` lines 107-130), and the `WooCommerceMembershipsStyles`/`WooCommerceMembershipsScripts` classes.
- I/O is abstracted into inputs: curl and `file_get_contents` fetches, `file_exists`, `glob`, `json_decode`, `header()`, `echo`, `exit` and `error_log`.
- Capability checks, nonces and hook registration in every `init` and constructor. Only the hook state that `generate_person_title_from_name` toggles is modelled.
- `wp_generate_password` randomness and `time()` are inputs. Transient expiry by TTL is not modelled; the stored `expires` field is.
- `handle_sync_action`, `display_sync_status`, `auto_sync_on_activation` and `export_all_field_groups` in `ACFSync.php` do I/O and dispatch only. So does the sync-key and AJAX gating of `acf-sync-now.php` (lines 170-221).
- `acf_import_field_group` is an oracle returning the written post ID or failure. The ACF cache clear after a sync is not modelled.
- `AcfFieldGroups.JsonNewer`: the stored `_acf_modified` is an optional integer. A missing value compares as PHP 8 compares `''` with an integer (the JSON is newer). Other string and number juggling is not modelled.
- `AcfCleanupDuplicates.SortByDate`: PHP 8's stable `usort` is modelled as a functional stable insertion sort on `strcmp`, not as the in-place library sort.
- PHP arrays are `map`s (unordered) or sequences of key/value pairs (ordered) where order matters. Numeric-string key normalisation is not modelled.
- `Php.Lower`: ASCII only. That matches PHP 8 `strtolower`. JavaScript `toLowerCase` also maps non-ASCII letters (including `İ` and the Kelvin sign, which become ASCII letters); those are not modelled.
- `Php.IntVal`: only leading white space, a sign and decimal digits. Exponent forms (`"1e3"`) and saturation at `PHP_INT_MAX` are not modelled.
- `SecurePdf.MintedTokenWindow`: the stored entry is kept until it is deleted, but WordPress also drops the transient once its 3600-second TTL (`SecurePDFViewer.php` lines 243-250) has passed. After that hour `get_transient` (`SecurePDFEndpoint.php` line 92) finds nothing and the reply is 401 "Token expired or invalid" (lines 94-97). The 401 "Token expired" of lines 102-105 is then reached only when the clock moves on between the `time()` of line 240 and the one inside `set_transient`. The lemma's "Token expired" after the hour holds for the stored entry only.
- `SecurePdf.SecureUrl`: models `add_query_arg` only for an admin-ajax URL without a fragment and without `action` or `secure_pdf_token` already in its query. The real function replaces such existing arguments, keeps a `#fragment` at the end, and adds no `&` after a trailing `?`.
- `SecurePdf.CheckRequest`: the token it looks up is the query value after WordPress's `sanitize_text_field` (`SecurePDFEndpoint.php` line 82); that sanitiser is not part of this model, so the token is taken as already sanitised.
- `AdminMenuCustomizer.AdvancedMenuCollectsPlugins`: does not state where the WooCommerce, Analytics, Marketing, ACF and FileBird entries end up, because when Advanced has no submenu yet the first of them takes key 0, which the placeholder removal then drops. It assumes Advanced's next key, when present, is not negative, as PHP's automatic keys never are.
- `AdminMenuCustomizer.ContentSubmenuIsTheContentItems`: covers a Content parent with no submenu yet and exactly one top-level item, the usual state when the hook runs. With more copies of the parent link, more placeholders are copied than the single key-0 removal takes out; `ReorganizeAdminMenu` still models that case.
- `DisableComments.CommentsMenuEntriesGone`: assumes Comments and Discussion each appear at most once. `remove_menu_page` and `remove_submenu_page` remove only the first match, and `RemoveCommentsMenuSpec` models that for any menu.
- `sanitize_title` is a parameter. `sanitize_key` is modelled from WordPress (`PersonPostType.SanitizeKey`).
- The SQL fallback of `user_has_active_membership` (`WooCommerceMemberships.php` lines 253-265) is not modelled. The membership check is the `isActiveMember` oracle.
- `WooCustomizations.ProductStore.ConvertUnwantedToSimple`, `WooCustomizations.ProductStore.ClearAllUpsells`, `WooCustomizations.ProductStore.ClearAllStoredUpsells` and `WooCustomizations.ProductStore.ClearWith`: exceptions thrown by WooCommerce are not modelled, so `errors` is always 0.
- `wc_delete_product_transients` is not modelled.
- `parse_markdown`'s bold, italic, code, link and list rules (`DashboardDocumentation.php` lines 106-131) depend on PCRE lazy matching and a static `$in_list`, and are not modelled. The header and paragraph steps are.
- `remove_reviews_from_blocks` rewrites block HTML with PCRE and is not modelled.
- `test_pdf_url` and `enqueue_scripts` in `SecurePDFViewer.php` are network probing and asset loading, and are not modelled.
- The DOM parts of the two taxonomy scripts are not modelled: the timeouts before setup, console logging, and jQuery's `show`/`hide`.
- `debug-acf.php` is a diagnostic page and is not part of this model.
- The theme constants and the fast-refresh loader of `functions.php` (lines 9-28) are not modelled. Neither is the Composer branch and class wiring of `functions.php` (lines 30-47 and 65-86).
- The remaining hook bodies are plain WordPress calls with no logic of their own, for example `remove_comment_support`'s loop over post types.

## Findings

| source | as written | input that shows it | evidently intended | confidence | as-written member | corrected member |
|---|---|---|---|---|---|---|
| themes/marg/src/SecurePDFEndpoint.php:117-120 | `serve_pdf_with_headers` ends in `exit` (line 218), so the `delete_transient` after it never runs when a PDF is served | a valid token used twice within its hour: the second request is served too | a token is deleted once it has served its PDF (single use) | not executed | `SecurePdf.AsWrittenTokenReplays` | `SecurePdf.SingleUseTokenRefusedAfterServe` |
| themes/marg/src/WooCommerceCustomizations.php:451-455 | `clear_all_upsells` reads `get_upsell_ids()`. The theme's own `woocommerce_product_get_upsell_ids` filter (line 374) makes that getter return `[]`. | a product stored with upsell ids `[11]`: it is not cleared and not reported | the stored upsell ids are read and cleared | not executed; depends on WooCommerce applying the getter filter in the default view context, and on `WooCommerceCustomizations::init()` (line 24, which reaches `remove_upsells_functionality` at line 47) having registered the line-374 filter; nothing in `functions.php` calls it and `ThemeCore` is not part of this model, so the model carries this as `ProductStore`'s `initialised` flag | `WooCustomizations.FilteredClearIsANoOp` | `WooCustomizations.StoredClearEmptiesEveryUpsell` |
