# EcoLoop Bharat front end — a Dafny model of its logic

The application is a demonstration front end for collecting plastic waste and
rewarding it: dashboards and pages over hard-coded sample data, and a QR-code
scanner wrapped around a camera library. This project models the parts of it
that make decisions:

- **The QR-scanner controller** (`QrScanner`, class `Scanner`). Its React state
  (`hasPermission`, `isScanning`, `error`) and refs (`scannerRef`,
  `isCleaningUpRef`) are fields. Every async handler is split at its `await`s
  into methods that each run one uninterrupted segment, so an interleaving of
  handlers is a sequence of method calls:
  - `cleanupScanner` is `Cleanup` plus `FinishCleanup(stop)`;
  - `startScanner` is `StartScanner`, `LaunchStart(imported, constructed)` and
    `FinishStart(instance, start)`;
  - `checkCameraPermissions` is `FinishPermissionProbe(stream)`;
  - the decode callbacks are `DecodeSuccess` and `FrameFailure`.

  Each html5-qrcode instance the component creates is an entry of `devices`
  (starting, running, stopped, failed to start), and `scannerRef` is an index
  into that list. The library's results arrive as method parameters.

  The comments at components/qr-scanner.tsx:79 and :82 say that a start first
  cleans up any existing scanner and waits for that cleanup to complete. The
  code does neither in every case, and the model follows the code:
  - Starting guards only on `isScanning`, which becomes true only after the
    camera has started, so nothing stops a second camera from starting.
    `TwoStartsBothAcquire` shows that two starts admitted in that window leave
    two instances running.
  - A start does not wait for a cleanup already in progress: its own cleanup
    returns at once. When the older cleanup's stop() resolves, it clears
    `scannerRef`, whatever instance the handle holds by then.
    `StaleCleanupOrphansInstance` shows that this can leave an instance
    running with no handle while the component reports that it is not
    scanning. The earlier start is then still in its delay, so the report
    may change when it launches. The orphaned instance stays without a
    handle either way.

  Both runs depend on library outcomes that the model takes as parameters,
  not on the library's own behaviour. Each needs a second successful
  `new Html5Qrcode` within one mount, although the first launch has renamed
  the only `#qr-reader` element (lines 92-95). The orphan run also needs a
  stop() that rejects and leaves its camera running. Its clicks all land on
  enabled buttons: `error` stays empty, so `setError(null)` causes no
  re-render while the cleanup flag is set.
- **Search, category and tab filters** on the waste-tracker, rewards, wallet
  and partners screens, all over `Seqs.Filter`. They are order-preserving
  filters with case-insensitive substring matching (`Text.Includes`). The
  selection state of the two pages is a class each.
- **Pure derivations**: the lifecycle timeline of an item, the recent-activity
  feed and its relative timestamps, transaction amount labels, partner badges,
  and which sidebar entries are shown and active.

## Model

| member | source | states |
|---|---|---|
| `QrScanner.Scanner.constructor` | components/qr-scanner.tsx:13-18 | permission unknown, not scanning, no error, no handle, cleanup flag clear |
| `QrScanner.Scanner.Cleanup` | components/qr-scanner.tsx:31-60 | while a cleanup is in progress it returns at once and changes nothing; otherwise it sets the flag and either suspends on stop() of a handle that reports scanning, or clears the handle and ends with the flag cleared and `isScanning` false |
| `QrScanner.Scanner.FinishCleanup` | components/qr-scanner.tsx:38-59 | a resolved stop releases the awaited instance and clears `scannerRef`; a rejected stop is swallowed and leaves the handle set; either way the flag is cleared, `isScanning` is false and a start waiting on this cleanup moves on |
| `QrScanner.Scanner.StopScanner` | components/qr-scanner.tsx:145-147 | the stop handler has exactly the effect of a cleanup |
| `QrScanner.Scanner.FinishPermissionProbe` | components/qr-scanner.tsx:62-71 | success stops every probe track and grants permission, leaving an earlier error in place; failure denies permission and sets the permission message |
| `QrScanner.StopTracks` | components/qr-scanner.tsx:65 | after the loop no track of the probe stream is live |
| `QrScanner.Scanner.StartScanner` | components/qr-scanner.tsx:73-80 | admitted exactly when the container is mounted, permission is not false and `isScanning` is false; a refused start changes nothing, not even `error`; an admitted one clears `error`, begins a cleanup and waits for it only if that cleanup suspended |
| `QrScanner.Scanner.LaunchStart` | components/qr-scanner.tsx:83-100 | a throwing import, missing container (TypeError) or throwing constructor ends the start with the classified error and `isScanning` false; otherwise a new instance is created and put in `scannerRef` before its start is awaited, and `isScanning` is still unchanged |
| `QrScanner.Scanner.FinishStart` | components/qr-scanner.tsx:100-142 | `isScanning` becomes true only when start resolves; a rejection sets the classified error and `isScanning` false; `scannerRef` is left as it was |
| `QrScanner.Scanner.DecodeSuccess` | components/qr-scanner.tsx:107-115 | `onScan` receives exactly the decoded text, then the stop path runs |
| `QrScanner.Scanner.FrameFailure` | components/qr-scanner.tsx:116-125 | a per-frame failure is appended to the log only when it contains none of the three miss texts; `error`, `isScanning` and the instances are untouched |
| `QrScanner.Scanner.SimulateScan` | components/qr-scanner.tsx:150-157 | `onScan` receives the mock code; `isScanning` and `hasPermission` are untouched |
| `QrScanner.MockCode` | components/qr-scanner.tsx:151 | the mock code has 20 characters, starts with "PLASTIC-QR-2025-" and ends in four digits that read back as the random number |
| `QrScanner.StartErrorIdentifiesCause` | components/qr-scanner.tsx:129-137 | NotAllowedError, NotFoundError and NotSupportedError each get their own message; every other name gets "Failed to start camera." |
| `QrScanner.FrameErrorFilter` | components/qr-scanner.tsx:118-122 | a message in which a miss text occurs is never logged; a message shorter than every miss text always is |
| `QrScanner.StartOfferedIffAdmitted` | components/qr-scanner.tsx:159-220 | the Start button is shown exactly in the states whose start passes the guard at line 74; the camera panel, the only place an error is displayed, is shown exactly when permission is granted |
| `QrScanner.StartOfferedOnScreen` | components/qr-scanner.tsx:159-220 | on the scanner's own state, the rendered screen offers Start iff a click passes the guard at line 74, and the panel's button is disabled iff a cleanup is in progress (line 211) |
| `QrScanner.TwoStartsBothAcquire` | components/qr-scanner.tsx:73-127 | two starts pressed before the first acquisition resolves are both admitted, and both instances end up running when the library accepts the second construction |
| `QrScanner.StaleCleanupOrphansInstance` | components/qr-scanner.tsx:31-147 | after a stop() that rejects, a start whose cleanup awaits the old camera and a second start admitted meanwhile: the second start does not wait, its instance is dropped from `scannerRef` when the old stop resolves, and it keeps running after Stop with `isScanning` false and no error shown, while the first start is still in its delay |
| `WasteTracker.FilteredItemsSpec` | app/waste-tracker/page.tsx:76-81 | an item is listed iff its QR code, type or address includes the query ignoring case; the list is a subsequence of the items |
| `WasteTracker.SearchDefaults` | app/waste-tracker/page.tsx:76-81 | an empty query lists every item; the query's letter case does not change the result |
| `WasteTracker.NoItemsIffNoneMatch` | app/waste-tracker/page.tsx:115-160 | "No items found" is shown iff no item matches |
| `WasteTracker.SampleIdsDistinct` | app/waste-tracker/page.tsx:27-70 | the sample items have distinct ids |
| `WasteTracker.HighlightAfterSelect` | app/waste-tracker/page.tsx:119-122 | once a sample item is selected, a card is highlighted iff it is that item |
| `WasteTracker.WasteTrackerPage.constructor` | app/waste-tracker/page.tsx:73-74 | empty query, nothing selected |
| `WasteTracker.WasteTrackerPage.OnSearchChange` | app/waste-tracker/page.tsx:98 | typing changes only the query; the selection persists |
| `WasteTracker.WasteTrackerPage.OnSelectItem` | app/waste-tracker/page.tsx:122 | clicking a card or a map marker selects that item and leaves the query alone |
| `WasteTracker.SelectionSurvivesSearch` | app/waste-tracker/page.tsx:176-238 | a search that filters out every card still shows the selected item's details and three-event timeline, and the map (line 170) still receives every item |
| `Rewards.FilteredRewardsSpec` | app/rewards/page.tsx:88-93 | a reward is listed iff it is in the chosen category (or "all") and its title or description includes the query; order is kept |
| `Rewards.InitialShowsAll` | app/rewards/page.tsx:84-93 | with category "all" and an empty query every reward is listed |
| `Rewards.CategoryNarrowsAll` | app/rewards/page.tsx:88-93 | for a fixed query, a category's list is the "all" list with other categories removed, an order-preserving sub-list |
| `Rewards.PartnerNotSearched` | app/rewards/page.tsx:91-92 | changing a reward's partner never changes whether it is listed |
| `Rewards.ExactlyOneDefaultButton` | app/rewards/page.tsx:121-143 | whatever the category, exactly one category button has the "default" variant |
| `Rewards.NoRewardsIffNoneMatch` | app/rewards/page.tsx:147-208 | "No rewards found" is shown iff no reward passes both conditions |
| `Rewards.GridStaysInCategory` | app/rewards/page.tsx:88-93 | under a category tab every card shown is of that category |
| `Rewards.FirstGridThenCategory` | app/rewards/page.tsx:84-147 | the page as first rendered shows every reward; after a category click the grid is that category's cards for the empty query |
| `Rewards.RewardsPage.constructor` | app/rewards/page.tsx:84-86 | empty query, category "all", no reward selected |
| `Rewards.RewardsPage.OnSearchChange` | app/rewards/page.tsx:109 | typing changes only the query |
| `Rewards.RewardsPage.OnCategoryClick` | app/rewards/page.tsx:121-143 | a category button sets only the category |
| `Rewards.RewardsPage.OnRedeemClick` | app/rewards/page.tsx:169 | Redeem sets only the reward shown in the dialog |
| `PlasticTimeline.Events` | components/plastic-timeline.tsx:33-52 | three events in the order collected, sorted, recycled; event k is completed iff the item has reached stage k; the collected event carries `collectedAt` and "Collected at " + address; later events carry `updatedAt` when completed and "" otherwise |
| `PlasticTimeline.CompletionIsPrefix` | components/plastic-timeline.tsx:38-50 | a completed event has only completed events before it |
| `PlasticTimeline.CompletedCount` | components/plastic-timeline.tsx:38-50 | the number of completed events is the item's stage plus one |
| `PlasticTimeline.DateLines` | components/plastic-timeline.tsx:79-81 | the collected event shows a date iff `collectedAt` is non-empty; a later event iff it is completed and `updatedAt` is non-empty |
| `PlasticTimeline.StatusLabels` | components/plastic-timeline.tsx:77 | the capitalised status labels are "Collected", "Sorted" and "Recycled" |
| `RecentActivity.DisplayActivities` | components/recent-activity.tsx:67 | extended shows every activity; collapsed shows the first min(4, n) activities in order |
| `RecentActivity.ViewAllIffSomeHidden` | components/recent-activity.tsx:116 | "View all activity" appears iff some activity is hidden from the feed |
| `RecentActivity.SampleFeed` | components/recent-activity.tsx:67-116 | the collapsed sample feed shows four of six activities and offers "View all activity"; the extended one shows all six |
| `RecentActivity.StatusBadge` | components/recent-activity.tsx:96-111 | a badge is rendered iff the activity has a status, labelled with it |
| `RecentActivity.HoursSince` | components/recent-activity.tsx:131 | the result h is the floor of the elapsed hours: h hours fit into the elapsed time and h + 1 do not |
| `RecentActivity.RelativeWithinADay` | components/recent-activity.tsx:131-137 | the "hours ago" form is used iff less than 24 hours have elapsed, including every future timestamp (negative hours); the count is 1 iff one to two hours have elapsed |
| `RecentActivity.SingularOnlyForOne` | components/recent-activity.tsx:134 | the text is "1 hour ago" for a count of one and for no other count |
| `RecentActivity.FormatTimestampForms` | components/recent-activity.tsx:128-138 | under a day the text is "<h> hour(s) ago" for the floor h of the elapsed hours, and it reads "1 hour ago" iff one to two hours have elapsed; from a day on it is the locale date |
| `WalletCard.TabsSelectByKind` | components/wallet-card.tsx:125-133 | the Earned tab lists exactly the earned transactions and the Redeemed tab exactly the redeemed ones, each in original order |
| `WalletCard.TabsPartitionAll` | components/wallet-card.tsx:125-133 | the two tabs together hold every transaction of "All" exactly once |
| `WalletCard.TransactionList` | components/wallet-card.tsx:140-148 | "No transactions found" is shown iff the list it is given is empty, and otherwise the rows are that list; what this means for each tab is `EmptyTabIffNoneOfKind` |
| `WalletCard.EmptyTabIffNoneOfKind` | components/wallet-card.tsx:125-148 | "All" says "No transactions found" iff the history is empty; the Earned tab iff no transaction is earned; the Redeemed tab iff none is redeemed |
| `WalletCard.SampleTabs` | components/wallet-card.tsx:16-52 | the sample history has three earned and two redeemed transactions, so both tabs list rows |
| `WalletCard.AmountTextReadsBack` | components/wallet-card.tsx:174-175 | the amount starts with "+" iff earned and "-" iff redeemed, and its digits read back as the amount |
| `WalletCard.BalanceMatchesRate` | components/wallet-card.tsx:68-72 | 1,450 points at 10 points per rupee is the displayed "₹145.00" |
| `Partners.TypeTabSpec` | app/partners/page.tsx:105-127 | a type tab lists exactly the partners of that type, in original order |
| `Partners.TypeTabsPartitionAll` | app/partners/page.tsx:98-127 | the three type tabs together hold every partner of "All Partners" exactly once |
| `Partners.TypeLabelsDistinct` | app/partners/page.tsx:173 | the labels "NGO", "Recycler" and "Corporate Partner" tell the three types apart |
| `Partners.PartnerCard` | app/partners/page.tsx:161-191 | the Verified badge is shown iff the partner is verified; the Website link iff the website is truthy (present and non-empty), and it points at that website |
| `Partners.LinksAreTheWebsites` | app/partners/page.tsx:105-191 | the cards of a tab link to no empty address, only to websites of partners in the tab, to every non-empty website of a partner in the tab, and draw one link per such partner |
| `Partners.SampleCards` | app/partners/page.tsx:161-191 | among the sample partners only "Plastic Free Kolkata" lacks the Verified badge, and only it lacks a Website link |
| `AppSidebar.AdministrationNeverEmpty` | components/app-sidebar.tsx:91-108 | the Administration group is shown iff it has an entry, so it is never empty |
| `AppSidebar.AdminEntriesByRole` | components/app-sidebar.tsx:91-110 | Admin Panel is rendered iff the role is "admin"; Analytics iff it is "admin" or "recycler" |
| `AppSidebar.InitialRoleSeesNavigationOnly` | components/app-sidebar.tsx:27 | with the role "user" the component starts with and never changes, no administration entry appears |
| `AppSidebar.AtMostOneMatch` | components/app-sidebar.tsx:47-110 | among entries with distinct routes, at most one equals a given path |
| `AppSidebar.AtMostOneActive` | components/app-sidebar.tsx:47-110 | for any role and path, at most one rendered entry is active |

## Left out

- The camera and decoding library (`getUserMedia`, the dynamic `html5-qrcode` import, the constructor, `start`, `stop`) is not modelled. How each call settles is a parameter of the method that resumes after it. A stop() that rejects is assumed to leave its instance running.
- The 100 ms `setTimeout` and the import are one suspension, modelled as the gap before `LaunchStart`. The `Date.now()` scanner id is not modelled.
- `Math.random` in `simulateScan` is not modelled; `SimulateScan` takes the number it produced.
- Toasts and `console.warn`/`console.error` are not modelled. The exception is the per-frame warning, whose filter is the property of interest; it is recorded in `frameLog`.
- DOM manipulation is not modelled: clearing `innerHTML` (components/qr-scanner.tsx:47-52) and renaming the `#qr-reader` element (88-95). Whether the library's constructor then finds its element is part of the `constructed` parameter.
- React mechanics are not modelled: rendering and stale handler closures. The `disabled` attribute appears in `View` as the cleanup flag's current value. React reads that ref only when it renders, so the model does not capture a button that stays enabled or disabled between renders. Each handler segment runs atomically on the current state. The mount effect is the constructor followed by `FinishPermissionProbe`.
- Unmounting is modelled only by its `Cleanup`. The model keeps the container attached afterwards. So a start still in its delay at unmount launches in the model, where the source fails with a TypeError at components/qr-scanner.tsx:92.
- The container ref is taken to be attached exactly when the camera panel is rendered, that is, when permission is granted.
- Date parsing and locale formatting (`new Date`, `toLocaleDateString`, `toLocaleString`) are not modelled. `FormatTimestamp` takes the parsed and current instants in milliseconds, plus the locale text. Unparseable dates (NaN) are not modelled.
- Text.Lower: lower-cases ASCII letters only, not the full Unicode case mapping of `toLowerCase`.
- Weights and coordinates are carried as `real` literals only. No floating-point arithmetic is modelled.
- Colours, icons and CSS classes chosen per status or type are not modelled.
- The "This Month" figures in the wallet (245 pts, 100 pts, 70%) are fixed text, not derived from data, so nothing is stated about them. The thousands separator in "1,450 points" is not modelled.
- The Cancel and Confirm Redemption buttons have no click handlers, so there is no operation to model. Nothing in the model changes state for them.
- The map (components/plastic-map.tsx) is not modelled: it is DOM construction with random marker placement. Its only link to the page, selecting an item on click, is `OnSelectItem`.
- The charts (components/admin-chart.tsx, components/impact-chart.tsx) and the static pages (app/page.tsx, app/admin/page.tsx) are not modelled.
- The waste tracker's "Scan QR" button has no handler and is not modelled.
