# Campaign listing screen: presentation state machine

A model of the campaign listing screen of CampaignBrowser, an iOS app that fetches a list of
campaigns and shows it in a collection view. The screen always shows exactly one of three data
sources: a loading indicator, the campaign listing, or an error screen with a retry button.

- `campaign.dfy`: the campaign record, sizes, and `Option`.
- `campaign_listing_view.dfy`: the collection view `CampaignListingView`, with its UIKit
  `dataSource` and `delegate` properties and its `strongDataSource` outlet. Each of these holds a
  `DataSourceObject`, whose `source` is the tagged union
  `DataSource = Loading | Listing(campaigns) | Error(controller)`. The three show methods install a
  fresh object in all three fields and reload. The item-count, cell and size queries of the three
  Swift data-source classes are pure functions of the union.
- `campaign_listing_view_controller.dfy`: the view controller. `viewWillAppear` and
  `tryToLoadCampaignList` show the loading screen and issue one request. The request's two
  completion closures are the methods `OnNext` and `OnError`. Each takes the weakly captured
  controller as a nullable parameter. The error-code test is the predicate `IsNetworkFailure`.
  `ScreenState`, `Step` and `Run` describe what any history of appearances, retry taps and
  completions does to the screen. The lemmas about `Run` state the screen's policies over all
  histories. The postconditions of `ViewWillAppear`, `OnNext` and `OnError` tie each call to
  `Step`. `TapRetryButton` does the same when the tapped cell belongs to the error source
  installed in its target's view. By `DisplayedRetryButtons`, those are the only retry buttons
  on screen.
- The method `NoConnectivityThenRetry` runs one history on the classes themselves: appear, error
  -1009, retry, error -500, an empty completion. It asserts the installed source, the request
  count and the log entries after each call. For example, error -500 leaves Loading and adds one
  log entry.

The code has no de-duplication of overlapping loads and no fetch identity, and it reloads on
every appearance. The model keeps all three:

- Overlapping loads are not de-duplicated. Every appearance issues a request
  (`EveryAppearanceIssuesARequest`).
- Completions carry no fetch identity. A late completion of an older request still installs its
  result (`CompletionAlwaysInstalls`).
- `viewWillAppear` reloads even while content is shown (`AppearAlwaysLoads`).

## Model

| member | source | states |
|---|---|---|
| `CampaignListingView.Display` | CampaignBrowser/Screens/CampaignsListing/CampaignListingView.swift:33-39 | `dataSource`, `delegate` and `strongDataSource` all hold one freshly allocated object; it is a listing of exactly the given campaigns; the view reloads once. The result does not depend on the previous source, so a repeated call leaves the same observable state. |
| `CampaignListingView.ShowLoadingScreen` | CampaignBrowser/Screens/CampaignsListing/CampaignListingView.swift:44-50 | The three fields hold one fresh loading source, replacing the old one wholesale; the view reloads once. |
| `CampaignListingView.ShowErrorScreenIn` | CampaignBrowser/Screens/CampaignsListing/CampaignListingView.swift:55-61 | The three fields hold one fresh error source that keeps exactly the controller reference it was given; the view reloads once. |
| `DataSourceObject.constructor` | CampaignBrowser/Screens/CampaignsListing/CampaignListingView.swift:151-153 | A data source object keeps the variant, the campaigns and the controller reference it was built with. |
| `NumberOfItems` | CampaignBrowser/Screens/CampaignsListing/CampaignListingView.swift:83-157 | The item count is the number of campaigns for a listing, 1 for the loading source and 1 for the error source. |
| `CellForItem` | CampaignBrowser/Screens/CampaignsListing/CampaignListingView.swift:87-170 | For an index below the item count: a listing's item i is a campaign cell that shows `campaigns[i]`'s mood image, name and description. The loading cell has its indicator animating. The error cell's retry button targets the source's controller with the action `tryToLoadCampaignList`. |
| `SizeForItem` | CampaignBrowser/Screens/CampaignsListing/CampaignListingView.swift:102-175 | Every item is as wide as the frame. A campaign item is 450 points high. Loading and error items are the size of the whole frame. |
| `RenderedItems` | CampaignBrowser/Screens/CampaignsListing/CampaignListingView.swift:83-157 | The cells shown number the item count. A listing shows exactly its campaigns, in order (the campaigns read back from its cells equal the list). The loading source and the error source each show exactly one cell of their own kind. |
| `IsNetworkFailure` | CampaignBrowser/Screens/CampaignsListing/CampaingListingViewController.swift:41-47 | An error code gets the error screen exactly when it is one of -1001, -1003, -1009, -1200, i.e. exactly when it classifies as timeout, unresolvable host, no connectivity or secure-channel failure. |
| `CampaignListingViewController.ViewWillAppear` | CampaignBrowser/Screens/CampaignsListing/CampaingListingViewController.swift:22-26 | Whatever is installed, the view becomes Loading through a fresh source and one more request is issued. |
| `CampaignListingViewController.TryToLoadCampaignList` | CampaignBrowser/Screens/CampaignsListing/CampaingListingViewController.swift:28-35 | The loading source is installed and exactly one request is issued. |
| `OnNext` | CampaignBrowser/Screens/CampaignsListing/CampaingListingViewController.swift:37-38 | With the controller alive, the view becomes a fresh listing of the campaigns in the order received. Without it, nothing changes. |
| `OnError` | CampaignBrowser/Screens/CampaignsListing/CampaingListingViewController.swift:39-52 | Always exactly one log entry is added, even when the controller is gone. With the controller alive, a network-failure code installs a fresh error source linked to that controller. Any other code leaves the view entirely unchanged. |
| `DiagnosticLog.Record` | CampaignBrowser/Screens/CampaignsListing/CampaingListingViewController.swift:51 | Writing a line adds exactly one entry. |
| `TapRetryButton` | CampaignBrowser/Screens/CampaignsListing/CampaignListingView.swift:165-167 | Tapping an error cell's retry button runs `tryToLoadCampaignList` on the cell's target: the target's view becomes Loading through a fresh source that all three fields hold, the view reloads once, and one more request is issued. When the target's own error screen is installed, this is exactly the `RetryTap` step. |
| `DisplayedRetryButtons` | CampaignBrowser/Screens/CampaignsListing/CampaignListingView.swift:159-167 | Any retry button among the cells shown belongs to the installed error source, and targets the controller that source keeps. |
| `AppearAlwaysLoads` | CampaignBrowser/Screens/CampaignsListing/CampaingListingViewController.swift:22-31 | After any history, including one that ends with content shown, an appearance puts the screen into Loading and issues one more request. |
| `EveryAppearanceIssuesARequest` | CampaignBrowser/Screens/CampaignsListing/CampaingListingViewController.swift:22-35 | Over any history, at least one request is issued per appearance; overlapping loads are not merged. |
| `CompletionAlwaysInstalls` | CampaignBrowser/Screens/CampaignsListing/CampaingListingViewController.swift:37-38 | After any history, a success completion installs its campaigns, even when newer requests have been issued since. |
| `ListingNeedsCompletion` | CampaignBrowser/Screens/CampaignsListing/CampaingListingViewController.swift:37-38 | A listing at the end of a history was either there at the start or was delivered by a completion in the history. |
| `ErrorScreenNeedsNetworkFailure` | CampaignBrowser/Screens/CampaignsListing/CampaingListingViewController.swift:41-49 | An error screen at the end of a history was there at the start, or it is linked to this controller and the history holds a failure with one of the four network codes. |
| `IgnoredErrorsInvisible` | CampaignBrowser/Screens/CampaignsListing/CampaingListingViewController.swift:47-49 | Deleting every failure with a non-network code from a history leaves the resulting screen state exactly the same. |
| `RetryFromErrorLoads` | CampaignBrowser/Screens/CampaignsListing/CampaingListingViewController.swift:28-31 | A retry tap while this controller's error screen is shown returns the screen to Loading. |
| `RetryElsewhereIgnored` | CampaignBrowser/Screens/CampaignsListing/CampaignListingView.swift:159-167 | Only the error cell carries a retry button, so a retry tap while loading or listing changes nothing. |
| `ScenarioContentLoads` | CampaignBrowser/Screens/CampaignsListing/CampaingListingViewController.swift:28-38 | Appearance shows one loading item; a completion with [a, b] then shows a listing of a and b, in that order. |
| `ScenarioRetryAfterNoConnectivity` | CampaignBrowser/Screens/CampaignsListing/CampaingListingViewController.swift:28-52 | Appearance, then error -1009, gives a one-item error screen. A retry gives Loading. An empty completion then gives a listing of zero items, after two requests. |
| `ScenarioUnclassifiedErrorKeepsLoading` | CampaignBrowser/Screens/CampaignsListing/CampaingListingViewController.swift:41-52 | Appearance, then error -500, leaves the screen Loading. |

## Left out

- UIKit rendering: `reloadData` is a counter of reloads. Cell dequeuing, `viewWithTag` lookups and
  the activity-indicator animation are reduced to the cell contents they configure. The
  `assertionFailure` branch for a mis-typed dequeued cell is not modelled.
- A missing indicator or button (a `nil` from `viewWithTag`) is not modelled. The storyboard
  always provides them.
- Storyboard and outlet wiring, and the `assert(typedView != nil)` of `viewDidLoad`: `typedView` is
  a constant given to the controller at construction. The view starts with nothing installed.
- `super.viewWillAppear(animated)` is a UIKit call; `animated` is accepted and unused.
- The networking service, `CampaignListingRequest`, RxSwift scheduling (`observeOn`, `subscribe`,
  the dispose bag): a request is a counter. Its completions are plain sequential calls of
  `OnNext` and `OnError`, in any order and any number.
- Error values are reduced to their `NSError` code; the text of the log line
  (`localizedDescription`) is not kept, only the number of lines.
- TapRetryButton: a button whose target is `nil` would send its action up the UIKit responder
  chain; the model lets such a tap change nothing.
- Frame geometry (`CGSize`, `CGFloat`) is integer-valued.
- The `Campaign` type is declared outside the listing screen and is not part of this model beyond
  its three fields.
