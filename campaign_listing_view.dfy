/**
 The collection view that lists campaigns, and the three data sources it can have
 installed: one listing campaigns, one showing a loading indicator and one showing an error
 screen with a retry button.

 A data source is described by the tagged union `DataSource`; the object UIKit holds is a
 `DataSourceObject` carrying one such value. The queries UIKit puts to a data source
 (item count, the cell for an item, the size of an item) are pure functions of the union.
 */

/** The action selector a retry button can be wired to. */
datatype Selector = TryToLoadCampaignListSelector

/**
 The content of a cell after its data source has configured it. The three variants are the
 storyboard's cell types, dequeued with the reuse identifiers "campaignCell",
 "loadingIndicatorCell" and "errorCell".
 */
datatype Cell =
  | CampaignCell(moodImage: ImageRef, name: string, descriptionText: string)
  | LoadingIndicatorCell(indicatorAnimating: bool)
  | ErrorCell(retryTarget: CampaignListingViewController?, retryAction: Selector)

/** The campaign a campaign cell shows. */
function CampaignShownBy(cell: Cell): Campaign
  requires cell.CampaignCell?
{
  Campaign(cell.name, cell.descriptionText, cell.moodImage)
}

/** The three data-source variants. */
datatype DataSource =
  | Loading
  | Listing(campaigns: CampaignList)
  | Error(controller: CampaignListingViewController?)

/** Height of a campaign cell, in points. */
const CampaignCellHeight := 450

/** `collectionView(_:numberOfItemsInSection:)` of each data source. */
function NumberOfItems(source: DataSource): (n: nat)
  ensures source.Listing? ==> n == |source.campaigns|
  ensures source.Loading? ==> n == 1
  ensures source.Error? ==> n == 1
{
  match source
  case Listing(campaigns) => |campaigns|
  case Loading => 1
  case Error(_) => 1
}

/**
 `collectionView(_:cellForItemAt:)` of each data source: UIKit asks only for items below
 the item count. A campaign cell shows campaign `item`; the loading cell starts its
 activity indicator; the error cell's retry button is wired to the controller the error
 source was built with, with the action `tryToLoadCampaignList`.
 */
function CellForItem(source: DataSource, item: nat): (cell: Cell)
  requires item < NumberOfItems(source)
  ensures source.Listing? <==> cell.CampaignCell?
  ensures source.Listing? ==> CampaignShownBy(cell) == source.campaigns[item]
  ensures source.Loading? ==> cell.LoadingIndicatorCell? && cell.indicatorAnimating
  ensures source.Error? ==> cell.ErrorCell? && cell.retryTarget == source.controller
                            && cell.retryAction == TryToLoadCampaignListSelector
{
  match source
  case Listing(campaigns) =>
    var campaign := campaigns[item];
    CampaignCell(campaign.moodImage, campaign.name, campaign.description)
  case Loading => LoadingIndicatorCell(true)
  case Error(controller) => ErrorCell(controller, TryToLoadCampaignListSelector)
}

/**
 `collectionView(_:layout:sizeForItemAt:)` of each data source, for a collection view whose
 frame has size `frame`: every item is as wide as the frame, a campaign cell has the fixed
 height, and the loading and error cells fill the whole frame.
 */
function SizeForItem(source: DataSource, frame: Size): (size: Size)
  ensures size.width == frame.width
  ensures source.Listing? ==> size.height == CampaignCellHeight
  ensures !source.Listing? ==> size == frame
{
  match source
  case Listing(_) => Size(frame.width, CampaignCellHeight)
  case Loading => frame
  case Error(_) => frame
}

/** The cells the collection view shows after `reloadData`, item by item. */
function CellsOf(source: DataSource): seq<Cell>
{
  seq(NumberOfItems(source), item requires 0 <= item < NumberOfItems(source) => CellForItem(source, item))
}

/** The campaigns shown by the campaign cells of `cells`, in order. */
function CampaignsShown(cells: seq<Cell>): CampaignList
{
  if cells == [] then []
  else (if cells[0].CampaignCell? then [CampaignShownBy(cells[0])] else []) + CampaignsShown(cells[1..])
}

/** The campaigns shown by the cells `item` and after of a listing source. */
lemma {:induction false} ListingShowsFrom(campaigns: CampaignList, item: nat)
  requires item <= |campaigns|
  ensures CampaignsShown(CellsOf(Listing(campaigns))[item..]) == campaigns[item..]
  decreases |campaigns| - item
{
  var cells := CellsOf(Listing(campaigns));
  if item < |campaigns| {
    ListingShowsFrom(campaigns, item + 1);
    assert cells[item..][1..] == cells[item + 1..];
    assert campaigns[item..] == [campaigns[item]] + campaigns[item + 1..];
  } else {
    assert cells[item..] == [];
  }
}

/**
 A listing source shows exactly its campaigns, one cell each and in order; the loading and
 error sources show a single cell of their own kind.
 */
lemma {:induction false} RenderedItems(source: DataSource)
  ensures |CellsOf(source)| == NumberOfItems(source)
  ensures source.Listing? ==> |CellsOf(source)| == |source.campaigns|
                              && CampaignsShown(CellsOf(source)) == source.campaigns
  ensures source.Loading? ==> CellsOf(source) == [LoadingIndicatorCell(true)]
  ensures source.Error? ==> CellsOf(source) == [ErrorCell(source.controller, TryToLoadCampaignListSelector)]
{
  if source.Listing? {
    ListingShowsFrom(source.campaigns, 0);
    assert CellsOf(source)[0..] == CellsOf(source);
    assert source.campaigns[0..] == source.campaigns;
  }
}

/**
 The only retry buttons on screen are those of the installed error source, and each targets
 the controller that source was built with.
 */
lemma DisplayedRetryButtons(source: DataSource, item: nat)
  requires item < |CellsOf(source)|
  ensures CellsOf(source)[item].ErrorCell? ==> source == Error(CellsOf(source)[item].retryTarget)
{
  RenderedItems(source);
}

/** A data-source object: UIKit's `dataSource` and `delegate` of the collection view. */
class DataSourceObject {
  const source: DataSource

  constructor (source: DataSource)
    ensures this.source == source
  {
    this.source := source;
  }
}

/**
 The campaign listing collection view. `dataSource` and `delegate` are UIKit's (weak)
 properties; `strongDataSource` keeps the installed object alive. `reloadCount` counts the
 calls of `reloadData`, whose rendering is left to UIKit.
 */
class CampaignListingView {
  var dataSource: DataSourceObject?
  var delegate: DataSourceObject?
  var strongDataSource: DataSourceObject?
  var reloadCount: nat

  /** The three references name one and the same object. */
  ghost predicate Valid()
    reads this
  {
    dataSource == delegate && delegate == strongDataSource
  }

  /** The installed data source, as UIKit queries it; `None` before any is installed. */
  function Installed(): Option<DataSource>
    reads this
  {
    if dataSource == null then None else Some(dataSource.source)
  }

  constructor ()
    ensures Valid() && Installed() == None && reloadCount == 0
  {
    dataSource, delegate, strongDataSource := null, null, null;
    reloadCount := 0;
  }

  /** Installs a fresh listing of `campaigns`, replacing the previous source, and reloads. */
  method Display(campaigns: CampaignList)
    modifies this
    ensures Valid() && fresh(dataSource)
    ensures Installed() == Some(Listing(campaigns))
    ensures reloadCount == old(reloadCount) + 1
  {
    var campaignDataSource := new DataSourceObject(Listing(campaigns));
    dataSource := campaignDataSource;
    delegate := campaignDataSource;
    strongDataSource := campaignDataSource;
    reloadCount := reloadCount + 1;
  }

  /** Installs a fresh loading source, replacing the previous source, and reloads. */
  method ShowLoadingScreen()
    modifies this
    ensures Valid() && fresh(dataSource)
    ensures Installed() == Some(Loading)
    ensures reloadCount == old(reloadCount) + 1
  {
    var loadingDataSource := new DataSourceObject(Loading);
    dataSource := loadingDataSource;
    delegate := loadingDataSource;
    strongDataSource := loadingDataSource;
    reloadCount := reloadCount + 1;
  }

  /**
   Installs a fresh error source that keeps `campaignListingViewController`, replacing the
   previous source, and reloads.
   */
  method ShowErrorScreenIn(campaignListingViewController: CampaignListingViewController?)
    modifies this
    ensures Valid() && fresh(dataSource)
    ensures Installed() == Some(Error(campaignListingViewController))
    ensures reloadCount == old(reloadCount) + 1
  {
    var errorDataSource := new DataSourceObject(Error(campaignListingViewController));
    dataSource := errorDataSource;
    delegate := errorDataSource;
    strongDataSource := errorDataSource;
    reloadCount := reloadCount + 1;
  }
}
