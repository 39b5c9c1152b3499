/**
 The view controller of the campaign listing screen: every appearance shows the loading
 screen and issues one campaign-list request; the request's completion either displays the
 campaigns or, for one of four transport error codes, shows the retryable error screen.
 Every error is logged.

 The request itself is left out: `requestsIssued` counts the requests, and the two
 completion closures are the methods `OnNext` and `OnError`, called by whoever delivers
 the result. `ScreenState`, `Step` and `Run` describe what a history of such calls does.
 */

/** Error codes of network failures (`NSURLError` codes). */
const TimedOutCode := -1001
const CannotFindHostCode := -1003
const NotConnectedToInternetCode := -1009
const SecureConnectionFailedCode := -1200

/** What a failure with a given code means. */
datatype ErrorKind = Timeout | HostUnresolvable | NoConnectivity | SecureChannelFailure | Other

function Classify(errorCode: int): ErrorKind
{
  if errorCode == TimedOutCode then Timeout
  else if errorCode == CannotFindHostCode then HostUnresolvable
  else if errorCode == NotConnectedToInternetCode then NoConnectivity
  else if errorCode == SecureConnectionFailedCode then SecureChannelFailure
  else Other
}

/** The error-code test of the error handler: only network failures get the error screen. */
predicate IsNetworkFailure(errorCode: int)
  ensures IsNetworkFailure(errorCode) <==> Classify(errorCode) != Other
  ensures IsNetworkFailure(errorCode) <==> errorCode in {-1001, -1003, -1009, -1200}
{
  errorCode == -1001 || errorCode == -1003 || errorCode == -1009 || errorCode == -1200
}

/** The process's diagnostic output; only the number of lines written is kept. */
class DiagnosticLog {
  var entries: nat

  constructor ()
    ensures entries == 0
  {
    entries := 0;
  }

  /** Writes one line. */
  method Record()
    modifies this
    ensures entries == old(entries) + 1
  {
    entries := entries + 1;
  }
}

/** What the screen's behaviour depends on: the installed data source and the requests issued. */
datatype ScreenState = ScreenState(installed: Option<DataSource>, requestsIssued: nat)

/** The events the controller reacts to, in the order they are delivered. */
datatype Event =
  | Appear                          // viewWillAppear
  | RetryTap                        // the retry button of the installed error cell is tapped
  | Received(campaigns: CampaignList) // a request completes with campaigns
  | Failed(errorCode: int)          // a request completes with an error

/** The effect of `tryToLoadCampaignList`: loading screen, then one more request. */
function Load(state: ScreenState): ScreenState
{
  ScreenState(Some(Loading), state.requestsIssued + 1)
}

/**
 The effect of one event on the screen of a controller that is still alive (a completion
 that finds its controller gone changes no screen). A retry tap reaches `controller`
 only while its own error screen is installed; any completion is applied, whichever
 request it belongs to.
 */
function Step(state: ScreenState, event: Event, controller: CampaignListingViewController): ScreenState
{
  match event
  case Appear => Load(state)
  case RetryTap =>
    if state.installed == Some(Error(controller)) then Load(state) else state
  case Received(campaigns) => state.(installed := Some(Listing(campaigns)))
  case Failed(errorCode) =>
    if IsNetworkFailure(errorCode) then state.(installed := Some(Error(controller))) else state
}

/** The effect of a history of events, the first event first. */
function Run(state: ScreenState, events: seq<Event>, controller: CampaignListingViewController): ScreenState
  decreases |events|
{
  if events == [] then state else Run(Step(state, events[0], controller), events[1..], controller)
}

/** The screen state of a fresh screen. */
const InitialState := ScreenState(None, 0)

class CampaignListingViewController {
  const typedView: CampaignListingView
  var requestsIssued: nat

  constructor (typedView: CampaignListingView)
    ensures this.typedView == typedView && requestsIssued == 0
  {
    this.typedView := typedView;
    requestsIssued := 0;
  }

  function State(): ScreenState
    reads this, typedView
  {
    ScreenState(typedView.Installed(), requestsIssued)
  }

  /** Every appearance loads again, whatever is shown and whatever is in flight. */
  method ViewWillAppear(animated: bool)
    modifies this, typedView
    ensures State() == Step(old(State()), Appear, this)
    ensures typedView.Valid() && fresh(typedView.dataSource)
    ensures typedView.reloadCount == old(typedView.reloadCount) + 1
  {
    TryToLoadCampaignList();
  }

  /** Shows the loading screen, then issues one campaign-list request. */
  method TryToLoadCampaignList()
    modifies this, typedView
    ensures State() == Load(old(State()))
    ensures typedView.Valid() && fresh(typedView.dataSource)
    ensures typedView.reloadCount == old(typedView.reloadCount) + 1
  {
    typedView.ShowLoadingScreen();
    requestsIssued := requestsIssued + 1;
  }
}

/**
 The success closure of a request; `weakSelf` is the weakly captured controller, `null`
 once the controller is gone, in which case nothing changes.
 */
method OnNext(weakSelf: CampaignListingViewController?, campaigns: CampaignList)
  modifies if weakSelf != null then {weakSelf.typedView} else {}
  ensures weakSelf != null ==> weakSelf.State() == Step(old(weakSelf.State()), Received(campaigns), weakSelf)
  ensures weakSelf != null ==> weakSelf.typedView.Valid() && fresh(weakSelf.typedView.dataSource)
  ensures weakSelf != null ==> weakSelf.typedView.reloadCount == old(weakSelf.typedView.reloadCount) + 1
{
  if weakSelf != null {
    weakSelf.typedView.Display(campaigns);
  }
}

/**
 The error closure of a request: a network failure shows the error screen linked to the
 controller (if it still exists); any other error leaves the view as it is. Either way,
 and even once the controller is gone, one line is logged.
 */
method OnError(weakSelf: CampaignListingViewController?, errorCode: int, log: DiagnosticLog)
  modifies log, if weakSelf != null then {weakSelf.typedView} else {}
  ensures log.entries == old(log.entries) + 1
  ensures weakSelf != null ==> weakSelf.State() == Step(old(weakSelf.State()), Failed(errorCode), weakSelf)
  ensures weakSelf != null && IsNetworkFailure(errorCode) ==>
            weakSelf.typedView.Valid() && fresh(weakSelf.typedView.dataSource)
            && weakSelf.typedView.reloadCount == old(weakSelf.typedView.reloadCount) + 1
  ensures weakSelf != null && !IsNetworkFailure(errorCode) ==> unchanged(weakSelf.typedView)
{
  if IsNetworkFailure(errorCode) {
    if weakSelf != null {
      weakSelf.typedView.ShowErrorScreenIn(weakSelf);
    }
  }
  log.Record();
}

/**
 A tap on the retry button of an error cell sends `tryToLoadCampaignList` to the button's
 target. Without a target nothing in this model changes. A cell the installed error source
 of the target's view shows (see `DisplayedRetryButtons`) makes this the `RetryTap` step.
 */
method TapRetryButton(cell: Cell)
  requires cell.ErrorCell?
  modifies if cell.retryTarget != null then {cell.retryTarget} else {}
  modifies if cell.retryTarget != null then {cell.retryTarget.typedView} else {}
  ensures cell.retryTarget != null ==> cell.retryTarget.State() == Load(old(cell.retryTarget.State()))
  ensures cell.retryTarget != null && old(cell.retryTarget.typedView.Installed()) == Some(Error(cell.retryTarget)) ==>
            cell.retryTarget.State() == Step(old(cell.retryTarget.State()), RetryTap, cell.retryTarget)
  ensures cell.retryTarget != null ==>
            cell.retryTarget.typedView.Valid() && fresh(cell.retryTarget.typedView.dataSource)
            && cell.retryTarget.typedView.reloadCount == old(cell.retryTarget.typedView.reloadCount) + 1
{
  var target := cell.retryTarget;
  if target != null {
    match cell.retryAction
    case TryToLoadCampaignListSelector => target.TryToLoadCampaignList();
  }
}

/** Running a history and then one more event is stepping the history's result. */
lemma {:induction false} RunSnoc(state: ScreenState, events: seq<Event>, event: Event,
                                 controller: CampaignListingViewController)
  ensures Run(state, events + [event], controller) == Step(Run(state, events, controller), event, controller)
  decreases |events|
{
  if events == [] {
    assert [] + [event] == [event];
  } else {
    assert (events + [event])[1..] == events[1..] + [event];
    RunSnoc(Step(state, events[0], controller), events[1..], event, controller);
  }
}

/** After any history, an appearance puts the screen into the loading state and issues a request. */
lemma AppearAlwaysLoads(state: ScreenState, events: seq<Event>, controller: CampaignListingViewController)
  ensures Run(state, events + [Appear], controller).installed == Some(Loading)
  ensures Run(state, events + [Appear], controller).requestsIssued
          == Run(state, events, controller).requestsIssued + 1
{
  RunSnoc(state, events, Appear, controller);
}

/** A completion installs its campaigns after any history, even one with newer requests. */
lemma CompletionAlwaysInstalls(state: ScreenState, events: seq<Event>, campaigns: CampaignList,
                               controller: CampaignListingViewController)
  ensures Run(state, events + [Received(campaigns)], controller).installed == Some(Listing(campaigns))
{
  RunSnoc(state, events, Received(campaigns), controller);
}

/** A retry tap while this controller's error screen is shown puts the screen back into loading. */
lemma RetryFromErrorLoads(state: ScreenState, events: seq<Event>, controller: CampaignListingViewController)
  requires Run(state, events, controller).installed == Some(Error(controller))
  ensures Run(state, events + [RetryTap], controller).installed == Some(Loading)
{
  RunSnoc(state, events, RetryTap, controller);
}

/** A retry tap while no error screen is shown changes nothing. */
lemma RetryElsewhereIgnored(state: ScreenState, events: seq<Event>, controller: CampaignListingViewController)
  requires Run(state, events, controller).installed.Some?
  requires !Run(state, events, controller).installed.value.Error?
  ensures Run(state, events + [RetryTap], controller) == Run(state, events, controller)
{
  RunSnoc(state, events, RetryTap, controller);
}

/** The number of appearances in a history. */
function Appearances(events: seq<Event>): nat
{
  if events == [] then 0 else (if events[0] == Appear then 1 else 0) + Appearances(events[1..])
}

/** Every appearance issues its own request: overlapping loads are not merged. */
lemma {:induction false} EveryAppearanceIssuesARequest(state: ScreenState, events: seq<Event>,
                                                       controller: CampaignListingViewController)
  ensures Run(state, events, controller).requestsIssued >= state.requestsIssued + Appearances(events)
  decreases |events|
{
  if events != [] {
    EveryAppearanceIssuesARequest(Step(state, events[0], controller), events[1..], controller);
  }
}

/** A history without the failures that are not network failures. */
function WithoutIgnoredErrors(events: seq<Event>): seq<Event>
{
  if events == [] then []
  else if events[0].Failed? && !IsNetworkFailure(events[0].errorCode) then WithoutIgnoredErrors(events[1..])
  else [events[0]] + WithoutIgnoredErrors(events[1..])
}

/** Failures other than network failures have no effect on the screen at all. */
lemma {:induction false} IgnoredErrorsInvisible(state: ScreenState, events: seq<Event>,
                                                controller: CampaignListingViewController)
  ensures Run(state, events, controller) == Run(state, WithoutIgnoredErrors(events), controller)
  decreases |events|
{
  if events != [] {
    var rest := WithoutIgnoredErrors(events[1..]);
    IgnoredErrorsInvisible(Step(state, events[0], controller), events[1..], controller);
    if events[0].Failed? && !IsNetworkFailure(events[0].errorCode) {
      IgnoredErrorsInvisible(state, events[1..], controller);
    } else {
      assert ([events[0]] + rest)[0] == events[0];
      assert ([events[0]] + rest)[1..] == rest;
    }
  }
}

/**
 An error screen at the end of a history was either there from the start or was installed,
 linked to this controller, by a network failure in the history.
 */
lemma {:induction false} ErrorScreenNeedsNetworkFailure(state: ScreenState, events: seq<Event>,
                                                        controller: CampaignListingViewController)
  ensures var final := Run(state, events, controller).installed;
          final.Some? && final.value.Error? ==>
            final == state.installed
            || (final == Some(Error(controller))
                && exists i :: 0 <= i < |events| && events[i].Failed? && IsNetworkFailure(events[i].errorCode))
  decreases |events|
{
  if events != [] {
    var next := Step(state, events[0], controller);
    ErrorScreenNeedsNetworkFailure(next, events[1..], controller);
    var final := Run(state, events, controller).installed;
    if final.Some? && final.value.Error? && final != state.installed {
      if final == next.installed {
        assert events[0].Failed? && IsNetworkFailure(events[0].errorCode);
      } else {
        var j :| 0 <= j < |events[1..]| && events[1..][j].Failed? && IsNetworkFailure(events[1..][j].errorCode);
        assert events[j + 1] == events[1..][j];
      }
    }
  }
}

/**
 A listing at the end of a history shows campaigns that were there from the start or that
 a completion in the history delivered.
 */
lemma {:induction false} ListingNeedsCompletion(state: ScreenState, events: seq<Event>,
                                                controller: CampaignListingViewController)
  ensures var final := Run(state, events, controller).installed;
          final.Some? && final.value.Listing? ==>
            final == state.installed || Received(final.value.campaigns) in events
  decreases |events|
{
  if events != [] {
    var next := Step(state, events[0], controller);
    ListingNeedsCompletion(next, events[1..], controller);
    var final := Run(state, events, controller).installed;
    if final.Some? && final.value.Listing? && final != state.installed {
      if final == next.installed {
        assert events[0] == Received(final.value.campaigns);
      } else {
        assert Received(final.value.campaigns) in events[1..];
      }
    }
  }
}

/** Appearance, then a completion with two campaigns: one loading item, then the two in order. */
lemma ScenarioContentLoads(a: Campaign, b: Campaign, controller: CampaignListingViewController)
  ensures Run(InitialState, [Appear], controller).installed == Some(Loading)
  ensures NumberOfItems(Loading) == 1
  ensures Run(InitialState, [Appear, Received([a, b])], controller).installed == Some(Listing([a, b]))
  ensures CampaignsShown(CellsOf(Listing([a, b]))) == [a, b]
{
  RunSnoc(InitialState, [Appear], Received([a, b]), controller);
  assert [Appear] + [Received([a, b])] == [Appear, Received([a, b])];
  RenderedItems(Listing([a, b]));
}

/**
 Appearance, no connectivity, retry, an empty completion: error screen with one item, then
 loading, then a listing of no items.
 */
lemma ScenarioRetryAfterNoConnectivity(controller: CampaignListingViewController)
  ensures Run(InitialState, [Appear, Failed(-1009)], controller).installed == Some(Error(controller))
  ensures Classify(-1009) == NoConnectivity
  ensures NumberOfItems(Error(controller)) == 1
  ensures Run(InitialState, [Appear, Failed(-1009), RetryTap], controller).installed == Some(Loading)
  ensures Run(InitialState, [Appear, Failed(-1009), RetryTap, Received([])], controller)
          == ScreenState(Some(Listing([])), 2)
  ensures NumberOfItems(Listing([])) == 0
{
}

/** Appearance, then an unclassified error: the loading screen stays. */
lemma ScenarioUnclassifiedErrorKeepsLoading(controller: CampaignListingViewController)
  ensures Run(InitialState, [Appear, Failed(-500)], controller) == ScreenState(Some(Loading), 1)
{
}

/**
 The same history on the classes: the view, the controller and the log, called as UIKit
 and the request's completions would call them.
 */
method NoConnectivityThenRetry()
{
  var view := new CampaignListingView();
  var controller := new CampaignListingViewController(view);
  var log := new DiagnosticLog();
  controller.ViewWillAppear(true);
  assert view.Installed() == Some(Loading) && controller.requestsIssued == 1;
  OnError(controller, NotConnectedToInternetCode, log);
  assert view.Installed() == Some(Error(controller)) && log.entries == 1;
  var cell := CellForItem(view.Installed().value, 0);
  TapRetryButton(cell);
  assert view.Installed() == Some(Loading) && controller.requestsIssued == 2;
  OnError(controller, -500, log);
  assert view.Installed() == Some(Loading) && log.entries == 2;
  OnNext(controller, []);
  assert view.Installed() == Some(Listing([])) && NumberOfItems(view.Installed().value) == 0;
}
