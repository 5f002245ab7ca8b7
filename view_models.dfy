/**
  ViewModelBase: the base class of view models shown inside a region. It is
  Detached (no navigation service) until the region navigates to it, and Attached
  from OnNavigatedTo until OnNavigatedFrom. Its three commands (Navigate, GoBack,
  GoForward) are enabled according to that state and the journal's flags, and it
  re-raises their CanExecuteChanged whenever the region reports a navigation.

  The overridable hooks BeforeNavigate, BeforeGoBack and BeforeGoForward are
  injected: each call is recorded on the service's trace, and BeforeNavigate's
  result is the function `beforeNavigate` (the base class returns null, `None`).
*/
module ViewModels {
  import opened Multicast
  import opened Prism

  /**
    What onNavigatedInsideRegion does for view model `owner`: CanExecuteChanged of
    its Navigate, GoBack and GoForward commands, in that order, and no journal call.
  */
  function RefreshEvents(owner: object): (r: seq<Event>)
    ensures |r| == 3
    ensures forall i :: 0 <= i < |r| ==> r[i].CanExecuteChanged? && r[i].owner == owner
    ensures r[0].command == NavigateCommand && r[1].command == GoBackCommand && r[2].command == GoForwardCommand
    ensures JournalCalls(r) == []
  {
    var a, b, c := CanExecuteChanged(owner, NavigateCommand), CanExecuteChanged(owner, GoBackCommand),
                   CanExecuteChanged(owner, GoForwardCommand);
    var r := [a, b, c];
    assert JournalCalls([a]) == [] by { assert [a][..0] == []; }
    assert JournalCalls([a, b]) == [] by { assert [a, b][..1] == [a]; }
    assert JournalCalls(r) == [] by { assert r[..2] == [a, b]; }
    r
  }

  /**
    What navigate(nextViewName) puts on the timeline: the BeforeNavigate hook runs
    first, unconditionally; only then is the guard checked, and a navigation is
    requested with the hook's result when it passes.
  */
  function NavigateEvents(owner: object, service: nat, nextViewName: string, currentUri: Option<string>,
                          parameters: Option<Parameters>): (r: seq<Event>)
    ensures |r| == if SameView(nextViewName, currentUri) then 1 else 2
    ensures r[0] == BeforeNavigateCalled(owner, nextViewName)
    ensures SameView(nextViewName, currentUri) ==> JournalCalls(r) == []
    ensures !SameView(nextViewName, currentUri) ==>
              JournalCalls(r) == [NavigateRequested(service, nextViewName, parameters, None)]
  {
    var hook := [BeforeNavigateCalled(owner, nextViewName)];
    assert JournalCalls(hook) == [] by {
      assert hook[..0] == [];
    }
    if SameView(nextViewName, currentUri) then hook
    else
      var request := [NavigateRequested(service, nextViewName, parameters, None)];
      assert JournalCalls(request) == request by {
        assert request[..0] == [];
      }
      JournalCallsAppend(hook, request);
      hook + request
  }

  class ViewModel {
    const beforeNavigate: string -> Option<Parameters>
    var regionNavigationService: NavigationService?

    /** A fresh view model is Detached; its commands are wired to the members below. */
    constructor (beforeNavigate: string -> Option<Parameters>)
      ensures this.beforeNavigate == beforeNavigate
      ensures !Attached()
    {
      this.beforeNavigate := beforeNavigate;
      regionNavigationService := null;
    }

    /** IRegionMemberLifetime.KeepAlive: the view instance survives navigating away. */
    function KeepAlive(): (keep: bool)
      ensures keep
    {
      true
    }

    /** INavigationAware.IsNavigationTarget: the existing view instance is reused. */
    function IsNavigationTarget(context: NavigationContext): (reuse: bool)
      ensures reuse
    {
      true
    }

    /** IJournalAware.PersistInHistory: the view is recorded in the journal. */
    function PersistInHistory(): (persist: bool)
      ensures persist
    {
      true
    }

    predicate Attached()
      reads this
    {
      regionNavigationService != null
    }

    /** canNavigate: the parameter plays no part; only a live service matters. */
    function CanNavigate(nextViewName: string): (can: bool)
      reads this
      ensures can <==> Attached()
    {
      regionNavigationService != null
    }

    /** canGoBack */
    function CanGoBack(): (can: bool)
      reads this, regionNavigationService
      ensures !Attached() ==> !can
      ensures Attached() ==> can == regionNavigationService.canGoBack
    {
      var service := regionNavigationService;
      if service == null then false else service.canGoBack
    }

    /** canGoForward */
    function CanGoForward(): (can: bool)
      reads this, regionNavigationService
      ensures !Attached() ==> !can
      ensures Attached() ==> can == regionNavigationService.canGoForward
    {
      var service := regionNavigationService;
      if service == null then false else service.canGoForward
    }

    /**
      Detached or Attached -> Attached: keep the context's service and subscribe
      onNavigatedInsideRegion to its Navigated event. An earlier subscription is
      not removed first, so attaching twice subscribes twice.
    */
    method OnNavigatedTo(context: NavigationContext)
      modifies this, context.navigationService
      ensures regionNavigationService == context.navigationService
      ensures context.navigationService.navigated == old(context.navigationService.navigated) + [InsideRegion(this)]
      ensures context.navigationService.currentUri == old(context.navigationService.currentUri)
      ensures forall name :: CanNavigate(name)
      ensures CanGoBack() == context.navigationService.canGoBack == old(context.navigationService.canGoBack)
      ensures CanGoForward() == context.navigationService.canGoForward == old(context.navigationService.canGoForward)
    {
      regionNavigationService := context.navigationService;
      regionNavigationService.AddNavigated(InsideRegion(this));
    }

    /**
      Attached -> Detached: unsubscribe (the last occurrence of) onNavigatedInsideRegion
      and drop the service. Already Detached: nothing changes. The context is not read.
    */
    method OnNavigatedFrom(context: NavigationContext)
      modifies this, regionNavigationService
      ensures old(regionNavigationService) == null ==> unchanged(this)
      ensures !Attached()
      ensures old(regionNavigationService) != null ==>
                old(regionNavigationService).navigated
                  == RemoveLast(old(regionNavigationService.navigated), InsideRegion(this))
      ensures old(regionNavigationService) != null ==>
                old(regionNavigationService).currentUri == old(regionNavigationService.currentUri)
      ensures old(regionNavigationService) != null ==>
                old(regionNavigationService).canGoBack == old(regionNavigationService.canGoBack)
                && old(regionNavigationService).canGoForward == old(regionNavigationService.canGoForward)
      ensures forall name :: !CanNavigate(name)
      ensures !CanGoBack() && !CanGoForward()
    {
      if regionNavigationService != null {
        regionNavigationService.RemoveNavigated(InsideRegion(this));
        regionNavigationService := null;
      }
    }

    /**
      navigate (the NavigateCommand's action). The BeforeNavigate hook runs before
      the same-view guard; the request carries the hook's result unchanged.
    */
    method Navigate(nextViewName: string)
      requires Attached()
      modifies regionNavigationService.trace
      ensures regionNavigationService.trace.events
                == old(regionNavigationService.trace.events)
                   + NavigateEvents(this, regionNavigationService.id, nextViewName,
                                    old(regionNavigationService.currentUri), beforeNavigate(nextViewName))
    {
      var service := regionNavigationService;
      service.trace.Append([BeforeNavigateCalled(this, nextViewName)]);
      var navigateParams := beforeNavigate(nextViewName);
      if SameView(nextViewName, service.currentUri) {
        return;
      }
      service.RequestNavigate(nextViewName, navigateParams, None);
    }

    /** goBack (the GoBackCommand's action): the BeforeGoBack hook, then exactly one Journal.GoBack(). */
    method GoBack()
      requires Attached()
      modifies regionNavigationService.trace
      ensures regionNavigationService.trace.events
                == old(regionNavigationService.trace.events)
                   + [BeforeGoBackCalled(this), GoBackCalled(regionNavigationService.id)]
    {
      var service := regionNavigationService;
      service.trace.Append([BeforeGoBackCalled(this)]);
      service.GoBack();
    }

    /** goForward (the GoForwardCommand's action): the BeforeGoForward hook, then exactly one Journal.GoForward(). */
    method GoForward()
      requires Attached()
      modifies regionNavigationService.trace
      ensures regionNavigationService.trace.events
                == old(regionNavigationService.trace.events)
                   + [BeforeGoForwardCalled(this), GoForwardCalled(regionNavigationService.id)]
    {
      var service := regionNavigationService;
      service.trace.Append([BeforeGoForwardCalled(this)]);
      service.GoForward();
    }
  }
}
