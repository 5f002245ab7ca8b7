/**
  The parts of the Prism region-navigation framework that the extension library
  talks to, kept opaque: a navigation service exposes its journal's current entry
  and its CanGoBack/CanGoForward flags, accepts GoBack, GoForward and
  RequestNavigate calls (which are only recorded, never interpreted here), and
  owns the invocation list of its Navigated event. A region manager maps region
  names to the navigation service of each region.

  Everything the library and the hooks it calls do is recorded on a Trace, one
  timeline per service, so that the order of hooks and journal calls can be stated.
*/
module Prism {
  import opened Multicast

  datatype Option<T> = None | Some(value: T)

  /** NavigationParameters: the key/value pairs handed to the navigation target. */
  datatype Parameters = Parameters(entries: seq<(string, string)>)

  /** The empty parameter set a caller creates with `new NavigationParameters()`. */
  const EmptyParameters := Parameters([])

  /** A delegate instance created from a lambda; only its identity matters. */
  class Closure {
    constructor () {}
  }

  /**
    An entry of a Navigated invocation list. A delegate's identity is its target
    object: the view model itself, or the closure of a lambda.
  */
  datatype Handler =
    | InsideRegion(owner: object)              // ViewModelBase.onNavigatedInsideRegion of view model `owner`
    | OneShot(closure: Closure, action: nat)   // self-removing lambda that runs after-action `action`

  /** The three DelegateCommands a view model exposes. */
  datatype CommandKind = NavigateCommand | GoBackCommand | GoForwardCommand

  /** What happens on the timeline. */
  datatype Event =
    | BeforeNavigateCalled(owner: object, target: string) // ViewModelBase.BeforeNavigate hook
    | BeforeGoBackCalled(owner: object)                   // ViewModelBase.BeforeGoBack hook
    | BeforeGoForwardCalled(owner: object)                // ViewModelBase.BeforeGoForward hook
    | ActionRan(action: nat)                             // a before-action injected into a region command
    | OneShotSubscribed(action: nat)                     // `Navigated += lambda` for after-action `action`
    | AfterActionRan(action: nat, via: Closure)          // an after-action, run by one-shot handler `via`
    | OneShotUnsubscribed(action: nat, via: Closure)     // `Navigated -= lambda`, run by the handler `via` itself
    | GoBackCalled(service: nat)                         // Journal.GoBack()
    | GoForwardCalled(service: nat)                      // Journal.GoForward()
    | NavigateRequested(service: nat, target: string, parameters: Option<Parameters>, callback: Option<nat>)
    | CanExecuteChanged(owner: object, command: CommandKind) // DelegateCommand.RaiseCanExecuteChanged()
    | SubscriberNotified(sender: object, subscriber: nat)   // a region command's CanExecuteChanged calls `subscriber`

  /**
    The same-view guard of ViewModelBase.navigate and RegionNavigateCommand.Execute:
    the requested view name equals the URI string of the journal's current entry.
    A missing current entry (a null string) never matches.
  */
  function SameView(nextViewName: string, currentUri: Option<string>): (same: bool)
    ensures currentUri.None? ==> !same
    ensures same <==> currentUri == Some(nextViewName)
  {
    currentUri.Some? && currentUri.value == nextViewName
  }

  /** A request made to the journal or the navigation service. */
  predicate IsJournalCall(e: Event)
  {
    e.GoBackCalled? || e.GoForwardCalled? || e.NavigateRequested?
  }

  /** The journal requests among `events`, in order. */
  function JournalCalls(events: seq<Event>): (calls: seq<Event>)
    ensures |calls| <= |events|
    ensures forall i :: 0 <= i < |calls| ==> IsJournalCall(calls[i])
    decreases |events|
  {
    if events == [] then []
    else
      var e := events[|events| - 1];
      JournalCalls(events[..|events| - 1]) + (if IsJournalCall(e) then [e] else [])
  }

  /** JournalCalls keeps exactly the requests: each of them is on the timeline, and nothing else is dropped. */
  lemma {:induction false} JournalCallsExact(events: seq<Event>)
    ensures forall e :: e in JournalCalls(events) <==> e in events && IsJournalCall(e)
    decreases |events|
  {
    if events != [] {
      var init, e := events[..|events| - 1], events[|events| - 1];
      JournalCallsExact(init);
      assert events == init + [e];
    }
  }

  /** A timeline without requests has no journal calls. */
  lemma {:induction false} JournalCallsNone(events: seq<Event>)
    requires forall i :: 0 <= i < |events| ==> !IsJournalCall(events[i])
    ensures JournalCalls(events) == []
    decreases |events|
  {
    if events != [] {
      JournalCallsNone(events[..|events| - 1]);
    }
  }

  /** When only the last event is a request, it is the timeline's one journal call. */
  lemma JournalCallsOnlyLast(prefix: seq<Event>, last: Event)
    requires forall i :: 0 <= i < |prefix| ==> !IsJournalCall(prefix[i])
    requires IsJournalCall(last)
    ensures JournalCalls(prefix + [last]) == [last]
  {
    JournalCallsNone(prefix);
    assert (prefix + [last])[..|prefix|] == prefix;
  }

  /** Journal requests of a concatenated timeline are those of each part, in order. */
  lemma {:induction false} JournalCallsAppend(a: seq<Event>, b: seq<Event>)
    ensures JournalCalls(a + b) == JournalCalls(a) + JournalCalls(b)
    decreases |b|
  {
    if b == [] {
      assert a + b == a;
    } else {
      var last := |b| - 1;
      assert (a + b)[..|a + b| - 1] == a + b[..last];
      assert (a + b)[|a + b| - 1] == b[last];
      JournalCallsAppend(a, b[..last]);
    }
  }

  class Trace {
    var events: seq<Event>

    constructor ()
      ensures events == []
    {
      events := [];
    }

    method Append(more: seq<Event>)
      modifies this
      ensures events == old(events) + more
    {
      events := events + more;
    }
  }

  /**
    IRegionNavigationService together with its journal. `currentUri` is the URI
    string of Journal.CurrentEntry, None when there is no current entry.
  */
  class NavigationService {
    const id: nat
    const trace: Trace
    var currentUri: Option<string>
    var canGoBack: bool
    var canGoForward: bool
    var navigated: seq<Handler>

    constructor (id: nat, trace: Trace, currentUri: Option<string>, canGoBack: bool, canGoForward: bool)
      ensures this.id == id && this.trace == trace
      ensures this.currentUri == currentUri
      ensures this.canGoBack == canGoBack && this.canGoForward == canGoForward
      ensures navigated == []
    {
      this.id := id;
      this.trace := trace;
      this.currentUri := currentUri;
      this.canGoBack := canGoBack;
      this.canGoForward := canGoForward;
      navigated := [];
    }

    /** `Navigated += h` */
    method AddNavigated(h: Handler)
      modifies this
      ensures navigated == old(navigated) + [h]
      ensures currentUri == old(currentUri)
      ensures canGoBack == old(canGoBack) && canGoForward == old(canGoForward)
    {
      navigated := navigated + [h];
    }

    /** `Navigated -= h` */
    method RemoveNavigated(h: Handler)
      modifies this
      ensures navigated == RemoveLast(old(navigated), h)
      ensures currentUri == old(currentUri)
      ensures canGoBack == old(canGoBack) && canGoForward == old(canGoForward)
    {
      navigated := RemoveLast(navigated, h);
    }

    /** Journal.GoBack(): requested, not interpreted. */
    method GoBack()
      modifies trace
      ensures trace.events == old(trace.events) + [GoBackCalled(id)]
    {
      trace.Append([GoBackCalled(id)]);
    }

    /** Journal.GoForward(): requested, not interpreted. */
    method GoForward()
      modifies trace
      ensures trace.events == old(trace.events) + [GoForwardCalled(id)]
    {
      trace.Append([GoForwardCalled(id)]);
    }

    /** RequestNavigate(target, callback, parameters): requested, not interpreted. */
    method RequestNavigate(target: string, parameters: Option<Parameters>, callback: Option<nat>)
      modifies trace
      ensures trace.events == old(trace.events) + [NavigateRequested(id, target, parameters, callback)]
    {
      trace.Append([NavigateRequested(id, target, parameters, callback)]);
    }
  }

  /** NavigationContext: only its NavigationService is read. */
  datatype NavigationContext = NavigationContext(navigationService: NavigationService)

  /** IRegionManager.Regions, each region reduced to its navigation service. */
  class RegionManager {
    const regions: map<string, NavigationService>

    constructor (regions: map<string, NavigationService>)
      ensures this.regions == regions
    {
      this.regions := regions;
    }
  }
}
