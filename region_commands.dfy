/**
  The three commands that act on a region from outside it: RegionGoBackCommand,
  RegionGoForwardCommand and RegionNavigateCommand. Each holds the region manager
  and a region name, and looks the region up at call time. Each may carry an
  injected before-action and an after-action; a before-action run is recorded as
  ActionRan, an after-action run as AfterActionRan.
*/
module Commands {
  import opened Multicast
  import opened Prism

  /** The `object?` handed to ICommand.CanExecute / Execute. */
  datatype CommandParameter = NullParameter | TextParameter(text: string) | ObjectParameter

  /** An injected Func<NavigationParameters>: running it is recorded as ActionRan(action); it returns `result`. */
  datatype NavigateHook = NavigateHook(action: nat, result: Parameters)

  /**
    What Execute of a GoBack or GoForward command puts on the timeline: the
    before-action, if any, exactly once and first; then the subscription of the
    after-action, if any, so that it is in place before the journal moves; then
    exactly one journal call.
  */
  function JournalCommandEvents(before: Option<nat>, after: Option<nat>, call: Event): (r: seq<Event>)
    requires call.GoBackCalled? || call.GoForwardCalled?
    ensures JournalCalls(r) == [call]
    ensures r[|r| - 1] == call
    ensures before.Some? ==> r[0] == ActionRan(before.value)
    ensures |r| == (if before.Some? then 1 else 0) + (if after.Some? then 1 else 0) + 1
    ensures after.Some? ==> r[|r| - 2] == OneShotSubscribed(after.value)
  {
    var hook := if before.Some? then [ActionRan(before.value)] else [];
    var subscribe := if after.Some? then [OneShotSubscribed(after.value)] else [];
    assert forall i :: 0 <= i < |hook + subscribe| ==> !IsJournalCall((hook + subscribe)[i]);
    JournalCallsOnlyLast(hook + subscribe, call);
    hook + subscribe + [call]
  }

  /** The parameters RegionNavigateCommand passes: the hook's result, or a fresh empty set without a hook. */
  function ChosenParameters(before: Option<NavigateHook>): (p: Parameters)
    ensures before.None? ==> p == EmptyParameters
    ensures before.Some? ==> p == before.value.result
  {
    match before
    case None => EmptyParameters
    case Some(hook) => hook.result
  }

  /**
    What RegionNavigateCommand.Execute(nextViewName) puts on the timeline: the
    same-view guard comes first and, when it holds, nothing at all happens;
    otherwise the before-hook runs once and exactly one navigation is requested,
    with the after-action as its completion callback.
  */
  function NavigateCommandEvents(service: nat, nextViewName: string, currentUri: Option<string>,
                                 before: Option<NavigateHook>, after: Option<nat>): (r: seq<Event>)
    ensures SameView(nextViewName, currentUri) ==> r == []
    ensures !SameView(nextViewName, currentUri) ==>
              JournalCalls(r) == [NavigateRequested(service, nextViewName, Some(ChosenParameters(before)), after)]
    ensures !SameView(nextViewName, currentUri) ==>
              r[|r| - 1] == NavigateRequested(service, nextViewName, Some(ChosenParameters(before)), after)
    ensures !SameView(nextViewName, currentUri) && before.Some? ==> r[0] == ActionRan(before.value.action)
    ensures !SameView(nextViewName, currentUri) ==> |r| == if before.Some? then 2 else 1
  {
    if SameView(nextViewName, currentUri) then []
    else
      var request := NavigateRequested(service, nextViewName, Some(ChosenParameters(before)), after);
      var prefix := if before.Some? then [ActionRan(before.value.action)] else [];
      JournalCallsOnlyLast(prefix, request);
      prefix + [request]
  }

  /** A GoBack or GoForward command runs its before-action at most once, and only as its first step. */
  lemma BeforeActionOnce(before: Option<nat>, after: Option<nat>, call: Event)
    requires call.GoBackCalled? || call.GoForwardCalled?
    ensures var r := JournalCommandEvents(before, after, call);
            forall i :: 0 <= i < |r| && r[i].ActionRan? ==> i == 0 && before == Some(r[i].action)
  {
    var r := JournalCommandEvents(before, after, call);
    assert r[|r| - 1] == call;
  }

  /**
    Raising a region command's CanExecuteChanged: each subscriber is called once,
    first subscribed first, with the command as sender.
  */
  function Notifications(command: object, subscribers: seq<nat>): (r: seq<Event>)
    ensures |r| == |subscribers|
    decreases |subscribers|
  {
    if subscribers == [] then []
    else [SubscriberNotified(command, subscribers[0])] + Notifications(command, subscribers[1..])
  }

  /** The i-th notification goes to the i-th subscriber, from this command. */
  lemma {:induction false} NotificationsInOrder(command: object, subscribers: seq<nat>)
    ensures forall i :: 0 <= i < |subscribers| ==>
              Notifications(command, subscribers)[i] == SubscriberNotified(command, subscribers[i])
    decreases |subscribers|
  {
    if subscribers != [] {
      NotificationsInOrder(command, subscribers[1..]);
      forall i | 0 <= i < |subscribers|
        ensures Notifications(command, subscribers)[i] == SubscriberNotified(command, subscribers[i])
      {
        if i > 0 {
          assert Notifications(command, subscribers)[i] == Notifications(command, subscribers[1..])[i - 1];
        }
      }
    }
  }

  /** Each subscriber is called exactly as many times as it is subscribed, and nobody else is called. */
  lemma {:induction false} NotificationsCount(command: object, subscribers: seq<nat>, e: Event)
    ensures multiset(Notifications(command, subscribers))[e]
              == if e.SubscriberNotified? && e.sender == command then multiset(subscribers)[e.subscriber] else 0
    decreases |subscribers|
  {
    if subscribers != [] {
      var s, rest := subscribers[0], subscribers[1..];
      assert subscribers == [s] + rest;
      NotificationsCount(command, rest, e);
    }
  }

  /** A navigate command's Execute raises no CanExecuteChanged: its timeline holds no notification. */
  lemma NavigateCommandNeverNotifies(service: nat, nextViewName: string, currentUri: Option<string>,
                                     before: Option<NavigateHook>, after: Option<nat>)
    ensures forall e :: e in NavigateCommandEvents(service, nextViewName, currentUri, before, after) ==> !e.SubscriberNotified?
  {
    var r := NavigateCommandEvents(service, nextViewName, currentUri, before, after);
    if r != [] {
      assert r[|r| - 1].NavigateRequested?;
    }
  }

  /** A navigate command runs its before-hook at most once, and only as its first step. */
  lemma NavigateHookOnce(service: nat, nextViewName: string, currentUri: Option<string>,
                         before: Option<NavigateHook>, after: Option<nat>)
    ensures var r := NavigateCommandEvents(service, nextViewName, currentUri, before, after);
            forall i :: 0 <= i < |r| && r[i].ActionRan? ==> i == 0 && before.Some? && r[i].action == before.value.action
  {
    var r := NavigateCommandEvents(service, nextViewName, currentUri, before, after);
    if r != [] {
      assert r[|r| - 1].NavigateRequested?;
    }
  }

  /**
    The self-removing lambda that Execute subscribes to Navigated when an
    after-action is configured: it runs the action, then unsubscribes itself.
  */
  method RunOneShot(service: NavigationService, closure: Closure, action: nat)
    modifies service, service.trace
    ensures service.trace.events
              == old(service.trace.events) + [AfterActionRan(action, closure), OneShotUnsubscribed(action, closure)]
    ensures service.navigated == RemoveLast(old(service.navigated), OneShot(closure, action))
    ensures service.currentUri == old(service.currentUri)
    ensures service.canGoBack == old(service.canGoBack) && service.canGoForward == old(service.canGoForward)
  {
    service.trace.Append([AfterActionRan(action, closure)]);
    service.RemoveNavigated(OneShot(closure, action));
    service.trace.Append([OneShotUnsubscribed(action, closure)]);
  }

  /** `after` is `before` with one more handler at the end: a one-shot handler for `action` not subscribed before. */
  predicate OneShotAdded(before: seq<Handler>, after: seq<Handler>, action: nat)
  {
    && after != []
    && var h := after[|after| - 1];
       && after == before + [h]
       && h.OneShot? && h.action == action
       && h !in before
  }

  /** Creates a new one-shot lambda for `action` and subscribes it. */
  method SubscribeOneShot(service: NavigationService, action: nat) returns (h: Handler)
    modifies service, service.trace
    ensures OneShotAdded(old(service.navigated), service.navigated, action)
    ensures h == service.navigated[|service.navigated| - 1] && fresh(h.closure)
    ensures service.trace.events == old(service.trace.events) + [OneShotSubscribed(action)]
    ensures service.currentUri == old(service.currentUri)
    ensures service.canGoBack == old(service.canGoBack) && service.canGoForward == old(service.canGoForward)
  {
    var closure := new Closure();
    h := OneShot(closure, action);
    assert h !in old(service.navigated);
    service.AddNavigated(h);
    service.trace.Append([OneShotSubscribed(action)]);
  }

  class RegionGoBackCommand {
    const regionManager: RegionManager
    const regionName: string
    const beforeGoBack: Option<nat>
    const afterGoBack: Option<nat>
    var canExecuteChanged: seq<nat>

    constructor (regionManager: RegionManager, regionName: string, beforeGoBack: Option<nat>, afterGoBack: Option<nat>)
      ensures this.regionManager == regionManager && this.regionName == regionName
      ensures this.beforeGoBack == beforeGoBack && this.afterGoBack == afterGoBack
      ensures canExecuteChanged == []
    {
      this.regionManager := regionManager;
      this.regionName := regionName;
      this.beforeGoBack := beforeGoBack;
      this.afterGoBack := afterGoBack;
      canExecuteChanged := [];
    }

    /** `CanExecuteChanged += subscriber` */
    method AddCanExecuteChanged(subscriber: nat)
      modifies this
      ensures canExecuteChanged == old(canExecuteChanged) + [subscriber]
    {
      canExecuteChanged := canExecuteChanged + [subscriber];
    }

    /** `CanExecuteChanged -= subscriber` */
    method RemoveCanExecuteChanged(subscriber: nat)
      modifies this
      ensures canExecuteChanged == RemoveLast(old(canExecuteChanged), subscriber)
    {
      canExecuteChanged := RemoveLast(canExecuteChanged, subscriber);
    }

    /**
      Raises CanExecuteChanged when anybody is subscribed: each subscriber, in the
      invocation list as it is now, is called once with this command as sender.
      The subscribers' reactions are not modelled; `timeline` records the calls.
    */
    method CheckCanExecute(timeline: Trace)
      modifies timeline
      ensures timeline.events == old(timeline.events) + Notifications(this, canExecuteChanged)
      ensures canExecuteChanged == old(canExecuteChanged)
    {
      if canExecuteChanged != [] {
        var rest := canExecuteChanged;
        while rest != []
          invariant timeline.events + Notifications(this, rest) == old(timeline.events) + Notifications(this, canExecuteChanged)
          decreases |rest|
        {
          timeline.Append([SubscriberNotified(this, rest[0])]);
          rest := rest[1..];
        }
      }
    }

    /** Enabled exactly when the region exists and its journal can go back; the parameter is ignored. */
    function CanExecute(parameter: CommandParameter): (can: bool)
      reads regionManager.regions.Values
      ensures regionName !in regionManager.regions ==> !can
      ensures regionName in regionManager.regions ==> can == regionManager.regions[regionName].canGoBack
    {
      if regionName !in regionManager.regions then false
      else
        var navigationService := regionManager.regions[regionName];
        navigationService.canGoBack
    }

    function Target(): (service: NavigationService)
      requires regionName in regionManager.regions
    {
      regionManager.regions[regionName]
    }

    /**
      Looks the region up (it must exist; CanExecute is not consulted), runs the
      before-action, subscribes a one-shot after-action handler when configured,
      and calls Journal.GoBack() exactly once. The parameter is ignored.
    */
    method Execute(parameter: CommandParameter)
      requires regionName in regionManager.regions
      modifies Target(), Target().trace
      ensures Target().trace.events
                == old(Target().trace.events) + JournalCommandEvents(beforeGoBack, afterGoBack, GoBackCalled(Target().id))
      ensures afterGoBack.None? ==> Target().navigated == old(Target().navigated)
      ensures afterGoBack.Some? ==>
                OneShotAdded(old(Target().navigated), Target().navigated, afterGoBack.value)
                && fresh(Target().navigated[|Target().navigated| - 1].closure)
      ensures Target().currentUri == old(Target().currentUri)
      ensures Target().canGoBack == old(Target().canGoBack) && Target().canGoForward == old(Target().canGoForward)
    {
      var navigationService := regionManager.regions[regionName];
      ghost var hook := if beforeGoBack.Some? then [ActionRan(beforeGoBack.value)] else [];
      ghost var subscribe := if afterGoBack.Some? then [OneShotSubscribed(afterGoBack.value)] else [];
      assert JournalCommandEvents(beforeGoBack, afterGoBack, GoBackCalled(navigationService.id))
               == hook + subscribe + [GoBackCalled(navigationService.id)];
      if beforeGoBack.Some? {
        navigationService.trace.Append([ActionRan(beforeGoBack.value)]);
      }
      if afterGoBack.Some? {
        var h := SubscribeOneShot(navigationService, afterGoBack.value);
      }
      assert navigationService.trace.events == old(navigationService.trace.events) + hook + subscribe;
      navigationService.GoBack();
    }
  }

  class RegionGoForwardCommand {
    const regionManager: RegionManager
    const regionName: string
    const beforeGoForward: Option<nat>
    const afterGoForward: Option<nat>
    var canExecuteChanged: seq<nat>

    constructor (regionManager: RegionManager, regionName: string, beforeGoForward: Option<nat>, afterGoForward: Option<nat>)
      ensures this.regionManager == regionManager && this.regionName == regionName
      ensures this.beforeGoForward == beforeGoForward && this.afterGoForward == afterGoForward
      ensures canExecuteChanged == []
    {
      this.regionManager := regionManager;
      this.regionName := regionName;
      this.beforeGoForward := beforeGoForward;
      this.afterGoForward := afterGoForward;
      canExecuteChanged := [];
    }

    /** `CanExecuteChanged += subscriber` */
    method AddCanExecuteChanged(subscriber: nat)
      modifies this
      ensures canExecuteChanged == old(canExecuteChanged) + [subscriber]
    {
      canExecuteChanged := canExecuteChanged + [subscriber];
    }

    /** `CanExecuteChanged -= subscriber` */
    method RemoveCanExecuteChanged(subscriber: nat)
      modifies this
      ensures canExecuteChanged == RemoveLast(old(canExecuteChanged), subscriber)
    {
      canExecuteChanged := RemoveLast(canExecuteChanged, subscriber);
    }

    /**
      Raises CanExecuteChanged when anybody is subscribed: each subscriber, in the
      invocation list as it is now, is called once with this command as sender.
      The subscribers' reactions are not modelled; `timeline` records the calls.
    */
    method CheckCanExecute(timeline: Trace)
      modifies timeline
      ensures timeline.events == old(timeline.events) + Notifications(this, canExecuteChanged)
      ensures canExecuteChanged == old(canExecuteChanged)
    {
      if canExecuteChanged != [] {
        var rest := canExecuteChanged;
        while rest != []
          invariant timeline.events + Notifications(this, rest) == old(timeline.events) + Notifications(this, canExecuteChanged)
          decreases |rest|
        {
          timeline.Append([SubscriberNotified(this, rest[0])]);
          rest := rest[1..];
        }
      }
    }

    /** Enabled exactly when the region exists and its journal can go forward; the parameter is ignored. */
    function CanExecute(parameter: CommandParameter): (can: bool)
      reads regionManager.regions.Values
      ensures regionName !in regionManager.regions ==> !can
      ensures regionName in regionManager.regions ==> can == regionManager.regions[regionName].canGoForward
    {
      if regionName !in regionManager.regions then false
      else
        var navigationService := regionManager.regions[regionName];
        navigationService.canGoForward
    }

    function Target(): (service: NavigationService)
      requires regionName in regionManager.regions
    {
      regionManager.regions[regionName]
    }

    /**
      Looks the region up (it must exist; CanExecute is not consulted), runs the
      before-action, subscribes a one-shot after-action handler when configured,
      and calls Journal.GoForward() exactly once. The parameter is ignored.
    */
    method Execute(parameter: CommandParameter)
      requires regionName in regionManager.regions
      modifies Target(), Target().trace
      ensures Target().trace.events
                == old(Target().trace.events) + JournalCommandEvents(beforeGoForward, afterGoForward, GoForwardCalled(Target().id))
      ensures afterGoForward.None? ==> Target().navigated == old(Target().navigated)
      ensures afterGoForward.Some? ==>
                OneShotAdded(old(Target().navigated), Target().navigated, afterGoForward.value)
                && fresh(Target().navigated[|Target().navigated| - 1].closure)
      ensures Target().currentUri == old(Target().currentUri)
      ensures Target().canGoBack == old(Target().canGoBack) && Target().canGoForward == old(Target().canGoForward)
    {
      var navigationService := regionManager.regions[regionName];
      ghost var hook := if beforeGoForward.Some? then [ActionRan(beforeGoForward.value)] else [];
      ghost var subscribe := if afterGoForward.Some? then [OneShotSubscribed(afterGoForward.value)] else [];
      assert JournalCommandEvents(beforeGoForward, afterGoForward, GoForwardCalled(navigationService.id))
               == hook + subscribe + [GoForwardCalled(navigationService.id)];
      if beforeGoForward.Some? {
        navigationService.trace.Append([ActionRan(beforeGoForward.value)]);
      }
      if afterGoForward.Some? {
        var h := SubscribeOneShot(navigationService, afterGoForward.value);
      }
      assert navigationService.trace.events == old(navigationService.trace.events) + hook + subscribe;
      navigationService.GoForward();
    }
  }

  class RegionNavigateCommand {
    const regionManager: RegionManager
    const regionName: string
    const beforeNavigate: Option<NavigateHook>
    const afterNavigate: Option<nat>
    var canExecuteChanged: seq<nat>

    constructor (regionManager: RegionManager, regionName: string, beforeNavigate: Option<NavigateHook>, afterNavigate: Option<nat>)
      ensures this.regionManager == regionManager && this.regionName == regionName
      ensures this.beforeNavigate == beforeNavigate && this.afterNavigate == afterNavigate
      ensures canExecuteChanged == []
    {
      this.regionManager := regionManager;
      this.regionName := regionName;
      this.beforeNavigate := beforeNavigate;
      this.afterNavigate := afterNavigate;
      canExecuteChanged := [];
    }

    /** `CanExecuteChanged += subscriber`; no member of this class ever raises the event. */
    method AddCanExecuteChanged(subscriber: nat)
      modifies this
      ensures canExecuteChanged == old(canExecuteChanged) + [subscriber]
    {
      canExecuteChanged := canExecuteChanged + [subscriber];
    }

    /** `CanExecuteChanged -= subscriber` */
    method RemoveCanExecuteChanged(subscriber: nat)
      modifies this
      ensures canExecuteChanged == RemoveLast(old(canExecuteChanged), subscriber)
    {
      canExecuteChanged := RemoveLast(canExecuteChanged, subscriber);
    }

    /** Always enabled, whatever the parameter. */
    function CanExecute(parameter: CommandParameter): (can: bool)
      ensures can
    {
      true
    }

    function Target(): (service: NavigationService)
      requires regionName in regionManager.regions
    {
      regionManager.regions[regionName]
    }

    /**
      A parameter that is not a string does nothing at all. A view name looks the
      region up (it must exist), and then behaves as NavigateCommandEvents says:
      the same-view guard first, then the hook, then one RequestNavigate.
    */
    method Execute(parameter: CommandParameter)
      requires parameter.TextParameter? ==> regionName in regionManager.regions
      modifies if parameter.TextParameter? then {Target().trace} else {}
      ensures parameter.TextParameter? ==>
                Target().trace.events
                  == old(Target().trace.events)
                     + NavigateCommandEvents(Target().id, parameter.text, old(Target().currentUri),
                                             beforeNavigate, afterNavigate)
    {
      if parameter.TextParameter? {
        var nextViewName := parameter.text;
        var navigationService := regionManager.regions[regionName];
        if SameView(nextViewName, navigationService.currentUri) {
          return;
        }
        var navigationParams := EmptyParameters;
        if beforeNavigate.Some? {
          navigationService.trace.Append([ActionRan(beforeNavigate.value.action)]);
          navigationParams := beforeNavigate.value.result;
        }
        navigationService.RequestNavigate(nextViewName, Some(navigationParams), afterNavigate);
      }
    }
  }
}
