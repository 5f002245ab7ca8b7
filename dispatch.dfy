/**
  Raising a navigation service's Navigated event. As for every .NET event, the
  invocation list is read once (a snapshot) and each handler in it runs in order;
  a handler that unsubscribes itself changes the live list, not the snapshot.
  The handlers are the two kinds the extension library subscribes:
  ViewModelBase.onNavigatedInsideRegion and the one-shot after-action lambdas of
  RegionGoBackCommand and RegionGoForwardCommand.

  When Prism raises the event is not modelled: `Run` takes any sequence of
  raises, subscriptions and unsubscriptions as an explicit schedule.
*/
module Dispatch {
  import opened Multicast
  import opened Prism
  import ViewModels
  import Commands

  /** What invoking one Navigated handler puts on the timeline. */
  function Fire(h: Handler): (events: seq<Event>)
  {
    match h
    case InsideRegion(owner) => ViewModels.RefreshEvents(owner)
    case OneShot(closure, action) => [AfterActionRan(action, closure), OneShotUnsubscribed(action, closure)]
  }

  /** The live invocation list after `h` has run: a one-shot handler removes itself. */
  function AfterFire(live: seq<Handler>, h: Handler): (after: seq<Handler>)
  {
    if h.OneShot? then RemoveLast(live, h) else live
  }

  /** The events of one raise over the invocation-list snapshot `snapshot`, first handler first. */
  function RaiseEvents(snapshot: seq<Handler>): (events: seq<Event>)
    decreases |snapshot|
  {
    if snapshot == [] then []
    else Fire(snapshot[0]) + RaiseEvents(snapshot[1..])
  }

  /** The live invocation list after every handler of `snapshot` has run, starting from `live`. */
  function AfterRaise(live: seq<Handler>, snapshot: seq<Handler>): (after: seq<Handler>)
    decreases |snapshot|
  {
    if snapshot == [] then live
    else AfterRaise(AfterFire(live, snapshot[0]), snapshot[1..])
  }

  /** Raises `service.Navigated`. */
  method Raise(service: NavigationService)
    modifies service, service.trace
    ensures service.trace.events == old(service.trace.events) + RaiseEvents(old(service.navigated))
    ensures service.navigated == AfterRaise(old(service.navigated), old(service.navigated))
    ensures service.currentUri == old(service.currentUri)
    ensures service.canGoBack == old(service.canGoBack) && service.canGoForward == old(service.canGoForward)
  {
    var snapshot := service.navigated;
    var rest := snapshot;
    while rest != []
      invariant service.trace.events + RaiseEvents(rest) == old(service.trace.events) + RaiseEvents(snapshot)
      invariant AfterRaise(service.navigated, rest) == AfterRaise(snapshot, snapshot)
      invariant service.currentUri == old(service.currentUri)
      invariant service.canGoBack == old(service.canGoBack) && service.canGoForward == old(service.canGoForward)
      decreases |rest|
    {
      RaiseStep(service.trace.events, rest);
      Invoke(service, rest[0]);
      rest := rest[1..];
    }
  }

  /** Running the first handler of `rest` leaves the rest of the raise to do. */
  lemma RaiseStep(events: seq<Event>, rest: seq<Handler>)
    requires rest != []
    ensures events + Fire(rest[0]) + RaiseEvents(rest[1..]) == events + RaiseEvents(rest)
  {
  }

  /** Invokes one Navigated handler `h` of the snapshot. */
  method Invoke(service: NavigationService, h: Handler)
    modifies service, service.trace
    ensures service.trace.events == old(service.trace.events) + Fire(h)
    ensures service.navigated == AfterFire(old(service.navigated), h)
    ensures service.currentUri == old(service.currentUri)
    ensures service.canGoBack == old(service.canGoBack) && service.canGoForward == old(service.canGoForward)
  {
    match h
    case InsideRegion(owner) =>
      service.trace.Append(ViewModels.RefreshEvents(owner));
    case OneShot(closure, action) =>
      Commands.RunOneShot(service, closure, action);
  }

  /** Raising over a concatenated snapshot runs the first part's handlers, then the second's. */
  lemma {:induction false} RaiseEventsAppend(a: seq<Handler>, b: seq<Handler>)
    ensures RaiseEvents(a + b) == RaiseEvents(a) + RaiseEvents(b)
    decreases |a|
  {
    if a == [] {
      assert a + b == b;
    } else {
      assert (a + b)[1..] == a[1..] + b;
      RaiseEventsAppend(a[1..], b);
    }
  }

  /**
    Every handler in the snapshot runs, in place: the events of a handler `h` sit,
    whole and in their own order, between those of the handlers before and after it.
  */
  lemma EveryHandlerRuns(before: seq<Handler>, h: Handler, after: seq<Handler>)
    ensures RaiseEvents(before + [h] + after) == RaiseEvents(before) + Fire(h) + RaiseEvents(after)
  {
    assert RaiseEvents([h] + after) == Fire(h) + RaiseEvents(after) by {
      assert ([h] + after)[1..] == after;
    }
    assert before + [h] + after == before + ([h] + after);
    RaiseEventsAppend(before, [h] + after);
  }

  /**
    A raise fires CanExecuteChanged of each of a view model's three commands exactly
    once per subscription of its onNavigatedInsideRegion in the snapshot.
  */
  lemma {:induction false} RefreshPerSubscription(snapshot: seq<Handler>, owner: object, command: CommandKind)
    ensures multiset(RaiseEvents(snapshot))[CanExecuteChanged(owner, command)]
              == multiset(snapshot)[InsideRegion(owner)]
    decreases |snapshot|
  {
    if snapshot != [] {
      var h, rest := snapshot[0], snapshot[1..];
      var e, s := CanExecuteChanged(owner, command), InsideRegion(owner);
      assert multiset(RaiseEvents(snapshot))[e] == multiset(Fire(h))[e] + multiset(RaiseEvents(rest))[e] by {
        assert RaiseEvents(snapshot) == Fire(h) + RaiseEvents(rest);
      }
      assert multiset(snapshot)[s] == multiset([h])[s] + multiset(rest)[s] by {
        assert snapshot == [h] + rest;
      }
      assert multiset(RaiseEvents(rest))[e] == multiset(rest)[s] by {
        RefreshPerSubscription(rest, owner, command);
      }
      assert multiset(Fire(h))[e] == multiset([h])[s] by {
        FireCount(h, e);
      }
    }
  }

  /** How often one handler's run produces a given event. */
  lemma FireCount(h: Handler, e: Event)
    ensures e.CanExecuteChanged? ==> multiset(Fire(h))[e] == if h == InsideRegion(e.owner) then 1 else 0
    ensures e.AfterActionRan? ==> multiset(Fire(h))[e] == if h == OneShot(e.via, e.action) then 1 else 0
  {
    if h.InsideRegion? {
      var o := h.owner;
      var a, b, c := CanExecuteChanged(o, NavigateCommand), CanExecuteChanged(o, GoBackCommand),
                     CanExecuteChanged(o, GoForwardCommand);
      assert Fire(h) == [a] + [b] + [c];
      assert multiset(Fire(h)) == multiset{a} + multiset{b} + multiset{c};
      if e.CanExecuteChanged? {
        match e.command
        case NavigateCommand =>
        case GoBackCommand =>
        case GoForwardCommand =>
      }
    }
  }

  /** A raise runs a one-shot handler's after-action once per copy of it in the snapshot. */
  lemma {:induction false} OneShotFiredPerCopy(snapshot: seq<Handler>, h: Handler)
    requires h.OneShot?
    ensures multiset(RaiseEvents(snapshot))[AfterActionRan(h.action, h.closure)] == multiset(snapshot)[h]
    decreases |snapshot|
  {
    if snapshot != [] {
      var g, rest := snapshot[0], snapshot[1..];
      var e := AfterActionRan(h.action, h.closure);
      assert multiset(RaiseEvents(snapshot))[e] == multiset(Fire(g))[e] + multiset(RaiseEvents(rest))[e] by {
        assert RaiseEvents(snapshot) == Fire(g) + RaiseEvents(rest);
      }
      assert multiset(snapshot)[h] == multiset([g])[h] + multiset(rest)[h] by {
        assert snapshot == [g] + rest;
      }
      assert multiset(RaiseEvents(rest))[e] == multiset(rest)[h] by {
        OneShotFiredPerCopy(rest, h);
      }
      assert multiset(Fire(g))[e] == multiset([g])[h] by {
        FireCount(g, e);
      }
    }
  }

  /**
    After a raise, each one-shot handler has lost as many copies as the snapshot
    held (never going below zero), and every other handler keeps all of its copies:
    in particular a view model stays subscribed.
  */
  lemma {:induction false} AfterRaiseCount(live: seq<Handler>, snapshot: seq<Handler>, g: Handler)
    ensures g.OneShot? ==>
              multiset(AfterRaise(live, snapshot))[g]
                == if multiset(snapshot)[g] <= multiset(live)[g] then multiset(live)[g] - multiset(snapshot)[g] else 0
    ensures !g.OneShot? ==> multiset(AfterRaise(live, snapshot))[g] == multiset(live)[g]
    decreases |snapshot|
  {
    if snapshot != [] {
      var h, rest := snapshot[0], snapshot[1..];
      assert snapshot == [h] + rest;
      if h.OneShot? {
        RemoveLastCount(live, h);
      }
      AfterRaiseCount(AfterFire(live, h), rest, g);
    }
  }

  /** A one-shot handler subscribed once runs on the next raise, once, and is gone afterwards. */
  lemma OneShotRunsOnNextRaise(live: seq<Handler>, h: Handler)
    requires h.OneShot? && multiset(live)[h] == 1
    ensures multiset(RaiseEvents(live))[AfterActionRan(h.action, h.closure)] == 1
    ensures h !in AfterRaise(live, live)
  {
    OneShotFiredPerCopy(live, h);
    AfterRaiseCount(live, live, h);
  }

  /** What the environment may do between command executions. */
  datatype Step = RaiseNavigated | Subscribe(handler: Handler) | Unsubscribe(handler: Handler)

  /** The events produced and the final invocation list when `steps` happen, in order, from `live`. */
  function Run(live: seq<Handler>, steps: seq<Step>): (outcome: (seq<Event>, seq<Handler>))
    decreases |steps|
  {
    if steps == [] then ([], live)
    else
      var rest := steps[1..];
      match steps[0]
      case RaiseNavigated =>
        var (events, final) := Run(AfterRaise(live, live), rest);
        (RaiseEvents(live) + events, final)
      case Subscribe(h) => Run(live + [h], rest)
      case Unsubscribe(h) => Run(RemoveLast(live, h), rest)
  }

  /**
    The runs of a one-shot handler's after-action, plus the copies still subscribed,
    never exceed the copies there were at the start, as long as nobody subscribes
    that same handler again.
  */
  lemma {:induction false} OneShotBudget(live: seq<Handler>, steps: seq<Step>, h: Handler)
    requires h.OneShot?
    requires forall i :: 0 <= i < |steps| ==> steps[i] != Subscribe(h)
    ensures multiset(Run(live, steps).0)[AfterActionRan(h.action, h.closure)] + multiset(Run(live, steps).1)[h]
              <= multiset(live)[h]
    decreases |steps|
  {
    if steps != [] {
      var rest := steps[1..];
      assert forall i :: 0 <= i < |rest| ==> rest[i] != Subscribe(h) by {
        forall i | 0 <= i < |rest| ensures rest[i] != Subscribe(h) {
          assert rest[i] == steps[i + 1];
        }
      }
      match steps[0]
      case RaiseNavigated =>
        OneShotFiredPerCopy(live, h);
        AfterRaiseCount(live, live, h);
        OneShotBudget(AfterRaise(live, live), rest, h);
      case Subscribe(g) =>
        assert g != h by { assert steps[0] == Subscribe(g); }
        OneShotBudget(live + [g], rest, h);
      case Unsubscribe(g) =>
        RemoveLastCount(live, g);
        OneShotBudget(RemoveLast(live, g), rest, h);
    }
  }

  /**
    The after-action of one Execute runs at most once, however many whole raises
    follow and whatever else subscribes or unsubscribes between them. Each raise is
    atomic here: an action neither throws nor raises Navigated itself.
  */
  lemma OneShotRunsAtMostOnce(live: seq<Handler>, steps: seq<Step>, h: Handler)
    requires h.OneShot? && multiset(live)[h] == 1
    requires forall i :: 0 <= i < |steps| ==> steps[i] != Subscribe(h)
    ensures multiset(Run(live, steps).0)[AfterActionRan(h.action, h.closure)] <= 1
  {
    OneShotBudget(live, steps, h);
  }
}
