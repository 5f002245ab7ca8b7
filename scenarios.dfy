/**
  Cross-component facts and client scenarios. The scenarios are client
  sequences of the library's API that use only the contracts of the members they
  call; those for ViewModelBase follow the shape of its unit tests, which drive it
  against a mocked navigation service and journal.
*/
module Scenarios {
  import opened Multicast
  import opened Prism
  import ViewModels
  import Commands
  import Dispatch

  /**
    The same-view guard sits at different places in the two navigate paths:
    ViewModelBase.navigate runs its BeforeNavigate hook before checking it, while
    RegionNavigateCommand.Execute checks it first and then does nothing at all.
    Both make no journal request.
  */
  lemma GuardOrderDiffers(owner: object, service: nat, name: string, parameters: Option<Parameters>,
                          before: Option<Commands.NavigateHook>, after: Option<nat>)
    ensures var viewModel := ViewModels.NavigateEvents(owner, service, name, Some(name), parameters);
            viewModel == [BeforeNavigateCalled(owner, name)] && JournalCalls(viewModel) == []
    ensures Commands.NavigateCommandEvents(service, name, Some(name), before, after) == []
  {
  }

  /** A view model attached to a region and detached again. */
  method ViewModelLifecycle()
  {
    var trace := new Trace();
    var service := new NavigationService(7, trace, Some("Home"), true, false);
    var viewModel := new ViewModels.ViewModel(_ => None);

    // Detached: every command is disabled.
    assert !viewModel.CanNavigate("Next") && !viewModel.CanGoBack() && !viewModel.CanGoForward();

    // Attached: Navigate is enabled and GoBack/GoForward mirror the journal.
    viewModel.OnNavigatedTo(NavigationContext(service));
    assert viewModel.CanNavigate("Next") && viewModel.CanGoBack() && !viewModel.CanGoForward();
    assert service.navigated == [InsideRegion(viewModel)];

    // A Navigated event re-raises CanExecuteChanged on the three commands.
    Dispatch.Raise(service);
    assert trace.events == Dispatch.RaiseEvents([InsideRegion(viewModel)]);

    // Detached again: unsubscribed, and every command is disabled.
    viewModel.OnNavigatedFrom(NavigationContext(service));
    assert service.navigated == [];
    assert !viewModel.CanNavigate("Next") && !viewModel.CanGoBack();
  }

  /** An attached view model's navigate and goBack actions. */
  method ViewModelNavigates()
  {
    var trace := new Trace();
    var service := new NavigationService(7, trace, Some("Home"), true, false);
    var viewModel := new ViewModels.ViewModel(_ => None);
    viewModel.OnNavigatedTo(NavigationContext(service));

    // Navigating to the view on display runs the hook and requests nothing.
    viewModel.Navigate("Home");
    assert trace.events == [BeforeNavigateCalled(viewModel, "Home")];

    // Navigating elsewhere requests it with the hook's result (null by default).
    viewModel.Navigate("Next");
    assert trace.events[|trace.events| - 1] == NavigateRequested(7, "Next", None, None);

    // GoBack: the hook first, then the journal.
    viewModel.GoBack();
    assert trace.events[|trace.events| - 2..] == [BeforeGoBackCalled(viewModel), GoBackCalled(7)];
  }

  /** Region GoBack/GoForward commands are enabled by the looked-up region's journal only. */
  method RegionCommandsEnabled()
  {
    var trace := new Trace();
    var service := new NavigationService(7, trace, Some("Second"), true, false);
    var regionManager := new RegionManager(map["MainRegion" := service]);
    var goBack := new Commands.RegionGoBackCommand(regionManager, "MainRegion", None, None);
    var goForward := new Commands.RegionGoForwardCommand(regionManager, "MainRegion", None, None);
    var elsewhere := new Commands.RegionGoBackCommand(regionManager, "Sidebar", None, None);
    assert goBack.CanExecute(Commands.NullParameter) && !goForward.CanExecute(Commands.NullParameter);
    assert !elsewhere.CanExecute(Commands.NullParameter);
  }

  /** CheckCanExecute calls the subscribers of that command only, in subscription order, and nobody without subscribers. */
  method RegionCommandNotifies()
  {
    var trace := new Trace();
    var service := new NavigationService(7, trace, Some("Second"), true, false);
    var regionManager := new RegionManager(map["MainRegion" := service]);
    var goBack := new Commands.RegionGoBackCommand(regionManager, "MainRegion", None, None);
    var goForward := new Commands.RegionGoForwardCommand(regionManager, "MainRegion", None, None);
    var timeline := new Trace();

    goForward.CheckCanExecute(timeline);
    assert timeline.events == [];

    goBack.AddCanExecuteChanged(1);
    goBack.AddCanExecuteChanged(2);
    goBack.CheckCanExecute(timeline);
    assert timeline.events == [SubscriberNotified(goBack, 1), SubscriberNotified(goBack, 2)];
  }

  /** A GoBack command with both actions: the after-action runs on the first navigation only. */
  method GoBackWithActions()
  {
    var trace := new Trace();
    var service := new NavigationService(7, trace, Some("Second"), true, false);
    var regionManager := new RegionManager(map["MainRegion" := service]);
    var goBack := new Commands.RegionGoBackCommand(regionManager, "MainRegion", Some(10), Some(11));

    goBack.Execute(Commands.NullParameter);
    assert trace.events == [ActionRan(10), OneShotSubscribed(11), GoBackCalled(7)];
    var h := service.navigated[0];
    assert service.navigated == [h] && h.OneShot? && h.action == 11;

    NavigatedTwice(service, h);
    assert trace.events == [ActionRan(10), OneShotSubscribed(11), GoBackCalled(7),
                            AfterActionRan(11, h.closure), OneShotUnsubscribed(11, h.closure)];
  }

  /** Two navigations after a lone one-shot handler: it runs on the first and is gone for the second. */
  method NavigatedTwice(service: NavigationService, h: Handler)
    requires service.navigated == [h] && h.OneShot?
    modifies service, service.trace
    ensures service.trace.events == old(service.trace.events) + Dispatch.Fire(h)
    ensures service.navigated == []
  {
    Dispatch.Raise(service);
    assert service.trace.events == old(service.trace.events) + Dispatch.Fire(h) by {
      assert [h][1..] == [];
    }
    assert service.navigated == [] by {
      assert Dispatch.AfterFire([h], h) == [] && [h][1..] == [];
    }
    Dispatch.Raise(service);
  }

  /** A navigate command ignores a parameter that is not a string, and any request for the view on display. */
  method NavigateCommandGuard()
  {
    var trace := new Trace();
    var service := new NavigationService(7, trace, Some("Home"), false, false);
    var regionManager := new RegionManager(map["MainRegion" := service]);
    var hook := Commands.NavigateHook(20, Parameters([("Key1", "Value1")]));
    var navigate := new Commands.RegionNavigateCommand(regionManager, "MainRegion", Some(hook), Some(21));

    navigate.Execute(Commands.ObjectParameter);
    navigate.Execute(Commands.TextParameter("Home"));
    assert trace.events == [];
  }

  /** A navigate command to another view: the before-hook once, then one request carrying its result. */
  method NavigateCommandRequests()
  {
    var trace := new Trace();
    var service := new NavigationService(7, trace, Some("Home"), false, false);
    var regionManager := new RegionManager(map["MainRegion" := service]);
    var hook := Commands.NavigateHook(20, Parameters([("Key1", "Value1")]));
    var navigate := new Commands.RegionNavigateCommand(regionManager, "MainRegion", Some(hook), Some(21));

    navigate.Execute(Commands.TextParameter("Next"));
    assert trace.events == [ActionRan(20), NavigateRequested(7, "Next", Some(hook.result), Some(21))];
  }
}
