# EnkuPrismExtension, modelled in Dafny

EnkuPrismExtension is a thin command layer over the region navigation of the
Prism WPF framework. It has two parts:

- **`ViewModelBase`** is the base class of view models shown inside a region. It
  is *Detached* until the region navigates to it. From `OnNavigatedTo` until
  `OnNavigatedFrom` it is *Attached*: it holds the region's navigation service
  and is subscribed to that service's `Navigated` event.
  - Its three commands are Navigate, GoBack and GoForward. Whether each is
    enabled depends on that state and on the journal's `CanGoBack` and
    `CanGoForward` flags.
  - Every `Navigated` event re-raises `CanExecuteChanged` on all three.
  - The overridable hooks `BeforeNavigate`, `BeforeGoBack` and
    `BeforeGoForward` run before the journal is asked to move.
- **`RegionGoBackCommand`, `RegionGoForwardCommand` and `RegionNavigateCommand`**
  act on a region from outside it. The region is looked up by name in the
  region manager each time a command runs.
  - Each command may carry a before-action and an after-action.
  - The GoBack and GoForward commands subscribe their after-action as a
    self-removing `Navigated` handler.
  - The navigate command passes its after-action to `RequestNavigate` as the
    completion callback.

Prism itself is an opaque collaborator (module `Prism`). A navigation service
holds:

- the URI string of the journal's current entry;
- the two journal flags;
- the invocation list of its `Navigated` event.

Journal calls (`GoBack`, `GoForward`, `RequestNavigate`) are recorded and never
interpreted. Each hook or action that runs is recorded too, on the same
timeline (`Trace`). This lets the contracts state order, "exactly once" and
"nothing else happens". A delegate's identity is its target object: the view
model itself, or a fresh closure object for each lambda.

The modules follow the program's structure:

- `Multicast`: the .NET delegate invocation list. `+=` appends; `-=` removes
  the last equal handler.
- `Prism`: the opaque navigation service, its journal and the region manager.
- `ViewModels`: `ViewModelBase`, as the class `ViewModel`.
- `Commands`: the three region commands.
- `Dispatch`: raising `Navigated` over a snapshot of the invocation list, and
  what follows for the handlers subscribed above.
- `Scenarios`: client sequences of the library's API, written against the
  contracts only; those for `ViewModelBase` follow the shape of its unit tests.

Points of the code that the model keeps as written:

- `ViewModelBase.navigate` runs `BeforeNavigate` before the same-view guard, so
  the hook runs even when nothing is requested. `RegionNavigateCommand.Execute`
  checks the guard first. `Scenarios.GuardOrderDiffers` states the difference.
- `RegionNavigateCommand` does not subscribe its after-action to `Navigated`. It
  hands the action to `RequestNavigate` as the completion callback.
- `CheckCanExecute` raises `CanExecuteChanged` only when somebody is subscribed.
- A detached view model's Navigate command is disabled: `canNavigate` is false
  without a service.

## Model

| member | source | states |
|---|---|---|
| Multicast.LastIndex | EnkuPrismExtension/ViewModels/ViewModelBase.cs:59 | the handler that `-=` removes is an equal handler with no equal handler after it |
| Multicast.RemoveLast | EnkuPrismExtension/ViewModels/ViewModelBase.cs:59 | `-=` of a handler that is not subscribed leaves the list unchanged; otherwise the list is one handler shorter |
| Multicast.RemoveLastCount | EnkuPrismExtension/Commsnds/RegionGoBackCommand.cs:70 | `-=` takes away one copy of the handler, if there is one, and no copy of any other handler |
| Multicast.RemoveLastAt | EnkuPrismExtension/ViewModels/ViewModelBase.cs:59 | `-=` deletes exactly the last copy and keeps the rest of the list in order |
| Prism.SameView | EnkuPrismExtension/ViewModels/ViewModelBase.cs:95-96 | the same-view guard holds exactly when the journal has a current entry whose URI string equals the requested name; a missing current entry never matches |
| Prism.NavigationService.AddNavigated | EnkuPrismExtension/ViewModels/ViewModelBase.cs:48 | `Navigated +=` appends the handler at the end; the journal's entry and flags do not change |
| Prism.NavigationService.RemoveNavigated | EnkuPrismExtension/ViewModels/ViewModelBase.cs:59 | `Navigated -=` removes the last copy of the handler; the journal's entry and flags do not change |
| Prism.NavigationService.GoBack | EnkuPrismExtension/Commsnds/RegionGoBackCommand.cs:75-76 | `Journal.GoBack()` is one request on the timeline and nothing more |
| Prism.NavigationService.GoForward | EnkuPrismExtension/Commsnds/RegionGoForwardCommand.cs:75-76 | `Journal.GoForward()` is one request on the timeline and nothing more |
| Prism.NavigationService.RequestNavigate | EnkuPrismExtension/Commsnds/RegionNavigateCommand.cs:56-63 | `RequestNavigate` is one request, with its target, parameters and callback, and nothing more |
| ViewModels.RefreshEvents | EnkuPrismExtension/ViewModels/ViewModelBase.cs:65-70 | `onNavigatedInsideRegion` raises `CanExecuteChanged` of the view model's own Navigate, GoBack and GoForward commands, once each and in that order, and makes no journal call |
| ViewModels.NavigateEvents | EnkuPrismExtension/ViewModels/ViewModelBase.cs:88-100 | `BeforeNavigate` always runs first, exactly once; there is no request when the name equals the current entry's URI; otherwise there is exactly one request carrying the hook's result unchanged and no callback; a missing current entry never matches |
| ViewModels.ViewModel.constructor | EnkuPrismExtension/ViewModels/ViewModelBase.cs:199-204 | a new view model is Detached |
| ViewModels.ViewModel.KeepAlive | EnkuPrismExtension/ViewModels/ViewModelBase.cs:26 | the view instance is kept alive after navigating away |
| ViewModels.ViewModel.IsNavigationTarget | EnkuPrismExtension/ViewModels/ViewModelBase.cs:38-39 | the existing view instance is reused, for every navigation context |
| ViewModels.ViewModel.PersistInHistory | EnkuPrismExtension/ViewModels/ViewModelBase.cs:78 | the view is recorded in the journal |
| ViewModels.ViewModel.CanNavigate | EnkuPrismExtension/ViewModels/ViewModelBase.cs:102-103 | Navigate is enabled if and only if the view model is Attached, whatever the view name |
| ViewModels.ViewModel.CanGoBack | EnkuPrismExtension/ViewModels/ViewModelBase.cs:120-129 | disabled while Detached; while Attached, equal to the journal's `CanGoBack` |
| ViewModels.ViewModel.CanGoForward | EnkuPrismExtension/ViewModels/ViewModelBase.cs:146-155 | disabled while Detached; while Attached, equal to the journal's `CanGoForward` |
| ViewModels.ViewModel.OnNavigatedTo | EnkuPrismExtension/ViewModels/ViewModelBase.cs:45-49 | keeps the context's service; appends exactly one `onNavigatedInsideRegion` handler without removing an earlier one; afterwards Navigate is enabled and GoBack/GoForward equal the journal flags |
| ViewModels.ViewModel.OnNavigatedFrom | EnkuPrismExtension/ViewModels/ViewModelBase.cs:55-62 | when Attached, removes the handler from the old service and drops the service, leaving that journal's entry and flags as they were; when Detached, nothing changes; afterwards all three commands are disabled |
| ViewModels.ViewModel.Navigate | EnkuPrismExtension/ViewModels/ViewModelBase.cs:88-100 | requires Attached (the `Debug.Assert`); the timeline grows by exactly what `NavigateEvents` describes for the current entry as it was before the call |
| ViewModels.ViewModel.GoBack | EnkuPrismExtension/ViewModels/ViewModelBase.cs:112-118 | requires Attached; `BeforeGoBack` runs, then exactly one `Journal.GoBack()`, and nothing else |
| ViewModels.ViewModel.GoForward | EnkuPrismExtension/ViewModels/ViewModelBase.cs:138-144 | requires Attached; `BeforeGoForward` runs, then exactly one `Journal.GoForward()`, and nothing else |
| Commands.JournalCommandEvents | EnkuPrismExtension/Commsnds/RegionGoBackCommand.cs:55-77 | the before-action runs first if it exists; the after-action, if it exists, is subscribed next, before the journal moves; exactly one journal call is made, and it comes last |
| Commands.BeforeActionOnce | EnkuPrismExtension/Commsnds/RegionGoBackCommand.cs:59-62 | the before-action runs at most once, only as the first step, and only when it exists |
| Commands.ChosenParameters | EnkuPrismExtension/Commsnds/RegionNavigateCommand.cs:51-53 | the hook's result when a before-hook exists, and a fresh empty parameter set otherwise |
| Commands.NavigateCommandEvents | EnkuPrismExtension/Commsnds/RegionNavigateCommand.cs:41-64 | nothing at all happens when the name equals the current entry's URI; otherwise the hook runs first and exactly one request follows, carrying the chosen parameters and the after-action as callback |
| Commands.NavigateHookOnce | EnkuPrismExtension/Commsnds/RegionNavigateCommand.cs:46-53 | the before-hook runs at most once, only as the first step, never when the guard stops the navigation |
| Commands.Notifications | EnkuPrismExtension/Commsnds/RegionGoBackCommand.cs:29 | raising a command's `CanExecuteChanged` calls as many subscribers as there are |
| Commands.NotificationsInOrder | EnkuPrismExtension/Commsnds/RegionGoBackCommand.cs:29 | the i-th call goes to the i-th subscriber, with the command as sender |
| Commands.NotificationsCount | EnkuPrismExtension/Commsnds/RegionGoBackCommand.cs:29 | each subscriber is called exactly as often as it is subscribed, and nobody else is called |
| Commands.NavigateCommandNeverNotifies | EnkuPrismExtension/Commsnds/RegionNavigateCommand.cs:20-25 | executing a navigate command never raises `CanExecuteChanged` |
| Commands.RunOneShot | EnkuPrismExtension/Commsnds/RegionGoBackCommand.cs:67-71 | the one-shot handler runs its after-action first and only then removes itself from `Navigated`: the timeline records the action, then the removal |
| Commands.SubscribeOneShot | EnkuPrismExtension/Commsnds/RegionGoBackCommand.cs:64-73 | appends one new one-shot handler for the after-action, equal to no handler subscribed before it, and records the subscription on the timeline |
| Commands.RegionGoBackCommand.constructor | EnkuPrismExtension/Commsnds/RegionGoBackCommand.cs:86-95 | keeps the region manager, region name and both actions; nobody is subscribed to `CanExecuteChanged` |
| Commands.RegionGoBackCommand.AddCanExecuteChanged | EnkuPrismExtension/Commsnds/RegionGoBackCommand.cs:20 | `CanExecuteChanged +=` appends the subscriber |
| Commands.RegionGoBackCommand.RemoveCanExecuteChanged | EnkuPrismExtension/Commsnds/RegionGoBackCommand.cs:20 | `CanExecuteChanged -=` removes the last copy of the subscriber |
| Commands.RegionGoBackCommand.CheckCanExecute | EnkuPrismExtension/Commsnds/RegionGoBackCommand.cs:25-31 | when anybody is subscribed, calls every subscriber of this command once, in subscription order (`Notifications`); calls nobody otherwise; the subscriber list does not change |
| Commands.RegionGoBackCommand.CanExecute | EnkuPrismExtension/Commsnds/RegionGoBackCommand.cs:38-49 | false when the region does not exist; otherwise that journal's `CanGoBack`; the parameter is ignored |
| Commands.RegionGoBackCommand.Execute | EnkuPrismExtension/Commsnds/RegionGoBackCommand.cs:55-77 | requires the region to exist and does not consult `CanExecute`; the timeline grows by `JournalCommandEvents`, so the after-action is subscribed before `Journal.GoBack()`; with an after-action, exactly one new self-removing handler is appended, and without one the handler list is unchanged; the command itself writes neither the journal's entry nor its flags (the journal's own response is outside the model) |
| Commands.RegionGoForwardCommand.constructor | EnkuPrismExtension/Commsnds/RegionGoForwardCommand.cs:86-95 | keeps the region manager, region name and both actions; nobody is subscribed to `CanExecuteChanged` |
| Commands.RegionGoForwardCommand.AddCanExecuteChanged | EnkuPrismExtension/Commsnds/RegionGoForwardCommand.cs:20 | `CanExecuteChanged +=` appends the subscriber |
| Commands.RegionGoForwardCommand.RemoveCanExecuteChanged | EnkuPrismExtension/Commsnds/RegionGoForwardCommand.cs:20 | `CanExecuteChanged -=` removes the last copy of the subscriber |
| Commands.RegionGoForwardCommand.CheckCanExecute | EnkuPrismExtension/Commsnds/RegionGoForwardCommand.cs:25-31 | when anybody is subscribed, calls every subscriber of this command once, in subscription order (`Notifications`); calls nobody otherwise; the subscriber list does not change |
| Commands.RegionGoForwardCommand.CanExecute | EnkuPrismExtension/Commsnds/RegionGoForwardCommand.cs:38-49 | false when the region does not exist; otherwise that journal's `CanGoForward`; the parameter is ignored |
| Commands.RegionGoForwardCommand.Execute | EnkuPrismExtension/Commsnds/RegionGoForwardCommand.cs:55-77 | requires the region to exist and does not consult `CanExecute`; the timeline grows by `JournalCommandEvents`, so the after-action is subscribed before `Journal.GoForward()`; with an after-action, exactly one new self-removing handler is appended, and without one the handler list is unchanged; the command itself writes neither the journal's entry nor its flags (the journal's own response is outside the model) |
| Commands.RegionNavigateCommand.constructor | EnkuPrismExtension/Commsnds/RegionNavigateCommand.cs:74-83 | keeps the region manager, region name, hook and after-action; nobody is subscribed to `CanExecuteChanged` |
| Commands.RegionNavigateCommand.AddCanExecuteChanged | EnkuPrismExtension/Commsnds/RegionNavigateCommand.cs:23-25 | `CanExecuteChanged +=` appends the subscriber |
| Commands.RegionNavigateCommand.RemoveCanExecuteChanged | EnkuPrismExtension/Commsnds/RegionNavigateCommand.cs:23-25 | `CanExecuteChanged -=` removes the last copy of the subscriber |
| Commands.RegionNavigateCommand.CanExecute | EnkuPrismExtension/Commsnds/RegionNavigateCommand.cs:32-33 | always true, for every parameter |
| Commands.RegionNavigateCommand.Execute | EnkuPrismExtension/Commsnds/RegionNavigateCommand.cs:39-65 | a parameter that is not a string changes nothing and needs no region; a view name requires the region, and the timeline grows by `NavigateCommandEvents` for the current entry as it was before the call |
| Dispatch.Raise | EnkuPrismExtension/Commsnds/RegionGoBackCommand.cs:66-72 | raising `Navigated` runs the handlers of the list as it was when the raise began, in order; a handler that unsubscribes itself changes the live list, not the snapshot; the journal's entry and flags do not change |
| Dispatch.Invoke | EnkuPrismExtension/ViewModels/ViewModelBase.cs:65-70 | one handler run: a view model's handler raises `CanExecuteChanged` of its three commands; a one-shot handler runs its action, then removes itself |
| Dispatch.EveryHandlerRuns | EnkuPrismExtension/ViewModels/ViewModelBase.cs:65-70 | every subscribed handler runs, in its place, with all of its events, between the handlers before and after it |
| Dispatch.FireCount | EnkuPrismExtension/ViewModels/ViewModelBase.cs:67-69 | one run of `onNavigatedInsideRegion` raises `CanExecuteChanged` of each of its view model's commands exactly once; one run of a one-shot handler runs its own action once |
| Dispatch.RefreshPerSubscription | EnkuPrismExtension/ViewModels/ViewModelBase.cs:65-70 | a raise fires `CanExecuteChanged` of each command of a view model exactly as many times as its handler is subscribed: once after one `OnNavigatedTo` |
| Dispatch.OneShotFiredPerCopy | EnkuPrismExtension/Commsnds/RegionGoBackCommand.cs:67-71 | a raise runs a one-shot after-action once per copy of its handler in the snapshot |
| Dispatch.AfterRaiseCount | EnkuPrismExtension/Commsnds/RegionGoBackCommand.cs:70 | after a raise each one-shot handler has lost as many copies as it had in the snapshot, and a view model's handler stays subscribed |
| Dispatch.OneShotRunsOnNextRaise | EnkuPrismExtension/Commsnds/RegionGoBackCommand.cs:64-73 | an after-action subscribed once runs on the next navigation, exactly once, and is unsubscribed afterwards |
| Dispatch.OneShotBudget | EnkuPrismExtension/Commsnds/RegionGoForwardCommand.cs:64-73 | across any schedule of whole, non-nested raises and of subscriptions that do not re-subscribe the handler, the runs of a one-shot action plus its remaining copies never exceed the copies it started with |
| Dispatch.OneShotRunsAtMostOnce | EnkuPrismExtension/Commsnds/RegionGoForwardCommand.cs:64-73 | the after-action of one Execute runs at most once over any schedule of whole, non-nested raises, as long as actions return normally |
| Scenarios.GuardOrderDiffers | EnkuPrismExtension/ViewModels/ViewModelBase.cs:90-97 | for the view on display, the view model still runs `BeforeNavigate` while the region command does nothing; neither requests a navigation |

## Left out

- Prism's internals are not modelled: the journal's history and cursor, view creation, region adapters. The model's journal only records a call, so after `GoBack`, `GoForward` or `RequestNavigate` its current entry and flags are as they were by construction, where Prism would move the entry. The contracts that state entry and flags unchanged across such a call (`Commands.RegionGoBackCommand.Execute`, `Commands.RegionGoForwardCommand.Execute`, `Prism.NavigationService.GoBack` and the others) describe the library's own code over that recording journal, not Prism's navigation.
- Who subscribes to a region command's `CanExecuteChanged`, and what a subscriber does when called, is not modelled. A subscriber is a number, and each call is recorded on a timeline passed to `CheckCanExecute`.
- The region manager's set of regions is fixed once created. The library only reads it, and Prism adding or removing regions is outside the model.
- When Prism raises `Navigated`, and whether `RequestNavigate` completes asynchronously, are not modelled. `Dispatch.Raise` is an explicit step, and `Dispatch.Run` takes any schedule of raises, subscriptions and unsubscriptions.
- WPF `ICommand`, `DelegateCommand` and `BindableBase` are reduced to "`CanExecuteChanged` was raised on this command". What a bound control then does is not modelled.
- Hooks and actions are injected values, not code. Running one is recorded on the timeline. `BeforeNavigate`'s result is a function of the view name, and the navigate command's hook returns a fixed parameter set. Side effects of hooks on the view model or the journal are not modelled.
- `NavigationContext` is reduced to its navigation service; `Uri` to its string; `NavigationParameters` to a list of key/value pairs; `NavigationResult` is not modelled.
- The callback-less `RequestNavigate` overload is modelled as a request without callback, not as Prism's internal no-op callback.
- Commands.RunOneShot: the after-action is assumed to return normally and not to raise `Navigated` itself. In the source an action that throws skips the `-=` at RegionGoBackCommand.cs:70, so the handler stays subscribed. An action that navigates synchronously would raise `Navigated` while the handler is still in the live list, so the nested raise would run it again.
- Dispatch.OneShotRunsAtMostOnce: at-most-once is proved only for whole raises that do not nest and for actions that return normally, as for `Commands.RunOneShot`. The same holds for `Dispatch.OneShotBudget`. A raise is one atomic step of `Dispatch.Run`.
- ViewModels.ViewModel.Navigate: the view name is a string, never null. The C# `nextViewName.Equals(...)` would throw on a null name, and that path is not modelled.
- `Debug.Assert` and the region indexer's failure on a missing region are preconditions (`requires`). Their failure behaviour at run time is not modelled.
- The demo application (`Demo/App.xaml.cs`, `Demo/ViewModels/MainWindowViewModel.cs`, and `Demo/Constants/Helpers.cs`, which uses reflection) is not part of this model; the unit tests are not modelled either.
