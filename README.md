# Lounge screen session model

A Dafny model of the session logic of osu!'s multiplayer lounge screen,
`LoungeSubScreen`. The lounge lists rooms, joins one on request through the
room manager, and then pushes the room's match screen. The model covers the
screen's state machine:

- the loading layer, shown exactly while a join is in progress or the room
  manager has not yet delivered its initial rooms;
- the join flow with its success and failure callbacks;
- `Open` and its "is this screen still current" guard;
- the lifecycle hooks, which set the search box's focus holding and may
  reset the shared room selection;
- the duplicate-room handler.

Files:

- `wrappers.dfy`: `Option`, which stands for C# `null` and `int?`.
- `rooms.dfy`: `Room` (an optional server id and a name), the duplicate
  renaming, and the lookup used to scroll to the selected room.
- `lounge_model.dfy`: the screen's state as a value (`LoungeModel.Lounge`),
  one function per handler, and `Step`/`Run` over sequences of events.
- `lounge_properties.dfy`: lemmas about single handlers and about any
  sequence of events.
- `lounge_sub_screen.dfy`: the class `LoungeSubScreen`. Its fields are
  updated in the same order as the C# code, and each method is proved to
  reach the state computed by the matching `LoungeModel` function.

Environment in the model:

- The room manager's two join callbacks are environment-called methods,
  `JoinSucceeded(room)` and `JoinFailed(room)`. The callbacks the room
  manager still holds are tracked as the ghost multiset `pending`, and the
  match screens pushed as the ghost sequence `pushes`. A callback
  that was never handed over cannot fire.
- A null `RoomManager` is the flag `hasRoomManager = false`. With no room
  manager, `joinRequested`'s `?.` hands nothing over, and `LoadComplete`
  dereferences `RoomManager` without a null check, so it throws.
- The room manager's `InitialRoomsReceived` bindable is the field
  `managerReceived`, changed by the environment through
  `ManagerReceivedChanged`. The screen's own bindable (`received`) mirrors
  it once `LoadComplete` has bound the two.
- The screen stack is not part of this model. It is stood in for by
  `isCurrent`, under these assumptions about the framework: `OnEntering`
  and `OnResuming` make the screen current; `OnSuspending`, `OnExiting` and
  `Push` make it no longer current. The comment on `Open` ("clicked 3 times
  in quick succession") relies on `Push` doing this.
- New rooms come in as parameters, because the `Room` class is not part of
  this model: `blank` in `OnResuming` (required to have no server id, as
  a room has none until the server assigns one), and `copied` (the new room after
  `CopyFrom(source, true)`) in `DuplicateRoom`.

Behaviour of the code that the model makes explicit:

- `joinRequested` does not refuse a request while another is outstanding.
  `LoungeProperties.JoinFlagIsNotSingleFlight` shows that two requests and
  one failure clear `joiningRoom` while the room manager still holds the
  other join.
- Nothing in the screen relies on the room manager's
  `InitialRoomsReceived` only ever going from false to true. The flag may
  take any value in any order, and the loading rule is proved for every
  such sequence.
- `OnEntering` only sets `HoldFocus`. The search box takes focus in
  `OnFocus`, which is left out.
- `CopyFrom` is not part of this model, so nothing is claimed about which
  of the source room's fields, its server id included, the duplicate
  receives. Only the name override is stated.
- The selection slot is shared: other components may write it, and a room
  it refers to may receive its server id later. Such writes are the event
  `Written`; `LoungeProperties.ScenarioDraftGetsId` shows that a draft
  opened here and then given an id survives resuming.

## Model

| member | source | states |
|---|---|---|
| Rooms.Duplicate | osu.Game/Screens/Multi/Lounge/LoungeSubScreen.cs:70-72 | the duplicated room is named "Copy of " + the source room's name; everything else is what CopyFrom produced |
| Rooms.ScrollTarget | osu.Game/Screens/Multi/Lounge/LoungeSubScreen.cs:93-98 | the scroll target is the first rendered room equal to the new selection; none exactly when no rendered room matches (always none for a null selection) |
| LoungeModel.Initial | osu.Game/Screens/Multi/Lounge/LoungeSubScreen.cs:27-38 | a new screen satisfies the invariant, is not loaded, is not joining and has pushed nothing |
| LoungeModel.UpdateLoadingLayer | osu.Game/Screens/Multi/Lounge/LoungeSubScreen.cs:181-187 | the layer is shown iff joining or the initial rooms have not been received; nothing else changes |
| LoungeModel.LoadComplete | osu.Game/Screens/Multi/Lounge/LoungeSubScreen.cs:101-107 | preserves the invariant and the room manager's presence; its behaviour is stated by LoungeProperties.LoadShowsLayerIffBusy |
| LoungeModel.ManagerReceivedChanged | osu.Game/Screens/Multi/Lounge/LoungeSubScreen.cs:179 | preserves the invariant (the layer follows the flag once bound); over any sequence of values, LoungeProperties.LayerFollowsBusy |
| LoungeModel.Open | osu.Game/Screens/Multi/Lounge/LoungeSubScreen.cs:192-201 | preserves the invariant; its behaviour is stated by LoungeProperties.StaleOpenIgnored and LoungeProperties.CurrentOpenPushesOnce |
| LoungeModel.JoinRequested | osu.Game/Screens/Multi/Lounge/LoungeSubScreen.cs:162-167 | preserves the invariant; its behaviour is stated by LoungeProperties.JoinShowsLayer |
| LoungeModel.JoinSucceeded | osu.Game/Screens/Multi/Lounge/LoungeSubScreen.cs:167-171 | preserves the invariant; its behaviour is stated by LoungeProperties.JoinSuccessOpensRoom |
| LoungeModel.JoinFailed | osu.Game/Screens/Multi/Lounge/LoungeSubScreen.cs:172-176 | preserves the invariant; its behaviour is stated by LoungeProperties.JoinFailureStaysInLobby |
| LoungeModel.DuplicateRoom | osu.Game/Screens/Multi/Lounge/LoungeSubScreen.cs:68-75 | preserves the invariant; its behaviour is stated by LoungeProperties.DuplicateOpensRenamedCopy |
| LoungeModel.OnEntering | osu.Game/Screens/Multi/Lounge/LoungeSubScreen.cs:126-131 | preserves the invariant; focus holding is stated by LoungeProperties.FocusFollowsLifecycle |
| LoungeModel.OnResuming | osu.Game/Screens/Multi/Lounge/LoungeSubScreen.cs:133-143 | preserves the invariant; its behaviour is stated by LoungeProperties.ResumeReplacesUnsavedSelection and LoungeProperties.FocusFollowsLifecycle |
| LoungeModel.OnSuspending | osu.Game/Screens/Multi/Lounge/LoungeSubScreen.cs:156-160 | preserves the invariant; focus release is stated by LoungeProperties.FocusFollowsLifecycle |
| LoungeModel.OnExiting | osu.Game/Screens/Multi/Lounge/LoungeSubScreen.cs:150-154 | preserves the invariant; focus release is stated by LoungeProperties.FocusFollowsLifecycle |
| LoungeModel.SelectionWritten | osu.Game/Screens/Multi/Lounge/LoungeSubScreen.cs:33 | a write of the shared slot by another component preserves the invariant; its effect on resuming is stated by LoungeProperties.ScenarioDraftGetsId |
| LoungeModel.Step | osu.Game/Screens/Multi/Lounge/LoungeSubScreen.cs:101-200 | dispatching any event to its handler preserves the invariant and the room manager's presence (also LoungeProperties.StepKeepsInvariant) |
| LoungeModel.Run | osu.Game/Screens/Multi/Lounge/LoungeSubScreen.cs:101-200 | running any sequence of events never changes whether there is a room manager; the invariant over runs is LoungeProperties.RunKeepsInvariant |
| LoungeProperties.StepKeepsInvariant | osu.Game/Screens/Multi/Lounge/LoungeSubScreen.cs:101-200 | every handler preserves the invariant (once loaded, layer shown iff busy, and the local flag equals the room manager's; no callbacks held and no load without a room manager) |
| LoungeProperties.LoadShowsLayerIffBusy | osu.Game/Screens/Multi/Lounge/LoungeSubScreen.cs:101-107 | LoadComplete binds the local flag to the room manager's value and the immediate listener run sets the layer to joining or not received |
| LoungeProperties.JoinShowsLayer | osu.Game/Screens/Multi/Lounge/LoungeSubScreen.cs:162-167 | after a join request the flag is set and the layer is shown whatever the readiness; one callback pair is handed over iff there is a room manager; no push and no selection change |
| LoungeProperties.JoinSuccessOpensRoom | osu.Game/Screens/Multi/Lounge/LoungeSubScreen.cs:167-171 | on success, in every state, the requested room is opened (selected and pushed once if current, nothing if not), the flag ends cleared and the layer then shows iff the initial rooms have not arrived |
| LoungeProperties.JoinFailureStaysInLobby | osu.Game/Screens/Multi/Lounge/LoungeSubScreen.cs:172-176 | on failure, in every state, the flag is cleared, the layer shows iff the initial rooms have not arrived, and there is no push, no selection change and no change of currency |
| LoungeProperties.StaleOpenIgnored | osu.Game/Screens/Multi/Lounge/LoungeSubScreen.cs:194-196 | Open on a screen that is not current leaves the whole state unchanged |
| LoungeProperties.CurrentOpenPushesOnce | osu.Game/Screens/Multi/Lounge/LoungeSubScreen.cs:198-200 | Open on the current screen selects the room, appends exactly that room to the pushes, and leaves the join flag and the layer alone |
| LoungeProperties.ResumeReplacesUnsavedSelection | osu.Game/Screens/Multi/Lounge/LoungeSubScreen.cs:133-143 | resuming keeps a selection that has a server id and otherwise selects the new room, so some room is always selected afterwards; focus is held |
| LoungeProperties.FocusFollowsLifecycle | osu.Game/Screens/Multi/Lounge/LoungeSubScreen.cs:126-160 | focus is held after entering or resuming and released after suspending or exiting, so suspending then exiting leaves it released |
| LoungeProperties.DuplicateOpensRenamedCopy | osu.Game/Screens/Multi/Lounge/LoungeSubScreen.cs:68-75 | duplicating on the current screen selects the renamed copy and appends exactly it to the pushes; its name is "Copy of " + the source's name; on a screen that is not current it changes nothing |
| LoungeProperties.RunKeepsInvariant | osu.Game/Screens/Multi/Lounge/LoungeSubScreen.cs:179-187 | every sequence of events preserves the invariant, never changes whether there is a room manager, and never unloads the screen |
| LoungeProperties.LayerFollowsBusy | osu.Game/Screens/Multi/Lounge/LoungeSubScreen.cs:105-106 | from a new screen, after any events, a loaded screen shows the layer iff joining or the initial rooms have not arrived |
| LoungeProperties.PushesOnlyGrow | osu.Game/Screens/Multi/Lounge/LoungeSubScreen.cs:200 | the pushes before any sequence of events are a prefix of the pushes after it |
| LoungeProperties.StaleOpensIgnored | osu.Game/Screens/Multi/Lounge/LoungeSubScreen.cs:192-201 | any run of open or duplicate requests on a screen that is not current changes nothing |
| LoungeProperties.RapidOpensPushOnce | osu.Game/Screens/Multi/Lounge/LoungeSubScreen.cs:194-200 | a run of open or duplicate requests on the current screen pushes and selects only the first request's room |
| LoungeProperties.NotCurrentNeverPushes | osu.Game/Screens/Multi/Lounge/LoungeSubScreen.cs:192-201 | once the screen is not current, no sequence of events without entering or resuming pushes or makes it current, even with late join callbacks; the selection changes only through writes by other components |
| LoungeProperties.JoiningWithoutRoomManagerNeverClears | osu.Game/Screens/Multi/Lounge/LoungeSubScreen.cs:162-177 | without a room manager a join in progress stays in progress and the loading layer stays shown after any events, and no callback is ever held |
| LoungeProperties.JoinFlagIsNotSingleFlight | osu.Game/Screens/Multi/Lounge/LoungeSubScreen.cs:162-176 | two join requests and one failure leave the flag cleared while the other join is still outstanding |
| LoungeProperties.ScenarioCatalogueArrives | osu.Game/Screens/Multi/Lounge/LoungeSubScreen.cs:101-107 | before the initial rooms arrive the loaded screen shows the layer; their arrival hides it |
| LoungeProperties.ScenarioJoinSucceeds | osu.Game/Screens/Multi/Lounge/LoungeSubScreen.cs:162-171 | with the rooms received, a join shows the layer at once; its success pushes and selects the room and hides the layer |
| LoungeProperties.ScenarioJoinFails | osu.Game/Screens/Multi/Lounge/LoungeSubScreen.cs:162-176 | with the rooms received, a failed join pushes nothing, keeps the selection and hides the layer |
| LoungeProperties.ScenarioDraftGetsId | osu.Game/Screens/Multi/Lounge/LoungeSubScreen.cs:137-138 | a draft opened and pushed here and then given a server id by another component is kept on resuming; left a draft, it is replaced by the new room |
| LoungeScreen.LoungeSubScreen.constructor | osu.Game/Screens/Multi/Lounge/LoungeSubScreen.cs:27-38 | the new object is in the initial state of the model and satisfies the invariant |
| LoungeScreen.LoungeSubScreen.UpdateLoadingLayer | osu.Game/Screens/Multi/Lounge/LoungeSubScreen.cs:181-187 | shows or hides the layer as the model's rule says, touching nothing else |
| LoungeScreen.LoungeSubScreen.LoadComplete | osu.Game/Screens/Multi/Lounge/LoungeSubScreen.cs:101-107 | succeeds iff there is a room manager; the new state is the model's LoadComplete of the old one |
| LoungeScreen.LoungeSubScreen.ManagerReceivedChanged | osu.Game/Screens/Multi/Lounge/LoungeSubScreen.cs:179 | the new state is the model's reaction to the room manager's flag changing |
| LoungeScreen.LoungeSubScreen.Open | osu.Game/Screens/Multi/Lounge/LoungeSubScreen.cs:192-201 | selects and pushes the room iff the screen was current; the new state is the model's Open |
| LoungeScreen.LoungeSubScreen.Push | osu.Game/Screens/Multi/Lounge/LoungeSubScreen.cs:200 | appends the room to the pushes and leaves the screen not current |
| LoungeScreen.LoungeSubScreen.JoinRequested | osu.Game/Screens/Multi/Lounge/LoungeSubScreen.cs:162-167 | sets the flag and shows the layer; the new state is the model's JoinRequested |
| LoungeScreen.LoungeSubScreen.JoinSucceeded | osu.Game/Screens/Multi/Lounge/LoungeSubScreen.cs:167-171 | opens the room, then clears the flag; the layer shows iff the rooms have not arrived; the new state is the model's JoinSucceeded |
| LoungeScreen.LoungeSubScreen.JoinFailed | osu.Game/Screens/Multi/Lounge/LoungeSubScreen.cs:172-176 | clears the flag with no push and the selection kept; the layer shows iff the rooms have not arrived; the new state is the model's JoinFailed |
| LoungeScreen.LoungeSubScreen.DuplicateRoom | osu.Game/Screens/Multi/Lounge/LoungeSubScreen.cs:68-75 | opens the renamed copy; the new state is the model's DuplicateRoom |
| LoungeScreen.LoungeSubScreen.OnReturning | osu.Game/Screens/Multi/Lounge/LoungeSubScreen.cs:145-148 | focus is held afterwards |
| LoungeScreen.LoungeSubScreen.OnEntering | osu.Game/Screens/Multi/Lounge/LoungeSubScreen.cs:126-131 | the new state is the model's OnEntering (current, focus held) |
| LoungeScreen.LoungeSubScreen.OnResuming | osu.Game/Screens/Multi/Lounge/LoungeSubScreen.cs:133-143 | given the id-less room `new Room()` builds, some room is selected afterwards and a selection with an id is kept; the new state is the model's OnResuming (current, unsaved selection replaced, focus held) |
| LoungeScreen.LoungeSubScreen.SelectionWritten | osu.Game/Screens/Multi/Lounge/LoungeSubScreen.cs:33 | another component's write of the shared slot keeps the invariant; the new state is the model's SelectionWritten |
| LoungeScreen.LoungeSubScreen.OnSuspending | osu.Game/Screens/Multi/Lounge/LoungeSubScreen.cs:156-160 | the new state is the model's OnSuspending (not current, focus released) |
| LoungeScreen.LoungeSubScreen.OnExiting | osu.Game/Screens/Multi/Lounge/LoungeSubScreen.cs:150-154 | the new state is the model's OnExiting (not current, focus released) |

## Left out

- The drawable tree built in `load`, the padding set in
  `UpdateAfterChildren`, and `OnFocus`/`TakeFocus`: layout and widget
  behaviour whose internals are not part of this model.
- Scrolling itself. Only the lookup of the room to scroll to is modelled
  (`Rooms.ScrollTarget`). The lookup compares rooms by value, where the
  code compares object references.
- `music?.EnsurePlayingSomething()` in `OnResuming`: an optional audio
  collaborator with no state the lounge observes.
- The networking in `RoomManager.JoinRoom`. Only its two callbacks are
  modelled, as environment events. The room argument `r` passed to the
  success callback is unused by the code, which opens the captured `room`,
  and so is left out.
- `Room.CopyFrom`: the copied room comes in as a parameter. Nothing is
  claimed about which fields it copies.
- The `bool` that `OnExiting` returns from `base.OnExiting`, and all other
  base-class and screen-stack behaviour. The stack's effect on
  `IsCurrentScreen()` is replaced by the assumptions listed above.
- Object identity of rooms: `Room` is a value, so two rooms with the same
  id and name are the same room in the model.
- Mutation through shared references: in the code the selection slot, the
  pushed match screen and other components may all refer to one mutable
  `Room`. In the model a change to that room (a server id being filled in)
  reaches the screen only as a write of the updated room to the selection
  slot (`Written`). The rooms recorded in `pushes` keep the value they had
  when pushed.
- The order inside the success callback (Open first, then the flag is
  cleared) is kept in `LoungeSubScreen.JoinSucceeded` and in
  `LoungeModel.JoinSucceeded`. The model has no state in which the
  intermediate step can be seen, so no property is stated about it.
- The initial visibility of the loading layer and the initial `HoldFocus`
  of the search box belong to widgets that are not part of this model.
  Both are taken to start hidden and false. Nothing proved depends on
  this, because the layer rule is stated only for loaded screens.
