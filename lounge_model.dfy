/** The lounge screen's session state and its event handlers, as values.
    Each function below is one handler of `LoungeSubScreen`; the class in
    module LoungeScreen runs the same steps on mutable fields and is proved
    to end in the state these functions compute. */
module LoungeModel {
  import opened Wrappers
  import opened Rooms

  /** Everything the handlers read or write.
      - joining: the private `joiningRoom` flag.
      - received: the screen's own `initialRoomsReceived` bindable.
      - managerReceived: the room manager's `InitialRoomsReceived`, which
        `received` mirrors once LoadComplete has bound the two.
      - loaded: LoadComplete has run (binding and value-changed listener set).
      - loadingVisible: whether the loading layer is shown.
      - holdFocus: the search box's `HoldFocus`.
      - isCurrent: the screen stack's answer to `IsCurrentScreen()`.
      - selected: the shared `selectedRoom` slot (`None` is `null`).
      - pushes: the rooms of the `MatchSubScreen`s pushed, oldest first.
      - hasRoomManager: whether `RoomManager` is non-null.
      - pending: the rooms whose join callbacks the room manager still holds. */
  datatype Lounge = Lounge(
    joining: bool,
    received: bool,
    managerReceived: bool,
    loaded: bool,
    loadingVisible: bool,
    holdFocus: bool,
    isCurrent: bool,
    selected: Option<Room>,
    pushes: seq<Room>,
    hasRoomManager: bool,
    pending: multiset<Room>)

  /** The condition under which the loading layer should be shown. */
  predicate Busy(s: Lounge) {
    s.joining || !s.received
  }

  /** What every handler keeps: once loaded, the layer shows exactly when the
      screen is busy and the local flag mirrors the room manager's; without a
      room manager the screen never loads and no join callback is held. */
  predicate Invariant(s: Lounge) {
    (s.loaded ==> s.loadingVisible == Busy(s) && s.received == s.managerReceived)
    && (!s.hasRoomManager ==> !s.loaded && s.pending == multiset{})
  }

  /** A newly built screen: no join in progress, the local bindable at its
      default `false`, not yet on the screen stack. The loading layer and
      the search box start hidden and not holding focus. */
  function Initial(hasRoomManager: bool, managerReceived: bool, selected: Option<Room>): (s: Lounge)
    ensures Invariant(s) && !s.loaded && !s.joining && s.pushes == []
  {
    Lounge(false, false, hasRoomManager && managerReceived, false, false, false, false,
           selected, [], hasRoomManager, multiset{})
  }

  /** `updateLoadingLayer`: Show when busy, Hide otherwise. */
  function UpdateLoadingLayer(s: Lounge): (t: Lounge)
    ensures t.loadingVisible <==> s.joining || !s.received
    ensures t.(loadingVisible := s.loadingVisible) == s
  {
    if s.joining || !s.received then s.(loadingVisible := true)
    else s.(loadingVisible := false)
  }

  /** `LoadComplete`: bind the local flag to the room manager's and run the
      listener once immediately. The first line dereferences `RoomManager`
      without a null check, so with no room manager this throws before
      anything of the screen's changes. */
  function LoadComplete(s: Lounge): (t: Lounge)
    ensures Invariant(s) ==> Invariant(t)
    ensures t.hasRoomManager == s.hasRoomManager
  {
    if !s.hasRoomManager then s
    else UpdateLoadingLayer(s.(loaded := true, received := s.managerReceived))
  }

  /** The room manager's `InitialRoomsReceived` takes value `v`. Once bound,
      the local bindable follows and its value-changed listener
      (`onInitialRoomsReceivedChanged`) recomputes the layer when the value
      actually changed. */
  function ManagerReceivedChanged(s: Lounge, v: bool): (t: Lounge)
    ensures Invariant(s) ==> Invariant(t)
    ensures t.hasRoomManager == s.hasRoomManager
  {
    if !s.hasRoomManager then s
    else if !s.loaded then s.(managerReceived := v)
    else if v == s.received then s.(managerReceived := v)
    else UpdateLoadingLayer(s.(managerReceived := v, received := v))
  }

  /** `Open`: ignored unless this screen is current; otherwise select the
      room and push its match screen. Pushing makes the new screen current,
      so this one no longer is. */
  function Open(s: Lounge, room: Room): (t: Lounge)
    ensures Invariant(s) ==> Invariant(t)
    ensures t.hasRoomManager == s.hasRoomManager
  {
    if !s.isCurrent then s
    else s.(selected := Some(room), pushes := s.pushes + [room], isCurrent := false)
  }

  /** `joinRequested`: set the flag, recompute the layer, and hand the join
      to the room manager (`?.`: nothing is handed over without one). */
  function JoinRequested(s: Lounge, room: Room): (t: Lounge)
    ensures Invariant(s) ==> Invariant(t)
    ensures t.hasRoomManager == s.hasRoomManager
  {
    var t := UpdateLoadingLayer(s.(joining := true));
    if s.hasRoomManager then t.(pending := t.pending + multiset{room}) else t
  }

  /** The success callback of the join of `room`: open the requested room,
      then clear the flag and recompute the layer. A callback the room
      manager does not hold cannot fire. */
  function JoinSucceeded(s: Lounge, room: Room): (t: Lounge)
    ensures Invariant(s) ==> Invariant(t)
    ensures t.hasRoomManager == s.hasRoomManager
  {
    if room !in s.pending then s
    else
      var afterOpen := Open(s.(pending := s.pending - multiset{room}), room);
      UpdateLoadingLayer(afterOpen.(joining := false))
  }

  /** The failure callback of the join of `room`: clear the flag and
      recompute the layer. */
  function JoinFailed(s: Lounge, room: Room): (t: Lounge)
    ensures Invariant(s) ==> Invariant(t)
    ensures t.hasRoomManager == s.hasRoomManager
  {
    if room !in s.pending then s
    else UpdateLoadingLayer(s.(pending := s.pending - multiset{room}, joining := false))
  }

  /** The `DuplicateRoom` handler: open a renamed copy of `source`. */
  function DuplicateRoom(s: Lounge, source: Room, copied: Room): (t: Lounge)
    ensures Invariant(s) ==> Invariant(t)
    ensures t.hasRoomManager == s.hasRoomManager
  {
    Open(s, Duplicate(source, copied))
  }

  /** `OnEntering`: the screen becomes current; `onReturning` holds focus. */
  function OnEntering(s: Lounge): (t: Lounge)
    ensures Invariant(s) ==> Invariant(t)
    ensures t.hasRoomManager == s.hasRoomManager
  {
    s.(isCurrent := true, holdFocus := true)
  }

  /** `OnResuming`: the screen is current again; with no selection, or one
      without a server id, select the newly built room `blank`; then hold focus. */
  function OnResuming(s: Lounge, blank: Room): (t: Lounge)
    ensures Invariant(s) ==> Invariant(t)
    ensures t.hasRoomManager == s.hasRoomManager
  {
    var sel := if s.selected.None? || s.selected.value.id.None? then Some(blank) else s.selected;
    s.(isCurrent := true, selected := sel, holdFocus := true)
  }

  /** `OnSuspending`: another screen is pushed on top; release focus. */
  function OnSuspending(s: Lounge): (t: Lounge)
    ensures Invariant(s) ==> Invariant(t)
    ensures t.hasRoomManager == s.hasRoomManager
  {
    s.(isCurrent := false, holdFocus := false)
  }

  /** `OnExiting`: the screen leaves the stack; release focus. */
  function OnExiting(s: Lounge): (t: Lounge)
    ensures Invariant(s) ==> Invariant(t)
    ensures t.hasRoomManager == s.hasRoomManager
  {
    s.(isCurrent := false, holdFocus := false)
  }

  /** Another component writes the shared selection slot. A room the slot
      refers to that changes in place (a draft receiving its server id) is
      written here as the updated room. */
  function SelectionWritten(s: Lounge, v: Option<Room>): (t: Lounge)
    ensures Invariant(s) ==> Invariant(t)
    ensures t.hasRoomManager == s.hasRoomManager
  {
    s.(selected := v)
  }

  /** The events the screen reacts to, from the user, the room manager,
      the screen stack and the components sharing the selection. */
  datatype Event =
    | Load
    | ManagerReceived(value: bool)
    | Join(room: Room)
    | JoinSuccess(room: Room)
    | JoinFailure(room: Room)
    | OpenRequest(room: Room)
    | DuplicateRequest(source: Room, copied: Room)
    | Enter
    | Resume(blank: Room)
    | Suspend
    | Exit
    | Written(selection: Option<Room>)

  function Step(s: Lounge, e: Event): (t: Lounge)
    ensures Invariant(s) ==> Invariant(t)
    ensures t.hasRoomManager == s.hasRoomManager
  {
    match e
    case Load => LoadComplete(s)
    case ManagerReceived(v) => ManagerReceivedChanged(s, v)
    case Join(room) => JoinRequested(s, room)
    case JoinSuccess(room) => JoinSucceeded(s, room)
    case JoinFailure(room) => JoinFailed(s, room)
    case OpenRequest(room) => Open(s, room)
    case DuplicateRequest(source, copied) => DuplicateRoom(s, source, copied)
    case Enter => OnEntering(s)
    case Resume(blank) => OnResuming(s, blank)
    case Suspend => OnSuspending(s)
    case Exit => OnExiting(s)
    case Written(v) => SelectionWritten(s, v)
  }

  /** The state after handling `es` in order. */
  function Run(s: Lounge, es: seq<Event>): (t: Lounge)
    ensures t.hasRoomManager == s.hasRoomManager
    decreases |es|
  {
    if es == [] then s else Run(Step(s, es[0]), es[1..])
  }
}
