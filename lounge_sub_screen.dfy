/** The lounge screen as an object: the handlers of `LoungeSubScreen`
    updating its fields in sequence. Each method is proved to end in the
    state the matching function of LoungeModel computes, so everything
    proved in LoungeProperties holds of the object. */
module LoungeScreen {
  import opened Wrappers
  import opened Rooms
  import M = LoungeModel

  class LoungeSubScreen {
    // `pushes` (the screen stack's record) and `pending` (the callbacks the
    // room manager holds) are ghost. `managerReceived` is the room manager's
    // bindable, which LoadComplete reads, so it stays a run-time field.
    var joining: bool
    var received: bool
    var managerReceived: bool
    var loaded: bool
    var loadingVisible: bool
    var holdFocus: bool
    var isCurrent: bool
    var selected: Option<Room>
    ghost var pushes: seq<Room>
    const hasRoomManager: bool
    ghost var pending: multiset<Room>

    /** The object's state as a value of the model. */
    ghost function State(): M.Lounge
      reads this
    {
      M.Lounge(joining, received, managerReceived, loaded, loadingVisible, holdFocus,
               isCurrent, selected, pushes, hasRoomManager, pending)
    }

    ghost predicate Valid()
      reads this
    {
      M.Invariant(State())
    }

    /** A new screen sharing the selection slot `selected`, whose dependencies
        include a room manager iff `hasRoomManager`. */
    constructor (hasRoomManager: bool, managerReceived: bool, selected: Option<Room>)
      ensures Valid()
      ensures State() == M.Initial(hasRoomManager, managerReceived, selected)
    {
      joining := false;
      received := false;
      this.managerReceived := hasRoomManager && managerReceived;
      loaded := false;
      loadingVisible := false;
      holdFocus := false;
      isCurrent := false;
      this.selected := selected;
      pushes := [];
      this.hasRoomManager := hasRoomManager;
      pending := multiset{};
    }

    /** `updateLoadingLayer`. */
    method UpdateLoadingLayer()
      modifies this`loadingVisible
      ensures loadingVisible == (joining || !received)
      ensures State() == M.UpdateLoadingLayer(old(State()))
    {
      if joining || !received {
        loadingVisible := true;
      } else {
        loadingVisible := false;
      }
    }

    /** `LoadComplete`; `ok` is false when the missing room manager makes it
        throw. */
    method LoadComplete() returns (ok: bool)
      requires Valid()
      modifies this
      ensures Valid()
      ensures ok == hasRoomManager
      ensures State() == M.LoadComplete(old(State()))
      ensures ok ==> loaded && loadingVisible == (joining || !received)
    {
      if !hasRoomManager {
        return false;
      }
      received := managerReceived;
      loaded := true;
      UpdateLoadingLayer();
      ok := true;
    }

    /** The room manager's `InitialRoomsReceived` is set to `v`; once bound,
        `onInitialRoomsReceivedChanged` runs when the value changes. */
    method ManagerReceivedChanged(v: bool)
      requires Valid()
      modifies this
      ensures Valid()
      ensures State() == M.ManagerReceivedChanged(old(State()), v)
    {
      if !hasRoomManager {
        return;
      }
      var changed := loaded && v != received;
      managerReceived := v;
      if loaded {
        received := v;
      }
      if changed {
        UpdateLoadingLayer();
      }
    }

    /** `Open`. */
    method Open(room: Room)
      requires Valid()
      modifies this
      ensures Valid()
      ensures State() == M.Open(old(State()), room)
      ensures old(isCurrent) ==> selected == Some(room) && pushes == old(pushes) + [room]
      ensures !old(isCurrent) ==> selected == old(selected) && pushes == old(pushes)
    {
      if !isCurrent {
        return;
      }
      selected := Some(room);
      Push(room);
    }

    /** `this.Push(new MatchSubScreen(room))`: the pushed screen becomes
        current. */
    method Push(room: Room)
      modifies this`pushes, this`isCurrent
      ensures pushes == old(pushes) + [room] && !isCurrent
    {
      pushes := pushes + [room];
      isCurrent := false;
    }

    /** `joinRequested`. */
    method JoinRequested(room: Room)
      requires Valid()
      modifies this
      ensures Valid()
      ensures State() == M.JoinRequested(old(State()), room)
      ensures joining && loadingVisible
    {
      joining := true;
      UpdateLoadingLayer();
      if hasRoomManager {
        pending := pending + multiset{room};
      }
    }

    /** The room manager runs the success callback of the join of `room`. */
    method JoinSucceeded(room: Room)
      requires Valid() && room in pending
      modifies this
      ensures Valid()
      ensures State() == M.JoinSucceeded(old(State()), room)
      ensures !joining && loadingVisible == !received
    {
      pending := pending - multiset{room};
      Open(room);
      joining := false;
      UpdateLoadingLayer();
    }

    /** The room manager runs the failure callback of the join of `room`. */
    method JoinFailed(room: Room)
      requires Valid() && room in pending
      modifies this
      ensures Valid()
      ensures State() == M.JoinFailed(old(State()), room)
      ensures !joining && loadingVisible == !received
      ensures selected == old(selected) && pushes == old(pushes)
    {
      pending := pending - multiset{room};
      joining := false;
      UpdateLoadingLayer();
    }

    /** The `DuplicateRoom` handler; `copied` is the new room after
        `CopyFrom(source, true)`. */
    method DuplicateRoom(source: Room, copied: Room)
      requires Valid()
      modifies this
      ensures Valid()
      ensures State() == M.DuplicateRoom(old(State()), source, copied)
    {
      var newRoom := Duplicate(source, copied);
      Open(newRoom);
    }

    /** `onReturning`. */
    method OnReturning()
      modifies this`holdFocus
      ensures holdFocus
    {
      holdFocus := true;
    }

    /** `OnEntering`. */
    method OnEntering()
      requires Valid()
      modifies this
      ensures Valid()
      ensures State() == M.OnEntering(old(State()))
    {
      isCurrent := true;
      OnReturning();
    }

    /** `OnResuming`; `blank` is the room `new Room()` builds. */
    method OnResuming(blank: Room)
      requires Valid() && blank.id.None?
      modifies this
      ensures Valid()
      ensures State() == M.OnResuming(old(State()), blank)
      ensures selected.Some? && (old(selected).Some? && old(selected).value.id.Some? ==> selected == old(selected))
    {
      isCurrent := true;
      if selected.None? || selected.value.id.None? {
        selected := Some(blank);
      }
      OnReturning();
    }

    /** Another component writes the shared `selectedRoom` slot. */
    method SelectionWritten(v: Option<Room>)
      requires Valid()
      modifies this`selected
      ensures Valid()
      ensures State() == M.SelectionWritten(old(State()), v)
    {
      selected := v;
    }

    /** `OnSuspending`. */
    method OnSuspending()
      requires Valid()
      modifies this
      ensures Valid()
      ensures State() == M.OnSuspending(old(State()))
    {
      isCurrent := false;
      holdFocus := false;
    }

    /** `OnExiting`. */
    method OnExiting()
      requires Valid()
      modifies this
      ensures Valid()
      ensures State() == M.OnExiting(old(State()))
    {
      holdFocus := false;
      isCurrent := false;
    }
  }

  /** A room clicked three times in quick succession on a loaded, current
      screen is pushed once. */
  method TripleClick(r: Room)
  {
    var screen := new LoungeSubScreen(true, true, None);
    var ok := screen.LoadComplete();
    screen.OnEntering();
    screen.Open(r);
    screen.Open(r);
    screen.Open(r);
    assert screen.pushes == [r] && screen.selected == Some(r);
    assert !screen.loadingVisible;
  }
}
