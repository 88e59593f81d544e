/** Rooms as the lounge sees them: an optional server id and a display name. */
module Rooms {
  import opened Wrappers

  /** A multiplayer room. `id` is `None` until the server assigns one
      (the C# `RoomID` bindable holding `null`). The other settings a room
      carries are not inspected by the lounge and are not modelled. */
  datatype Room = Room(id: Option<int>, name: string)

  /** The room the duplicate handler opens. `copied` is the new room after
      `CopyFrom(source, true)`, whose field-by-field behaviour is not part
      of this model; the handler only overrides the name. */
  function Duplicate(source: Room, copied: Room): (r: Room)
    ensures r.name == "Copy of " + source.name
    ensures r.id == copied.id
  {
    copied.(name := "Copy of " + source.name)
  }

  /** The rendered room the list scrolls to when the selection becomes `v`:
      the index of the first rendered room equal to the selected one, or
      `None` when there is none (no selection, or the room is not shown). */
  function ScrollTarget(rendered: seq<Room>, v: Option<Room>): (r: Option<nat>)
    ensures r.Some? ==> r.value < |rendered| && v == Some(rendered[r.value])
    ensures r.Some? ==> forall j :: 0 <= j < r.value ==> v != Some(rendered[j])
    ensures r.None? <==> forall j :: 0 <= j < |rendered| ==> v != Some(rendered[j])
  {
    if v.None? || rendered == [] then None
    else if rendered[0] == v.value then Some(0)
    else match ScrollTarget(rendered[1..], v)
      case None => None
      case Some(i) => Some(i + 1)
  }
}
