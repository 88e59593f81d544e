/** What the lounge's handlers promise, one handler at a time and over any
    sequence of events. */
module LoungeProperties {
  import opened Wrappers
  import opened Rooms
  import opened LoungeModel

  // ---- single handlers ----

  /** Every handler keeps the invariant. */
  lemma StepKeepsInvariant(s: Lounge, e: Event)
    requires Invariant(s)
    ensures Invariant(Step(s, e))
    ensures Step(s, e).hasRoomManager == s.hasRoomManager
    ensures s.loaded ==> Step(s, e).loaded
  {
  }

  /** Load binds the flags and the listener's immediate run leaves the layer
      showing exactly when the screen is busy. */
  lemma LoadShowsLayerIffBusy(s: Lounge)
    requires Invariant(s) && s.hasRoomManager
    ensures var t := LoadComplete(s);
      t.loaded && t.received == s.managerReceived
      && (t.loadingVisible <==> s.joining || !s.managerReceived)
  {
  }

  /** A join request shows the layer whatever the catalogue's readiness, and
      hands one callback pair to the room manager when there is one. */
  lemma JoinShowsLayer(s: Lounge, room: Room)
    ensures var t := JoinRequested(s, room);
      t.joining && t.loadingVisible
      && t.pending == (if s.hasRoomManager then s.pending + multiset{room} else s.pending)
      && t.pushes == s.pushes && t.selected == s.selected
  {
  }

  /** The success callback opens the requested room (subject to the currency
      guard) and leaves the flag cleared, the layer then showing exactly when
      the initial rooms have not arrived. */
  lemma JoinSuccessOpensRoom(s: Lounge, room: Room)
    requires room in s.pending
    ensures var t := JoinSucceeded(s, room);
      !t.joining && t.pending == s.pending - multiset{room}
      && (t.loadingVisible <==> !t.received)
      && (s.isCurrent ==> t.selected == Some(room) && t.pushes == s.pushes + [room])
      && (!s.isCurrent ==> t.selected == s.selected && t.pushes == s.pushes)
  {
  }

  /** The failure callback only clears the flag: no push, selection kept. */
  lemma JoinFailureStaysInLobby(s: Lounge, room: Room)
    requires room in s.pending
    ensures var t := JoinFailed(s, room);
      !t.joining && t.pending == s.pending - multiset{room}
      && (t.loadingVisible <==> !t.received)
      && t.selected == s.selected && t.pushes == s.pushes && t.isCurrent == s.isCurrent
  {
  }

  /** Open on a screen that is not current changes nothing. */
  lemma StaleOpenIgnored(s: Lounge, room: Room)
    requires !s.isCurrent
    ensures Open(s, room) == s
  {
  }

  /** Open on the current screen selects the room and pushes it exactly once. */
  lemma CurrentOpenPushesOnce(s: Lounge, room: Room)
    requires s.isCurrent
    ensures var t := Open(s, room);
      t.selected == Some(room) && t.pushes == s.pushes + [room] && !t.isCurrent
      && t.joining == s.joining && t.loadingVisible == s.loadingVisible
  {
  }

  /** Resuming replaces the selection exactly when there is none or it has
      no server id. */
  lemma ResumeReplacesUnsavedSelection(s: Lounge, blank: Room)
    ensures var t := OnResuming(s, blank);
      (t.selected == s.selected <== s.selected.Some? && s.selected.value.id.Some?)
      && ((s.selected.None? || s.selected.value.id.None?) ==> t.selected == Some(blank))
      && t.selected.Some? && t.holdFocus && t.isCurrent
  {
  }

  /** Entering and resuming hold focus; suspending and exiting release it,
      so suspending and then exiting leaves it released. */
  lemma FocusFollowsLifecycle(s: Lounge, blank: Room)
    ensures OnEntering(s).holdFocus && OnResuming(s, blank).holdFocus
    ensures !OnSuspending(s).holdFocus && !OnExiting(s).holdFocus
    ensures !OnExiting(OnSuspending(s)).holdFocus
  {
  }

  /** Duplicating opens a room named "Copy of" the source's name, behind the
      same currency guard as Open. */
  lemma DuplicateOpensRenamedCopy(s: Lounge, source: Room, copied: Room)
    ensures var t := DuplicateRoom(s, source, copied);
      (s.isCurrent ==> t.selected == Some(Duplicate(source, copied))
                       && t.pushes == s.pushes + [Duplicate(source, copied)]
                       && t.selected.value.name == "Copy of " + source.name)
      && (!s.isCurrent ==> t == s)
  {
  }

  // ---- sequences of events ----

  /** Any sequence of events keeps the invariant; the room manager's presence
      never changes and a loaded screen stays loaded. */
  lemma {:induction false} RunKeepsInvariant(s: Lounge, es: seq<Event>)
    requires Invariant(s)
    ensures Invariant(Run(s, es))
    ensures Run(s, es).hasRoomManager == s.hasRoomManager
    ensures s.loaded ==> Run(s, es).loaded
    decreases |es|
  {
    if es != [] {
      StepKeepsInvariant(s, es[0]);
      RunKeepsInvariant(Step(s, es[0]), es[1..]);
    }
  }

  /** From a newly built screen, after any events, a loaded screen shows the
      loading layer exactly when joining or the initial rooms have not
      arrived. */
  lemma LayerFollowsBusy(hasRoomManager: bool, managerReceived: bool, selected: Option<Room>, es: seq<Event>)
    ensures var t := Run(Initial(hasRoomManager, managerReceived, selected), es);
      t.loaded ==> (t.loadingVisible <==> t.joining || !t.received)
  {
    RunKeepsInvariant(Initial(hasRoomManager, managerReceived, selected), es);
  }

  /** One handler never removes a push. */
  lemma StepPushesGrow(s: Lounge, e: Event)
    ensures s.pushes <= Step(s, e).pushes
  {
    match e
    case JoinSuccess(room) =>
      if room in s.pending {
        assert s.pushes <= Open(s.(pending := s.pending - multiset{room}), room).pushes;
      }
    case _ =>
  }

  /** Pushes are never undone: the history only grows. */
  lemma {:induction false} PushesOnlyGrow(s: Lounge, es: seq<Event>)
    ensures s.pushes <= Run(s, es).pushes
    decreases |es|
  {
    if es != [] {
      StepPushesGrow(s, es[0]);
      PushesOnlyGrow(Step(s, es[0]), es[1..]);
    }
  }

  /** Events that open a room: a click on one and the duplicate handler. */
  predicate OpensOnly(es: seq<Event>) {
    forall i :: 0 <= i < |es| ==> es[i].OpenRequest? || es[i].DuplicateRequest?
  }

  /** The room an opening event asks to open. */
  function OpenTarget(e: Event): Room
    requires e.OpenRequest? || e.DuplicateRequest?
  {
    if e.OpenRequest? then e.room else Duplicate(e.source, e.copied)
  }

  /** On a screen that is not current, any run of open requests changes nothing. */
  lemma {:induction false} StaleOpensIgnored(s: Lounge, es: seq<Event>)
    requires !s.isCurrent && OpensOnly(es)
    ensures Run(s, es) == s
    decreases |es|
  {
    if es != [] {
      assert OpensOnly(es[1..]) by {
        forall i | 0 <= i < |es[1..]| ensures es[1..][i].OpenRequest? || es[1..][i].DuplicateRequest? {
          assert es[1..][i] == es[i + 1];
        }
      }
      StaleOpensIgnored(Step(s, es[0]), es[1..]);
    }
  }

  /** A room clicked several times in quick succession (or duplicated) on the
      current screen is pushed once: only the first request takes effect. */
  lemma RapidOpensPushOnce(s: Lounge, es: seq<Event>)
    requires s.isCurrent && |es| > 0 && OpensOnly(es)
    ensures var t := Run(s, es);
      t.pushes == s.pushes + [OpenTarget(es[0])] && t.selected == Some(OpenTarget(es[0]))
  {
    var t := Step(s, es[0]);
    assert t == Open(s, OpenTarget(es[0]));
    assert OpensOnly(es[1..]) by {
      forall i | 0 <= i < |es[1..]| ensures es[1..][i].OpenRequest? || es[1..][i].DuplicateRequest? {
        assert es[1..][i] == es[i + 1];
      }
    }
    StaleOpensIgnored(t, es[1..]);
  }

  /** Sequences with no event that makes the screen current again. */
  predicate NoReturn(es: seq<Event>) {
    forall i :: 0 <= i < |es| ==> !es[i].Enter? && !es[i].Resume?
  }

  /** A handler other than entering or resuming leaves a screen that is not
      current as it was: not current, nothing pushed, and the selection
      written by no one but other components. */
  lemma StepWhileNotCurrent(s: Lounge, e: Event)
    requires !s.isCurrent && !e.Enter? && !e.Resume?
    ensures var t := Step(s, e);
      !t.isCurrent && t.pushes == s.pushes && (!e.Written? ==> t.selected == s.selected)
  {
    match e
    case JoinSuccess(room) =>
      if room in s.pending {
        assert Open(s.(pending := s.pending - multiset{room}), room).pushes == s.pushes;
      }
    case _ =>
  }

  /** Sequences in which no other component writes the selection. */
  predicate NoOutsideWrites(es: seq<Event>) {
    forall i :: 0 <= i < |es| ==> !es[i].Written?
  }

  /** Once the screen is no longer current (after a push, a suspend or an
      exit), nothing it does pushes or writes the selection, including join
      callbacks arriving late, until the screen is entered or resumed. */
  lemma {:induction false} NotCurrentNeverPushes(s: Lounge, es: seq<Event>)
    requires !s.isCurrent && NoReturn(es)
    ensures var t := Run(s, es);
      !t.isCurrent && t.pushes == s.pushes
      && (NoOutsideWrites(es) ==> t.selected == s.selected)
    decreases |es|
  {
    if es != [] {
      assert NoReturn(es[1..]) by {
        forall i | 0 <= i < |es[1..]| ensures !es[1..][i].Enter? && !es[1..][i].Resume? {
          assert es[1..][i] == es[i + 1];
        }
      }
      assert NoOutsideWrites(es) ==> NoOutsideWrites(es[1..]) by {
        if NoOutsideWrites(es) {
          forall i | 0 <= i < |es[1..]| ensures !es[1..][i].Written? {
            assert es[1..][i] == es[i + 1];
          }
        }
      }
      StepWhileNotCurrent(s, es[0]);
      NotCurrentNeverPushes(Step(s, es[0]), es[1..]);
    }
  }

  /** Without a room manager no join callback is ever held, so a join in
      progress is never cleared and the loading layer stays up whatever
      happens next. */
  lemma {:induction false} JoiningWithoutRoomManagerNeverClears(s: Lounge, es: seq<Event>)
    requires Invariant(s) && !s.hasRoomManager && s.joining && s.loadingVisible
    ensures Run(s, es).joining && Run(s, es).loadingVisible && Run(s, es).pending == multiset{}
    decreases |es|
  {
    if es != [] {
      StepKeepsInvariant(s, es[0]);
      JoiningWithoutRoomManagerNeverClears(Step(s, es[0]), es[1..]);
    }
  }

  /** The flag is a plain bool and join requests are not refused while one is
      outstanding: two requests and one failure leave the flag cleared while
      the room manager still holds the other join. */
  lemma JoinFlagIsNotSingleFlight(s: Lounge, a: Room, b: Room)
    requires s.hasRoomManager && s.pending == multiset{}
    ensures var t := JoinFailed(JoinRequested(JoinRequested(s, a), b), a);
      !t.joining && t.pending == multiset{b}
  {
    var t1 := JoinRequested(s, a);
    var t2 := JoinRequested(t1, b);
    assert t2.pending == multiset{a, b};
    assert t2.pending - multiset{a} == multiset{b};
  }

  // ---- scenarios ----

  /** Rooms not yet received: the layer shows; the first batch hides it. */
  lemma ScenarioCatalogueArrives(selected: Option<Room>)
    ensures LoadComplete(Initial(true, false, selected)).loadingVisible
    ensures !ManagerReceivedChanged(LoadComplete(Initial(true, false, selected)), true).loadingVisible
  {
  }

  /** Rooms received, join R: the layer shows at once; success pushes R and
      hides the layer. */
  lemma ScenarioJoinSucceeds(selected: Option<Room>, r: Room)
    ensures var s := JoinRequested(OnEntering(LoadComplete(Initial(true, true, selected))), r);
      s.loadingVisible && r in s.pending
    ensures var t := JoinSucceeded(JoinRequested(OnEntering(LoadComplete(Initial(true, true, selected))), r), r);
      t.pushes == [r] && t.selected == Some(r) && !t.loadingVisible && !t.joining
  {
  }

  /** As above but the join fails: no push, the layer hides, the selection
      is kept. */
  lemma ScenarioJoinFails(selected: Option<Room>, r: Room)
    ensures var t := JoinFailed(JoinRequested(OnEntering(LoadComplete(Initial(true, true, selected))), r), r);
      t.pushes == [] && !t.loadingVisible && !t.joining && t.selected == selected
  {
  }

  /** A draft opened by this screen stays selected once another component
      gives it a server id: resuming keeps it. Had it stayed a draft,
      resuming would replace it with the new blank room. */
  lemma ScenarioDraftGetsId(draft: Room, n: int, blank: Room)
    requires draft.id.None?
    ensures var s := OnSuspending(Open(OnEntering(LoadComplete(Initial(true, true, None))), draft));
      s.pushes == [draft]
      && OnResuming(SelectionWritten(s, Some(draft.(id := Some(n)))), blank).selected
         == Some(draft.(id := Some(n)))
      && OnResuming(s, blank).selected == Some(blank)
  {
  }
}
