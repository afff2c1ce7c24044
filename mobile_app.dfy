/** Navigation and gating of the mobile app shell. */
module MobileApp {
  import opened Wrappers
  import opened Feed

  /** The signed-in session; only the user id is read by the shell. */
  datatype Session = Session(userId: string)

  /** What the shell renders: the splash, the sign-in flow, or a tab with the room
      vault possibly open over it. */
  datatype View = Splash | SignIn | Main(tab: AppTab, vault: Option<Room>)

  /** The render decision: splash while either loading flag is up, then sign-in while
      there is no session, and otherwise the tab, with the vault over it exactly when a
      selected room was found. */
  function Screen(isLoading: bool, authLoading: bool, session: Option<Session>, tab: AppTab, room: Option<Room>): (v: View)
    ensures v.Splash? <==> isLoading || authLoading
    ensures v.SignIn? <==> !isLoading && !authLoading && session.None?
    ensures v.Main? ==> v.tab == tab && v.vault == room && session.Some?
    ensures v.Main? && v.vault.Some? ==> room.Some? && session.Some? && !isLoading && !authLoading
  {
    if isLoading || authLoading then Splash
    else if session.None? then SignIn
    else Main(tab, if room.Some? && session.Some? then room else None)
  }

  class Shell {
    const rooms: seq<Room>
    var activeTab: AppTab
    var selectedRoomId: Option<string>
    var isLoading: bool
    var authLoading: bool
    var session: Option<Session>

    /** A selection always names one of the rooms, since it is only set from a room card. */
    predicate Valid()
      reads this
    {
      selectedRoomId.Some? ==> SelectedRoom(rooms, selectedRoomId).Some?
    }

    function Current(): View
      reads this
    {
      Screen(isLoading, authLoading, session, activeTab, SelectedRoom(rooms, selectedRoomId))
    }

    /** Past the splash and sign-in, the vault is open exactly when a room is selected. */
    lemma SelectionShown()
      requires Valid()
      ensures Current().Main? ==> (Current().vault.Some? <==> selectedRoomId.Some?)
    {
    }

    /** Start on the home tab with nothing selected, behind the splash. */
    constructor (rooms: seq<Room>)
      ensures this.rooms == rooms
      ensures activeTab == Home && selectedRoomId == None
      ensures isLoading && authLoading && session == None
      ensures Valid() && Current() == Splash
    {
      this.rooms := rooms;
      activeTab := Home;
      selectedRoomId := None;
      isLoading := true;
      authLoading := true;
      session := None;
    }

    /** A tab-bar press: switch tab and close any open room. */
    method PressTab(tab: AppTab)
      modifies this`activeTab, this`selectedRoomId
      ensures activeTab == tab && selectedRoomId == None
      ensures Valid()
      ensures Current().Main? ==> Current() == Main(tab, None)
    {
      activeTab := tab;
      selectedRoomId := None;
    }

    /** A press on the card of `rooms[i]`: open that room's vault. */
    method PressRoom(i: nat)
      requires i < |rooms|
      modifies this`selectedRoomId
      ensures selectedRoomId == Some(rooms[i].id)
      ensures Valid()
      ensures Current().Main? ==> Current().vault.Some? && Current().vault.value.id == rooms[i].id
    {
      selectedRoomId := Some(rooms[i].id);
    }

    /** The vault's back button: close the room, keep the tab. */
    method Back()
      modifies this`selectedRoomId
      ensures selectedRoomId == None
      ensures Valid()
      ensures Current().Main? ==> Current() == Main(activeTab, None)
    {
      selectedRoomId := None;
    }

    /** The splash timer fires. */
    method SplashTimerDone()
      modifies this`isLoading
      ensures !isLoading
      ensures old(Valid()) ==> Valid()
    {
      isLoading := false;
    }

    /** The stored session has been read at start-up. */
    method SessionLoaded(s: Option<Session>)
      modifies this`session, this`authLoading
      ensures session == s && !authLoading
      ensures !isLoading ==> (Current().SignIn? <==> s.None?)
      ensures old(Valid()) ==> Valid()
    {
      session := s;
      authLoading := false;
    }

    /** The auth listener reports a new session (or none, after sign-out). */
    method AuthStateChanged(s: Option<Session>)
      modifies this`session
      ensures session == s
      ensures s.None? ==> !Current().Main?
      ensures old(Valid()) ==> Valid()
    {
      session := s;
    }
  }
}
