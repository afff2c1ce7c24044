/** Navigation and gating of the web prototype shell, which has no sign-in. */
module WebApp {
  import opened Wrappers
  import opened Feed

  datatype View = Splash | Main(tab: AppTab, vault: Option<Room>)

  /** Splash while loading; afterwards the tab, with the vault over it exactly when
      a selected room was found. */
  function Screen(isLoading: bool, tab: AppTab, room: Option<Room>): (v: View)
    ensures v.Splash? <==> isLoading
    ensures v.Main? ==> v.tab == tab && v.vault == room
  {
    if isLoading then Splash else Main(tab, room)
  }

  class Shell {
    const rooms: seq<Room>
    var activeTab: AppTab
    var selectedRoomId: Option<string>
    var isLoading: bool

    predicate Valid()
      reads this
    {
      selectedRoomId.Some? ==> SelectedRoom(rooms, selectedRoomId).Some?
    }

    function Current(): View
      reads this
    {
      Screen(isLoading, activeTab, SelectedRoom(rooms, selectedRoomId))
    }

    constructor (rooms: seq<Room>)
      ensures this.rooms == rooms
      ensures activeTab == Home && selectedRoomId == None && isLoading
      ensures Valid() && Current() == Splash
    {
      this.rooms := rooms;
      activeTab := Home;
      selectedRoomId := None;
      isLoading := true;
    }

    method PressTab(tab: AppTab)
      modifies this`activeTab, this`selectedRoomId
      ensures activeTab == tab && selectedRoomId == None
      ensures Valid()
      ensures Current().Main? ==> Current() == Main(tab, None)
    {
      activeTab := tab;
      selectedRoomId := None;
    }

    method PressRoom(i: nat)
      requires i < |rooms|
      modifies this`selectedRoomId
      ensures selectedRoomId == Some(rooms[i].id)
      ensures Valid()
      ensures Current().Main? ==> Current().vault.Some? && Current().vault.value.id == rooms[i].id
    {
      selectedRoomId := Some(rooms[i].id);
    }

    method Back()
      modifies this`selectedRoomId
      ensures selectedRoomId == None
      ensures Valid()
      ensures Current().Main? ==> Current() == Main(activeTab, None)
    {
      selectedRoomId := None;
    }

    method SplashTimerDone()
      modifies this`isLoading
      ensures !isLoading
      ensures Current().Main? && Current().tab == activeTab
    {
      isLoading := false;
    }
  }
}
