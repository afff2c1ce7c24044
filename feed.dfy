/** The feed selections both apps compute from the photo list: today's photos,
    flashbacks, the selected room and its photos, and who is shown as uploader. */
module Feed {
  import opened Wrappers
  import opened Text

  datatype User = User(id: string, name: string, avatar: string, joinedRooms: seq<string>)
  datatype Room = Room(id: string, name: string, description: string, adminId: string, memberIds: seq<string>)
  datatype Photo = Photo(id: string, roomId: string, uploaderId: string, url: string, timestamp: string, caption: string)

  /** The bottom tab bar's four tabs. */
  datatype AppTab = Home | Rooms | Drop | Plan

  /** A calendar date as the local clock reads it (`getFullYear`, `getMonth`, `getDate`). */
  datatype Date = Date(year: int, month: int, day: int)

  /** The stand-in shown for every photo not uploaded by the current user. */
  const PLACEHOLDER := User("u-2", "Sam Chen", "https://picsum.photos/seed/u2/200/200", [])

  /** `Array.prototype.filter`: the elements that pass, in their original order. */
  function Filter<T(!new)>(xs: seq<T>, keep: T -> bool): (r: seq<T>)
    ensures |r| <= |xs|
    ensures forall x :: x in r <==> x in xs && keep(x)
  {
    if xs == [] then []
    else (if keep(xs[0]) then [xs[0]] else []) + Filter(xs[1..], keep)
  }

  /** Filtering distributes over concatenation, which is what keeps the original order. */
  lemma {:induction false} FilterAppend<T(!new)>(a: seq<T>, b: seq<T>, keep: T -> bool)
    ensures Filter(a + b, keep) == Filter(a, keep) + Filter(b, keep)
  {
    if a == [] {
      assert a + b == b;
    } else {
      assert (a + b)[1..] == a[1..] + b;
      FilterAppend(a[1..], b, keep);
    }
  }

  /** Photos whose timestamp starts with today's `YYYY-MM-DD`. */
  function TodayPhotos(photos: seq<Photo>, today: string): (r: seq<Photo>)
    ensures forall p :: p in r <==> p in photos && StartsWith(p.timestamp, today)
  {
    Filter(photos, (p: Photo) => StartsWith(p.timestamp, today))
  }

  predicate IsFlashback(taken: Date, today: Date) {
    taken.day == today.day && taken.month == today.month && taken.year < today.year
  }

  /** Photos taken on today's day and month in an earlier year; `dateOf` is the
      parsing of a timestamp into the local calendar. */
  function Flashbacks(photos: seq<Photo>, dateOf: string -> Date, today: Date): (r: seq<Photo>)
    ensures forall p :: p in r <==> p in photos && IsFlashback(dateOf(p.timestamp), today)
    ensures forall p :: p in r ==> dateOf(p.timestamp).year != today.year
  {
    Filter(photos, (p: Photo) => IsFlashback(dateOf(p.timestamp), today))
  }

  /** When the calendar reading of a timestamp agrees with its date prefix, no photo is
      both one of today's and a flashback. */
  lemma TodayIsNoFlashback(photos: seq<Photo>, dateOf: string -> Date, todayText: string, today: Date)
    requires forall t :: StartsWith(t, todayText) ==> dateOf(t).year == today.year
    ensures forall p :: p in TodayPhotos(photos, todayText) ==> p !in Flashbacks(photos, dateOf, today)
  {
  }

  /** `rooms.find`: the first room with the selected id; nothing when none is selected. */
  function SelectedRoom(rooms: seq<Room>, selected: Option<string>): (r: Option<Room>)
    ensures r.Some? <==> selected.Some? && exists i :: 0 <= i < |rooms| && rooms[i].id == selected.value
    ensures r.Some? ==> exists i :: 0 <= i < |rooms| && rooms[i] == r.value && r.value.id == selected.value
                          && forall j :: 0 <= j < i ==> rooms[j].id != selected.value
  {
    if selected.None? || rooms == [] then None
    else if rooms[0].id == selected.value then Some(rooms[0])
    else
      var r := SelectedRoom(rooms[1..], selected);
      if r.Some? then
        var i :| 0 <= i < |rooms[1..]| && rooms[1..][i] == r.value && r.value.id == selected.value
                 && forall j :: 0 <= j < i ==> rooms[1..][j].id != selected.value;
        assert rooms[i + 1] == r.value;
        r
      else r
  }

  /** The photos of the selected room, in feed order; none when no room is selected,
      since no photo has a null room id. */
  function RoomPhotos(photos: seq<Photo>, selected: Option<string>): (r: seq<Photo>)
    ensures selected.None? ==> r == []
    ensures selected.Some? ==> forall p :: p in r <==> p in photos && p.roomId == selected.value
  {
    if selected.None? then [] else Filter(photos, (p: Photo) => p.roomId == selected.value)
  }

  /** Who a feed card names as uploader. */
  function Uploader(photo: Photo, currentUser: User): (u: User)
    ensures photo.uploaderId == currentUser.id ==> u == currentUser
    ensures photo.uploaderId != currentUser.id ==> u == PLACEHOLDER
  {
    if photo.uploaderId == currentUser.id then currentUser else PLACEHOLDER
  }

  /** The card names the real uploader only for the current user's photos and for
      those by 'u-2'; every other uploader is shown as the placeholder. */
  lemma UploaderAttribution(photo: Photo, currentUser: User)
    ensures Uploader(photo, currentUser).id == photo.uploaderId <==>
              photo.uploaderId == currentUser.id || photo.uploaderId == PLACEHOLDER.id
  {
  }
}
