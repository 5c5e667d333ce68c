/**
 * The client-side cache of the network lobby: validated game rooms, and a list of
 * rooms where an update for a known room name replaces that room and an update for
 * an unknown name is appended.
 */
module Network {
  import opened Wrappers

  /** A player id: a non-zero unsigned 128-bit integer. */
  type PlayerId = x: int | 0 < x < 0x1_0000_0000_0000_0000_0000_0000_0000_0000 witness 1

  datatype Player = Player(id: PlayerId, name: string)

  /** A game room: its name, its state text if recognised, its two seats and its viewers. */
  datatype Room = Room(
    name: string,
    state: Option<string>,
    players: (Option<PlayerId>, Option<PlayerId>),
    viewers: seq<PlayerId>)

  /** The recognised room states, "play", "wait" and "talk", are kept; any other text becomes no state. */
  function StateOf(state: string): (r: Option<string>)
    ensures r.Some? <==> state == "play" || state == "wait" || state == "talk"
    ensures r.Some? ==> r.value == state
  {
    if state == "play" then Some("play")
    else if state == "wait" then Some("wait")
    else if state == "talk" then Some("talk")
    else None
  }

  /** Some seated player also appears among the viewers. */
  predicate SeatedViewer(players: (Option<PlayerId>, Option<PlayerId>), viewers: seq<PlayerId>) {
    || (players.0.Some? && players.0.value in viewers)
    || (players.1.Some? && players.1.value in viewers)
  }

  /**
   * `Room::new`: refuses a room in which a seated player is also a viewer; otherwise the
   * room keeps the given name, seats and viewers. An unknown state text does not refuse
   * the room; it only leaves the room without a state.
   */
  function NewRoom(name: string, state: string, players: (Option<PlayerId>, Option<PlayerId>), viewers: seq<PlayerId>): (r: Option<Room>)
    ensures r.Some? <==> !SeatedViewer(players, viewers)
    ensures r.Some? ==> r.value.name == name && r.value.players == players && r.value.viewers == viewers
    ensures r.Some? ==> (r.value.state.Some? <==> state == "play" || state == "wait" || state == "talk")
    ensures r.Some? && r.value.state.Some? ==> r.value.state.value == state
  {
    var state := StateOf(state);
    if players.0.Some? && players.0.value in viewers then None
    else if players.1.Some? && players.1.value in viewers then None
    else Some(Room(name, state, players, viewers))
  }

  /** The index of the first room called `name`, if any. */
  function FindName(rooms: seq<Room>, name: string): (r: Option<nat>)
    ensures r.Some? ==> r.value < |rooms| && rooms[r.value].name == name
    ensures r.Some? ==> forall k :: 0 <= k < r.value ==> rooms[k].name != name
    ensures r.None? ==> forall k :: 0 <= k < |rooms| ==> rooms[k].name != name
  {
    if rooms == [] then None
    else if rooms[0].name == name then Some(0)
    else match FindName(rooms[1..], name) {
      case None => None
      case Some(i) => Some(i + 1)
    }
  }

  /** The first room called `name` is the one at `i`, found by nothing before it bearing that name. */
  lemma FindNameFirst(rooms: seq<Room>, name: string, i: nat)
    requires i < |rooms| && rooms[i].name == name
    requires forall k :: 0 <= k < i ==> rooms[k].name != name
    ensures FindName(rooms, name) == Some(i)
  {
  }

  /**
   * The room list after an update with `room`: the first room with the same name is
   * replaced and the length is kept, or, when there is none, `room` is appended.
   */
  function ReplaceOrAppend(rooms: seq<Room>, room: Room): (r: seq<Room>)
    ensures room in r
    ensures |r| == |rooms| <==> exists k :: 0 <= k < |rooms| && rooms[k].name == room.name
    ensures |r| != |rooms| ==> r == rooms + [room]
    ensures forall k :: 0 <= k < |rooms| && FindName(rooms, room.name) != Some(k) ==> r[k] == rooms[k]
    ensures forall i :: && 0 <= i < |rooms| && rooms[i].name == room.name
                        && (forall k :: 0 <= k < i ==> rooms[k].name != room.name)
                        ==> r == rooms[i := room]
  {
    match FindName(rooms, room.name) {
      case Some(i) =>
        var r := rooms[i := room];
        assert r[i] == room;
        r
      case None => rooms + [room]
    }
  }

  /** Room names are pairwise distinct. */
  predicate DistinctNames(rooms: seq<Room>) {
    forall i, j :: 0 <= i < j < |rooms| ==> rooms[i].name != rooms[j].name
  }

  /** An update never introduces a second room of the same name. */
  lemma ReplaceOrAppendKeepsNamesDistinct(rooms: seq<Room>, room: Room)
    requires DistinctNames(rooms)
    ensures DistinctNames(ReplaceOrAppend(rooms, room))
  {
    var r := ReplaceOrAppend(rooms, room);
    match FindName(rooms, room.name) {
      case Some(i) =>
        assert r == rooms[i := room];
        forall a, b | 0 <= a < b < |r|
          ensures r[a].name != r[b].name
        {
          if a != i && b != i {
            assert r[a] == rooms[a] && r[b] == rooms[b];
          }
        }
      case None =>
    }
  }

  /** Repeating the same update changes nothing. */
  lemma ReplaceOrAppendIdempotent(rooms: seq<Room>, room: Room)
    ensures ReplaceOrAppend(ReplaceOrAppend(rooms, room), room) == ReplaceOrAppend(rooms, room)
  {
    var r := ReplaceOrAppend(rooms, room);
    match FindName(rooms, room.name) {
      case Some(i) =>
        assert r == rooms[i := room];
        FindNameFirst(r, room.name, i);
        assert r[i := room] == r;
      case None =>
        assert r == rooms + [room];
        FindNameFirst(r, room.name, |rooms|);
        assert r[|rooms| := room] == r;
    }
  }

  /** The players and rooms known to the lobby client. */
  class NetworkInfoCache {
    var persons: map<PlayerId, Player>
    var rooms: seq<Room>

    /** `NetworkInfoCache::new`: no players and no rooms. */
    constructor ()
      ensures persons == map[] && rooms == []
    {
      persons := map[];
      rooms := [];
    }

    /** `push`: appends `room`. */
    method Push(room: Room)
      modifies this
      ensures rooms == old(rooms) + [room]
      ensures persons == old(persons)
    {
      rooms := rooms + [room];
    }

    /** `update_or_push`: replaces the first room of the same name, or appends `room` when there is none. */
    method UpdateOrPush(room: Room)
      modifies this
      ensures rooms == ReplaceOrAppend(old(rooms), room)
      ensures persons == old(persons)
    {
      var i := 0;
      while i < |rooms| && rooms[i].name != room.name
        invariant 0 <= i <= |rooms|
        invariant forall k :: 0 <= k < i ==> rooms[k].name != room.name
      {
        i := i + 1;
      }
      if i < |rooms| {
        assert FindName(rooms, room.name) == Some(i);
        rooms := rooms[i := room];
      } else {
        Push(room);
      }
    }
  }
}
