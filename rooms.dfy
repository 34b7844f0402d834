/**
 * The room tables of the building: every room, the rooms with a private
 * (exclusive) meter and the rooms that share the common-area consumption.
 */
module RoomConfig {

  const AllRooms: seq<string> :=
    ["1A", "1B", "2A", "2B", "3A", "3B", "3C", "3D", "4A", "4B", "4C", "4D"]

  /** Rooms with their own meter: they never pay a share of the common area. */
  const ExclusiveRooms: seq<string> := ["1A", "1B"]

  /** Rooms that split the common-area consumption between them. */
  const SharingRooms: seq<string> :=
    ["2A", "2B", "3A", "3B", "3C", "3D", "4A", "4B", "4C", "4D"]

  datatype RoomType = Exclusive | Sharing | Unknown

  /** No room is listed twice in a table. */
  predicate NoDuplicates(s: seq<string>) {
    forall i, j :: 0 <= i < j < |s| ==> s[i] != s[j]
  }

  /** The room's classification, looking in the exclusive table first. */
  function GetRoomType(room: string): (t: RoomType)
    ensures t == Exclusive <==> room in ExclusiveRooms
    ensures t == Sharing <==> room !in ExclusiveRooms && room in SharingRooms
    ensures t == Unknown <==> room !in AllRooms
  {
    TablesPartitionRooms();
    if room in ExclusiveRooms then Exclusive
    else if room in SharingRooms then Sharing
    else Unknown
  }

  /** Whether the room pays a share of the common-area consumption. */
  function IsSharingRoom(room: string): (b: bool)
    ensures b <==> GetRoomType(room) == Sharing
  {
    TablesPartitionRooms();
    room in SharingRooms
  }

  /**
   * The exclusive and sharing tables are disjoint, neither lists a room
   * twice, and together they list exactly the rooms of the building.
   */
  lemma TablesPartitionRooms()
    ensures NoDuplicates(AllRooms) && NoDuplicates(ExclusiveRooms) && NoDuplicates(SharingRooms)
    ensures forall r :: r in ExclusiveRooms ==> r !in SharingRooms
    ensures forall r :: r in AllRooms <==> r in ExclusiveRooms || r in SharingRooms
    ensures |AllRooms| == |ExclusiveRooms| + |SharingRooms|
  {
  }

  /** A fresh copy of the room list: changing it leaves the table as it is. */
  method GetAllRooms() returns (a: array<string>)
    ensures fresh(a) && a[..] == AllRooms
  {
    a := new string[|AllRooms|](i requires 0 <= i < |AllRooms| => AllRooms[i]);
  }

  /** A fresh copy of the sharing rooms. */
  method GetSharingRooms() returns (a: array<string>)
    ensures fresh(a) && a[..] == SharingRooms
  {
    a := new string[|SharingRooms|](i requires 0 <= i < |SharingRooms| => SharingRooms[i]);
  }

  /** A fresh copy of the exclusive rooms. */
  method GetExclusiveRooms() returns (a: array<string>)
    ensures fresh(a) && a[..] == ExclusiveRooms
  {
    a := new string[|ExclusiveRooms|](i requires 0 <= i < |ExclusiveRooms| => ExclusiveRooms[i]);
  }
}
