/** The paged room list: one page, and what walking all pages yields. */
module RoomListing {
  import opened Protocol
  import opened OmokRules
  import opened RoomRules
  import opened UserRules
  import opened LobbyRules
  import opened LobbyInvariant
  import opened WireFormat
  import opened RoomPacketCodec

  function InfoOf(r: RoomState): RoomInfo {
    RoomInfo(ToU32(r.id), ToU8(|r.members|), ToU8(r.capacity), r.title)
  }

  ghost predicate Increasing(ids: seq<RoomId>) {
    forall i, j :: 0 <= i < j < |ids| ==> ids[i] < ids[j]
  }

  /** ids lists exactly the elements of s, smallest first. */
  ghost predicate Lists(ids: seq<RoomId>, s: set<RoomId>) {
    Increasing(ids) && forall x :: x in ids <==> x in s
  }

  lemma {:induction false} ListsAreUnique(a: seq<RoomId>, b: seq<RoomId>, s: set<RoomId>)
    requires Lists(a, s) && Lists(b, s)
    ensures a == b
    decreases |a|
  {
    if a != [] { assert a[0] in b; }
    if b != [] { assert b[0] in a; }
    if a != [] {
      assert a[0] == b[0];
      assert Lists(a[1..], s - {a[0]}) by { TailLists(a, s); }
      assert Lists(b[1..], s - {a[0]}) by { TailLists(b, s); }
      ListsAreUnique(a[1..], b[1..], s - {a[0]});
      assert a == [a[0]] + a[1..] && b == [b[0]] + b[1..];
    }
  }

  lemma TailLists(a: seq<RoomId>, s: set<RoomId>)
    requires Lists(a, s) && a != []
    ensures Lists(a[1..], s - {a[0]})
  {
    assert a == [a[0]] + a[1..];
    forall x ensures x in a[1..] <==> x in s - {a[0]} {
      if x in a[1..] {
        var i :| 0 <= i < |a[1..]| && a[1..][i] == x;
        assert a[i + 1] == x && a[0] < a[i + 1];
      }
    }
  }

  lemma {:induction false} SetHasLeast(s: set<RoomId>) returns (least: RoomId)
    requires s != {}
    ensures least in s && forall x :: x in s ==> least <= x
    decreases |s|
  {
    var y :| y in s;
    least := y;
    if s != {y} {
      assert s - {y} < s;
      var rest := SetHasLeast(s - {y});
      assert forall x :: x in s ==> x == y || x in s - {y};
      least := if y < rest then y else rest;
    }
  }

  ghost function Least(s: set<RoomId>): (m: RoomId)
    requires s != {}
    ensures m in s && forall x :: x in s ==> m <= x
  {
    assert exists m :: m in s && forall x :: x in s ==> m <= x by { var m := SetHasLeast(s); }
    var m :| m in s && forall x :: x in s ==> m <= x;
    m
  }

  lemma LeastFirst(s: set<RoomId>, m: RoomId, rest: seq<RoomId>)
    requires m in s && (forall x :: x in s ==> m <= x) && Lists(rest, s - {m})
    ensures Lists([m] + rest, s)
  {
    forall i | 0 <= i < |rest| ensures m < rest[i] {
      assert rest[i] in s - {m};
    }
    forall x ensures x in [m] + rest <==> x in s {
      assert x in rest <==> x in s - {m};
    }
  }

  /** The elements of s, smallest first. */
  ghost function Sorted(s: set<RoomId>): (ids: seq<RoomId>)
    ensures Lists(ids, s)
    decreases |s|
  {
    if s == {} then []
    else
      var m := Least(s);
      var rest := Sorted(s - {m});
      LeastFirst(s, m, rest);
      [m] + rest
  }

  ghost function After(rooms: map<RoomId, RoomState>, id: RoomId): set<RoomId> {
    set i | i in rooms && i > id
  }

  ghost function Infos(rooms: map<RoomId, RoomState>, ids: seq<RoomId>): (infos: seq<RoomInfo>)
    requires forall i :: 0 <= i < |ids| ==> ids[i] in rooms
    ensures |infos| == |ids| && forall i :: 0 <= i < |ids| ==> infos[i] == InfoOf(rooms[ids[i]])
  {
    seq(|ids|, i requires 0 <= i < |ids| => InfoOf(rooms[ids[i]]))
  }

  ghost function PageIds(rooms: map<RoomId, RoomState>, id: RoomId): (ids: seq<RoomId>)
    ensures forall i :: 0 <= i < |ids| ==> ids[i] in rooms && ids[i] > id
  {
    var all := Sorted(After(rooms, id));
    assert forall i :: 0 <= i < |all| ==> all[i] in After(rooms, id);
    if |all| > ROOM_LIST_PAGE_SIZE then all[..ROOM_LIST_PAGE_SIZE] else all
  }

  /** RoomManager::GetRoomsAfter: the next rooms after an ID, and whether there are more. */
  ghost function GetRoomsAfter(rooms: map<RoomId, RoomState>, id: RoomId): (seq<RoomInfo>, bool) {
    (Infos(rooms, PageIds(rooms, id)), |Sorted(After(rooms, id))| > ROOM_LIST_PAGE_SIZE)
  }

  /** What a client sees that asks on after the last ID of a page while there is more. */
  ghost function Walk(rooms: map<RoomId, RoomState>, id: RoomId): seq<RoomInfo>
    decreases |After(rooms, id)|
  {
    var (page, hasMore) := GetRoomsAfter(rooms, id);
    if !hasMore then page
    else
      var last := PageIds(rooms, id)[ROOM_LIST_PAGE_SIZE - 1];
      NextPageIsSmaller(rooms, id);
      page + Walk(rooms, last)
  }

  lemma NextPageIsSmaller(rooms: map<RoomId, RoomState>, id: RoomId)
    requires GetRoomsAfter(rooms, id).1
    ensures |After(rooms, PageIds(rooms, id)[ROOM_LIST_PAGE_SIZE - 1])| < |After(rooms, id)|
  {
    var last := PageIds(rooms, id)[ROOM_LIST_PAGE_SIZE - 1];
    assert last in After(rooms, id) && last !in After(rooms, last);
    assert After(rooms, last) <= After(rooms, id) - {last};
    SubsetSize(After(rooms, last), After(rooms, id) - {last});
  }

  /** What comes after the k-th element of an increasing list is the rest of it. */
  lemma RestIsAfter(all: seq<RoomId>, k: nat, x: RoomId)
    requires Increasing(all) && 0 < k <= |all|
    ensures x in all[k..] <==> x in all && x > all[k - 1]
  {
    if x in all[k..] {
      var i :| 0 <= i < |all[k..]| && all[k..][i] == x;
      assert all[k + i] == x;
    }
    if x in all && x > all[k - 1] {
      var i :| 0 <= i < |all| && all[i] == x;
      assert i >= k;
      assert all[k..][i - k] == x;
    }
  }

  /** Listing on after the k-th element is the rest of the list. */
  lemma RestIsListedNext(rooms: map<RoomId, RoomState>, id: RoomId, k: nat)
    requires 0 < k <= |Sorted(After(rooms, id))|
    ensures var all := Sorted(After(rooms, id)); Sorted(After(rooms, all[k - 1])) == all[k..]
  {
    hide Sorted;
    var all := Sorted(After(rooms, id));
    var last := all[k - 1];
    assert last in After(rooms, id);
    forall x ensures x in all[k..] <==> x in After(rooms, last) {
      RestIsAfter(all, k, x);
      assert x in all <==> x in After(rooms, id);
    }
    ListsAreUnique(Sorted(After(rooms, last)), all[k..], After(rooms, last));
  }

  lemma InfosInTwoParts(rooms: map<RoomId, RoomState>, ids: seq<RoomId>, k: nat)
    requires (forall i :: 0 <= i < |ids| ==> ids[i] in rooms) && k <= |ids|
    ensures Infos(rooms, ids) == Infos(rooms, ids[..k]) + Infos(rooms, ids[k..])
  {
  }

  lemma OneEntryMore(rooms: map<RoomId, RoomState>, ids: seq<RoomId>, id: RoomId)
    requires (forall i :: 0 <= i < |ids| ==> ids[i] in rooms) && id in rooms
    ensures Infos(rooms, ids + [id]) == Infos(rooms, ids) + [InfoOf(rooms[id])]
  {
  }

  lemma ListedAreThere(rooms: map<RoomId, RoomState>, id: RoomId)
    ensures forall i :: 0 <= i < |Sorted(After(rooms, id))| ==> Sorted(After(rooms, id))[i] in rooms
  {
    var all := Sorted(After(rooms, id));
    forall i | 0 <= i < |all| ensures all[i] in rooms {
      assert all[i] in After(rooms, id);
    }
  }

  /** Pagination is exact: over an unchanged table the pages put together list every room
      after the first ID exactly once, in increasing ID order. */
  lemma {:induction false} WalkListsEveryRoomOnce(rooms: map<RoomId, RoomState>, id: RoomId)
    ensures var all := Sorted(After(rooms, id));
            (forall i :: 0 <= i < |all| ==> all[i] in rooms) && Walk(rooms, id) == Infos(rooms, all)
    decreases |After(rooms, id)|
  {
    hide Sorted, After, Infos;
    var all := Sorted(After(rooms, id));
    ListedAreThere(rooms, id);
    if GetRoomsAfter(rooms, id).1 {
      var last := PageIds(rooms, id)[ROOM_LIST_PAGE_SIZE - 1];
      NextPageIsSmaller(rooms, id);
      WalkListsEveryRoomOnce(rooms, last);
      RestIsListedNext(rooms, id, ROOM_LIST_PAGE_SIZE);
      InfosInTwoParts(rooms, all, ROOM_LIST_PAGE_SIZE);
    }
  }

  // ----- every page can be sent -----

  lemma {:induction false} IncreasingInfosAreOk(rooms: map<RoomId, RoomState>, ids: seq<RoomId>, previous: int)
    requires Increasing(ids) && forall i :: 0 <= i < |ids| ==>
               ids[i] in rooms && ids[i] > previous && ids[i] <= UINT32_MAX && rooms[ids[i]].id == ids[i] && RoomInv(rooms[ids[i]])
    ensures RoomInfosOk(Infos(rooms, ids), previous)
    decreases |ids|
  {
    hide GameInv;
    if ids != [] {
      assert Infos(rooms, ids)[1..] == Infos(rooms, ids[1..]);
      IncreasingInfosAreOk(rooms, ids[1..], ids[0]);
      assert RoomInv(rooms[ids[0]]);
    }
  }

  /** The encoder cannot refuse a page of the lobby, and the body fits a packet. */
  lemma PageIsValid(s: LobbyState, id: RoomId)
    requires LobbyInv(s)
    ensures var (page, hasMore) := GetRoomsAfter(s.rooms, id);
            var p := RoomListResponse(RoomResult.Success, hasMore, page);
            ValidRoomList(p) && |RoomListBytes(p)| <= MAX_BODY_SIZE
  {
    hide RoomInv, UsersInv, Linked, RoomListBytes;
    var ids := PageIds(s.rooms, id);
    IncreasingInfosAreOk(s.rooms, ids, 0);
    var (page, hasMore) := GetRoomsAfter(s.rooms, id);
    RoomListFits(RoomListResponse(RoomResult.Success, hasMore, page));
  }

  // ----- the sort of GetRoomsAfter -----

  ghost predicate ById(infos: seq<RoomInfo>) {
    forall i, j :: 0 <= i < j < |infos| ==> infos[i].roomId <= infos[j].roomId
  }

  function InsertById(sorted: seq<RoomInfo>, info: RoomInfo): seq<RoomInfo> {
    if sorted == [] then [info]
    else if info.roomId < sorted[0].roomId then [info] + sorted
    else [sorted[0]] + InsertById(sorted[1..], info)
  }

  lemma {:induction false} InsertPermutes(sorted: seq<RoomInfo>, info: RoomInfo)
    ensures multiset(InsertById(sorted, info)) == multiset(sorted) + multiset{info}
  {
    if sorted != [] {
      InsertPermutes(sorted[1..], info);
      assert sorted == [sorted[0]] + sorted[1..];
    }
  }

  lemma {:induction false} InsertKeepsOrder(sorted: seq<RoomInfo>, info: RoomInfo)
    requires ById(sorted)
    ensures ById(InsertById(sorted, info))
    ensures forall x :: x in InsertById(sorted, info) ==> x == info || x in sorted
  {
    if sorted != [] && info.roomId >= sorted[0].roomId {
      var rest := InsertById(sorted[1..], info);
      InsertKeepsOrder(sorted[1..], info);
      forall i | 0 <= i < |rest| ensures rest[i].roomId >= sorted[0].roomId {
        assert rest[i] in rest;
      }
    }
  }

  /** Any sort by ID will do; this one inserts. */
  method SortById(infos: seq<RoomInfo>) returns (sorted: seq<RoomInfo>)
    ensures ById(sorted) && multiset(sorted) == multiset(infos)
  {
    sorted := [];
    for k := 0 to |infos|
      invariant ById(sorted) && multiset(sorted) == multiset(infos[..k])
    {
      InsertPermutes(sorted, infos[k]);
      InsertKeepsOrder(sorted, infos[k]);
      sorted := InsertById(sorted, infos[k]);
      assert infos[..k + 1] == infos[..k] + [infos[k]];
    }
    assert infos[..|infos|] == infos;
  }

  // ----- collecting in any order and sorting is listing -----

  /** ids names each of keys that comes after an ID once, in any order. */
  ghost predicate Collects(ids: seq<RoomId>, keys: set<RoomId>, after: RoomId) {
    && (forall i, j :: 0 <= i < j < |ids| ==> ids[i] != ids[j])
    && forall id :: id in ids <==> id in keys && id > after
  }

  lemma CollectedAreAfter(ids: seq<RoomId>, rooms: map<RoomId, RoomState>, after: RoomId)
    requires Collects(ids, rooms.Keys, after)
    ensures (forall i, j :: 0 <= i < j < |ids| ==> ids[i] != ids[j]) && forall id :: id in ids <==> id in After(rooms, after)
  {
  }

  lemma CollectsNothing(after: RoomId)
    ensures Collects([], {}, after)
  {
  }

  lemma CollectsOneMore(ids: seq<RoomId>, keys: set<RoomId>, after: RoomId, id: RoomId)
    requires Collects(ids, keys, after) && id !in keys
    ensures Collects(if id > after then ids + [id] else ids, keys + {id}, after)
  {
    if id > after { assert id !in ids; }
  }

  lemma {:induction false} OccursOnce<T>(s: seq<T>, x: T)
    requires forall i, j :: 0 <= i < j < |s| ==> s[i] != s[j]
    ensures multiset(s)[x] <= 1
    decreases |s|
  {
    if s != [] {
      assert s == [s[0]] + s[1..];
      if x == s[0] {
        assert x !in s[1..];
      }
      OccursOnce(s[1..], x);
    }
  }

  lemma OccursTwice<T>(s: seq<T>, i: nat, j: nat)
    requires i < j < |s| && s[i] == s[j]
    ensures multiset(s)[s[i]] >= 2
  {
    assert s == s[..j] + [s[j]] + s[j + 1..];
    assert s[..j][i] == s[i];
    assert s[i] in multiset(s[..j]);
  }

  function Names(infos: seq<RoomInfo>): (names: seq<RoomId>)
    ensures |names| == |infos| && forall i :: 0 <= i < |names| ==> names[i] == infos[i].roomId
  {
    seq(|infos|, i requires 0 <= i < |infos| => infos[i].roomId)
  }

  lemma DistinctNames(infos: seq<RoomInfo>, sorted: seq<RoomInfo>)
    requires forall i, j :: 0 <= i < j < |infos| ==> infos[i].roomId != infos[j].roomId
    requires ById(sorted) && multiset(sorted) == multiset(infos)
    ensures Increasing(Names(sorted))
  {
    var names := Names(sorted);
    forall i, j | 0 <= i < j < |names| ensures names[i] < names[j] {
      if names[i] == names[j] {
        assert sorted[i] in multiset(infos) && sorted[j] in multiset(infos);
        OccursTwice(sorted, i, j);
        OccursOnce(infos, sorted[i]);
      }
    }
  }

  lemma SameMultisetSameNames(infos: seq<RoomInfo>, sorted: seq<RoomInfo>, x: RoomId)
    requires multiset(sorted) == multiset(infos)
    ensures x in Names(infos) ==> x in Names(sorted)
  {
    if x in Names(infos) {
      var k :| 0 <= k < |infos| && Names(infos)[k] == x;
      assert infos[k] in multiset(sorted);
      var j :| 0 <= j < |sorted| && sorted[j] == infos[k];
      assert Names(sorted)[j] == x;
    }
  }

  /** Entries collected in any order, once for each room after the ID, make up the list when
      sorted by ID. */
  lemma SortedEntriesAreTheList(rooms: map<RoomId, RoomState>, id: RoomId, ids: seq<RoomId>, sorted: seq<RoomInfo>)
    requires forall i :: i in rooms ==> rooms[i].id == i <= UINT32_MAX
    requires Collects(ids, rooms.Keys, id) && forall i :: 0 <= i < |ids| ==> ids[i] in rooms
    requires ById(sorted) && multiset(sorted) == multiset(Infos(rooms, ids))
    ensures var all := Sorted(After(rooms, id));
            (forall i :: 0 <= i < |all| ==> all[i] in rooms) && sorted == Infos(rooms, all)
    ensures GetRoomsAfter(rooms, id) ==
              if |sorted| > ROOM_LIST_PAGE_SIZE then (sorted[..ROOM_LIST_PAGE_SIZE], true) else (sorted, false)
  {
    hide Sorted, After, Names, Increasing, ById, Collects;
    CollectedAreAfter(ids, rooms, id);
    var infos, names, all := Infos(rooms, ids), Names(sorted), Sorted(After(rooms, id));
    ListedAreThere(rooms, id);
    assert Names(infos) == ids;
    DistinctNames(infos, sorted);
    forall x ensures x in names <==> x in ids {
      SameMultisetSameNames(infos, sorted, x);
      SameMultisetSameNames(sorted, infos, x);
    }
    ListsAreUnique(names, all, After(rooms, id));
    forall k | 0 <= k < |sorted| ensures sorted[k] == Infos(rooms, all)[k] {
      assert sorted[k] in multiset(infos);
    }
    if |all| > ROOM_LIST_PAGE_SIZE { InfosInTwoParts(rooms, all, ROOM_LIST_PAGE_SIZE); }
  }
}
