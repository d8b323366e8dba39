/** The venue component as an object: its state lives in fields that the operations update
    in place, as the component's state setters do. Every operation is proved to leave the
    state that the matching transition of module Venue computes, so the properties proved
    there (the song quota, conservation on confirm, queue filtering on checkout and
    transfer) hold of the object. */
module KaraokeQueue {
  import opened Common
  import opened YoutubeApi
  import opened Venue

  /** The roster the venue starts with. */
  const InitialTableList: seq<TableConfig> := [TableConfig(1, 4), TableConfig(2, 2), TableConfig(3, 6)]

  /** A song costs 2.00, in cents. */
  const DefaultSongPrice := 200

  /** Each table may have three songs confirmed or pending. */
  const DefaultMaxSongsPerTable := 3

  /** The songs a fresh installation offers before anything was queued. */
  const SeedSongs: seq<Song> := [
    Song("dQw4w9WgXcQ", "Never Gonna Give You Up - Karaoke Version",
         "https://img.youtube.com/vi/dQw4w9WgXcQ/mqdefault.jpg", "Karaoke Mugen", None, false),
    Song("fJ9rUzIMcZQ", "Bohemian Rhapsody - Karaoke Version",
         "https://img.youtube.com/vi/fJ9rUzIMcZQ/mqdefault.jpg", "Sing King Karaoke", None, false),
    Song("9bZkp7q19f0", "Sweet Caroline - Karaoke Version",
         "https://img.youtube.com/vi/9bZkp7q19f0/mqdefault.jpg", "KaraFun Karaoke", None, false),
    Song("kJQP7kiw5Fk", "Despacito - Karaoke Version",
         "https://img.youtube.com/vi/kJQP7kiw5Fk/mqdefault.jpg", "Sing King Karaoke", None, false)
  ]

  /** `initializeTables`: builds the table collection entry by entry. */
  method InitializeTables(tableList: seq<TableConfig>) returns (newTables: map<int, Table>)
    ensures newTables == InitialTables(tableList)
    ensures newTables.Keys == Numbers(tableList)
  {
    newTables := map[];
    var i := 0;
    while i < |tableList|
      invariant 0 <= i <= |tableList|
      invariant newTables == InitialTables(tableList[..i])
    {
      assert tableList[..i + 1][..i] == tableList[..i];
      newTables := newTables[tableList[i].number := FreshTable(tableList[i].maxOccupancy)];
      i := i + 1;
    }
    assert tableList[..|tableList|] == tableList;
  }

  /** The live state of table `n`, with the occupancy of its roster entry. */
  function Kept(tables: map<int, Table>, list: seq<TableConfig>, n: int): Table
    requires n in tables && n in Numbers(list)
  {
    tables[n].(maxOccupancy := Some(ConfigOf(list, n).maxOccupancy))
  }

  /** The collection after the copy-back has visited the first `i` roster entries. */
  function CopiedBack(tables: map<int, Table>, list: seq<TableConfig>, init: map<int, Table>, i: nat): map<int, Table>
    requires i <= |list|
  {
    if i == 0 then init
    else
      var prev := CopiedBack(tables, list, init, i - 1);
      var n := list[i - 1].number;
      assert n in Numbers(list);
      if n in tables then prev[n := Kept(tables, list, n)] else prev
  }

  /** After `i` entries, exactly the numbers visited so far that name a live table hold
      their copied-back state; every other table is still the fresh one. */
  lemma {:induction false} CopiedBackTables(tables: map<int, Table>, list: seq<TableConfig>, init: map<int, Table>, i: nat)
    requires i <= |list| && init.Keys == Numbers(list)
    ensures CopiedBack(tables, list, init, i).Keys == init.Keys
    ensures forall n :: n in init ==>
              CopiedBack(tables, list, init, i)[n] ==
                if n in tables && n in Numbers(list[..i]) then Kept(tables, list, n) else init[n]
  {
    if i == 0 {
      assert Numbers(list[..0]) == {};
    } else {
      CopiedBackTables(tables, list, init, i - 1);
      assert list[..i] == list[..i - 1] + [list[i - 1]];
      NumbersSnoc(list[..i - 1], list[i - 1]);
    }
  }

  /** The table collection `updateTables` builds: a fresh collection for the new roster,
      into which the live state of every existing table that stays is copied back, with
      the occupancy of its roster entry. The copying walks the new roster rather than the
      old table numbers; both visit exactly the numbers present in both. */
  method RebuildTables(tables: map<int, Table>, newTableList: seq<TableConfig>) returns (newTables: map<int, Table>)
    ensures newTables.Keys == Numbers(newTableList)
    ensures forall n :: n in newTables ==> newTables[n] == RosterTable(tables, newTableList, n)
  {
    newTables := InitializeTables(newTableList);
    ghost var initial := newTables;
    var i := 0;
    while i < |newTableList|
      invariant 0 <= i <= |newTableList|
      invariant newTables == CopiedBack(tables, newTableList, initial, i)
    {
      var tableNum := newTableList[i].number;
      if tableNum in tables {
        var tableConfig := ConfigOf(newTableList, tableNum);
        newTables := newTables[tableNum := tables[tableNum].(maxOccupancy := Some(tableConfig.maxOccupancy))];
      }
      i := i + 1;
    }
    CopiedBackTables(tables, newTableList, initial, i);
    assert newTableList[..i] == newTableList;
  }

  class KaraokeBar {
    var globalQueue: seq<QueueEntry>
    var currentSong: Option<QueueEntry>
    var isPlaying: bool
    var cachedSongs: seq<Song>
    var songPrice: int
    var maxSongsPerTable: int
    var tableList: seq<TableConfig>
    var tables: map<int, Table>
    var pendingOrders: map<int, seq<Transaction>>
    var groupHistory: map<string, seq<CheckoutEntry>>

    /** The fields as a value of the transition model. */
    function Snapshot(): State
      reads this
    {
      State(globalQueue, currentSong, isPlaying, cachedSongs, tableList, tables, pendingOrders, groupHistory)
    }

    function CurrentSettings(): Settings
      reads this
    {
      Settings(songPrice, maxSongsPerTable)
    }

    /** The roster and the tables agree, with at least one table and no negative count,
        and the song limit is not negative. */
    ghost predicate Valid()
      reads this
    {
      Sound(Snapshot()) && 0 <= maxSongsPerTable
    }

    /** The component mounts with the stored local cache, or the seed songs when nothing
        is stored, and the initial roster. */
    constructor (stored: Option<seq<Song>>)
      ensures Valid()
      ensures globalQueue == [] && currentSong == None && !isPlaying
      ensures cachedSongs == (if stored.Some? then stored.value else SeedSongs)
      ensures tableList == InitialTableList && tables == InitialTables(InitialTableList)
      ensures pendingOrders == map[] && groupHistory == map[]
      ensures songPrice == DefaultSongPrice && maxSongsPerTable == DefaultMaxSongsPerTable
      ensures QuotaHolds(Snapshot(), maxSongsPerTable)
    {
      globalQueue := [];
      currentSong := None;
      isPlaying := false;
      cachedSongs := if stored.Some? then stored.value else SeedSongs;
      songPrice := DefaultSongPrice;
      maxSongsPerTable := DefaultMaxSongsPerTable;
      tableList := InitialTableList;
      var initial := InitializeTables(InitialTableList);
      tables := initial;
      pendingOrders := map[];
      groupHistory := map[];
      new;
      forall n | n in tables ensures tables[n].songCount == 0 {
        InitialTablesAreFresh(InitialTableList, n);
      }
      assert InitialTableList[0].number == 1 && InitialTableList[1].number == 2 && InitialTableList[2].number == 3;
    }

    /** The mount-time sync: a non-empty server cache replaces the local one. */
    method SyncFromServer(serverSongs: seq<Song>)
      modifies this
      ensures Snapshot() == old(Snapshot()).(cachedSongs := if serverSongs != [] then serverSongs else old(cachedSongs))
      ensures CurrentSettings() == old(CurrentSettings())
    {
      if |serverSongs| > 0 {
        cachedSongs := serverSongs;
      }
    }

    /** `addSongToCache` */
    method AddSongToCache(song: Song)
      modifies this
      ensures Snapshot() == old(Snapshot()).(cachedSongs := Venue.AddSongToCache(old(cachedSongs), song))
      ensures CurrentSettings() == old(CurrentSettings())
    {
      var known := exists k :: 0 <= k < |cachedSongs| && cachedSongs[k].videoId == song.videoId;
      if !known {
        cachedSongs := Take([song] + cachedSongs, LocalCacheCapacity);
      }
    }

    /** A successful single recheck writes the new verdict into the local cache. */
    method RecheckSongAvailability(videoId: string, reply: Option<Availability>)
      modifies this
      ensures reply.None? ==> Snapshot() == old(Snapshot())
      ensures reply.Some? ==> Snapshot() == old(Snapshot()).(cachedSongs := WithRecheckedSong(old(cachedSongs), videoId, reply.value))
      ensures CurrentSettings() == old(CurrentSettings())
    {
      if reply.Some? {
        cachedSongs := WithRecheckedSong(cachedSongs, videoId, reply.value);
      }
    }

    /** A successful batch recheck of the whole cache writes the returned verdicts into it;
        the ids submitted are the cache's ids in order. */
    method BatchRecheckAvailability(reply: Option<map<string, Availability>>) returns (videoIds: seq<string>)
      modifies this
      ensures |videoIds| == |old(cachedSongs)| && forall k :: 0 <= k < |videoIds| ==> videoIds[k] == old(cachedSongs)[k].videoId
      ensures reply.None? ==> Snapshot() == old(Snapshot())
      ensures reply.Some? ==> Snapshot() == old(Snapshot()).(cachedSongs := WithBatchResults(old(cachedSongs), reply.value))
      ensures CurrentSettings() == old(CurrentSettings())
    {
      videoIds := seq(|cachedSongs|, k requires 0 <= k < |cachedSongs| reads this => cachedSongs[k].videoId);
      if reply.Some? {
        cachedSongs := WithBatchResults(cachedSongs, reply.value);
      }
    }

    /** Once the server has deleted its blocked entries, the local cache drops its own. */
    method ClearBlockedSongs(succeeded: bool)
      modifies this
      ensures !succeeded ==> Snapshot() == old(Snapshot())
      ensures succeeded ==> Snapshot() == old(Snapshot()).(cachedSongs := WithoutBlockedSongs(old(cachedSongs)))
      ensures CurrentSettings() == old(CurrentSettings())
    {
      if succeeded {
        cachedSongs := WithoutBlockedSongs(cachedSongs);
      }
    }

    /** The periodic recheck: the stale songs' ids are submitted, and only when there are
        any are the returned verdicts merged. */
    method RecheckOldSongs(now: int, reply: Option<map<string, Availability>>) returns (videoIds: seq<string>)
      modifies this
      ensures videoIds == StaleIds(old(cachedSongs), now)
      ensures videoIds == [] || reply.None? ==> Snapshot() == old(Snapshot())
      ensures videoIds != [] && reply.Some? ==>
                Snapshot() == old(Snapshot()).(cachedSongs := WithBatchResults(old(cachedSongs), reply.value))
      ensures CurrentSettings() == old(CurrentSettings())
    {
      videoIds := StaleIds(cachedSongs, now);
      if |videoIds| > 0 && reply.Some? {
        cachedSongs := WithBatchResults(cachedSongs, reply.value);
      }
    }

    /** `addToPendingOrders` */
    method AddToPendingOrders(currentTable: int, item: MenuItem, id: int, now: int)
      requires Valid()
      modifies this
      ensures Valid()
      ensures Snapshot() == AddMenuOrder(old(Snapshot()), currentTable, item, id, now)
      ensures CurrentSettings() == old(CurrentSettings())
      ensures old(QuotaHolds(Snapshot(), maxSongsPerTable)) ==> QuotaHolds(Snapshot(), maxSongsPerTable)
    {
      if QuotaHolds(Snapshot(), maxSongsPerTable) {
        AddMenuOrderKeepsQuota(Snapshot(), currentTable, item, id, now, maxSongsPerTable);
      }
      var transaction := MenuTransaction(item, id, now, currentTable);
      pendingOrders := pendingOrders[currentTable := PendingFor(pendingOrders, currentTable) + [transaction]];
    }

    /** `reserveSong` */
    method ReserveSong(currentTable: int, searchResult: Song, id: int, now: int) returns (outcome: Outcome)
      requires Valid()
      modifies this
      ensures Valid()
      ensures Step(outcome, Snapshot()) == Reserve(old(Snapshot()), old(CurrentSettings()), currentTable, searchResult, id, now)
      ensures CurrentSettings() == old(CurrentSettings())
      ensures old(QuotaHolds(Snapshot(), maxSongsPerTable)) ==> QuotaHolds(Snapshot(), maxSongsPerTable)
    {
      if QuotaHolds(Snapshot(), maxSongsPerTable) {
        ReserveKeepsQuota(Snapshot(), CurrentSettings(), currentTable, searchResult, id, now);
      }
      if currentTable !in tables {
        return NoSuchTable;
      }
      var table := tables[currentTable];
      var pendingSongs := |SongOrders(PendingFor(pendingOrders, currentTable))|;
      if table.songCount + pendingSongs >= maxSongsPerTable {
        return QuotaReached;
      }
      var transaction := SongTransaction(searchResult, songPrice, id, now, currentTable);
      pendingOrders := pendingOrders[currentTable := PendingFor(pendingOrders, currentTable) + [transaction]];
      AddSongToCache(searchResult);
      outcome := Done;
    }

    /** `confirmOrders` */
    method ConfirmOrders(currentTable: int, firstId: int, now: int) returns (outcome: Outcome)
      requires Valid()
      modifies this
      ensures Valid()
      ensures Step(outcome, Snapshot()) == Confirm(old(Snapshot()), currentTable, firstId, now)
      ensures CurrentSettings() == old(CurrentSettings())
      ensures old(QuotaHolds(Snapshot(), maxSongsPerTable)) ==> QuotaHolds(Snapshot(), maxSongsPerTable)
    {
      var tablePendingOrders := PendingFor(pendingOrders, currentTable);
      if |tablePendingOrders| == 0 {
        return NothingPending;
      }
      if currentTable !in tables {
        return NoSuchTable;
      }
      ghost var before := Snapshot();
      ghost var after := Confirm(before, currentTable, firstId, now).state;
      var table := tables[currentTable];
      var totalPendingAmount := OrdersTotal(tablePendingOrders);
      var songOrders := SongOrders(tablePendingOrders);
      var newQueueItems := QueueEntries(songOrders, currentTable, GroupLabel(table), firstId, now);
      globalQueue := globalQueue + newQueueItems;
      tables := tables[currentTable := table.(orders := table.orders + tablePendingOrders,
                                              songCount := table.songCount + |songOrders|,
                                              totalSpent := table.totalSpent + totalPendingAmount)];
      pendingOrders := pendingOrders[currentTable := []];
      outcome := Done;
      assert Snapshot() == after;
      ConfirmKeepsSound(before, currentTable, firstId, now);
      if QuotaHolds(before, maxSongsPerTable) {
        ConfirmKeepsQuota(before, currentTable, firstId, now, maxSongsPerTable);
      }
    }

    /** `clearPendingOrders` */
    method ClearPendingOrders(currentTable: int)
      requires Valid()
      modifies this
      ensures Valid()
      ensures Snapshot() == ClearPending(old(Snapshot()), currentTable)
      ensures CurrentSettings() == old(CurrentSettings())
      ensures old(QuotaHolds(Snapshot(), maxSongsPerTable)) ==> QuotaHolds(Snapshot(), maxSongsPerTable)
    {
      if QuotaHolds(Snapshot(), maxSongsPerTable) {
        ClearPendingKeepsQuota(Snapshot(), currentTable, maxSongsPerTable);
      }
      pendingOrders := pendingOrders[currentTable := []];
    }

    /** `requestCheck` */
    method RequestCheck(currentTable: int) returns (outcome: Outcome)
      requires Valid()
      modifies this
      ensures Valid()
      ensures Step(outcome, Snapshot()) == Venue.RequestCheck(old(Snapshot()), currentTable)
      ensures CurrentSettings() == old(CurrentSettings())
      ensures old(QuotaHolds(Snapshot(), maxSongsPerTable)) ==> QuotaHolds(Snapshot(), maxSongsPerTable)
    {
      if QuotaHolds(Snapshot(), maxSongsPerTable) {
        OtherStepsKeepQuota(Snapshot(), currentTable, "", 0, maxSongsPerTable);
      }
      if currentTable !in tables {
        return NoSuchTable;
      }
      tables := tables[currentTable := tables[currentTable].(checkRequested := true)];
      outcome := Done;
    }

    /** `playNext` */
    method PlayNext()
      requires Valid()
      modifies this
      ensures Valid()
      ensures Snapshot() == Venue.PlayNext(old(Snapshot()))
      ensures CurrentSettings() == old(CurrentSettings())
      ensures old(QuotaHolds(Snapshot(), maxSongsPerTable)) ==> QuotaHolds(Snapshot(), maxSongsPerTable)
    {
      if QuotaHolds(Snapshot(), maxSongsPerTable) {
        OtherStepsKeepQuota(Snapshot(), 0, "", 0, maxSongsPerTable);
      }
      if |globalQueue| > 0 {
        currentSong := Some(globalQueue[0]);
        isPlaying := true;
        globalQueue := globalQueue[1..];
      } else {
        currentSong := None;
        isPlaying := false;
      }
    }

    /** `updateTables` */
    method UpdateTables(newTableList: seq<TableConfig>)
      modifies this
      ensures Snapshot() == UpdateRoster(old(Snapshot()), newTableList)
      ensures CurrentSettings() == old(CurrentSettings())
    {
      tableList := newTableList;
      tables := RebuildTables(tables, newTableList);
    }

    /** `addTable` */
    method AddTable()
      requires Valid()
      modifies this
      ensures Valid()
      ensures Snapshot() == Venue.AddTable(old(Snapshot()))
      ensures CurrentSettings() == old(CurrentSettings())
    {
      AddTableKeepsSound(Snapshot());
      var newTableNum := MaxNumber(tableList) + 1;
      UpdateTables(tableList + [TableConfig(newTableNum, 4)]);
    }

    /** `removeTable` */
    method RemoveTable(tableNum: int) returns (outcome: Outcome)
      requires Valid()
      modifies this
      ensures Valid()
      ensures Step(outcome, Snapshot()) == Venue.RemoveTable(old(Snapshot()), tableNum)
      ensures CurrentSettings() == old(CurrentSettings())
    {
      if |tableList| <= 1 {
        return LastTable;
      }
      RemoveTableKeepsSound(Snapshot(), tableNum);
      UpdateTables(WithoutNumber(tableList, tableNum));
      outcome := Done;
    }

    /** `updateTableOccupancy` */
    method UpdateTableOccupancy(tableNum: int, maxOccupancy: int)
      requires Valid()
      modifies this
      ensures Valid()
      ensures Snapshot() == ResizeTable(old(Snapshot()), tableNum, maxOccupancy)
      ensures CurrentSettings() == old(CurrentSettings())
    {
      ResizeTableKeepsSound(Snapshot(), tableNum, maxOccupancy);
      UpdateTables(Resized(tableList, tableNum, maxOccupancy));
    }

    /** `checkoutTable` */
    method CheckoutTable(tableNum: int, id: int, now: int) returns (outcome: Outcome)
      requires Valid()
      modifies this
      ensures Valid()
      ensures Step(outcome, Snapshot()) == Checkout(old(Snapshot()), tableNum, id, now)
      ensures CurrentSettings() == old(CurrentSettings())
      ensures old(QuotaHolds(Snapshot(), maxSongsPerTable)) ==> QuotaHolds(Snapshot(), maxSongsPerTable)
    {
      if tableNum !in tables {
        return NoSuchTable;
      }
      ghost var before := Snapshot();
      ghost var after := Checkout(before, tableNum, id, now).state;
      var table := tables[tableNum];
      if table.totalSpent > 0 || |table.orders| > 0 {
        var groupKey := GroupLabel(table);
        var prior := if groupKey in groupHistory then groupHistory[groupKey] else [];
        groupHistory := groupHistory[groupKey := prior + [Archived(table, tableNum, id, now)]];
      }
      pendingOrders := pendingOrders[tableNum := []];
      tables := tables[tableNum := ClearedTable(table)];
      globalQueue := WithoutTable(globalQueue, tableNum);
      outcome := Done;
      assert Snapshot() == after;
      CheckoutKeepsSound(before, tableNum, id, now);
      if QuotaHolds(before, maxSongsPerTable) {
        CheckoutKeepsQuota(before, tableNum, id, now, maxSongsPerTable);
      }
    }

    /** `transferTable` */
    method TransferTable(fromTable: int, toTable: int) returns (outcome: Outcome)
      requires Valid()
      modifies this
      ensures Valid()
      ensures Step(outcome, Snapshot()) == Transfer(old(Snapshot()), fromTable, toTable)
      ensures CurrentSettings() == old(CurrentSettings())
    {
      if fromTable !in tables || toTable !in tables {
        return NoSuchTable;
      }
      var sourceTable := tables[fromTable];
      if tables[toTable].isOccupied {
        return TargetOccupied;
      }
      tables := tables[toTable := sourceTable.(isOccupied := true)][fromTable := VacatedTable];
      globalQueue := Retarget(globalQueue, fromTable, toTable);
      outcome := Done;
    }

    /** `updateGroupInfo` */
    method UpdateGroupInfo(tableNum: int, groupName: string, guestCount: int) returns (outcome: Outcome)
      requires Valid()
      modifies this
      ensures Valid()
      ensures Step(outcome, Snapshot()) == UpdateGroup(old(Snapshot()), tableNum, groupName, guestCount)
      ensures CurrentSettings() == old(CurrentSettings())
      ensures old(QuotaHolds(Snapshot(), maxSongsPerTable)) ==> QuotaHolds(Snapshot(), maxSongsPerTable)
    {
      if QuotaHolds(Snapshot(), maxSongsPerTable) {
        OtherStepsKeepQuota(Snapshot(), tableNum, groupName, guestCount, maxSongsPerTable);
      }
      if tableNum !in tables {
        return NoSuchTable;
      }
      var table := tables[tableNum];
      var maxAllowed := OccupancyOr(table.maxOccupancy, 8);
      tables := tables[tableNum := table.(groupName := groupName,
                                          guestCount := Min(guestCount, maxAllowed),
                                          isOccupied := true)];
      outcome := Done;
    }
  }
}
