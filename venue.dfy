/** The logic of the venue's client component, as transitions on its state:
    tables and their roster, per-table pending orders with the song quota,
    confirmation into the shared play queue, checkout and transfer, the
    display's queue consumption, and the local song cache.

    Each transition is a function from the old state to the new one; the
    component class (module KaraokeQueue) performs the same updates on its
    fields and is proved to agree with these functions. Prices are integer
    cents, times integer milliseconds, and ids are supplied by the caller. */
module Venue {
  import opened Common
  import opened YoutubeApi

  /** The local mirror keeps the 100 most recently admitted songs. */
  const LocalCacheCapacity := 100

  /** Local cache searches return at most ten songs. */
  const MaxLocalResults := 10

  /** Songs whose verdict is older than a day are rechecked. */
  const RecheckIntervalMs := 24 * 60 * 60 * 1000

  /** A song as the guest view handles it: a search result, or an entry of the local cache. */
  datatype Song = Song(
    videoId: string,
    title: string,
    thumbnail: string,
    channel: string,
    availability: Option<Availability>,
    isBlocked: bool)

  /** An entry of the roster: a table number and how many guests it seats. */
  datatype TableConfig = TableConfig(number: int, maxOccupancy: int)

  datatype MenuItem = MenuItem(name: string, price: int, category: string)

  /** What an order is for: a menu item, or a song with what the search knew about it. */
  datatype OrderDetail =
    | MenuOrder
    | SongOrder(videoId: string, thumbnail: string, availability: Option<Availability>, isBlocked: bool)

  /** A pending or confirmed order. */
  datatype Transaction = Transaction(
    id: int,
    item: string,
    price: int,
    timestamp: int,
    tableNumber: int,
    category: string,
    detail: OrderDetail)

  /** A table's live state. `maxOccupancy` is absent on a table vacated by a transfer. */
  datatype Table = Table(
    groupName: string,
    guestCount: int,
    orders: seq<Transaction>,
    songCount: int,
    totalSpent: int,
    checkRequested: bool,
    isOccupied: bool,
    maxOccupancy: Option<int>)

  /** An entry of the play queue. */
  datatype QueueEntry = QueueEntry(
    id: int,
    videoId: string,
    url: string,
    title: string,
    thumbnail: string,
    tableNumber: int,
    groupName: string,
    addedAt: int,
    price: int)

  /** The record archived when a table with activity checks out. */
  datatype CheckoutEntry = CheckoutEntry(
    id: int,
    groupName: string,
    tableNumber: int,
    guestCount: int,
    orders: seq<Transaction>,
    totalSpent: int,
    checkoutTime: int)

  /** The bar's settings: the price of a song and the per-table song limit. */
  datatype Settings = Settings(songPrice: int, maxSongsPerTable: int)

  /** The component's state. */
  datatype State = State(
    globalQueue: seq<QueueEntry>,
    currentSong: Option<QueueEntry>,
    isPlaying: bool,
    cachedSongs: seq<Song>,
    tableList: seq<TableConfig>,
    tables: map<int, Table>,
    pendingOrders: map<int, seq<Transaction>>,
    groupHistory: map<string, seq<CheckoutEntry>>)

  /** How an operation ended. The source reports refusals in a dialog and, on a table number
      it has no record for, fails with a type error before changing anything. */
  datatype Outcome = Done | NoSuchTable | QuotaReached | TargetOccupied | LastTable | NothingPending

  /** The outcome of an operation with the state it leaves. */
  datatype Step = Step(outcome: Outcome, state: State)

  // ---------------------------------------------------------------------------
  // Orders

  /** `pendingOrders[n] || []` */
  function PendingFor(pending: map<int, seq<Transaction>>, n: int): seq<Transaction>
  {
    if n in pending then pending[n] else []
  }

  predicate IsSongOrder(t: Transaction)
  {
    t.detail.SongOrder?
  }

  /** The song orders among `orders`, in order. */
  function SongOrders(orders: seq<Transaction>): (r: seq<Transaction>)
    ensures |r| <= |orders|
    ensures forall t :: t in r <==> t in orders && IsSongOrder(t)
    ensures forall k :: 0 <= k < |r| ==> IsSongOrder(r[k])
    decreases |orders|
  {
    if orders == [] then []
    else
      var rest := SongOrders(orders[1..]);
      assert orders == [orders[0]] + orders[1..];
      if IsSongOrder(orders[0]) then [orders[0]] + rest else rest
  }

  lemma {:induction false} SongOrdersAppend(a: seq<Transaction>, b: seq<Transaction>)
    ensures SongOrders(a + b) == SongOrders(a) + SongOrders(b)
    decreases |a|
  {
    if a == [] {
      assert a + b == b;
    } else {
      assert (a + b)[1..] == a[1..] + b;
      SongOrdersAppend(a[1..], b);
    }
  }

  /** The sum of the prices of `orders`. */
  function OrdersTotal(orders: seq<Transaction>): int
    decreases |orders|
  {
    if orders == [] then 0 else orders[0].price + OrdersTotal(orders[1..])
  }

  lemma {:induction false} OrdersTotalAppend(a: seq<Transaction>, b: seq<Transaction>)
    ensures OrdersTotal(a + b) == OrdersTotal(a) + OrdersTotal(b)
    decreases |a|
  {
    if a == [] {
      assert a + b == b;
    } else {
      assert (a + b)[1..] == a[1..] + b;
      OrdersTotalAppend(a[1..], b);
    }
  }

  /** The number of pending song orders of table `n`. */
  function PendingSongs(pending: map<int, seq<Transaction>>, n: int): nat
  {
    |SongOrders(PendingFor(pending, n))|
  }

  /** The confirmed song count of table `n`, 0 when there is no such table. */
  function ConfirmedSongs(tables: map<int, Table>, n: int): int
  {
    if n in tables then tables[n].songCount else 0
  }

  /** The song quota: no table, and no table number with pending orders, has more confirmed
      and pending songs together than the limit. */
  ghost predicate QuotaHolds(s: State, limit: int)
  {
    forall n :: n in s.tables || n in s.pendingOrders ==>
      ConfirmedSongs(s.tables, n) + PendingSongs(s.pendingOrders, n) <= limit
  }

  /** The label a table's group goes by: its name, or "Table of <guests>". */
  function GroupLabel(t: Table): string
  {
    if t.groupName != "" then t.groupName else "Table of " + IntToString(t.guestCount)
  }

  function SongTransaction(result: Song, price: int, id: int, now: int, n: int): (t: Transaction)
    ensures IsSongOrder(t) && t.price == price && t.tableNumber == n
  {
    Transaction(id, result.title, price, now, n, "Song",
                SongOrder(result.videoId, result.thumbnail, result.availability, result.isBlocked))
  }

  function MenuTransaction(item: MenuItem, id: int, now: int, n: int): (t: Transaction)
    ensures !IsSongOrder(t) && t.price == item.price && t.tableNumber == n
  {
    Transaction(id, item.name, item.price, now, n, item.category, MenuOrder)
  }

  /** `reserveSong`: refused when the table's confirmed songs plus its pending song orders have
      reached the limit; otherwise one song order at the song price joins the table's pending
      orders and the song is offered to the local cache. */
  function Reserve(s: State, settings: Settings, n: int, result: Song, id: int, now: int): (r: Step)
    ensures n !in s.tables ==> r == Step(NoSuchTable, s)
    ensures n in s.tables && s.tables[n].songCount + PendingSongs(s.pendingOrders, n) >= settings.maxSongsPerTable ==>
              r == Step(QuotaReached, s)
    ensures r.outcome == Done <==>
              n in s.tables && s.tables[n].songCount + PendingSongs(s.pendingOrders, n) < settings.maxSongsPerTable
    ensures r.outcome == Done ==>
              PendingFor(r.state.pendingOrders, n) == PendingFor(s.pendingOrders, n) + [SongTransaction(result, settings.songPrice, id, now, n)] &&
              (forall m :: m != n ==> PendingFor(r.state.pendingOrders, m) == PendingFor(s.pendingOrders, m)) &&
              r.state == s.(pendingOrders := r.state.pendingOrders, cachedSongs := AddSongToCache(s.cachedSongs, result))
  {
    if n !in s.tables then Step(NoSuchTable, s)
    else if s.tables[n].songCount + PendingSongs(s.pendingOrders, n) >= settings.maxSongsPerTable then Step(QuotaReached, s)
    else
      var order := SongTransaction(result, settings.songPrice, id, now, n);
      Step(Done, s.(pendingOrders := s.pendingOrders[n := PendingFor(s.pendingOrders, n) + [order]],
                    cachedSongs := AddSongToCache(s.cachedSongs, result)))
  }

  /** `addToPendingOrders`: a menu order joins the table's pending orders; there is no limit. */
  function AddMenuOrder(s: State, n: int, item: MenuItem, id: int, now: int): (r: State)
    ensures n in r.pendingOrders
    ensures PendingFor(r.pendingOrders, n) == PendingFor(s.pendingOrders, n) + [MenuTransaction(item, id, now, n)]
    ensures forall m :: m != n ==> PendingFor(r.pendingOrders, m) == PendingFor(s.pendingOrders, m)
    ensures r == s.(pendingOrders := r.pendingOrders)
  {
    s.(pendingOrders := s.pendingOrders[n := PendingFor(s.pendingOrders, n) + [MenuTransaction(item, id, now, n)]])
  }

  function WatchUrl(videoId: string): string
  {
    "https://www.youtube.com/watch?v=" + videoId
  }

  /** The queue entry made for a confirmed song order. */
  function ToQueueEntry(t: Transaction, n: int, groupKey: string, id: int, now: int): QueueEntry
    requires IsSongOrder(t)
  {
    QueueEntry(id, t.detail.videoId, WatchUrl(t.detail.videoId), t.item, t.detail.thumbnail, n, groupKey, now, t.price)
  }

  /** The queue entries for confirmed song orders, with the ids `firstId`, `firstId + 1`, ... */
  function QueueEntries(songs: seq<Transaction>, n: int, groupKey: string, firstId: int, now: int): (r: seq<QueueEntry>)
    requires forall k :: 0 <= k < |songs| ==> songs[k].detail.SongOrder?
    ensures |r| == |songs|
    ensures forall k :: 0 <= k < |songs| ==>
              r[k].videoId == songs[k].detail.videoId && r[k].title == songs[k].item &&
              r[k].price == songs[k].price && r[k].tableNumber == n && r[k].groupName == groupKey
  {
    seq(|songs|, k requires 0 <= k < |songs| => ToQueueEntry(songs[k], n, groupKey, firstId + k, now))
  }

  /** `confirmOrders`: with nothing pending, nothing changes; the effects of a confirmation
      are stated by ConfirmEffects. */
  function Confirm(s: State, n: int, firstId: int, now: int): (r: Step)
    ensures PendingFor(s.pendingOrders, n) == [] ==> r == Step(NothingPending, s)
    ensures PendingFor(s.pendingOrders, n) != [] && n !in s.tables ==> r == Step(NoSuchTable, s)
    ensures r.outcome == Done <==> PendingFor(s.pendingOrders, n) != [] && n in s.tables
  {
    var p := PendingFor(s.pendingOrders, n);
    if p == [] then Step(NothingPending, s)
    else if n !in s.tables then Step(NoSuchTable, s)
    else
      var t := s.tables[n];
      var songs := SongOrders(p);
      Step(Done, s.(globalQueue := s.globalQueue + QueueEntries(songs, n, GroupLabel(t), firstId, now),
                    tables := s.tables[n := t.(orders := t.orders + p,
                                               songCount := t.songCount + |songs|,
                                               totalSpent := t.totalSpent + OrdersTotal(p))],
                    pendingOrders := s.pendingOrders[n := []]))
  }

  /** A confirmation appends the table's song orders to the tail of the queue, in order and
      at their prices; all its pending orders join its confirmed orders; its song count and
      spend grow by their number and total; its pending list empties; nothing else changes. */
  lemma ConfirmEffects(s: State, n: int, firstId: int, now: int)
    requires Confirm(s, n, firstId, now).outcome == Done
    ensures var r := Confirm(s, n, firstId, now).state;
            var p := PendingFor(s.pendingOrders, n);
            var t := s.tables[n];
            var q := r.globalQueue;
            |q| == |s.globalQueue| + |SongOrders(p)| && q[..|s.globalQueue|] == s.globalQueue &&
            (forall k :: 0 <= k < |SongOrders(p)| ==>
               q[|s.globalQueue| + k].videoId == SongOrders(p)[k].detail.videoId &&
               q[|s.globalQueue| + k].price == SongOrders(p)[k].price &&
               q[|s.globalQueue| + k].tableNumber == n) &&
            r.tables == s.tables[n := t.(orders := t.orders + p,
                                         songCount := t.songCount + |SongOrders(p)|,
                                         totalSpent := t.totalSpent + OrdersTotal(p))] &&
            r.pendingOrders == s.pendingOrders[n := []] &&
            r == s.(globalQueue := q, tables := r.tables, pendingOrders := r.pendingOrders)
  {
    var p := PendingFor(s.pendingOrders, n);
    var entries := QueueEntries(SongOrders(p), n, GroupLabel(s.tables[n]), firstId, now);
    assert (s.globalQueue + entries)[..|s.globalQueue|] == s.globalQueue;
  }

  /** `clearPendingOrders`: the table's pending orders are discarded, nobody else's. */
  function ClearPending(s: State, n: int): (r: State)
    ensures n in r.pendingOrders && PendingFor(r.pendingOrders, n) == []
    ensures forall m :: m != n ==> PendingFor(r.pendingOrders, m) == PendingFor(s.pendingOrders, m)
    ensures r == s.(pendingOrders := r.pendingOrders)
  {
    s.(pendingOrders := s.pendingOrders[n := []])
  }

  /** `requestCheck`: flags the table; no other table and no other field changes. */
  function RequestCheck(s: State, n: int): (r: Step)
    ensures n !in s.tables ==> r == Step(NoSuchTable, s)
    ensures n in s.tables ==>
              r.outcome == Done && r.state.tables.Keys == s.tables.Keys &&
              r.state.tables[n].checkRequested &&
              r.state.tables[n] == s.tables[n].(checkRequested := r.state.tables[n].checkRequested) &&
              (forall m :: m in s.tables && m != n ==> r.state.tables[m] == s.tables[m]) &&
              r.state == s.(tables := r.state.tables)
  {
    if n !in s.tables then Step(NoSuchTable, s)
    else Step(Done, s.(tables := s.tables[n := s.tables[n].(checkRequested := true)]))
  }

  // ---------------------------------------------------------------------------
  // Properties of the order transitions

  /** A reservation keeps the quota: it is admitted only below the limit and adds one song. */
  lemma ReserveKeepsQuota(s: State, settings: Settings, n: int, result: Song, id: int, now: int)
    requires QuotaHolds(s, settings.maxSongsPerTable)
    ensures QuotaHolds(Reserve(s, settings, n, result, id, now).state, settings.maxSongsPerTable)
  {
    var r := Reserve(s, settings, n, result, id, now);
    if r.outcome == Done {
      var order := SongTransaction(result, settings.songPrice, id, now, n);
      SongOrdersAppend(PendingFor(s.pendingOrders, n), [order]);
      assert PendingSongs(r.state.pendingOrders, n) == PendingSongs(s.pendingOrders, n) + 1;
      forall m | m in r.state.tables || m in r.state.pendingOrders
        ensures ConfirmedSongs(r.state.tables, m) + PendingSongs(r.state.pendingOrders, m) <= settings.maxSongsPerTable
      {
        if m != n {
          assert PendingSongs(r.state.pendingOrders, m) == PendingSongs(s.pendingOrders, m);
        }
      }
    }
  }

  /** A menu order never counts against the quota. */
  lemma AddMenuOrderKeepsQuota(s: State, n: int, item: MenuItem, id: int, now: int, limit: int)
    requires 0 <= limit && QuotaHolds(s, limit)
    ensures QuotaHolds(AddMenuOrder(s, n, item, id, now), limit)
  {
    var r := AddMenuOrder(s, n, item, id, now);
    SongOrdersAppend(PendingFor(s.pendingOrders, n), [MenuTransaction(item, id, now, n)]);
    assert PendingSongs(r.pendingOrders, n) == PendingSongs(s.pendingOrders, n);
    forall m | m in r.tables || m in r.pendingOrders
      ensures ConfirmedSongs(r.tables, m) + PendingSongs(r.pendingOrders, m) <= limit
    {
      if m != n {
        assert PendingSongs(r.pendingOrders, m) == PendingSongs(s.pendingOrders, m);
      }
    }
  }

  /** Confirmation moves songs, money and orders from pending to confirmed without loss:
      for the confirmed table, confirmed plus pending is the same before and after. */
  lemma ConfirmConserves(s: State, n: int, firstId: int, now: int)
    requires Confirm(s, n, firstId, now).outcome == Done
    ensures var r := Confirm(s, n, firstId, now).state;
            var before, after := s.tables[n], r.tables[n];
            after.songCount + PendingSongs(r.pendingOrders, n) == before.songCount + PendingSongs(s.pendingOrders, n) &&
            after.totalSpent + OrdersTotal(PendingFor(r.pendingOrders, n)) ==
              before.totalSpent + OrdersTotal(PendingFor(s.pendingOrders, n)) &&
            after.orders + PendingFor(r.pendingOrders, n) == before.orders + PendingFor(s.pendingOrders, n)
  {
    var r := Confirm(s, n, firstId, now).state;
    ConfirmEffects(s, n, firstId, now);
    assert PendingFor(r.pendingOrders, n) == [];
    assert s.tables[n].orders + PendingFor(s.pendingOrders, n) + [] == s.tables[n].orders + PendingFor(s.pendingOrders, n);
  }

  /** Confirmation keeps the state sound: it changes one existing table and only raises
      its song count. */
  lemma ConfirmKeepsSound(s: State, n: int, firstId: int, now: int)
    requires Sound(s)
    ensures Sound(Confirm(s, n, firstId, now).state)
  {
    var r := Confirm(s, n, firstId, now);
    if r.outcome == Done {
      ConfirmEffects(s, n, firstId, now);
      assert r.state.tables.Keys == s.tables.Keys;
    }
  }

  /** Confirmation keeps the quota: it moves songs from pending to confirmed. */
  lemma ConfirmKeepsQuota(s: State, n: int, firstId: int, now: int, limit: int)
    requires QuotaHolds(s, limit)
    ensures QuotaHolds(Confirm(s, n, firstId, now).state, limit)
  {
    var r := Confirm(s, n, firstId, now);
    if r.outcome == Done {
      ConfirmEffects(s, n, firstId, now);
      ConfirmConserves(s, n, firstId, now);
      forall m | m in r.state.tables || m in r.state.pendingOrders
        ensures ConfirmedSongs(r.state.tables, m) + PendingSongs(r.state.pendingOrders, m) <= limit
      {
        if m != n {
          assert PendingSongs(r.state.pendingOrders, m) == PendingSongs(s.pendingOrders, m);
          assert ConfirmedSongs(r.state.tables, m) == ConfirmedSongs(s.tables, m);
        }
      }
    }
  }

  /** Discarding pending orders keeps the quota. */
  lemma ClearPendingKeepsQuota(s: State, n: int, limit: int)
    requires 0 <= limit && QuotaHolds(s, limit)
    ensures QuotaHolds(ClearPending(s, n), limit)
  {
    var r := ClearPending(s, n);
    forall m | m in r.tables || m in r.pendingOrders
      ensures ConfirmedSongs(r.tables, m) + PendingSongs(r.pendingOrders, m) <= limit
    {
      if m == n {
        assert PendingSongs(r.pendingOrders, m) == 0;
        assert PendingSongs(s.pendingOrders, m) >= 0;
      } else {
        assert PendingSongs(r.pendingOrders, m) == PendingSongs(s.pendingOrders, m);
      }
    }
  }

  /** Reserving a song at a table with nothing pending and then confirming puts exactly that
      song at the tail of the queue and charges the song price once. */
  lemma ReserveThenConfirm(s: State, settings: Settings, n: int, result: Song, id: int, now: int, firstId: int)
    requires PendingFor(s.pendingOrders, n) == []
    requires Reserve(s, settings, n, result, id, now).outcome == Done
    ensures var r := Confirm(Reserve(s, settings, n, result, id, now).state, n, firstId, now);
            r.outcome == Done &&
            |r.state.globalQueue| == |s.globalQueue| + 1 &&
            r.state.globalQueue[..|s.globalQueue|] == s.globalQueue &&
            r.state.globalQueue[|s.globalQueue|].videoId == result.videoId &&
            r.state.globalQueue[|s.globalQueue|].price == settings.songPrice &&
            r.state.globalQueue[|s.globalQueue|].tableNumber == n &&
            r.state.tables[n].songCount == s.tables[n].songCount + 1 &&
            r.state.tables[n].totalSpent == s.tables[n].totalSpent + settings.songPrice
  {
    var mid := Reserve(s, settings, n, result, id, now).state;
    var order := SongTransaction(result, settings.songPrice, id, now, n);
    assert PendingFor(mid.pendingOrders, n) == [order];
    assert SongOrders([order]) == [order];
    assert OrdersTotal([order]) == settings.songPrice;
    ConfirmEffects(mid, n, firstId, now);
  }

  // ---------------------------------------------------------------------------
  // The play queue

  /** `playNext`: the head of the queue becomes the current song and plays; with an empty
      queue the display stops. */
  function PlayNext(s: State): (r: State)
    ensures s.globalQueue != [] ==>
              r == s.(currentSong := Some(s.globalQueue[0]), isPlaying := true, globalQueue := s.globalQueue[1..])
    ensures s.globalQueue == [] ==> r == s.(currentSong := None, isPlaying := false)
    ensures s.globalQueue != [] ==> s.globalQueue == [s.globalQueue[0]] + r.globalQueue
  {
    if s.globalQueue != [] then
      s.(currentSong := Some(s.globalQueue[0]), isPlaying := true, globalQueue := s.globalQueue[1..])
    else
      s.(currentSong := None, isPlaying := false)
  }

  /** The queue without the entries of table `n`. */
  function WithoutTable(queue: seq<QueueEntry>, n: int): (r: seq<QueueEntry>)
    ensures |r| <= |queue|
    ensures forall e :: e in r <==> e in queue && e.tableNumber != n
    decreases |queue|
  {
    if queue == [] then []
    else
      var rest := WithoutTable(queue[1..], n);
      assert queue == [queue[0]] + queue[1..];
      if queue[0].tableNumber != n then [queue[0]] + rest else rest
  }

  /** Removing a table's entries keeps the others in their relative order: the removal
      distributes over concatenation. */
  lemma {:induction false} WithoutTableAppend(a: seq<QueueEntry>, b: seq<QueueEntry>, n: int)
    ensures WithoutTable(a + b, n) == WithoutTable(a, n) + WithoutTable(b, n)
    decreases |a|
  {
    if a == [] {
      assert a + b == b;
    } else {
      assert (a + b)[1..] == a[1..] + b;
      WithoutTableAppend(a[1..], b, n);
    }
  }

  /** The queue with the entries of table `from` handed to table `to`. */
  function Retarget(queue: seq<QueueEntry>, from: int, to: int): (r: seq<QueueEntry>)
    ensures |r| == |queue|
    ensures forall k :: 0 <= k < |queue| ==>
              r[k] == if queue[k].tableNumber == from then queue[k].(tableNumber := to) else queue[k]
  {
    seq(|queue|, k requires 0 <= k < |queue| =>
      if queue[k].tableNumber == from then queue[k].(tableNumber := to) else queue[k])
  }

  // ---------------------------------------------------------------------------
  // Table lifecycle

  /** `prev[n]?.maxOccupancy || d` */
  function OccupancyOr(maxOccupancy: Option<int>, d: int): int
  {
    if maxOccupancy.Some? && maxOccupancy.value != 0 then maxOccupancy.value else d
  }

  /** A table as the roster creates it: empty, seating at most four guests by default. */
  function FreshTable(maxOccupancy: int): Table
  {
    Table("", Min(4, maxOccupancy), [], 0, 0, false, false, Some(maxOccupancy))
  }

  /** A table after checkout: emptied, keeping its occupancy limit (4 when it had none). */
  function ClearedTable(t: Table): (r: Table)
    ensures r.orders == [] && r.songCount == 0 && r.totalSpent == 0
    ensures !r.checkRequested && !r.isOccupied && r.groupName == ""
    ensures t.maxOccupancy.Some? && t.maxOccupancy.value != 0 ==> r.maxOccupancy == t.maxOccupancy
  {
    FreshTable(OccupancyOr(t.maxOccupancy, 4))
  }

  /** A table after its group transferred away: emptied, with no occupancy limit recorded. */
  const VacatedTable := Table("", 4, [], 0, 0, false, false, None)

  /** The archive entry written at checkout. */
  function Archived(t: Table, n: int, id: int, now: int): CheckoutEntry
  {
    CheckoutEntry(id, GroupLabel(t), n, t.guestCount, t.orders, t.totalSpent, now)
  }

  /** A table is archived at checkout when it spent money or ordered anything. */
  predicate HadActivity(t: Table)
  {
    t.totalSpent > 0 || |t.orders| > 0
  }

  /** `checkoutTable`; its effects are stated by CheckoutEffects. */
  function Checkout(s: State, n: int, id: int, now: int): (r: Step)
    ensures n !in s.tables ==> r == Step(NoSuchTable, s)
    ensures n in s.tables ==> r.outcome == Done
  {
    if n !in s.tables then Step(NoSuchTable, s)
    else
      var t := s.tables[n];
      var groupKey := GroupLabel(t);
      var history :=
        if HadActivity(t) then
          s.groupHistory[groupKey := (if groupKey in s.groupHistory then s.groupHistory[groupKey] else []) + [Archived(t, n, id, now)]]
        else s.groupHistory;
      Step(Done, s.(groupHistory := history,
                    pendingOrders := s.pendingOrders[n := []],
                    tables := s.tables[n := ClearedTable(t)],
                    globalQueue := WithoutTable(s.globalQueue, n)))
  }

  /** At checkout a table with activity is archived under its group label, and only then;
      its pending orders are dropped; it is emptied, keeping its occupancy limit; no queue
      entry of it remains while every other entry stays; nothing else changes. */
  lemma CheckoutEffects(s: State, n: int, id: int, now: int)
    requires n in s.tables
    ensures var r := Checkout(s, n, id, now).state;
            var t := s.tables[n];
            var groupKey := GroupLabel(t);
            var prior := if groupKey in s.groupHistory then s.groupHistory[groupKey] else [];
            r.tables == s.tables[n := ClearedTable(t)] &&
            r.pendingOrders == s.pendingOrders[n := []] &&
            r.globalQueue == WithoutTable(s.globalQueue, n) &&
            (forall e :: e in r.globalQueue ==> e.tableNumber != n) &&
            (forall e :: e in s.globalQueue && e.tableNumber != n ==> e in r.globalQueue) &&
            (HadActivity(t) ==> r.groupHistory == s.groupHistory[groupKey := prior + [Archived(t, n, id, now)]]) &&
            (!HadActivity(t) ==> r.groupHistory == s.groupHistory) &&
            r == s.(groupHistory := r.groupHistory, pendingOrders := r.pendingOrders,
                    tables := r.tables, globalQueue := r.globalQueue)
  {
  }

  /** Checkout leaves the roster alone and sets the table's count to zero, so a sound
      state stays sound. */
  lemma CheckoutKeepsSound(s: State, n: int, id: int, now: int)
    requires Sound(s)
    ensures Sound(Checkout(s, n, id, now).state)
  {
    if n in s.tables {
      CheckoutEffects(s, n, id, now);
    }
  }

  /** Checkout keeps the quota: the table's songs and pending orders both go to zero. */
  lemma CheckoutKeepsQuota(s: State, n: int, id: int, now: int, limit: int)
    requires 0 <= limit && QuotaHolds(s, limit)
    ensures QuotaHolds(Checkout(s, n, id, now).state, limit)
  {
    var r := Checkout(s, n, id, now);
    if r.outcome == Done {
      CheckoutEffects(s, n, id, now);
      forall m | m in r.state.tables || m in r.state.pendingOrders
        ensures ConfirmedSongs(r.state.tables, m) + PendingSongs(r.state.pendingOrders, m) <= limit
      {
        if m == n {
          assert PendingSongs(r.state.pendingOrders, m) == 0;
        } else {
          assert PendingSongs(r.state.pendingOrders, m) == PendingSongs(s.pendingOrders, m);
        }
      }
    }
  }

  /** `transferTable`: refused when the target is occupied. Otherwise the target takes over
      the source's record (its occupancy limit included) and is occupied, the source is
      vacated, and the source's queue entries now name the target. Pending orders stay
      where they were. */
  function Transfer(s: State, from: int, to: int): (r: Step)
    ensures from !in s.tables || to !in s.tables ==> r == Step(NoSuchTable, s)
    ensures from in s.tables && to in s.tables && s.tables[to].isOccupied ==> r == Step(TargetOccupied, s)
    ensures r.outcome == Done <==> from in s.tables && to in s.tables && !s.tables[to].isOccupied
    ensures r.outcome == Done ==>
              r.state.tables == s.tables[to := s.tables[from].(isOccupied := true)][from := VacatedTable] &&
              r.state.globalQueue == Retarget(s.globalQueue, from, to) &&
              r.state == s.(tables := r.state.tables, globalQueue := r.state.globalQueue)
  {
    if from !in s.tables || to !in s.tables then Step(NoSuchTable, s)
    else if s.tables[to].isOccupied then Step(TargetOccupied, s)
    else
      Step(Done, s.(tables := s.tables[to := s.tables[from].(isOccupied := true)][from := VacatedTable],
                    globalQueue := Retarget(s.globalQueue, from, to)))
  }

  /** After a transfer between two different tables no queue entry names the source, the
      target has the source's songs and spend, and the queue keeps its length and order. */
  lemma TransferMovesTable(s: State, from: int, to: int)
    requires from != to && Transfer(s, from, to).outcome == Done
    ensures var r := Transfer(s, from, to).state;
            (forall e :: e in r.globalQueue ==> e.tableNumber != from) &&
            (forall k :: 0 <= k < |s.globalQueue| && s.globalQueue[k].tableNumber == from ==>
               r.globalQueue[k].tableNumber == to) &&
            (forall k :: 0 <= k < |s.globalQueue| && s.globalQueue[k].tableNumber != from ==>
               r.globalQueue[k] == s.globalQueue[k]) &&
            r.tables[to].isOccupied && r.tables[to].songCount == s.tables[from].songCount &&
            r.tables[to].totalSpent == s.tables[from].totalSpent && r.tables[to].orders == s.tables[from].orders &&
            r.tables[from] == VacatedTable
  {
    var r := Transfer(s, from, to).state;
    forall e | e in r.globalQueue ensures e.tableNumber != from {
      var k :| 0 <= k < |r.globalQueue| && r.globalQueue[k] == e;
    }
  }

  /** Because pending orders do not follow the group, a transfer can break the song quota:
      the target keeps its own pending songs and takes over the source's confirmed ones. */
  lemma TransferCanBreakQuota()
    ensures var order := SongTransaction(Song("v", "t", "", "", None, false), 200, 1, 0, 2);
            var busy := Table("", 4, [], 3, 600, false, true, Some(4));
            var s := State([], None, false, [], [TableConfig(1, 4), TableConfig(2, 4)],
                           map[1 := busy, 2 := FreshTable(4)], map[2 := [order]], map[]);
            QuotaHolds(s, 3) && Transfer(s, 1, 2).outcome == Done && !QuotaHolds(Transfer(s, 1, 2).state, 3)
  {
    var order := SongTransaction(Song("v", "t", "", "", None, false), 200, 1, 0, 2);
    var busy := Table("", 4, [], 3, 600, false, true, Some(4));
    var s := State([], None, false, [], [TableConfig(1, 4), TableConfig(2, 4)],
                   map[1 := busy, 2 := FreshTable(4)], map[2 := [order]], map[]);
    assert SongOrders([order]) == [order];
    assert PendingSongs(s.pendingOrders, 2) == 1;
    assert PendingSongs(s.pendingOrders, 1) == 0;
    var r := Transfer(s, 1, 2).state;
    assert ConfirmedSongs(r.tables, 2) + PendingSongs(r.pendingOrders, 2) == 4;
  }

  /** `updateGroupInfo`: names the group, records the guests (at most the table's occupancy
      limit, 8 when it has none) and marks the table occupied. */
  function UpdateGroup(s: State, n: int, groupName: string, guestCount: int): (r: Step)
    ensures n !in s.tables ==> r == Step(NoSuchTable, s)
    ensures n in s.tables ==>
              var t := s.tables[n];
              r.outcome == Done && n in r.state.tables &&
              r.state == s.(tables := s.tables[n := t.(groupName := groupName,
                                                       guestCount := r.state.tables[n].guestCount,
                                                       isOccupied := true)]) &&
              r.state.tables[n].guestCount <= OccupancyOr(t.maxOccupancy, 8) &&
              r.state.tables[n].guestCount <= guestCount &&
              (r.state.tables[n].guestCount == guestCount || r.state.tables[n].guestCount == OccupancyOr(t.maxOccupancy, 8))
  {
    if n !in s.tables then Step(NoSuchTable, s)
    else
      var t := s.tables[n];
      Step(Done, s.(tables := s.tables[n := t.(groupName := groupName,
                                               guestCount := Min(guestCount, OccupancyOr(t.maxOccupancy, 8)),
                                               isOccupied := true)]))
  }

  /** Operations that touch neither song counts nor pending orders keep the quota. */
  lemma OtherStepsKeepQuota(s: State, n: int, groupName: string, guestCount: int, limit: int)
    requires QuotaHolds(s, limit)
    ensures QuotaHolds(RequestCheck(s, n).state, limit)
    ensures QuotaHolds(UpdateGroup(s, n, groupName, guestCount).state, limit)
    ensures QuotaHolds(PlayNext(s), limit)
  {
    var a := RequestCheck(s, n).state;
    forall m | m in a.tables || m in a.pendingOrders
      ensures ConfirmedSongs(a.tables, m) + PendingSongs(a.pendingOrders, m) <= limit
    {
      assert ConfirmedSongs(a.tables, m) == ConfirmedSongs(s.tables, m);
    }
    var b := UpdateGroup(s, n, groupName, guestCount).state;
    forall m | m in b.tables || m in b.pendingOrders
      ensures ConfirmedSongs(b.tables, m) + PendingSongs(b.pendingOrders, m) <= limit
    {
      assert ConfirmedSongs(b.tables, m) == ConfirmedSongs(s.tables, m);
    }
  }

  // ---------------------------------------------------------------------------
  // The roster

  /** The table numbers of the roster. */
  function Numbers(list: seq<TableConfig>): set<int>
  {
    set k | 0 <= k < |list| :: list[k].number
  }

  /** The roster lists each table number once. */
  predicate DistinctNumbers(list: seq<TableConfig>)
  {
    forall i, j :: 0 <= i < j < |list| ==> list[i].number != list[j].number
  }

  /** `initializeTables`: one fresh table per roster entry; a later entry for the same number
      replaces an earlier one. */
  function InitialTables(list: seq<TableConfig>): (r: map<int, Table>)
    ensures r.Keys == Numbers(list)
    decreases |list|
  {
    if list == [] then map[]
    else
      var last := list[|list| - 1];
      var r := InitialTables(list[..|list| - 1])[last.number := FreshTable(last.maxOccupancy)];
      assert Numbers(list) == Numbers(list[..|list| - 1]) + {last.number} by {
        forall x | x in Numbers(list) ensures x in Numbers(list[..|list| - 1]) + {last.number} {
          var k :| 0 <= k < |list| && list[k].number == x;
          if k < |list| - 1 {
            assert list[..|list| - 1][k].number == x;
          }
        }
      }
      r
  }

  /** The first roster entry for a table number (`find`). */
  function ConfigOf(list: seq<TableConfig>, n: int): (c: TableConfig)
    requires n in Numbers(list)
    ensures c in list && c.number == n
    decreases |list|
  {
    if list[0].number == n then list[0]
    else
      assert n in Numbers(list[1..]) by {
        var k :| 0 <= k < |list| && list[k].number == n;
        assert list[1..][k - 1].number == n;
      }
      ConfigOf(list[1..], n)
  }

  /** With distinct numbers, every fresh table has the occupancy its roster entry gives. */
  lemma {:induction false} InitialTablesFresh(list: seq<TableConfig>, n: int)
    requires DistinctNumbers(list) && n in Numbers(list)
    ensures InitialTables(list)[n] == FreshTable(ConfigOf(list, n).maxOccupancy)
    decreases |list|
  {
    var init := list[..|list| - 1];
    var last := list[|list| - 1];
    if last.number != n {
      assert n in Numbers(init) by {
        var k :| 0 <= k < |list| && list[k].number == n;
        assert init[k].number == n;
      }
      InitialTablesFresh(init, n);
      ConfigOfPrefix(list, n);
    } else {
      ConfigOfLast(list);
    }
  }

  /** Dropping the last entry does not change the first entry for a number it does not hold. */
  lemma {:induction false} ConfigOfPrefix(list: seq<TableConfig>, n: int)
    requires |list| > 0 && list[|list| - 1].number != n && n in Numbers(list[..|list| - 1])
    ensures n in Numbers(list) && ConfigOf(list, n) == ConfigOf(list[..|list| - 1], n)
    decreases |list|
  {
    var init := list[..|list| - 1];
    var k :| 0 <= k < |init| && init[k].number == n;
    assert list[k].number == n;
    if list[0].number != n {
      assert list[1..][..|list[1..]| - 1] == init[1..];
      assert init[1..][k - 1].number == n;
      ConfigOfPrefix(list[1..], n);
    }
  }

  /** With distinct numbers the first entry for the last number is the last entry. */
  lemma {:induction false} ConfigOfLast(list: seq<TableConfig>)
    requires |list| > 0 && DistinctNumbers(list)
    ensures list[|list| - 1].number in Numbers(list) && ConfigOf(list, list[|list| - 1].number) == list[|list| - 1]
    decreases |list|
  {
    var n := list[|list| - 1].number;
    assert list[|list| - 1].number == n;
    if |list| > 1 {
      assert list[0].number != n;
      assert list[1..][|list| - 2] == list[|list| - 1];
      ConfigOfLast(list[1..]);
    }
  }

  /** The table a roster edit leaves for number `n`: a table that existed keeps its live
      state and takes the occupancy of its roster entry; a new number gets a fresh table. */
  function RosterTable(tables: map<int, Table>, list: seq<TableConfig>, n: int): Table
    requires n in Numbers(list)
  {
    if n in tables then tables[n].(maxOccupancy := Some(ConfigOf(list, n).maxOccupancy))
    else InitialTables(list)[n]
  }

  /** `updateTables`: the table collection is re-derived from the new roster. */
  function UpdateRoster(s: State, list: seq<TableConfig>): (r: State)
    ensures r.tables.Keys == Numbers(list) && r.tableList == list
    ensures forall n :: n in r.tables ==> r.tables[n] == RosterTable(s.tables, list, n)
    ensures r == s.(tableList := list, tables := r.tables)
  {
    s.(tableList := list, tables := map n | n in Numbers(list) :: RosterTable(s.tables, list, n))
  }

  /** A roster edit keeps the live state of every table that stays, apart from its occupancy
      limit, and drops the tables whose numbers left the roster. */
  lemma UpdateRosterPreserves(s: State, list: seq<TableConfig>, n: int)
    requires n in s.tables
    ensures n in Numbers(list) ==>
              UpdateRoster(s, list).tables[n] == s.tables[n].(maxOccupancy := UpdateRoster(s, list).tables[n].maxOccupancy)
    ensures n !in Numbers(list) ==> n !in UpdateRoster(s, list).tables
  {
  }

  /** Every count stays at or above zero. */
  ghost predicate CountsNonNegative(s: State)
  {
    forall n :: n in s.tables ==> s.tables[n].songCount >= 0
  }

  /** A roster edit keeps the quota: kept tables keep their counts, new ones start at zero. */
  lemma UpdateRosterKeepsQuota(s: State, list: seq<TableConfig>, limit: int)
    requires 0 <= limit && QuotaHolds(s, limit) && CountsNonNegative(s)
    ensures QuotaHolds(UpdateRoster(s, list), limit) && CountsNonNegative(UpdateRoster(s, list))
  {
    var r := UpdateRoster(s, list);
    forall m | m in r.tables
      ensures r.tables[m].songCount >= 0 && r.tables[m].songCount <= ConfirmedSongs(s.tables, m)
    {
      if m !in s.tables {
        assert InitialTables(list)[m] == FreshTable(InitialTables(list)[m].maxOccupancy.value) by {
          InitialTablesAreFresh(list, m);
        }
      }
    }
    forall m | m in r.tables || m in r.pendingOrders
      ensures ConfirmedSongs(r.tables, m) + PendingSongs(r.pendingOrders, m) <= limit
    {
      if m in s.tables {
        assert ConfirmedSongs(s.tables, m) >= 0;
      }
    }
  }

  /** Every table `initializeTables` builds is a fresh one. */
  lemma {:induction false} InitialTablesAreFresh(list: seq<TableConfig>, n: int)
    requires n in InitialTables(list)
    ensures exists m :: InitialTables(list)[n] == FreshTable(m)
    ensures InitialTables(list)[n].maxOccupancy.Some? &&
            InitialTables(list)[n] == FreshTable(InitialTables(list)[n].maxOccupancy.value)
    decreases |list|
  {
    var last := list[|list| - 1];
    if n != last.number {
      InitialTablesAreFresh(list[..|list| - 1], n);
    }
  }

  /** The largest table number, or 0 (`Math.max(...numbers, 0)`). */
  function MaxNumber(list: seq<TableConfig>): (m: int)
    ensures m >= 0
    ensures forall k :: 0 <= k < |list| ==> list[k].number <= m
    decreases |list|
  {
    if list == [] then 0 else Max(list[0].number, MaxNumber(list[1..]))
  }

  /** `addTable`: a new table, numbered one past the largest, seating four. */
  function AddTable(s: State): (r: State)
    ensures var n := MaxNumber(s.tableList) + 1;
            n !in Numbers(s.tableList) && r == UpdateRoster(s, s.tableList + [TableConfig(n, 4)])
  {
    UpdateRoster(s, s.tableList + [TableConfig(MaxNumber(s.tableList) + 1, 4)])
  }

  /** The roster without the entries for table `n`. */
  function WithoutNumber(list: seq<TableConfig>, n: int): (r: seq<TableConfig>)
    ensures Numbers(r) == Numbers(list) - {n}
    ensures forall k :: 0 <= k < |r| ==> r[k] in list
    decreases |list|
  {
    if list == [] then []
    else
      var rest := WithoutNumber(list[1..], n);
      NumbersCons(list[0], list[1..]);
      assert list == [list[0]] + list[1..];
      if list[0].number != n then
        NumbersCons(list[0], rest);
        [list[0]] + rest
      else rest
  }

  /** The numbers of a roster are its first number and the numbers of the rest. */
  lemma NumbersCons(c: TableConfig, rest: seq<TableConfig>)
    ensures Numbers([c] + rest) == {c.number} + Numbers(rest)
  {
    var list := [c] + rest;
    forall x | x in Numbers(list) ensures x in {c.number} + Numbers(rest) {
      var k :| 0 <= k < |list| && list[k].number == x;
      if k > 0 {
        assert rest[k - 1].number == x;
      }
    }
    forall x | x in Numbers(rest) ensures x in Numbers(list) {
      var k :| 0 <= k < |rest| && rest[k].number == x;
      assert list[k + 1].number == x;
    }
    assert list[0].number == c.number;
  }

  /** The numbers of a roster with one more entry. */
  lemma NumbersSnoc(list: seq<TableConfig>, c: TableConfig)
    ensures Numbers(list + [c]) == Numbers(list) + {c.number}
  {
    var grown := list + [c];
    forall x | x in Numbers(grown) ensures x in Numbers(list) + {c.number} {
      var k :| 0 <= k < |grown| && grown[k].number == x;
      if k < |list| {
        assert list[k].number == x;
      }
    }
    forall x | x in Numbers(list) ensures x in Numbers(grown) {
      var k :| 0 <= k < |list| && list[k].number == x;
      assert grown[k].number == x;
    }
    assert grown[|list|].number == c.number;
  }

  /** Removing one number from a roster with distinct numbers drops at most one entry. */
  lemma {:induction false} WithoutNumberLength(list: seq<TableConfig>, n: int)
    requires DistinctNumbers(list)
    ensures |WithoutNumber(list, n)| >= |list| - 1
    ensures DistinctNumbers(WithoutNumber(list, n))
    decreases |list|
  {
    if list != [] {
      WithoutNumberLength(list[1..], n);
      if list[0].number == n {
        WithoutNumberUntouched(list[1..], n);
      }
      var r := WithoutNumber(list, n);
      if list[0].number != n {
        forall i, j | 0 <= i < j < |r| ensures r[i].number != r[j].number {
          if i == 0 {
            assert r[j] in list[1..];
          }
        }
      }
    }
  }

  /** A number that is not in the roster removes nothing. */
  lemma {:induction false} WithoutNumberUntouched(list: seq<TableConfig>, n: int)
    requires forall k :: 0 <= k < |list| ==> list[k].number != n
    ensures WithoutNumber(list, n) == list
    decreases |list|
  {
    if list != [] {
      WithoutNumberUntouched(list[1..], n);
    }
  }

  /** `removeTable`: refused while the roster has a single entry. */
  function RemoveTable(s: State, n: int): (r: Step)
    ensures |s.tableList| <= 1 ==> r == Step(LastTable, s)
    ensures |s.tableList| > 1 ==>
              r == Step(Done, UpdateRoster(s, WithoutNumber(s.tableList, n))) &&
              n !in r.state.tables
  {
    if |s.tableList| <= 1 then Step(LastTable, s)
    else Step(Done, UpdateRoster(s, WithoutNumber(s.tableList, n)))
  }

  /** The roster with a new occupancy for table `n`. */
  function Resized(list: seq<TableConfig>, n: int, maxOccupancy: int): (r: seq<TableConfig>)
    ensures |r| == |list| && Numbers(r) == Numbers(list)
    ensures forall k :: 0 <= k < |list| ==>
              r[k] == if list[k].number == n then list[k].(maxOccupancy := maxOccupancy) else list[k]
  {
    var r := seq(|list|, k requires 0 <= k < |list| =>
      if list[k].number == n then list[k].(maxOccupancy := maxOccupancy) else list[k]);
    assert forall k :: 0 <= k < |list| ==> r[k].number == list[k].number;
    r
  }

  /** `updateTableOccupancy` */
  function ResizeTable(s: State, n: int, maxOccupancy: int): (r: State)
    ensures r == UpdateRoster(s, Resized(s.tableList, n, maxOccupancy))
  {
    UpdateRoster(s, Resized(s.tableList, n, maxOccupancy))
  }

  /** The roster and the table collection agree, the roster has distinct numbers and at least
      one entry, and song counts are not negative. */
  ghost predicate Sound(s: State)
  {
    s.tables.Keys == Numbers(s.tableList) && DistinctNumbers(s.tableList) && |s.tableList| >= 1 &&
    CountsNonNegative(s)
  }

  /** A new table gets a number no table has, so the state stays sound. */
  lemma AddTableKeepsSound(s: State)
    requires Sound(s)
    ensures Sound(AddTable(s))
  {
    var newNumber := MaxNumber(s.tableList) + 1;
    var grown := s.tableList + [TableConfig(newNumber, 4)];
    NumbersSnoc(s.tableList, TableConfig(newNumber, 4));
    CountsAfterRoster(s, grown);
  }

  /** Removing a table keeps the state sound; in particular one table always remains. */
  lemma RemoveTableKeepsSound(s: State, n: int)
    requires Sound(s)
    ensures Sound(RemoveTable(s, n).state)
    ensures |RemoveTable(s, n).state.tableList| >= 1
  {
    if |s.tableList| > 1 {
      WithoutNumberLength(s.tableList, n);
      CountsAfterRoster(s, WithoutNumber(s.tableList, n));
    }
  }

  /** Changing a table's occupancy keeps the state sound. */
  lemma ResizeTableKeepsSound(s: State, n: int, maxOccupancy: int)
    requires Sound(s)
    ensures Sound(ResizeTable(s, n, maxOccupancy))
  {
    var resized := Resized(s.tableList, n, maxOccupancy);
    CountsAfterRoster(s, resized);
  }

  /** The new table starts fresh, seating four, and every existing table keeps its live
      state under the occupancy its roster entry gives. */
  lemma AddTableAddsFresh(s: State)
    requires Sound(s)
    ensures var n := MaxNumber(s.tableList) + 1;
            var r := AddTable(s);
            n !in s.tables && n in r.tables && r.tables[n] == FreshTable(4) &&
            forall m :: m in s.tables ==>
              m in r.tables && r.tables[m] == s.tables[m].(maxOccupancy := Some(ConfigOf(s.tableList, m).maxOccupancy))
  {
    var n := MaxNumber(s.tableList) + 1;
    var grown := s.tableList + [TableConfig(n, 4)];
    NumbersSnoc(s.tableList, TableConfig(n, 4));
    assert grown[..|grown| - 1] == s.tableList;
    forall m | m in s.tables
      ensures m in Numbers(grown) && ConfigOf(grown, m) == ConfigOf(s.tableList, m)
    {
      ConfigOfPrefix(grown, m);
    }
  }

  /** Resizing a table gives it the new occupancy limit and leaves the rest of its live
      state alone. */
  lemma ResizeTableSetsOccupancy(s: State, n: int, maxOccupancy: int)
    requires n in s.tables && n in Numbers(s.tableList)
    ensures n in ResizeTable(s, n, maxOccupancy).tables
    ensures ResizeTable(s, n, maxOccupancy).tables[n] == s.tables[n].(maxOccupancy := Some(maxOccupancy))
  {
    var resized := Resized(s.tableList, n, maxOccupancy);
    var c := ConfigOf(resized, n);
    var k :| 0 <= k < |resized| && resized[k] == c;
    assert c.maxOccupancy == maxOccupancy;
  }

  /** Song counts stay non-negative through a roster edit. */
  lemma CountsAfterRoster(s: State, list: seq<TableConfig>)
    requires CountsNonNegative(s)
    ensures CountsNonNegative(UpdateRoster(s, list))
  {
    var r := UpdateRoster(s, list);
    forall m | m in r.tables ensures r.tables[m].songCount >= 0 {
      if m !in s.tables {
        InitialTablesAreFresh(list, m);
      }
    }
  }

  // ---------------------------------------------------------------------------
  // The local song cache

  predicate CachedLocally(cache: seq<Song>, videoId: string)
  {
    exists k :: 0 <= k < |cache| && cache[k].videoId == videoId
  }

  /** `addSongToCache`: a known id leaves the cache as it is (no usage is counted); a new
      song goes in front and the cache is cut back to a hundred entries. */
  function AddSongToCache(cache: seq<Song>, song: Song): (r: seq<Song>)
    ensures CachedLocally(cache, song.videoId) ==> r == cache
    ensures !CachedLocally(cache, song.videoId) ==>
              |r| == Min(|cache| + 1, LocalCacheCapacity) && r[0] == song && r[1..] == Take(cache, LocalCacheCapacity - 1)
    ensures |cache| <= LocalCacheCapacity ==> |r| <= LocalCacheCapacity
  {
    if CachedLocally(cache, song.videoId) then cache
    else Take([song] + cache, LocalCacheCapacity)
  }

  /** The case-insensitive match of the query against a song's title or channel. */
  predicate SongMatches(song: Song, q: string)
  {
    Includes(Lower(song.title), Lower(q)) || Includes(Lower(song.channel), Lower(q))
  }

  /** The cached songs matching the query, in cache order. */
  function MatchingLocal(cache: seq<Song>, q: string): (r: seq<Song>)
    ensures |r| <= |cache|
    ensures forall e :: e in r <==> e in cache && SongMatches(e, q)
    decreases |cache|
  {
    if cache == [] then []
    else
      var rest := MatchingLocal(cache[1..], q);
      assert cache == [cache[0]] + cache[1..];
      if SongMatches(cache[0], q) then [cache[0]] + rest else rest
  }

  /** Matching keeps the relative order of the cache: it distributes over concatenation. */
  lemma {:induction false} MatchingLocalAppend(a: seq<Song>, b: seq<Song>, q: string)
    ensures MatchingLocal(a + b, q) == MatchingLocal(a, q) + MatchingLocal(b, q)
    decreases |a|
  {
    if a == [] {
      assert a + b == b;
    } else {
      assert (a + b)[1..] == a[1..] + b;
      MatchingLocalAppend(a[1..], b, q);
    }
  }

  /** `searchCachedSongs`: the first ten matches, in cache order. */
  function SearchCachedSongs(cache: seq<Song>, q: string): (r: seq<Song>)
    ensures |r| == Min(|MatchingLocal(cache, q)|, MaxLocalResults)
    ensures r <= MatchingLocal(cache, q)
    ensures forall e :: e in r ==> e in cache && SongMatches(e, q)
  {
    Take(MatchingLocal(cache, q), MaxLocalResults)
  }

  /** `getFilteredCachedSongs`: everything for an empty query, otherwise all matches. */
  function FilteredCachedSongs(cache: seq<Song>, q: string): seq<Song>
  {
    if q == "" then cache else MatchingLocal(cache, q)
  }

  /** The empty-query shortcut changes nothing: every song matches the empty query, so the
      cache viewer's filter is the match filter for every query. */
  lemma {:induction false} FilteredIsMatching(cache: seq<Song>, q: string)
    ensures FilteredCachedSongs(cache, q) == MatchingLocal(cache, q)
    decreases |cache|
  {
    if q == "" && cache != [] {
      assert Lower(cache[0].title) == Lower(cache[0].title) + Lower(q);
      IncludesPrefix(Lower(cache[0].title), "");
      assert Includes(Lower(cache[0].title), Lower(q));
      FilteredIsMatching(cache[1..], q);
      assert cache == [cache[0]] + cache[1..];
    }
  }

  /** After a single recheck every cached entry for the video carries the new verdict. */
  function WithRecheckedSong(cache: seq<Song>, videoId: string, availability: Availability): (r: seq<Song>)
    ensures |r| == |cache|
    ensures forall k :: 0 <= k < |cache| ==>
              r[k] == if cache[k].videoId == videoId then cache[k].(availability := Some(availability)) else cache[k]
  {
    seq(|cache|, k requires 0 <= k < |cache| =>
      if cache[k].videoId == videoId then cache[k].(availability := Some(availability)) else cache[k])
  }

  /** After a batch recheck each cached entry named in the results carries its new verdict;
      the others keep theirs. */
  function WithBatchResults(cache: seq<Song>, results: map<string, Availability>): (r: seq<Song>)
    ensures |r| == |cache|
    ensures forall k :: 0 <= k < |cache| ==>
              r[k] == if cache[k].videoId in results then cache[k].(availability := Some(results[cache[k].videoId])) else cache[k]
  {
    seq(|cache|, k requires 0 <= k < |cache| =>
      if cache[k].videoId in results then cache[k].(availability := Some(results[cache[k].videoId])) else cache[k])
  }

  predicate LocallyBlocked(song: Song)
  {
    song.availability.Some? && !song.availability.value.playable
  }

  /** The local cache without the songs recorded as unplayable. */
  function WithoutBlockedSongs(cache: seq<Song>): (r: seq<Song>)
    ensures |r| <= |cache|
    ensures forall e :: e in r <==> e in cache && !LocallyBlocked(e)
    decreases |cache|
  {
    if cache == [] then []
    else
      var rest := WithoutBlockedSongs(cache[1..]);
      assert cache == [cache[0]] + cache[1..];
      if !LocallyBlocked(cache[0]) then [cache[0]] + rest else rest
  }

  /** Dropping blocked songs keeps the others in cache order: it distributes over concatenation. */
  lemma {:induction false} WithoutBlockedSongsAppend(a: seq<Song>, b: seq<Song>)
    ensures WithoutBlockedSongs(a + b) == WithoutBlockedSongs(a) + WithoutBlockedSongs(b)
    decreases |a|
  {
    if a == [] {
      assert a + b == b;
    } else {
      assert (a + b)[1..] == a[1..] + b;
      WithoutBlockedSongsAppend(a[1..], b);
    }
  }

  /** A cached song is due for a recheck when it has no verdict or its verdict is more than
      a day old. */
  predicate Stale(song: Song, now: int)
  {
    song.availability.None? || now - song.availability.value.checkedAt > RecheckIntervalMs
  }

  /** The stale songs, in cache order. */
  function StaleSongs(cache: seq<Song>, now: int): (r: seq<Song>)
    ensures |r| <= |cache|
    ensures forall e :: e in r <==> e in cache && Stale(e, now)
    decreases |cache|
  {
    if cache == [] then []
    else
      var rest := StaleSongs(cache[1..], now);
      assert cache == [cache[0]] + cache[1..];
      if Stale(cache[0], now) then [cache[0]] + rest else rest
  }

  /** The stale songs keep their cache order: the filter distributes over concatenation. */
  lemma {:induction false} StaleSongsAppend(a: seq<Song>, b: seq<Song>, now: int)
    ensures StaleSongs(a + b, now) == StaleSongs(a, now) + StaleSongs(b, now)
    decreases |a|
  {
    if a == [] {
      assert a + b == b;
    } else {
      assert (a + b)[1..] == a[1..] + b;
      StaleSongsAppend(a[1..], b, now);
    }
  }

  /** The ids submitted for the automatic recheck. */
  function StaleIds(cache: seq<Song>, now: int): (ids: seq<string>)
    ensures |ids| == |StaleSongs(cache, now)|
    ensures forall k :: 0 <= k < |ids| ==> ids[k] == StaleSongs(cache, now)[k].videoId
  {
    var stale := StaleSongs(cache, now);
    seq(|stale|, k requires 0 <= k < |stale| => stale[k].videoId)
  }

  /** A freshly checked song is not stale until a day has passed. */
  lemma FreshVerdictNotStale(song: Song, a: Availability, now: int)
    requires a.checkedAt <= now <= a.checkedAt + RecheckIntervalMs
    ensures !Stale(song.(availability := Some(a)), now)
  {
  }
}
