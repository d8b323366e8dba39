/** The server's in-memory state and the bodies of its routes: the play queue,
    the table records, and the song cache with its search cascade and its
    maintenance routes. Broadcasting, HTTP status codes and routing are not
    modelled; each route body becomes a method on `ServerState` or a function
    that computes its reply. */
module Server {
  import opened Common
  import opened YoutubeApi

  /** The cache keeps the 200 most recently admitted songs. */
  const CacheCapacity := 200

  /** Cache searches return at most ten songs. */
  const MaxCachedResults := 10

  /** The `song` of a queue request. */
  datatype Song = Song(videoId: string, title: string, thumbnail: string, channel: string)

  /** An entry of the server's play queue; its `status` is always "queued". */
  datatype QueueItem = QueueItem(id: string, song: Song, tableNumber: int, addedAt: int)

  /** A cached song (its `id` repeats `videoId`). */
  datatype CachedSong = CachedSong(
    videoId: string,
    title: string,
    thumbnail: string,
    channel: string,
    addedAt: int,
    usageCount: nat,
    lastUsed: Option<int>,
    availability: Option<Availability>)

  /** A JSON value, as found in the table records the server stores without looking inside. */
  datatype Json =
    | JNull
    | JBool(b: bool)
    | JNum(n: int)
    | JStr(s: string)
    | JArr(items: seq<Json>)
    | JObj(fields: map<string, Json>)

  // ---------------------------------------------------------------------------
  // Looking songs up

  /** `findIndex` on the video id: the first position holding `videoId`, or -1. */
  function IndexOfVideo(cache: seq<CachedSong>, videoId: string): (i: int)
    ensures -1 <= i < |cache|
    ensures i == -1 <==> forall k :: 0 <= k < |cache| ==> cache[k].videoId != videoId
    ensures i != -1 ==> cache[i].videoId == videoId && forall k :: 0 <= k < i ==> cache[k].videoId != videoId
    decreases |cache|
  {
    if cache == [] then -1
    else if cache[0].videoId == videoId then 0
    else
      var j := IndexOfVideo(cache[1..], videoId);
      if j == -1 then -1 else j + 1
  }

  /** `some` on the video id. */
  predicate InCache(cache: seq<CachedSong>, videoId: string)
  {
    exists k :: 0 <= k < |cache| && cache[k].videoId == videoId
  }

  /** The video ids present in the cache. */
  function CachedIds(cache: seq<CachedSong>): set<string>
  {
    set k | 0 <= k < |cache| :: cache[k].videoId
  }

  /** No video id is cached twice. */
  predicate DistinctVideos(cache: seq<CachedSong>)
  {
    forall i, j :: 0 <= i < j < |cache| ==> cache[i].videoId != cache[j].videoId
  }

  // ---------------------------------------------------------------------------
  // Admission on enqueue

  /** What is stored for a newly admitted song: the checker's verdict, or, when the check
      threw, a playable stand-in marked as an error. */
  function AdmittedAvailability(check: Option<Availability>, now: int): (a: Availability)
    ensures check.Some? ==> a == check.value
    ensures check.None? ==> a.playable && a.via == Error && a.checkedAt == now
  {
    match check
    case Some(verdict) => verdict
    case None => Availability(true, Error, now, None, None, false)
  }

  function NewEntry(song: Song, availability: Availability, now: int): CachedSong
  {
    CachedSong(song.videoId, song.title, song.thumbnail, song.channel, now, 1, None, Some(availability))
  }

  /** The cache after a song is queued: a new id is put in front with a usage count of one and
      the cache is cut back to its capacity; a known id has its usage counted and its last use
      stamped, in place. */
  function Upsert(cache: seq<CachedSong>, song: Song, check: Option<Availability>, now: int): (r: seq<CachedSong>)
    ensures !InCache(cache, song.videoId) ==>
              |r| == Min(|cache| + 1, CacheCapacity) &&
              r[0] == NewEntry(song, AdmittedAvailability(check, now), now) &&
              r[1..] == Take(cache, CacheCapacity - 1)
    ensures InCache(cache, song.videoId) ==>
              var i := IndexOfVideo(cache, song.videoId);
              |r| == |cache| &&
              r[i] == cache[i].(usageCount := cache[i].usageCount + 1, lastUsed := Some(now)) &&
              forall k :: 0 <= k < |cache| && k != i ==> r[k] == cache[k]
  {
    if !InCache(cache, song.videoId) then
      Take([NewEntry(song, AdmittedAvailability(check, now), now)] + cache, CacheCapacity)
    else
      var i := IndexOfVideo(cache, song.videoId);
      cache[i := cache[i].(usageCount := cache[i].usageCount + 1, lastUsed := Some(now))]
  }

  /** Admission keeps the cache within capacity and free of duplicate ids, and the queued
      song is always cached afterwards, at the front when it was new. */
  lemma UpsertKeepsCacheSound(cache: seq<CachedSong>, song: Song, check: Option<Availability>, now: int)
    requires |cache| <= CacheCapacity && DistinctVideos(cache)
    ensures var r := Upsert(cache, song, check, now);
            |r| <= CacheCapacity && DistinctVideos(r) && InCache(r, song.videoId) &&
            (!InCache(cache, song.videoId) ==> r[0].videoId == song.videoId)
  {
    var r := Upsert(cache, song, check, now);
    if !InCache(cache, song.videoId) {
      forall i, j | 0 <= i < j < |r| ensures r[i].videoId != r[j].videoId {
        assert r[j] == cache[j - 1];
        if i > 0 {
          assert r[i] == cache[i - 1];
        }
      }
    }
    assert r[IndexOfVideo(r, song.videoId)].videoId == song.videoId;
  }

  // ---------------------------------------------------------------------------
  // Searching

  /** `availability?.playable === false` */
  predicate Blocked(availability: Option<Availability>)
  {
    availability.Some? && !availability.value.playable
  }

  /** The case-insensitive match of the query against a song's title or channel. */
  predicate MatchesQuery(song: CachedSong, q: string)
  {
    Includes(Lower(song.title), Lower(q)) || Includes(Lower(song.channel), Lower(q))
  }

  /** The cached songs matching the query, in cache order. */
  function MatchingSongs(cache: seq<CachedSong>, q: string): (r: seq<CachedSong>)
    ensures |r| <= |cache|
    ensures forall e :: e in r <==> e in cache && MatchesQuery(e, q)
    decreases |cache|
  {
    if cache == [] then []
    else
      var rest := MatchingSongs(cache[1..], q);
      assert cache == [cache[0]] + cache[1..];
      if MatchesQuery(cache[0], q) then [cache[0]] + rest else rest
  }

  /** Matching keeps the relative order of the cache: it distributes over concatenation. */
  lemma {:induction false} MatchingSongsAppend(a: seq<CachedSong>, b: seq<CachedSong>, q: string)
    ensures MatchingSongs(a + b, q) == MatchingSongs(a, q) + MatchingSongs(b, q)
    decreases |a|
  {
    if a != [] {
      assert (a + b)[1..] == a[1..] + b;
      MatchingSongsAppend(a[1..], b, q);
    } else {
      assert a + b == b;
    }
  }

  /** A cached song as a search result, flagged when its stored verdict says it cannot play. */
  datatype CachedCandidate = CachedCandidate(song: CachedSong, isBlocked: bool)

  /** An upstream result annotated with the verdict stored for it, if any. */
  datatype Candidate = Candidate(video: Video, availability: Option<Availability>, isBlocked: bool)

  function AnnotateCached(song: CachedSong): (c: CachedCandidate)
    ensures c.song == song && (c.isBlocked <==> Blocked(song.availability))
  {
    CachedCandidate(song, Blocked(song.availability))
  }

  /** The cache search used by the fallback and by the cached-search route: the first ten
      matches, in cache order, each flagged from its stored verdict. */
  function CachedSearch(cache: seq<CachedSong>, q: string): (r: seq<CachedCandidate>)
    ensures |r| == Min(|MatchingSongs(cache, q)|, MaxCachedResults)
    ensures |r| <= MaxCachedResults
    ensures forall i :: 0 <= i < |r| ==>
              r[i].song == MatchingSongs(cache, q)[i] &&
              r[i].song in cache && MatchesQuery(r[i].song, q) &&
              (r[i].isBlocked <==> Blocked(r[i].song.availability))
  {
    var top := Take(MatchingSongs(cache, q), MaxCachedResults);
    seq(|top|, i requires 0 <= i < |top| => AnnotateCached(top[i]))
  }

  /** The verdict stored for a video: that of the first cached entry with its id, if any. */
  function StoredAvailability(cache: seq<CachedSong>, videoId: string): (a: Option<Availability>)
    ensures !InCache(cache, videoId) ==> a.None?
    ensures InCache(cache, videoId) ==> a == cache[IndexOfVideo(cache, videoId)].availability
  {
    var i := IndexOfVideo(cache, videoId);
    if i == -1 then None else cache[i].availability
  }

  /** Upstream results annotated from the cache, one for one and in order. */
  function AnnotateLive(videos: seq<Video>, cache: seq<CachedSong>): (r: seq<Candidate>)
    ensures |r| == |videos|
    ensures forall i :: 0 <= i < |r| ==>
              r[i].video == videos[i] &&
              r[i].availability == StoredAvailability(cache, videos[i].videoId) &&
              (r[i].isBlocked <==> Blocked(r[i].availability))
  {
    seq(|videos|, i requires 0 <= i < |videos| =>
      var a := StoredAvailability(cache, videos[i].videoId);
      Candidate(videos[i], a, Blocked(a)))
  }

  /** The human-readable reason shown when the upstream search failed, chosen from the
      message of the error it threw. */
  function FailureReason(message: string): (reason: string)
    ensures message == KeyMissing ==> reason == "YouTube API key not configured"
    ensures message == QuotaExceeded ==> reason == "YouTube API quota exceeded. Try again later."
    ensures message == InvalidKey ==> reason == "YouTube API key is invalid"
    ensures message !in {KeyMissing, QuotaExceeded, InvalidKey} ==>
              reason == "YouTube search temporarily unavailable"
  {
    if message == KeyMissing then "YouTube API key not configured"
    else if message == QuotaExceeded then "YouTube API quota exceeded. Try again later."
    else if message == InvalidKey then "YouTube API key is invalid"
    else "YouTube search temporarily unavailable"
  }

  const DemoVideoId := "dQw4w9WgXcQ"

  /** The placeholder offered when neither upstream nor the cache has anything. */
  function DemoResult(q: string, now: int): (v: Video)
    ensures v.videoId == DemoVideoId && v.channel == "Karaoke Demo"
    ensures Includes(v.title, q)
  {
    IncludesPrefix(q, " - Karaoke Version (Demo)");
    Video("demo1-" + IntToString(now), DemoVideoId, q + " - Karaoke Version (Demo)",
          "https://img.youtube.com/vi/" + DemoVideoId + "/mqdefault.jpg", "Karaoke Demo", "")
  }

  /** The replies of the search route. */
  datatype SearchReply =
    | QueryRequired
    | Live(candidates: seq<Candidate>)
    | CachedFallback(results: seq<CachedCandidate>, message: string)
    | DemoFallback(result: Video, message: string)

  /** GET /api/search: the live search annotated from the cache; if it throws, the cache
      search; if that finds nothing, one demo result. Both fallbacks carry the reason. */
  function SearchRoute(q: string, apiKey: string, call: SearchCall, cache: seq<CachedSong>, now: int): (r: SearchReply)
    ensures r.QueryRequired? <==> q == ""
    ensures q != "" && SearchKaraokeVideos(apiKey, call).Success? ==>
              r == Live(AnnotateLive(SearchKaraokeVideos(apiKey, call).value, cache))
    ensures q != "" && SearchKaraokeVideos(apiKey, call).Failure? ==>
              var reason := FailureReason(SearchKaraokeVideos(apiKey, call).error);
              if MatchingSongs(cache, q) != [] then
                r == CachedFallback(CachedSearch(cache, q), reason + ". Showing cached results.")
              else
                r.DemoFallback? && Includes(r.result.title, q) &&
                r.message == reason + ". Showing demo results. Configure YouTube API for real search."
  {
    if q == "" then QueryRequired
    else match SearchKaraokeVideos(apiKey, call)
      case Success(videos) => Live(AnnotateLive(videos, cache))
      case Failure(message) =>
        var reason := FailureReason(message);
        var filtered := CachedSearch(cache, q);
        if |filtered| > 0 then CachedFallback(filtered, reason + ". Showing cached results.")
        else DemoFallback(DemoResult(q, now),
                          reason + ". Showing demo results. Configure YouTube API for real search.")
  }

  /** GET /api/search-cached: nothing for an empty query, otherwise the cache search. */
  function SearchCachedRoute(q: string, cache: seq<CachedSong>): (r: seq<CachedCandidate>)
    ensures q == "" ==> r == []
    ensures q != "" ==> r == CachedSearch(cache, q)
  {
    if q == "" then [] else CachedSearch(cache, q)
  }

  // ---------------------------------------------------------------------------
  // Cache maintenance

  /** The cache without the entries for one video id. */
  function WithoutVideo(cache: seq<CachedSong>, videoId: string): (r: seq<CachedSong>)
    ensures |r| <= |cache|
    ensures forall e :: e in r <==> e in cache && e.videoId != videoId
    decreases |cache|
  {
    if cache == [] then []
    else
      var rest := WithoutVideo(cache[1..], videoId);
      assert cache == [cache[0]] + cache[1..];
      if cache[0].videoId != videoId then [cache[0]] + rest else rest
  }

  /** The deletion keeps the other entries in cache order: it distributes over concatenation. */
  lemma {:induction false} WithoutVideoAppend(a: seq<CachedSong>, b: seq<CachedSong>, videoId: string)
    ensures WithoutVideo(a + b, videoId) == WithoutVideo(a, videoId) + WithoutVideo(b, videoId)
    decreases |a|
  {
    if a == [] {
      assert a + b == b;
    } else {
      assert (a + b)[1..] == a[1..] + b;
      WithoutVideoAppend(a[1..], b, videoId);
    }
  }

  /** Deleting a video id shrinks the cache exactly when the id was cached. */
  lemma {:induction false} WithoutVideoShrinks(cache: seq<CachedSong>, videoId: string)
    ensures |WithoutVideo(cache, videoId)| < |cache| <==> InCache(cache, videoId)
    decreases |cache|
  {
    if cache != [] {
      WithoutVideoShrinks(cache[1..], videoId);
      if InCache(cache[1..], videoId) {
        var k :| 0 <= k < |cache[1..]| && cache[1..][k].videoId == videoId;
        assert cache[k + 1].videoId == videoId;
      }
      if InCache(cache, videoId) && cache[0].videoId != videoId {
        var k :| 0 <= k < |cache| && cache[k].videoId == videoId;
        assert cache[1..][k - 1].videoId == videoId;
      }
    }
  }

  /** The cache without the songs whose stored verdict says they cannot play. */
  function Unblocked(cache: seq<CachedSong>): (r: seq<CachedSong>)
    ensures |r| <= |cache|
    ensures forall e :: e in r <==> e in cache && !Blocked(e.availability)
    decreases |cache|
  {
    if cache == [] then []
    else
      var rest := Unblocked(cache[1..]);
      assert cache == [cache[0]] + cache[1..];
      if !Blocked(cache[0].availability) then [cache[0]] + rest else rest
  }

  /** Clearing blocked songs keeps the others in cache order: it distributes over concatenation. */
  lemma {:induction false} UnblockedAppend(a: seq<CachedSong>, b: seq<CachedSong>)
    ensures Unblocked(a + b) == Unblocked(a) + Unblocked(b)
    decreases |a|
  {
    if a == [] {
      assert a + b == b;
    } else {
      assert (a + b)[1..] == a[1..] + b;
      UnblockedAppend(a[1..], b);
    }
  }

  /** The number of cached songs whose stored verdict says they cannot play. */
  function BlockedCount(cache: seq<CachedSong>): nat
    decreases |cache|
  {
    if cache == [] then 0
    else (if Blocked(cache[0].availability) then 1 else 0) + BlockedCount(cache[1..])
  }

  /** Clearing blocked songs removes exactly as many entries as there were blocked songs. */
  lemma {:induction false} UnblockedRemovesBlocked(cache: seq<CachedSong>)
    ensures |cache| - |Unblocked(cache)| == BlockedCount(cache)
    decreases |cache|
  {
    if cache != [] {
      UnblockedRemovesBlocked(cache[1..]);
    }
  }

  /** The cache with the verdicts of a batch recheck written onto the entries they name. */
  function ApplyResults(cache: seq<CachedSong>, results: map<string, Availability>): (r: seq<CachedSong>)
    ensures |r| == |cache|
    ensures forall k :: 0 <= k < |cache| ==>
              r[k] == if cache[k].videoId in results
                      then cache[k].(availability := Some(results[cache[k].videoId])) else cache[k]
  {
    seq(|cache|, k requires 0 <= k < |cache| =>
      if cache[k].videoId in results then cache[k].(availability := Some(results[cache[k].videoId])) else cache[k])
  }

  /** `results` limited to the ids in `keys`. */
  function Restrict(results: map<string, Availability>, keys: set<string>): map<string, Availability>
  {
    map k | k in results && k in keys :: results[k]
  }

  /** The server's play queue without the item with the given id. */
  function WithoutItem(queue: seq<QueueItem>, id: string): (r: seq<QueueItem>)
    ensures |r| <= |queue|
    ensures forall item :: item in r <==> item in queue && item.id != id
    decreases |queue|
  {
    if queue == [] then []
    else
      var rest := WithoutItem(queue[1..], id);
      assert queue == [queue[0]] + queue[1..];
      if queue[0].id != id then [queue[0]] + rest else rest
  }

  /** Removing an item keeps the rest of the queue in order: it distributes over concatenation. */
  lemma {:induction false} WithoutItemAppend(a: seq<QueueItem>, b: seq<QueueItem>, id: string)
    ensures WithoutItem(a + b, id) == WithoutItem(a, id) + WithoutItem(b, id)
    decreases |a|
  {
    if a == [] {
      assert a + b == b;
    } else {
      assert (a + b)[1..] == a[1..] + b;
      WithoutItemAppend(a[1..], b, id);
    }
  }

  /** A table record after an update: the fields of the body replace or extend the stored ones. */
  function MergeRecord(stored: map<string, Json>, body: map<string, Json>): (r: map<string, Json>)
    ensures r.Keys == stored.Keys + body.Keys
    ensures forall f :: f in body ==> r[f] == body[f]
    ensures forall f :: f in stored && f !in body ==> r[f] == stored[f]
  {
    stored + body
  }

  // ---------------------------------------------------------------------------
  // Route bodies resumed after an await
  //
  // POST /api/queue and the single recheck look at the cache, await the availability
  // checker, and then write into the cache as it is at that later moment, without looking
  // again. Other requests may run during the await. The class methods below run each route
  // uninterrupted; these functions give the part that runs after the await.

  /** The rest of POST /api/queue for a song that was not cached when the request looked:
      the entry is put in front of the cache as it is now and the cache is cut back. */
  function AdmitAfterAwait(cacheNow: seq<CachedSong>, song: Song, check: Option<Availability>, now: int)
    : (r: seq<CachedSong>)
    ensures !InCache(cacheNow, song.videoId) ==> r == Upsert(cacheNow, song, check, now)
    ensures InCache(cacheNow, song.videoId) && IndexOfVideo(cacheNow, song.videoId) < CacheCapacity - 1 ==>
              !DistinctVideos(r)
  {
    var r := Take([NewEntry(song, AdmittedAvailability(check, now), now)] + cacheNow, CacheCapacity);
    var i := IndexOfVideo(cacheNow, song.videoId);
    if i != -1 && i < CacheCapacity - 1 then
      assert r[i + 1] == cacheNow[i];
      assert r[0].videoId == r[i + 1].videoId;
      r
    else r
  }

  /** Two requests queueing the same uncached song, both awaiting the checker before either
      writes, leave that video cached twice. */
  lemma ConcurrentEnqueueDuplicates(cache: seq<CachedSong>, song: Song,
                                    check1: Option<Availability>, check2: Option<Availability>,
                                    now1: int, now2: int)
    requires !InCache(cache, song.videoId)
    ensures !DistinctVideos(AdmitAfterAwait(AdmitAfterAwait(cache, song, check1, now1), song, check2, now2))
  {
    var first := AdmitAfterAwait(cache, song, check1, now1);
    assert first[0].videoId == song.videoId;
    assert IndexOfVideo(first, song.videoId) == 0;
  }

  /** The write of the single recheck, at the position found before the await, into the
      cache as it is now. Past the end the assignment throws (None); the route then
      answers that the recheck failed. */
  function RecheckWriteAt(cacheNow: seq<CachedSong>, songIndex: nat, availability: Availability)
    : (r: Option<seq<CachedSong>>)
    ensures r.Some? <==> songIndex < |cacheNow|
    ensures r.Some? ==> |r.value| == |cacheNow| && r.value[songIndex].availability == Some(availability)
  {
    if songIndex < |cacheNow| then
      Some(cacheNow[songIndex := cacheNow[songIndex].(availability := Some(availability))])
    else None
  }

  /** With nothing in between, the write lands on the rechecked song only: the single
      recheck as the class method states it. */
  lemma RecheckWriteUninterrupted(cache: seq<CachedSong>, videoId: string, availability: Availability)
    requires DistinctVideos(cache) && InCache(cache, videoId)
    ensures RecheckWriteAt(cache, IndexOfVideo(cache, videoId), availability)
            == Some(ApplyResults(cache, map[videoId := availability]))
  {
    var i := IndexOfVideo(cache, videoId);
    var w := RecheckWriteAt(cache, i, availability).value;
    var expected := ApplyResults(cache, map[videoId := availability]);
    forall k | 0 <= k < |cache| ensures w[k] == expected[k] {
      if k != i {
        assert cache[i].videoId == videoId;
        if k < i {
          assert cache[k].videoId != cache[i].videoId;
        } else {
          assert cache[i].videoId != cache[k].videoId;
        }
      }
    }
    assert w == expected;
  }

  /** A new song queued during the await shifts the cache by one: the verdict lands on the
      entry in front of the rechecked song, which keeps its old verdict. */
  lemma RecheckAfterEnqueueHitsNeighbour(cache: seq<CachedSong>, videoId: string, availability: Availability,
                                         song: Song, check: Option<Availability>, now: int)
    requires |cache| < CacheCapacity && DistinctVideos(cache)
    requires InCache(cache, videoId) && !InCache(cache, song.videoId)
    ensures var i := IndexOfVideo(cache, videoId);
            var w := RecheckWriteAt(Upsert(cache, song, check, now), i, availability);
            w.Some? && w.value[i].videoId != videoId && w.value[i + 1] == cache[i]
  {
    var i := IndexOfVideo(cache, videoId);
    var after := Upsert(cache, song, check, now);
    assert after[i + 1] == cache[i];
    if i > 0 {
      assert after[i] == cache[i - 1];
    }
  }

  /** Deleting the last cached song during the await leaves its old position past the end,
      so the write throws and the recheck fails. */
  lemma RecheckAfterDeleteThrows(cache: seq<CachedSong>, videoId: string, availability: Availability)
    requires InCache(cache, videoId) && IndexOfVideo(cache, videoId) == |cache| - 1
    ensures RecheckWriteAt(WithoutVideo(cache, videoId), IndexOfVideo(cache, videoId), availability).None?
  {
    WithoutVideoShrinks(cache, videoId);
  }

  datatype RecheckReply = SongNotFound | Rechecked(availability: Availability) | RecheckFailed

  datatype BatchReply = IdsRequired | BatchRechecked(updatedCount: nat, results: map<string, Availability>)

  /** The server's state: the play queue, the table records and the song cache. */
  class ServerState {
    var globalQueue: seq<QueueItem>
    var tables: map<string, map<string, Json>>
    var cachedSongs: seq<CachedSong>

    /** The cache stays within capacity and holds each video id once. */
    ghost predicate Valid()
      reads this
    {
      |cachedSongs| <= CacheCapacity && DistinctVideos(cachedSongs)
    }

    constructor ()
      ensures Valid()
      ensures globalQueue == [] && tables == map[] && cachedSongs == []
    {
      globalQueue, tables, cachedSongs := [], map[], [];
    }

    /** POST /api/queue, run without interruption: appends the item to the queue and admits
        the song to the cache; `check` is the availability checker's verdict for a new id
        (None: it threw). `id` is the posted song's own `id` when it carries one, because the
        spread of the song overrides the timestamp; otherwise it is the timestamp. */
    method EnqueueSong(song: Song, tableNumber: int, id: string, now: int, check: Option<Availability>)
      returns (item: QueueItem)
      requires Valid()
      modifies this
      ensures Valid()
      ensures item == QueueItem(id, song, tableNumber, now)
      ensures globalQueue == old(globalQueue) + [item]
      ensures cachedSongs == Upsert(old(cachedSongs), song, check, now)
      ensures tables == old(tables)
    {
      item := QueueItem(id, song, tableNumber, now);
      globalQueue := globalQueue + [item];
      UpsertKeepsCacheSound(cachedSongs, song, check, now);
      var known := InCache(cachedSongs, song.videoId);
      if !known {
        var availability := AdmittedAvailability(check, now);
        cachedSongs := [NewEntry(song, availability, now)] + cachedSongs;
        cachedSongs := Take(cachedSongs, CacheCapacity);
      } else {
        var songIndex := IndexOfVideo(cachedSongs, song.videoId);
        if songIndex != -1 {
          var entry := cachedSongs[songIndex];
          cachedSongs := cachedSongs[songIndex := entry.(usageCount := entry.usageCount + 1, lastUsed := Some(now))];
        }
      }
    }

    /** DELETE /api/queue/:id */
    method RemoveFromQueue(id: string)
      requires Valid()
      modifies this
      ensures Valid()
      ensures globalQueue == WithoutItem(old(globalQueue), id)
      ensures tables == old(tables) && cachedSongs == old(cachedSongs)
    {
      globalQueue := WithoutItem(globalQueue, id);
    }

    /** PUT /api/tables/:tableNumber: merges the body into the stored record and returns it. */
    method UpdateTable(tableNumber: string, body: map<string, Json>) returns (record: map<string, Json>)
      requires Valid()
      modifies this
      ensures Valid()
      ensures record == MergeRecord(if tableNumber in old(tables) then old(tables)[tableNumber] else map[], body)
      ensures tables == old(tables)[tableNumber := record]
      ensures globalQueue == old(globalQueue) && cachedSongs == old(cachedSongs)
    {
      var stored := if tableNumber in tables then tables[tableNumber] else map[];
      record := MergeRecord(stored, body);
      tables := tables[tableNumber := record];
    }

    /** DELETE /api/cached-songs/:videoId: reports whether anything was removed. */
    method DeleteCachedSong(videoId: string) returns (removed: bool)
      requires Valid()
      modifies this
      ensures Valid()
      ensures cachedSongs == WithoutVideo(old(cachedSongs), videoId)
      ensures removed <==> InCache(old(cachedSongs), videoId)
      ensures globalQueue == old(globalQueue) && tables == old(tables)
    {
      var initialLength := |cachedSongs|;
      WithoutVideoShrinks(cachedSongs, videoId);
      WithoutVideoKeepsDistinct(cachedSongs, videoId);
      cachedSongs := WithoutVideo(cachedSongs, videoId);
      removed := |cachedSongs| < initialLength;
    }

    /** DELETE /api/cached-songs: with `blocked=true` drops the songs stored as unplayable,
        otherwise empties the cache; `cleared` is how many entries went. */
    method ClearCachedSongs(blocked: string) returns (cleared: int)
      requires Valid()
      modifies this
      ensures Valid()
      ensures cachedSongs == if blocked == "true" then Unblocked(old(cachedSongs)) else []
      ensures cleared == |old(cachedSongs)| - |cachedSongs|
      ensures blocked == "true" ==> cleared == BlockedCount(old(cachedSongs))
      ensures blocked != "true" ==> cleared == |old(cachedSongs)|
      ensures globalQueue == old(globalQueue) && tables == old(tables)
    {
      var initialLength := |cachedSongs|;
      if blocked == "true" {
        UnblockedRemovesBlocked(cachedSongs);
        UnblockedKeepsDistinct(cachedSongs);
        cachedSongs := Unblocked(cachedSongs);
      } else {
        cachedSongs := [];
      }
      cleared := initialLength - |cachedSongs|;
    }

    /** POST /api/cached-songs/:videoId/recheck, run without interruption: `check` is the
        checker's verdict (None: it threw). `RecheckWriteAt` gives the write when the cache
        changed during the await. */
    method RecheckCachedSong(videoId: string, check: Option<Availability>) returns (reply: RecheckReply)
      requires Valid()
      modifies this
      ensures Valid()
      ensures !InCache(old(cachedSongs), videoId) ==> reply == SongNotFound && cachedSongs == old(cachedSongs)
      ensures InCache(old(cachedSongs), videoId) && check.None? ==>
                reply == RecheckFailed && cachedSongs == old(cachedSongs)
      ensures InCache(old(cachedSongs), videoId) && check.Some? ==>
                reply == Rechecked(check.value) &&
                cachedSongs == ApplyResults(old(cachedSongs), map[videoId := check.value])
      ensures globalQueue == old(globalQueue) && tables == old(tables)
    {
      var songIndex := IndexOfVideo(cachedSongs, videoId);
      if songIndex == -1 {
        return SongNotFound;
      }
      match check {
        case None =>
          reply := RecheckFailed;
        case Some(availability) =>
          ghost var before := cachedSongs;
          cachedSongs := cachedSongs[songIndex := cachedSongs[songIndex].(availability := Some(availability))];
          reply := Rechecked(availability);
          forall k | 0 <= k < |before| && k != songIndex ensures before[k].videoId != videoId {
            assert before[songIndex].videoId == videoId;
          }
      }
    }

    /** POST /api/cached-songs/batch-recheck: rejects a missing or non-array `videoIds`; otherwise
        runs the batch checker (`outcomes` as for it) and writes each verdict onto the cached entry
        with that id, counting the ids that were cached. */
    method BatchRecheck(videoIds: Option<seq<string>>, outcomes: seq<Option<Availability>>)
      returns (reply: BatchReply)
      requires Valid()
      requires videoIds.Some? ==> |outcomes| == |videoIds.value|
      modifies this
      ensures Valid()
      ensures videoIds.None? ==> reply == IdsRequired && cachedSongs == old(cachedSongs)
      ensures videoIds.Some? ==>
                reply.BatchRechecked? &&
                reply.results == Settle(videoIds.value, outcomes) &&
                cachedSongs == ApplyResults(old(cachedSongs), reply.results) &&
                reply.updatedCount == |reply.results.Keys * CachedIds(old(cachedSongs))|
      ensures globalQueue == old(globalQueue) && tables == old(tables)
    {
      if videoIds.None? {
        return IdsRequired;
      }
      var results, _, _ := BatchCheckAvailability(videoIds.value, outcomes);
      var updatedCount := WriteVerdicts(results);
      reply := BatchRechecked(updatedCount, results);
    }

    /** The `forEach` over the batch results: each verdict is written onto the cached entry with
        its id; the count says how many ids were found in the cache. */
    method WriteVerdicts(results: map<string, Availability>) returns (updatedCount: nat)
      requires Valid()
      modifies this
      ensures Valid()
      ensures cachedSongs == ApplyResults(old(cachedSongs), results)
      ensures updatedCount == |results.Keys * CachedIds(old(cachedSongs))|
      ensures globalQueue == old(globalQueue) && tables == old(tables)
    {
      var songs, count := MergeVerdicts(cachedSongs, results);
      ApplyResultsKeepsIds(cachedSongs, results);
      cachedSongs := songs;
      updatedCount := count;
    }
  }

  /** The loop of the batch merge, over the result ids in any order: the entry with the id,
      if cached, gets the verdict, and is counted. */
  method MergeVerdicts(cache: seq<CachedSong>, results: map<string, Availability>)
    returns (songs: seq<CachedSong>, updatedCount: nat)
    requires DistinctVideos(cache)
    ensures songs == ApplyResults(cache, results)
    ensures updatedCount == |results.Keys * CachedIds(cache)|
  {
    songs, updatedCount := cache, 0;
    var todo := results.Keys;
    ghost var done: set<string> := {};
    while todo != {}
      invariant todo <= results.Keys && done <= results.Keys
      invariant forall k :: k in results ==> (k in todo <==> k !in done)
      invariant songs == ApplyResults(cache, Restrict(results, done))
      invariant updatedCount == |done * CachedIds(cache)|
      decreases todo
    {
      var videoId :| videoId in todo;
      var songIndex := IndexOfVideo(songs, videoId);
      MergeOneEntry(cache, results, done, videoId, songIndex);
      MergeOneCount(cache, done, videoId, songIndex != -1);
      if songIndex != -1 {
        songs := songs[songIndex := songs[songIndex].(availability := Some(results[videoId]))];
        updatedCount := updatedCount + 1;
      }
      todo := todo - {videoId};
      done := done + {videoId};
    }
    assert done == results.Keys by {
      forall k | k in results ensures k in done { }
    }
    assert Restrict(results, done) == results;
  }

  /** One step of the batch merge: writing the verdict for `videoId` at the index where it is
      cached extends the merge by that id. */
  lemma MergeOneEntry(original: seq<CachedSong>, results: map<string, Availability>, done: set<string>,
                      videoId: string, songIndex: int)
    requires DistinctVideos(original) && videoId in results && videoId !in done
    requires songIndex == IndexOfVideo(ApplyResults(original, Restrict(results, done)), videoId)
    ensures var current := ApplyResults(original, Restrict(results, done));
            ApplyResults(original, Restrict(results, done + {videoId})) ==
              if songIndex == -1 then current
              else current[songIndex := current[songIndex].(availability := Some(results[videoId]))]
    ensures songIndex != -1 <==> videoId in CachedIds(original)
  {
    var current := ApplyResults(original, Restrict(results, done));
    var next := ApplyResults(original, Restrict(results, done + {videoId}));
    if songIndex == -1 {
      forall k | 0 <= k < |original| ensures next[k] == current[k] && original[k].videoId != videoId {
        assert current[k].videoId == original[k].videoId;
      }
    } else {
      assert original[songIndex].videoId == videoId;
      var updated := current[songIndex := current[songIndex].(availability := Some(results[videoId]))];
      forall k | 0 <= k < |original| ensures next[k] == updated[k] {
        if k != songIndex {
          assert original[k].videoId != original[songIndex].videoId;
        }
      }
    }
  }

  /** One step of the batch merge: the count grows exactly when the id is cached. */
  lemma MergeOneCount(original: seq<CachedSong>, done: set<string>, videoId: string, cached: bool)
    requires videoId !in done
    requires cached <==> videoId in CachedIds(original)
    ensures |(done + {videoId}) * CachedIds(original)| == |done * CachedIds(original)| + if cached then 1 else 0
  {
    var ids := CachedIds(original);
    if cached {
      assert (done + {videoId}) * ids == done * ids + {videoId};
    } else {
      assert (done + {videoId}) * ids == done * ids;
    }
  }

  /** Writing verdicts changes no id, so the ids stay distinct. */
  lemma ApplyResultsKeepsIds(cache: seq<CachedSong>, results: map<string, Availability>)
    requires DistinctVideos(cache)
    ensures DistinctVideos(ApplyResults(cache, results))
  {
  }

  /** Dropping entries keeps the ids distinct. */
  lemma {:induction false} WithoutVideoKeepsDistinct(cache: seq<CachedSong>, videoId: string)
    requires DistinctVideos(cache)
    ensures DistinctVideos(WithoutVideo(cache, videoId))
    decreases |cache|
  {
    if cache != [] {
      WithoutVideoKeepsDistinct(cache[1..], videoId);
    }
  }

  lemma {:induction false} UnblockedKeepsDistinct(cache: seq<CachedSong>)
    requires DistinctVideos(cache)
    ensures DistinctVideos(Unblocked(cache))
    decreases |cache|
  {
    if cache != [] {
      UnblockedKeepsDistinct(cache[1..]);
    }
  }
}
