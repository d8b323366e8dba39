/** The YouTube wrapper of the server: the karaoke search with its error
    classification, the availability checker (an oEmbed probe, then the Data
    API, then a default that assumes the video plays) and the batch checker
    that runs checks five at a time with a pause between groups.

    The network calls are not modelled; each appears as the outcome it
    produced, passed in as a parameter. */
module YoutubeApi {
  import opened Common

  /** The value the sample environment file ships for the key. */
  const PlaceholderKey := "YOUR_YOUTUBE_API_KEY_HERE"

  /** The key is usable when it is set ("" stands for unset) and is not the placeholder. */
  predicate KeyConfigured(apiKey: string)
  {
    apiKey != "" && apiKey != PlaceholderKey
  }

  // ---------------------------------------------------------------------------
  // Search

  /** One item of the upstream search reply, reduced to the requested fields. */
  datatype SearchItem = SearchItem(
    videoId: string,
    title: string,
    channelTitle: string,
    mediumThumbnail: Option<string>,
    publishedAt: string)

  /** A search result as the wrapper returns it (`id` repeats `videoId`). */
  datatype Video = Video(
    id: string,
    videoId: string,
    title: string,
    thumbnail: string,
    channel: string,
    publishedAt: string)

  /** The error an upstream call rejects with: its numeric code, if any, and its message. */
  datatype UpstreamError = UpstreamError(code: Option<int>, message: string)

  /** What the upstream search call did. */
  datatype SearchCall = SearchReplied(items: seq<SearchItem>) | SearchRejected(error: UpstreamError)

  const KeyMissing := "YOUTUBE_API_KEY_MISSING"
  const QuotaExceeded := "YOUTUBE_API_QUOTA_EXCEEDED"
  const InvalidKey := "YOUTUBE_API_INVALID_KEY"
  const InvalidRequest := "YOUTUBE_API_INVALID_REQUEST"

  /** The upstream codes the wrapper translates into its own error messages. */
  const ClassifiedCodes: set<Option<int>> := {Some(400), Some(401), Some(403)}

  function DefaultThumbnail(videoId: string): string
  {
    "https://img.youtube.com/vi/" + videoId + "/mqdefault.jpg"
  }

  /** One upstream item as a result; a missing or empty medium thumbnail falls back to the standard still. */
  function ToVideo(item: SearchItem): (v: Video)
    ensures v.id == v.videoId == item.videoId
    ensures v.title == item.title && v.channel == item.channelTitle && v.publishedAt == item.publishedAt
    ensures v.thumbnail == (if item.mediumThumbnail.Some? && item.mediumThumbnail.value != ""
                            then item.mediumThumbnail.value else DefaultThumbnail(item.videoId))
  {
    var thumbnail := match item.mediumThumbnail
      case Some(url) => if url != "" then url else DefaultThumbnail(item.videoId)
      case None => DefaultThumbnail(item.videoId);
    Video(item.videoId, item.videoId, item.title, thumbnail, item.channelTitle, item.publishedAt)
  }

  /** The message of the error the search wrapper throws after the upstream call failed:
      codes 400, 401 and 403 become the wrapper's own messages, anything else is rethrown as it is. */
  function ClassifySearchError(e: UpstreamError): (m: string)
    ensures e.code !in ClassifiedCodes ==> m == e.message
    ensures e.code in ClassifiedCodes ==> m in {QuotaExceeded, InvalidKey, InvalidRequest}
    ensures e.code in ClassifiedCodes ==>
              (m == QuotaExceeded <==> e.code == Some(403) && Includes(e.message, "quota"))
    ensures e.code in ClassifiedCodes ==> (m == InvalidRequest <==> e.code == Some(400))
  {
    if e.code == Some(403) then
      if Includes(e.message, "quota") then QuotaExceeded else InvalidKey
    else if e.code == Some(400) then InvalidRequest
    else if e.code == Some(401) then InvalidKey
    else e.message
  }

  /** `searchKaraokeVideos`: without a usable key it throws before calling upstream; otherwise
      it maps the upstream items one for one, in order, or throws the classified error. */
  function SearchKaraokeVideos(apiKey: string, call: SearchCall): (r: Result<seq<Video>, string>)
    ensures !KeyConfigured(apiKey) ==> r == Failure(KeyMissing)
    ensures KeyConfigured(apiKey) && call.SearchRejected? ==> r == Failure(ClassifySearchError(call.error))
    ensures KeyConfigured(apiKey) && call.SearchReplied? ==>
              r.Success? && |r.value| == |call.items| &&
              forall i :: 0 <= i < |call.items| ==> r.value[i] == ToVideo(call.items[i])
  {
    if !KeyConfigured(apiKey) then Failure(KeyMissing)
    else match call
      case SearchReplied(items) => Success(seq(|items|, i requires 0 <= i < |items| => ToVideo(items[i])))
      case SearchRejected(e) => Failure(ClassifySearchError(e))
  }

  // ---------------------------------------------------------------------------
  // Availability

  /** How a verdict was reached; `DataApi` is reported under the name "youtube_api". */
  datatype Method = OEmbed | DataApi | Unknown | Error

  function MethodName(m: Method): string
  {
    match m
    case OEmbed => "oembed"
    case DataApi => "youtube_api"
    case Unknown => "unknown"
    case Error => "error"
  }

  datatype BlockedReason =
    | EmbeddingDisabled(status: int)   // "Embedding disabled (HTTP <status>)"
    | DisabledByOwner                  // "Embedding disabled by video owner"
    | CheckFailed(message: string)     // "Check failed: <message>"

  /** The availability record attached to cached songs and search results. */
  datatype Availability = Availability(
    playable: bool,
    via: Method,        // the record's `method` field
    checkedAt: int,
    title: Option<string>,
    blockedReason: Option<BlockedReason>,
    needsRecheck: bool)

  /** What the oEmbed probe did: an OK reply whose JSON was read (`title` is "" when absent),
      a reply with a non-OK status, or a failure to fetch or to read the reply. */
  datatype OEmbedProbe = OEmbedOk(title: string) | OEmbedRefused(status: int) | OEmbedThrew

  /** One item of a `videos.list` reply: the `status.embeddable` flag, if present, and the title. */
  datatype VideoStatus = VideoStatus(embeddable: Option<bool>, title: string)

  /** What the Data API lookup did. */
  datatype VideosCall = VideosListed(items: seq<VideoStatus>) | VideosThrew

  /** `title || 'Unknown'` */
  function TitleOrUnknown(title: string): string
  {
    if title != "" then title else "Unknown"
  }

  /** The oEmbed probe is conclusive when it succeeded or was refused with 401 or 403. */
  predicate OEmbedConclusive(probe: OEmbedProbe)
  {
    probe.OEmbedOk? || (probe.OEmbedRefused? && probe.status in {401, 403})
  }

  /** The Data API lookup is conclusive when the key is usable and the reply lists at least one video. */
  predicate DataApiConclusive(apiKey: string, call: VideosCall)
  {
    KeyConfigured(apiKey) && call.VideosListed? && |call.items| > 0
  }

  /** The first listed video explicitly says that it cannot be embedded. */
  predicate DataApiForbidsEmbedding(call: VideosCall)
  {
    call.VideosListed? && |call.items| > 0 && call.items[0].embeddable == Some(false)
  }

  function OEmbedVerdict(probe: OEmbedProbe, now: int): (a: Availability)
    requires OEmbedConclusive(probe)
  {
    match probe
    case OEmbedOk(title) => Availability(true, OEmbed, now, Some(TitleOrUnknown(title)), None, false)
    case OEmbedRefused(status) => Availability(false, OEmbed, now, None, Some(EmbeddingDisabled(status)), false)
  }

  function DataApiVerdict(call: VideosCall, now: int): (a: Availability)
    requires call.VideosListed? && |call.items| > 0
  {
    var video := call.items[0];
    var embeddable := video.embeddable != Some(false);
    Availability(embeddable, DataApi, now, Some(TitleOrUnknown(video.title)),
                 if embeddable then None else Some(DisabledByOwner), false)
  }

  /** `checkVideoAvailability`: the first conclusive step of oEmbed, Data API, default wins;
      `escaped` is an exception that escaped the cascade, which the outer handler absorbs.
      A video is reported unplayable only on positive evidence, and every verdict reached
      without evidence says playable and asks for a recheck. */
  function CheckVideoAvailability(
    probe: OEmbedProbe, apiKey: string, videos: VideosCall, escaped: Option<string>, now: int): (a: Availability)
    ensures a.checkedAt == now
    ensures !a.playable <==>
              escaped.None? &&
              ((probe.OEmbedRefused? && probe.status in {401, 403}) ||
               (!OEmbedConclusive(probe) && KeyConfigured(apiKey) && DataApiForbidsEmbedding(videos)))
    ensures a.via == OEmbed <==> escaped.None? && OEmbedConclusive(probe)
    ensures a.via == DataApi <==>
              escaped.None? && !OEmbedConclusive(probe) && DataApiConclusive(apiKey, videos)
    ensures a.via == Error <==> escaped.Some?
    ensures a.needsRecheck <==> a.via in {Unknown, Error}
    ensures a.needsRecheck ==> a.playable
    ensures a.via == DataApi ==> (a.blockedReason.None? <==> a.playable)
    ensures escaped.None? && probe.OEmbedOk? ==>
              a == Availability(true, OEmbed, now, Some(TitleOrUnknown(probe.title)), None, false)
  {
    if escaped.Some? then
      Availability(true, Error, now, None, Some(CheckFailed(escaped.value)), true)
    else if OEmbedConclusive(probe) then
      OEmbedVerdict(probe, now)
    else if DataApiConclusive(apiKey, videos) then
      DataApiVerdict(videos, now)
    else
      Availability(true, Unknown, now, None, None, true)
  }

  // ---------------------------------------------------------------------------
  // Batch checking

  const BatchSize := 5

  /** The merge of settled checks into the result dictionary, in input order: a fulfilled
      check writes its verdict under its id, a rejected one writes nothing. */
  function Settle(ids: seq<string>, outcomes: seq<Option<Availability>>): map<string, Availability>
    requires |ids| == |outcomes|
    decreases |ids|
  {
    if ids == [] then map[]
    else
      var n := |ids| - 1;
      var earlier := Settle(ids[..n], outcomes[..n]);
      match outcomes[n]
      case None => earlier
      case Some(a) => earlier[ids[n] := a]
  }

  /** The check of the `i`-th id fulfilled. */
  predicate FulfilledAt(ids: seq<string>, outcomes: seq<Option<Availability>>, i: int)
  {
    0 <= i < |ids| && i < |outcomes| && outcomes[i].Some?
  }

  /** The result holds exactly the ids whose check fulfilled at least once. */
  lemma {:induction false} SettleKeys(ids: seq<string>, outcomes: seq<Option<Availability>>)
    requires |ids| == |outcomes|
    ensures forall k :: k in Settle(ids, outcomes) <==> exists i :: FulfilledAt(ids, outcomes, i) && ids[i] == k
    decreases |ids|
  {
    if ids != [] {
      var n := |ids| - 1;
      var ids', outcomes' := ids[..n], outcomes[..n];
      SettleKeys(ids', outcomes');
      forall i | FulfilledAt(ids', outcomes', i) ensures FulfilledAt(ids, outcomes, i) && ids[i] == ids'[i] { }
      forall i | FulfilledAt(ids, outcomes, i) && i < n ensures FulfilledAt(ids', outcomes', i) { }
    }
  }

  /** Each id of the result carries the verdict of its last fulfilled check: a later check
      of the same id that rejected does not erase an earlier verdict. */
  lemma {:induction false} SettleLatest(ids: seq<string>, outcomes: seq<Option<Availability>>)
    requires |ids| == |outcomes|
    ensures forall k :: k in Settle(ids, outcomes) ==>
              exists i :: FulfilledAt(ids, outcomes, i) && ids[i] == k && outcomes[i].value == Settle(ids, outcomes)[k] &&
                          forall j :: i < j < |ids| && ids[j] == k ==> !FulfilledAt(ids, outcomes, j)
    decreases |ids|
  {
    if ids != [] {
      var n := |ids| - 1;
      var ids', outcomes' := ids[..n], outcomes[..n];
      var r, r' := Settle(ids, outcomes), Settle(ids', outcomes');
      SettleLatest(ids', outcomes');
      forall k | k in r
        ensures exists i :: FulfilledAt(ids, outcomes, i) && ids[i] == k && outcomes[i].value == r[k] &&
                            forall j :: i < j < |ids| && ids[j] == k ==> !FulfilledAt(ids, outcomes, j)
      {
        if outcomes[n].Some? && ids[n] == k {
          assert FulfilledAt(ids, outcomes, n);
        } else {
          assert k in r' && r[k] == r'[k];
          var i :| FulfilledAt(ids', outcomes', i) && ids'[i] == k && outcomes'[i].value == r'[k] &&
                   forall j :: i < j < |ids'| && ids'[j] == k ==> !FulfilledAt(ids', outcomes', j);
          assert FulfilledAt(ids, outcomes, i);
          forall j | i < j < |ids| && ids[j] == k ensures !FulfilledAt(ids, outcomes, j) {
            if j < n {
              assert !FulfilledAt(ids', outcomes', j);
            }
          }
        }
      }
    }
  }

  /** The groups laid end to end. */
  function Concat(groups: seq<seq<string>>): seq<string>
    decreases |groups|
  {
    if groups == [] then [] else Concat(groups[..|groups| - 1]) + groups[|groups| - 1]
  }

  /** Merges the settled checks of one group, `videoIds[from..to]`, into the result dictionary
      (the `forEach` over the group's settled promises). */
  method MergeGroup(results: map<string, Availability>, videoIds: seq<string>,
                    outcomes: seq<Option<Availability>>, from: nat, to: nat)
    returns (merged: map<string, Availability>)
    requires |outcomes| == |videoIds| && from <= to <= |videoIds|
    requires results == Settle(videoIds[..from], outcomes[..from])
    ensures merged == Settle(videoIds[..to], outcomes[..to])
  {
    merged := results;
    var j := from;
    while j < to
      invariant from <= j <= to
      invariant merged == Settle(videoIds[..j], outcomes[..j])
    {
      assert videoIds[..j + 1][..j] == videoIds[..j];
      assert outcomes[..j + 1][..j] == outcomes[..j];
      match outcomes[j] {
        case Some(a) => merged := merged[videoIds[j] := a];
        case None =>
      }
      j := j + 1;
    }
  }

  /** Appending the next group extends the covered prefix to the group's end. */
  lemma AppendGroup(videoIds: seq<string>, groups: seq<seq<string>>, from: nat, to: nat)
    requires from <= to <= |videoIds| && Concat(groups) == videoIds[..from]
    ensures Concat(groups + [videoIds[from..to]]) == videoIds[..to]
  {
    assert (groups + [videoIds[from..to]])[..|groups|] == groups;
    assert videoIds[..to] == videoIds[..from] + videoIds[from..to];
  }

  /** Groups of five but possibly the last hold five ids per group before the last. */
  lemma {:induction false} ConcatLength(groups: seq<seq<string>>)
    requires groups != []
    requires forall k :: 0 <= k < |groups| - 1 ==> |groups[k]| == BatchSize
    ensures |Concat(groups)| == BatchSize * (|groups| - 1) + |groups[|groups| - 1]|
    decreases |groups|
  {
    var init := groups[..|groups| - 1];
    if init != [] {
      ConcatLength(init);
    }
  }

  /** With `g` groups of at most five ids, all full but the last, covering `n > 0` ids,
      there are (n - 1) / 5 gaps between them. */
  lemma GapsBetweenGroups(videoIds: seq<string>, groups: seq<seq<string>>)
    requires videoIds != [] && Concat(groups) == videoIds
    requires forall g :: g in groups ==> 1 <= |g| <= BatchSize
    requires forall k :: 0 <= k < |groups| - 1 ==> |groups[k]| == BatchSize
    ensures groups != [] && |groups| - 1 == (|videoIds| - 1) / BatchSize
  {
    var g := |groups|;
    assert g > 0;
    var last := groups[g - 1];
    assert last in groups;
    ConcatLength(groups);
    var q := g - 1;
    assert |videoIds| - 1 == BatchSize * q + (|last| - 1);
  }

  /** `batchCheckAvailability`: the ids are taken in consecutive groups of at most five, in
      order; `outcomes[i]` is how the check of `videoIds[i]` settled (None: it rejected).
      Returns the result dictionary, the groups in the order they ran, and the number of
      pauses observed, which fall only between groups. The loop index stops at the end of
      the last group instead of running past it; nothing reads it after the loop. */
  method BatchCheckAvailability(videoIds: seq<string>, outcomes: seq<Option<Availability>>)
    returns (results: map<string, Availability>, groups: seq<seq<string>>, pauses: nat)
    requires |outcomes| == |videoIds|
    ensures results == Settle(videoIds, outcomes)
    ensures Concat(groups) == videoIds
    ensures forall g :: g in groups ==> 1 <= |g| <= BatchSize
    ensures forall k :: 0 <= k < |groups| - 1 ==> |groups[k]| == BatchSize
    ensures pauses == Max(|groups| - 1, 0)
    ensures pauses == if videoIds == [] then 0 else (|videoIds| - 1) / BatchSize
  {
    var n := |videoIds|;
    results, groups, pauses := map[], [], 0;
    var i := 0;
    while i < n
      invariant 0 <= i <= n
      invariant Concat(groups) == videoIds[..i]
      invariant results == Settle(videoIds[..i], outcomes[..i])
      invariant forall g :: g in groups ==> 1 <= |g| <= BatchSize
      invariant forall k :: 0 <= k < |groups| && (k < |groups| - 1 || i < n) ==> |groups[k]| == BatchSize
      invariant pauses == if i < n then |groups| else Max(|groups| - 1, 0)
    {
      var end := Min(i + BatchSize, n);
      var batch := videoIds[i..end];
      results := MergeGroup(results, videoIds, outcomes, i, end);
      AppendGroup(videoIds, groups, i, end);
      groups := groups + [batch];
      if end < n {
        pauses := pauses + 1;
      }
      i := end;
    }
    assert videoIds[..n] == videoIds;
    assert outcomes[..n] == outcomes;
    if n > 0 {
      GapsBetweenGroups(videoIds, groups);
    }
  }
}
