/** The feed collector (research_agent.py): resolves each configured channel's
    id, keeps the recent entries of its feed, and optionally attaches caption
    text. The channel page fetch, the three id patterns, the feed reader and
    the caption service are oracles; timestamps are seconds since the epoch
    (UTC) and `now` is a parameter. */
module Research {
  import opened Common

  /** `RECENT_HOURS`. */
  const RecentHours: int := 24
  /** Only the newest entries of a feed are examined. */
  const FeedEntryLimit: nat := 10
  const WatchUrlPrefix: string := "https://www.youtube.com/watch?v="
  const ChannelPagePrefix: string := "https://www.youtube.com/"

  /** A collected video record. `transcript` and `transcriptLength` are set
      only on the caption path. */
  datatype Video = Video(
    title: string,
    url: string,
    videoId: string,
    published: int,
    channel: string,
    transcript: Option<string>,
    transcriptLength: Option<nat>)

  /** A feed entry; a field is None when the entry lacks it. An entry
      without a parsable timestamp makes the collector raise, and so does an
      entry inside the window without a title or a video id. */
  datatype FeedEntry = FeedEntry(title: Option<string>, videoId: Option<string>, published: Option<int>)

  /** The entry carries the two fields a kept record reads. */
  predicate Complete(e: FeedEntry) {
    e.title.Some? && e.videoId.Some?
  }

  /** One entry of `CHANNELS`; `channelId` is None while unresolved. */
  datatype Channel = Channel(handle: string, name: string, channelId: Option<string>)

  /** The three id patterns of `resolve_channel_id`, each giving the captured
      id of its first match in the page text, if any. */
  datatype Patterns = Patterns(
    channelIdJson: string -> Option<string>,
    externalId: string -> Option<string>,
    metaItemprop: string -> Option<string>)

  /** What each caption fetch ends in. */
  datatype CaptionFetch =
    | Snippets(texts: seq<string>)
    | TranscriptsDisabled
    | NoTranscriptFound
    | VideoUnavailable
    | OtherFailure

  /** The outside world as the collector sees it. */
  datatype Web = Web(
    page: string -> Option<string>,   // GET of a URL: its text, or None on any failure
    patterns: Patterns,
    feed: string -> seq<FeedEntry>,   // feed entries by channel id (empty on feed error)
    captions: string -> CaptionFetch) // caption fetch by video id

  /** Python truthiness of an optional string. */
  predicate Truthy(o: Option<string>) {
    o.Some? && o.value != ""
  }

  // ------------------------------------------------------------ channel ids

  /** `resolve_channel_id`: the patterns are tried in their fixed order and
      the first match wins; a failed request (or any exception) yields None. */
  function ResolveChannelId(handle: string, web: Web): (r: Option<string>)
    ensures r.None? <==> web.page(ChannelPagePrefix + handle).None?
                         || (web.patterns.channelIdJson(web.page(ChannelPagePrefix + handle).value).None?
                             && web.patterns.externalId(web.page(ChannelPagePrefix + handle).value).None?
                             && web.patterns.metaItemprop(web.page(ChannelPagePrefix + handle).value).None?)
    ensures r.Some? ==> var text := web.page(ChannelPagePrefix + handle).value;
                        r == web.patterns.channelIdJson(text)
                        || (web.patterns.channelIdJson(text).None? && r == web.patterns.externalId(text))
                        || (web.patterns.channelIdJson(text).None? && web.patterns.externalId(text).None?
                            && r == web.patterns.metaItemprop(text))
    ensures web.page(ChannelPagePrefix + handle).Some?
            && web.patterns.channelIdJson(web.page(ChannelPagePrefix + handle).value).Some?
            ==> r == web.patterns.channelIdJson(web.page(ChannelPagePrefix + handle).value)
  {
    match web.page(ChannelPagePrefix + handle)
    case None => None
    case Some(text) =>
      if web.patterns.channelIdJson(text).Some? then web.patterns.channelIdJson(text)
      else if web.patterns.externalId(text).Some? then web.patterns.externalId(text)
      else if web.patterns.metaItemprop(text).Some? then web.patterns.metaItemprop(text)
      else None
  }

  /** The channel entry after the collector has looked at it: a resolved id is
      written back, a cached id is kept, a failed resolution leaves it as is. */
  function Cached(ch: Channel, web: Web): (r: Channel)
    ensures r.handle == ch.handle && r.name == ch.name
    ensures Truthy(ch.channelId) ==> r == ch
    ensures Truthy(r.channelId) <==> Truthy(ch.channelId) || Truthy(ResolveChannelId(ch.handle, web))
  {
    if Truthy(ch.channelId) then ch
    else
      var id := ResolveChannelId(ch.handle, web);
      if Truthy(id) then ch.(channelId := id) else ch
  }

  // ------------------------------------------------------------ one feed

  function Cutoff(now: int, hours: int): int {
    now - hours * 3600
  }

  function FeedVideo(e: FeedEntry, name: string, published: int): Video
    requires Complete(e)
  {
    Video(e.title.value, WatchUrlPrefix + e.videoId.value, e.videoId.value, published, name, None, None)
  }

  /** Prepends videos already collected to an outcome; a raise stays a raise. */
  function Then(before: seq<Video>, rest: Outcome<seq<Video>>): Outcome<seq<Video>> {
    if rest.Raised? then Raised else Ok(before + rest.value)
  }

  /** The entries kept from a feed, in feed order. An entry without a
      timestamp raises; so does an entry inside the window without a title
      or a video id. */
  function Recent(entries: seq<FeedEntry>, name: string, cutoff: int): Outcome<seq<Video>>
    decreases |entries|
  {
    if entries == [] then Ok([])
    else if entries[0].published.None? then Raised
    else if entries[0].published.value >= cutoff && !Complete(entries[0]) then Raised
    else
      var e := entries[0];
      var head := if e.published.value >= cutoff then [FeedVideo(e, name, e.published.value)] else [];
      Then(head, Recent(entries[1..], name, cutoff))
  }

  function Outcomes(a: Outcome<seq<Video>>, b: Outcome<seq<Video>>): Outcome<seq<Video>> {
    if a.Raised? then Raised else Then(a.value, b)
  }

  lemma ThenNil(rest: Outcome<seq<Video>>)
    ensures Then([], rest) == rest
  {
    if rest.Ok? {
      assert [] + rest.value == rest.value;
    }
  }

  lemma ThenThen(a: seq<Video>, b: seq<Video>, rest: Outcome<seq<Video>>)
    ensures Then(a, Then(b, rest)) == Then(a + b, rest)
  {
    if rest.Ok? {
      assert a + (b + rest.value) == (a + b) + rest.value;
    }
  }

  /** Filtering is compositional: the kept entries of two stretches of the
      feed, one after the other. */
  lemma {:induction false} RecentAppend(a: seq<FeedEntry>, b: seq<FeedEntry>, name: string, cutoff: int)
    ensures Recent(a + b, name, cutoff) == Outcomes(Recent(a, name, cutoff), Recent(b, name, cutoff))
    decreases |a|
  {
    if a == [] {
      assert a + b == b;
      ThenNil(Recent(b, name, cutoff));
    } else {
      assert (a + b)[0] == a[0];
      assert (a + b)[1..] == a[1..] + b;
      RecentAppend(a[1..], b, name, cutoff);
      var e := a[0];
      if e.published.Some? && !(e.published.value >= cutoff && !Complete(e)) {
        var head := if e.published.value >= cutoff then [FeedVideo(e, name, e.published.value)] else [];
        var ra := Recent(a[1..], name, cutoff);
        if ra.Ok? {
          ThenThen(head, ra.value, Recent(b, name, cutoff));
        }
      }
    }
  }

  /** A single entry is kept iff it was published at or after the cutoff
      (closed window), and then as a watch URL of its id; an entry inside the
      window that lacks its title or id raises, one outside it never does. */
  lemma RecentSingle(e: FeedEntry, name: string, cutoff: int)
    requires e.published.Some?
    ensures e.published.value < cutoff ==> Recent([e], name, cutoff) == Ok([])
    ensures e.published.value >= cutoff && !Complete(e) ==> Recent([e], name, cutoff) == Raised
    ensures e.published.value >= cutoff && Complete(e) ==>
              Recent([e], name, cutoff) == Ok([FeedVideo(e, name, e.published.value)])
  {
    assert [e][1..] == [];
    var head := if e.published.value >= cutoff && Complete(e) then [FeedVideo(e, name, e.published.value)] else [];
    assert head + [] == head;
  }

  /** Every kept record lies inside the window, carries the channel name,
      and its URL is the watch URL of its id; no entry inside the window is
      dropped. */
  lemma {:induction false} RecentSound(entries: seq<FeedEntry>, name: string, cutoff: int)
    requires Recent(entries, name, cutoff).Ok?
    ensures forall i :: 0 <= i < |entries| ==> entries[i].published.Some?
    ensures forall i :: 0 <= i < |entries| && entries[i].published.value >= cutoff ==> Complete(entries[i])
    ensures forall v :: v in Recent(entries, name, cutoff).value ==>
              v.published >= cutoff && v.channel == name && v.url == WatchUrlPrefix + v.videoId
    ensures forall i :: 0 <= i < |entries| && entries[i].published.value >= cutoff ==>
              FeedVideo(entries[i], name, entries[i].published.value) in Recent(entries, name, cutoff).value
    decreases |entries|
  {
    if entries != [] {
      RecentSound(entries[1..], name, cutoff);
      forall i | 1 <= i < |entries|
        ensures entries[i] == entries[1..][i - 1]
      {
      }
    }
  }

  function FirstEntries(entries: seq<FeedEntry>): seq<FeedEntry> {
    if |entries| <= FeedEntryLimit then entries else entries[..FeedEntryLimit]
  }

  /** `get_recent_videos_from_rss`: examines the first ten entries only. */
  method GetRecentVideosFromRss(channelId: string, channelName: string, hours: int, now: int, web: Web)
    returns (r: Outcome<seq<Video>>)
    ensures r == Recent(FirstEntries(web.feed(channelId)), channelName, Cutoff(now, hours))
  {
    var entries := FirstEntries(web.feed(channelId));
    var cutoff := Cutoff(now, hours);
    var recent: seq<Video> := [];
    assert entries[0..] == entries;
    ThenNil(Recent(entries, channelName, cutoff));
    var i := 0;
    while i < |entries|
      invariant 0 <= i <= |entries|
      invariant Recent(entries, channelName, cutoff) == Then(recent, Recent(entries[i..], channelName, cutoff))
    {
      assert entries[i..][1..] == entries[i + 1..];
      var e := entries[i];
      if e.published.None? {
        return Raised;  // no timestamp to compare
      }
      var head: seq<Video> := [];
      if e.published.value >= cutoff {
        if e.videoId.None? || e.title.None? {
          return Raised;  // the record reads both fields
        }
        head := [FeedVideo(e, channelName, e.published.value)];
      }
      ThenThen(recent, head, Recent(entries[i + 1..], channelName, cutoff));
      recent := recent + head;
      i := i + 1;
    }
    assert entries[i..] == [];
    assert recent + [] == recent;
    return Ok(recent);
  }

  // ------------------------------------------------------------ captions

  /** `extract_transcript`: never raises; each of the three terminal
      conditions and any other failure give None. */
  function ExtractTranscript(fetch: CaptionFetch): (r: Option<string>)
    ensures r.Some? <==> fetch.Snippets?
    ensures r.Some? ==> r.value == Join(fetch.texts, " ")
  {
    match fetch
    case Snippets(texts) => Some(Join(texts, " "))
    case _ => None
  }

  function WithTranscript(v: Video, t: string): Video {
    v.(transcript := Some(t), transcriptLength := Some(|t|))
  }

  /** The caption path keeps exactly the videos with non-empty caption text. */
  function Captioned(videos: seq<Video>, captions: string -> CaptionFetch): seq<Video>
    decreases |videos|
  {
    if videos == [] then []
    else
      var t := ExtractTranscript(captions(videos[0].videoId));
      (if Truthy(t) then [WithTranscript(videos[0], t.value)] else []) + Captioned(videos[1..], captions)
  }

  lemma CaptionedFrom(videos: seq<Video>, j: nat, captions: string -> CaptionFetch)
    requires j < |videos|
    ensures var t := ExtractTranscript(captions(videos[j].videoId));
            Captioned(videos[j..], captions)
            == (if Truthy(t) then [WithTranscript(videos[j], t.value)] else []) + Captioned(videos[j + 1..], captions)
  {
    assert videos[j..][0] == videos[j] && videos[j..][1..] == videos[j + 1..];
  }

  /** Every kept video carries its caption and its length; every video with
      caption text is kept. */
  lemma {:induction false} CaptionedSound(videos: seq<Video>, captions: string -> CaptionFetch)
    ensures forall w :: w in Captioned(videos, captions) ==>
              w.transcript.Some? && w.transcript.value != "" && w.transcriptLength == Some(|w.transcript.value|)
              && w.transcript == ExtractTranscript(captions(w.videoId))
    ensures forall i :: 0 <= i < |videos| && Truthy(ExtractTranscript(captions(videos[i].videoId))) ==>
              WithTranscript(videos[i], ExtractTranscript(captions(videos[i].videoId)).value) in Captioned(videos, captions)
    ensures forall w :: w in Captioned(videos, captions) ==>
              (w.(transcript := None, transcriptLength := None) in (set v | v in videos :: v.(transcript := None, transcriptLength := None)))
    decreases |videos|
  {
    if videos != [] {
      CaptionedSound(videos[1..], captions);
      forall i | 1 <= i < |videos|
        ensures videos[i] == videos[1..][i - 1]
      {
      }
      forall w | w in Captioned(videos[1..], captions)
        ensures w.(transcript := None, transcriptLength := None) in (set v | v in videos :: v.(transcript := None, transcriptLength := None))
      {
        var v :| v in videos[1..] && w.(transcript := None, transcriptLength := None) == v.(transcript := None, transcriptLength := None);
        assert v in videos;
      }
    }
  }

  // ------------------------------------------------------------ all channels

  datatype Mode = UrlsOnly | WithTranscripts

  /** What one channel contributes; a channel whose id cannot be resolved
      contributes nothing. */
  function ChannelVideos(ch: Channel, mode: Mode, hours: int, now: int, web: Web): Outcome<seq<Video>> {
    var c := Cached(ch, web);
    if !Truthy(c.channelId) then Ok([])
    else
      var feed := Recent(FirstEntries(web.feed(c.channelId.value)), c.name, Cutoff(now, hours));
      if feed.Raised? then Raised
      else if mode == UrlsOnly then feed
      else Ok(Captioned(feed.value, web.captions))
  }

  /** The videos of all channels, channel by channel, in order. */
  function Collect(chs: seq<Channel>, mode: Mode, hours: int, now: int, web: Web): Outcome<seq<Video>>
    decreases |chs|
  {
    if chs == [] then Ok([])
    else Outcomes(ChannelVideos(chs[0], mode, hours, now, web), Collect(chs[1..], mode, hours, now, web))
  }

  /** `CHANNELS` after a collection: every entry reached gets its id cached;
      when a feed raises, the entries after it are untouched. */
  function ChannelsAfter(chs: seq<Channel>, mode: Mode, hours: int, now: int, web: Web): (r: seq<Channel>)
    ensures |r| == |chs|
    decreases |chs|
  {
    if chs == [] then []
    else [Cached(chs[0], web)]
         + (if ChannelVideos(chs[0], mode, hours, now, web).Raised? then chs[1..]
            else ChannelsAfter(chs[1..], mode, hours, now, web))
  }

  lemma CollectStep(chs: seq<Channel>, mode: Mode, hours: int, now: int, web: Web)
    requires chs != []
    ensures Collect(chs, mode, hours, now, web)
            == Outcomes(ChannelVideos(chs[0], mode, hours, now, web), Collect(chs[1..], mode, hours, now, web))
    ensures ChannelsAfter(chs, mode, hours, now, web)
            == [Cached(chs[0], web)]
               + (if ChannelVideos(chs[0], mode, hours, now, web).Raised? then chs[1..]
                  else ChannelsAfter(chs[1..], mode, hours, now, web))
  {
  }

  lemma Splice(done: seq<Channel>, orig: seq<Channel>, i: nat, updated: Channel)
    requires |done| == i < |orig|
    ensures (done + orig[i..])[i := updated] == (done + [updated]) + orig[i + 1..]
  {
  }

  /** One channel of the collection loop, in terms of the rest of the list. */
  lemma CollectLoopStep(orig: seq<Channel>, i: nat, results: seq<Video>, done: seq<Channel>,
                        updated: Channel, part: Outcome<seq<Video>>, mode: Mode, hours: int, now: int, web: Web)
    requires i < |orig|
    requires updated == Cached(orig[i], web) && part == ChannelVideos(orig[i], mode, hours, now, web)
    requires Collect(orig, mode, hours, now, web) == Then(results, Collect(orig[i..], mode, hours, now, web))
    requires ChannelsAfter(orig, mode, hours, now, web) == done + ChannelsAfter(orig[i..], mode, hours, now, web)
    ensures part.Raised? ==> Collect(orig, mode, hours, now, web) == Raised
                             && ChannelsAfter(orig, mode, hours, now, web) == (done + [updated]) + orig[i + 1..]
    ensures part.Ok? ==> Collect(orig, mode, hours, now, web) == Then(results + part.value, Collect(orig[i + 1..], mode, hours, now, web))
                         && ChannelsAfter(orig, mode, hours, now, web) == (done + [updated]) + ChannelsAfter(orig[i + 1..], mode, hours, now, web)
  {
    var rest := orig[i..];
    assert rest != [] && rest[0] == orig[i] && rest[1..] == orig[i + 1..];
    CollectStep(rest, mode, hours, now, web);
    var later := Collect(orig[i + 1..], mode, hours, now, web);
    assert Collect(rest, mode, hours, now, web) == Outcomes(part, later);
    if part.Raised? {
      assert ChannelsAfter(rest, mode, hours, now, web) == [updated] + orig[i + 1..];
      ConcatAssoc(done, [updated], orig[i + 1..]);
    } else {
      var laterChannels := ChannelsAfter(orig[i + 1..], mode, hours, now, web);
      assert ChannelsAfter(rest, mode, hours, now, web) == [updated] + laterChannels;
      ConcatAssoc(done, [updated], laterChannels);
      ThenThen(results, part.value, later);
    }
  }

  /** The whole result is the in-order concatenation of each channel's part. */
  lemma {:induction false} CollectAppend(a: seq<Channel>, b: seq<Channel>, mode: Mode, hours: int, now: int, web: Web)
    ensures Collect(a + b, mode, hours, now, web) == Outcomes(Collect(a, mode, hours, now, web), Collect(b, mode, hours, now, web))
    decreases |a|
  {
    if a == [] {
      assert a + b == b;
      ThenNil(Collect(b, mode, hours, now, web));
    } else {
      assert (a + b)[0] == a[0];
      assert (a + b)[1..] == a[1..] + b;
      CollectAppend(a[1..], b, mode, hours, now, web);
      var h := ChannelVideos(a[0], mode, hours, now, web);
      var ra := Collect(a[1..], mode, hours, now, web);
      if h.Ok? && ra.Ok? {
        ThenThen(h.value, ra.value, Collect(b, mode, hours, now, web));
      }
    }
  }

  /** A channel that has no id and whose id cannot be resolved is skipped:
      the channels after it are still collected. */
  lemma SkippedChannel(ch: Channel, rest: seq<Channel>, mode: Mode, hours: int, now: int, web: Web)
    requires !Truthy(ch.channelId) && !Truthy(ResolveChannelId(ch.handle, web))
    ensures Collect([ch] + rest, mode, hours, now, web) == Collect(rest, mode, hours, now, web)
    ensures ChannelsAfter([ch] + rest, mode, hours, now, web) == [ch] + ChannelsAfter(rest, mode, hours, now, web)
  {
    assert ([ch] + rest)[1..] == rest;
    var r := Collect(rest, mode, hours, now, web);
    if r.Ok? {
      assert [] + r.value == r.value;
    }
  }

  /** After a collection that did not raise, every channel whose id could be
      found holds it, so a later collection asks the page for no channel but
      those that failed. */
  lemma {:induction false} CacheFilled(chs: seq<Channel>, mode: Mode, hours: int, now: int, web: Web)
    requires Collect(chs, mode, hours, now, web).Ok?
    ensures forall i :: 0 <= i < |chs| ==>
              var after := ChannelsAfter(chs, mode, hours, now, web)[i];
              after == Cached(chs[i], web)
              && (Truthy(after.channelId) <==> Truthy(chs[i].channelId) || Truthy(ResolveChannelId(chs[i].handle, web)))
    decreases |chs|
  {
    if chs != [] {
      CacheFilled(chs[1..], mode, hours, now, web);
      forall i | 1 <= i < |chs|
        ensures chs[i] == chs[1..][i - 1]
      {
      }
    }
  }

  /** A collection over channels that all hold an id never consults the
      channel pages. */
  lemma {:induction false} CachedIgnoresPages(chs: seq<Channel>, mode: Mode, hours: int, now: int, web: Web, other: string -> Option<string>)
    requires forall i :: 0 <= i < |chs| ==> Truthy(chs[i].channelId)
    ensures Collect(chs, mode, hours, now, web) == Collect(chs, mode, hours, now, web.(page := other))
    ensures ChannelsAfter(chs, mode, hours, now, web) == chs
    decreases |chs|
  {
    if chs != [] {
      CachedIgnoresPages(chs[1..], mode, hours, now, web, other);
      assert [chs[0]] + chs[1..] == chs;
    }
  }

  /** The configured `CHANNELS`: all three come with their id. */
  const Configured: seq<Channel> := [
    Channel("@sosumonkey", "소수몽키", Some("UCC3yfxS5qC6PCwDzetUuEWg")),
    Channel("@orlandocampus", "올랜도 킴 미국주식", Some("UCwSSqi-s0wcH6pJbH3YPZqQ")),
    Channel("@buiknam_tv", "부읽나TV_내집마련부터건물주까지", Some("UC2QeHNJFfuQWB4cy3M-745g"))
  ]

  lemma ConfiguredNeverResolves(mode: Mode, hours: int, now: int, web: Web, other: string -> Option<string>)
    ensures Collect(Configured, mode, hours, now, web) == Collect(Configured, mode, hours, now, web.(page := other))
    ensures ChannelsAfter(Configured, mode, hours, now, web) == Configured
  {
    CachedIgnoresPages(Configured, mode, hours, now, web, other);
  }

  /** Two channels, each with one video inside the window; the first one's id
      cannot be resolved. The result is the second channel's single video. */
  lemma TwoChannelsOneUnresolved(web: Web, now: int)
    requires web.page(ChannelPagePrefix + "@a").None?
    requires web.feed("UCb") == [FeedEntry(Some("t"), Some("v"), Some(now))]
    ensures Collect([Channel("@a", "A", None), Channel("@b", "B", Some("UCb"))], UrlsOnly, RecentHours, now, web)
            == Ok([Video("t", WatchUrlPrefix + "v", "v", now, "B", None, None)])
  {
    var chB := Channel("@b", "B", Some("UCb"));
    SkippedChannel(Channel("@a", "A", None), [chB], UrlsOnly, RecentHours, now, web);
    var e := FeedEntry(Some("t"), Some("v"), Some(now));
    RecentSingle(e, "B", Cutoff(now, RecentHours));
    assert FirstEntries(web.feed("UCb")) == [e];
    assert ChannelVideos(chB, UrlsOnly, RecentHours, now, web) == Ok([FeedVideo(e, "B", now)]);
    assert [chB][1..] == [];
  }

  /** The module-level channel list, updated in place as ids are resolved. */
  class ChannelRegistry {
    var channels: seq<Channel>

    constructor (initial: seq<Channel>)
      ensures channels == initial
    {
      channels := initial;
    }

    /** The caption step of `get_recent_videos_with_transcripts`. */
    static method KeepCaptioned(videos: seq<Video>, captions: string -> CaptionFetch) returns (kept: seq<Video>)
      ensures kept == Captioned(videos, captions)
    {
      kept := [];
      var j := 0;
      while j < |videos|
        invariant 0 <= j <= |videos|
        invariant Captioned(videos, captions) == kept + Captioned(videos[j..], captions)
      {
        CaptionedFrom(videos, j, captions);
        var video := videos[j];
        var transcript := ExtractTranscript(captions(video.videoId));
        if Truthy(transcript) {
          video := WithTranscript(video, transcript.value);
          ConcatAssoc(kept, [video], Captioned(videos[j + 1..], captions));
          kept := kept + [video];
        } else {
          assert [] + Captioned(videos[j + 1..], captions) == Captioned(videos[j + 1..], captions);
        }
        j := j + 1;
      }
      assert videos[j..] == [];
      assert kept + [] == kept;
    }

    /** One iteration of the channel loop: the cached or freshly resolved
        id, then the channel's feed (and captions, on the caption path). */
    static method ChannelStep(ch: Channel, mode: Mode, hours: int, now: int, web: Web)
      returns (updated: Channel, part: Outcome<seq<Video>>)
      ensures updated == Cached(ch, web)
      ensures part == ChannelVideos(ch, mode, hours, now, web)
    {
      updated := ch;
      var channelId := ch.channelId;
      if !Truthy(channelId) {
        channelId := ResolveChannelId(ch.handle, web);
        if !Truthy(channelId) {
          return ch, Ok([]);
        }
        updated := ch.(channelId := channelId);
      }
      var videos := GetRecentVideosFromRss(channelId.value, ch.name, hours, now, web);
      if videos.Raised? {
        return updated, Raised;
      }
      var kept := videos.value;
      if mode == WithTranscripts {
        kept := KeepCaptioned(kept, web.captions);
      }
      part := Ok(kept);
    }

    /** The channel loop over the list `orig`: the collected videos, and
        the list as it stands afterwards with the ids resolved so far. */
    static method CollectChannels(orig: seq<Channel>, mode: Mode, hours: int, now: int, web: Web)
      returns (r: Outcome<seq<Video>>, chans: seq<Channel>)
      ensures r == Collect(orig, mode, hours, now, web)
      ensures chans == ChannelsAfter(orig, mode, hours, now, web)
    {
      chans := orig;
      ghost var done: seq<Channel> := [];
      var results: seq<Video> := [];
      assert orig[0..] == orig;
      ThenNil(Collect(orig, mode, hours, now, web));
      var i := 0;
      while i < |chans|
        invariant 0 <= i <= |chans| == |orig|
        invariant |done| == i && chans == done + orig[i..]
        invariant Collect(orig, mode, hours, now, web) == Then(results, Collect(orig[i..], mode, hours, now, web))
        invariant ChannelsAfter(orig, mode, hours, now, web) == done + ChannelsAfter(orig[i..], mode, hours, now, web)
      {
        var updated, part := ChannelStep(chans[i], mode, hours, now, web);
        CollectLoopStep(orig, i, results, done, updated, part, mode, hours, now, web);
        Splice(done, orig, i, updated);
        chans := chans[i := updated];
        if part.Raised? {
          return Raised, chans;
        }
        results := results + part.value;
        done := done + [updated];
        i := i + 1;
      }
      assert orig[i..] == [];
      assert results + [] == results;
      return Ok(results), chans;
    }

    /** The channel loop shared by `get_recent_video_urls` (UrlsOnly) and
        `get_recent_videos_with_transcripts` (WithTranscripts); the channel
        list is updated in place as ids are resolved. */
    method CollectVideos(mode: Mode, hours: int, now: int, web: Web) returns (r: Outcome<seq<Video>>)
      modifies this
      ensures r == Collect(old(channels), mode, hours, now, web)
      ensures channels == ChannelsAfter(old(channels), mode, hours, now, web)
    {
      var chans;
      r, chans := CollectChannels(channels, mode, hours, now, web);
      channels := chans;
    }

    method GetRecentVideoUrls(hours: int, now: int, web: Web) returns (r: Outcome<seq<Video>>)
      modifies this
      ensures r == Collect(old(channels), UrlsOnly, hours, now, web)
      ensures channels == ChannelsAfter(old(channels), UrlsOnly, hours, now, web)
    {
      r := CollectVideos(UrlsOnly, hours, now, web);
    }

    method GetRecentVideosWithTranscripts(hours: int, now: int, web: Web) returns (r: Outcome<seq<Video>>)
      modifies this
      ensures r == Collect(old(channels), WithTranscripts, hours, now, web)
      ensures channels == ChannelsAfter(old(channels), WithTranscripts, hours, now, web)
    {
      r := CollectVideos(WithTranscripts, hours, now, web);
    }
  }
}
