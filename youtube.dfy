/**
 * YouTube channel data and fallback (plugins/youtube_integration/youtube_plugin.py).
 * The Data API is an oracle from the API key to its answers; every answer is an input
 * `Response` carrying the `items` list (an absent list is the empty one).
 */
module YouTube {
  import opened Wrappers
  import opened Text
  import opened Config

  const DefaultUsername := "BryanHoward"
  const VideoDescriptionLimit := 200
  const PlaylistDescriptionLimit := 150

  function ChannelUrl(username: string): string {
    "https://www.youtube.com/@" + username
  }

  function WatchUrl(videoId: string): string {
    "https://www.youtube.com/watch?v=" + videoId
  }

  function EmbedUrl(videoId: string): string {
    "https://www.youtube.com/embed/" + videoId
  }

  function PlaylistUrl(playlistId: string): string {
    "https://www.youtube.com/playlist?list=" + playlistId
  }

  // ---- Upstream items ----

  datatype Thumbnail = Thumbnail(url: Option<string>)

  /** A `thumbnails` dictionary; an absent one is the empty map. */
  type Thumbnails = map<string, Thumbnail>

  /** `thumbnails.get('medium', {}).get('url', '')`. */
  function MediumUrl(t: Thumbnails): (u: string)
    ensures "medium" !in t ==> u == ""
    ensures "medium" in t ==> u == t["medium"].url.GetOr("")
  {
    if "medium" in t then t["medium"].url.GetOr("") else ""
  }

  /** An item of /channels?part=statistics,snippet; counts already converted by int(). */
  datatype ChannelItem = ChannelItem(
    subscriberCount: Option<int>, videoCount: Option<int>, viewCount: Option<int>,
    title: Option<string>, description: Option<string>, thumbnails: Thumbnails)

  /** An item of /playlistItems?part=snippet. */
  datatype PlaylistItemJson = PlaylistItemJson(
    videoId: string, title: string, description: Option<string>, thumbnails: Thumbnails, publishedAt: string)

  /** An item of /videos?part=contentDetails,statistics. */
  datatype VideoItemJson = VideoItemJson(duration: Option<string>, viewCount: Option<int>, likeCount: Option<int>)

  /** An item of /playlists?part=snippet,contentDetails. */
  datatype PlaylistJson = PlaylistJson(
    id: string, title: string, description: Option<string>, thumbnails: Thumbnails,
    itemCount: Option<int>, publishedAt: string)

  /** The Data API's answers for one API key, by request parameter. */
  datatype Api = Api(
    channelsByUsername: string -> Response<seq<string>>,      // ids of /channels?forUsername=
    channelStats: string -> Response<seq<ChannelItem>>,       // /channels?id=&part=statistics,snippet
    channelUploads: string -> Response<seq<string>>,          // uploads playlist ids of /channels?part=contentDetails
    playlistItems: string -> Response<seq<PlaylistItemJson>>, // /playlistItems?playlistId=
    videos: string -> Response<seq<VideoItemJson>>,           // /videos?id=
    playlists: string -> Response<seq<PlaylistJson>>)         // /playlists?channelId=

  // ---- Shaped records ----

  /** Channel statistics; NoStats is the empty dictionary of a channel without items. */
  datatype ChannelStats =
    | Stats(subscriberCount: int, videoCount: int, viewCount: int, title: string, description: string, thumbnail: string)
    | NoStats

  datatype Channel = Channel(id: string, username: string, url: string, stats: ChannelStats)

  datatype Video = Video(
    id: string, title: string, description: string, url: string, embedUrl: string,
    thumbnail: string, publishedAt: string, duration: string, viewCount: int, likeCount: int)

  datatype Playlist = Playlist(
    id: string, title: string, description: string, url: string, thumbnail: string,
    videoCount: int, publishedAt: string)

  /** `youtube_data`; `fallback` is false where the key is absent. */
  datatype YouTubeData = YouTubeData(
    channel: Channel, videos: seq<Video>, playlists: seq<Playlist>, lastUpdated: string, fallback: bool)

  // ---- Shaping ----

  /**
   * The channel id to use: the configured one, or else the one `_get_channel_id` looks
   * up by username ("" when it finds no channel). None stands for a raised lookup.
   */
  function ResolveChannelId(api: Api, configuredId: string, username: string): (r: Option<string>)
    ensures configuredId != "" ==> r == Some(configuredId)
    ensures configuredId == "" && username == "" ==> r == Some("")
    ensures configuredId == "" && username != "" ==>
              (r.None? <==> !api.channelsByUsername(username).Ok?)
              && (api.channelsByUsername(username).Ok? && api.channelsByUsername(username).body != [] ==>
                    r == Some(api.channelsByUsername(username).body[0]))
              && (api.channelsByUsername(username) == Ok([]) ==> r == Some(""))
  {
    if configuredId == "" && username != "" then
      match api.channelsByUsername(username)
      case Ok(ids) => Some(if ids != [] then ids[0] else "")
      case _ => None
    else Some(configuredId)
  }

  /** `_get_channel_stats`: None stands for the exception of a failed fetch. */
  function GetChannelStats(api: Api, channelId: string): (r: Option<ChannelStats>)
    ensures r.None? <==> !api.channelStats(channelId).Ok?
    ensures r.Some? ==> (r.value.NoStats? <==> api.channelStats(channelId).body == [])
  {
    match api.channelStats(channelId)
    case Ok(items) =>
      if items == [] then Some(NoStats)
      else
        var item := items[0];
        Some(Stats(item.subscriberCount.GetOr(0), item.videoCount.GetOr(0), item.viewCount.GetOr(0),
                   item.title.GetOr(""), item.description.GetOr(""), MediumUrl(item.thumbnails)))
    case _ => None
  }

  /** `_get_video_details`, which never raises: None is its empty dictionary. */
  function VideoDetails(api: Api, videoId: string): (r: Option<VideoItemJson>)
    ensures r.Some? <==> api.videos(videoId).Ok? && api.videos(videoId).body != []
  {
    match api.videos(videoId)
    case Ok(items) => if items != [] then Some(items[0]) else None
    case _ => None
  }

  /** One video entry, its details defaulting to "", 0 and 0. */
  function ShapeVideo(api: Api, item: PlaylistItemJson): (v: Video)
    ensures v.id == item.videoId && v.url == WatchUrl(v.id) && v.embedUrl == EmbedUrl(v.id)
    ensures var d := item.description.GetOr("");
            (|d| > 200 ==> v.description == d[..200] + "...") && (|d| <= 200 ==> v.description == d)
    ensures VideoDetails(api, item.videoId).None? ==> v.duration == "" && v.viewCount == 0 && v.likeCount == 0
  {
    var description := Clip(item.description.GetOr(""), VideoDescriptionLimit, VideoDescriptionLimit);
    var details := VideoDetails(api, item.videoId);
    var info := details.GetOr(VideoItemJson(None, None, None));
    Video(item.videoId, item.title, description, WatchUrl(item.videoId), EmbedUrl(item.videoId),
          MediumUrl(item.thumbnails), item.publishedAt,
          info.duration.GetOr(""), info.viewCount.GetOr(0), info.likeCount.GetOr(0))
  }

  /** The latest videos of a channel: None stands for an exception, which is not caught here. */
  function LatestVideos(api: Api, channelId: string): (r: Option<seq<Video>>)
    ensures !api.channelUploads(channelId).Ok? ==> r.None?
    ensures api.channelUploads(channelId) == Ok([]) ==> r == Some([])
    ensures var u := api.channelUploads(channelId);
            u.Ok? && u.body != [] ==>
              && (r.Some? <==> api.playlistItems(u.body[0]).Ok?)
              && (r.Some? ==> |r.value| == |api.playlistItems(u.body[0]).body|
                              && forall k :: 0 <= k < |r.value| ==>
                                   r.value[k] == ShapeVideo(api, api.playlistItems(u.body[0]).body[k]))
  {
    var uploads := api.channelUploads(channelId);
    if !uploads.Ok? then None
    else if uploads.body == [] then Some([])
    else
      var response := api.playlistItems(uploads.body[0]);
      if !response.Ok? then None
      else Some(seq(|response.body|, k requires 0 <= k < |response.body| => ShapeVideo(api, response.body[k])))
  }

  /** `_get_latest_videos`. */
  method GetLatestVideos(api: Api, channelId: string) returns (videos: Option<seq<Video>>)
    ensures videos == LatestVideos(api, channelId)
    ensures !api.channelUploads(channelId).Ok? ==> videos.None?
    ensures var u := api.channelUploads(channelId);
            u.Ok? && u.body != [] ==>
              && (videos.Some? <==> api.playlistItems(u.body[0]).Ok?)
              && (videos.Some? ==> |videos.value| == |api.playlistItems(u.body[0]).body|
                                   && forall k :: 0 <= k < |videos.value| ==>
                                        videos.value[k] == ShapeVideo(api, api.playlistItems(u.body[0]).body[k]))
    ensures videos.Some? ==> forall k :: 0 <= k < |videos.value| ==> videos.value[k].url == WatchUrl(videos.value[k].id)
  {
    var uploads := api.channelUploads(channelId);
    if !uploads.Ok? {
      return None;
    }
    if uploads.body == [] {
      return Some([]);
    }
    var response := api.playlistItems(uploads.body[0]);
    if !response.Ok? {
      return None;
    }
    var items := response.body;
    var list: seq<Video> := [];
    for i := 0 to |items|
      invariant |list| == i
      invariant forall k :: 0 <= k < i ==> list[k] == ShapeVideo(api, items[k])
    {
      var item := items[i];
      var details := VideoDetails(api, item.videoId);
      var info := details.GetOr(VideoItemJson(None, None, None));
      var video := Video(item.videoId, item.title,
                         Clip(item.description.GetOr(""), VideoDescriptionLimit, VideoDescriptionLimit),
                         WatchUrl(item.videoId), EmbedUrl(item.videoId), MediumUrl(item.thumbnails),
                         item.publishedAt, info.duration.GetOr(""), info.viewCount.GetOr(0), info.likeCount.GetOr(0));
      list := list + [video];
    }
    ghost var expected := LatestVideos(api, channelId).value;
    assert |expected| == |items|;
    assert forall k :: 0 <= k < |list| ==> list[k] == expected[k];
    assert list == expected;
    return Some(list);
  }

  /** One playlist entry. */
  function ShapePlaylist(p: PlaylistJson): (q: Playlist)
    ensures q.id == p.id && q.url == PlaylistUrl(p.id)
    ensures var d := p.description.GetOr("");
            (|d| > 150 ==> q.description == d[..150] + "...") && (|d| <= 150 ==> q.description == d)
  {
    Playlist(p.id, p.title, Clip(p.description.GetOr(""), PlaylistDescriptionLimit, PlaylistDescriptionLimit),
             PlaylistUrl(p.id), MediumUrl(p.thumbnails), p.itemCount.GetOr(0), p.publishedAt)
  }

  /** The playlists of a channel; a failed fetch gives the empty list, never an error. */
  function Playlists(api: Api, channelId: string): seq<Playlist> {
    match api.playlists(channelId)
    case Ok(items) => seq(|items|, k requires 0 <= k < |items| => ShapePlaylist(items[k]))
    case _ => []
  }

  /** `_get_playlists`. */
  method GetPlaylists(api: Api, channelId: string) returns (playlists: seq<Playlist>)
    ensures !api.playlists(channelId).Ok? ==> playlists == []
    ensures api.playlists(channelId).Ok? ==> |playlists| == |api.playlists(channelId).body|
    ensures playlists == Playlists(api, channelId)
  {
    var response := api.playlists(channelId);
    if !response.Ok? {
      return [];
    }
    var items := response.body;
    playlists := [];
    for i := 0 to |items|
      invariant |playlists| == i
      invariant forall k :: 0 <= k < i ==> playlists[k] == ShapePlaylist(items[k])
    {
      playlists := playlists + [ShapePlaylist(items[i])];
    }
  }

  /** `_get_fallback_data`. */
  function FallbackData(now: string): (d: YouTubeData)
    ensures d.fallback && d.videos == [] && d.playlists == []
    ensures d.channel.id == "" && d.channel.username == DefaultUsername
    ensures d.channel.url == ChannelUrl(DefaultUsername)
    ensures d.lastUpdated == now
  {
    YouTubeData(
      Channel("", DefaultUsername, ChannelUrl(DefaultUsername),
              Stats(0, 0, 0, "Bryan Howard", "Developer tutorials and coding content", "")),
      [], [], now, true)
  }

  /**
   * What `generate_context` stores once an API key is set: channel statistics and latest
   * videos (either one failing substitutes the fallback), then playlists.
   */
  function ChannelData(api: Api, settings: Settings, now: string): (d: YouTubeData)
    ensures var username := settings.youtubeChannelUsername.GetOr(DefaultUsername);
            var id := ResolveChannelId(api, settings.youtubeChannelId.GetOr(""), username);
            && (d.fallback <==> id.None? || id.value == "" || GetChannelStats(api, id.value).None?
                                || LatestVideos(api, id.value).None?)
            && (d.fallback ==> d == FallbackData(now))
            && (!d.fallback ==>
                  && d.channel == Channel(id.value, username, ChannelUrl(username), GetChannelStats(api, id.value).value)
                  && d.videos == LatestVideos(api, id.value).value
                  && d.playlists == Playlists(api, id.value)
                  && d.lastUpdated == now)
  {
    var username := settings.youtubeChannelUsername.GetOr(DefaultUsername);
    var id := ResolveChannelId(api, settings.youtubeChannelId.GetOr(""), username);
    if id.None? || id.value == "" then FallbackData(now)
    else
      var stats := GetChannelStats(api, id.value);
      var videos := LatestVideos(api, id.value);
      if stats.None? || videos.None? then FallbackData(now)
      else
        YouTubeData(Channel(id.value, username, ChannelUrl(username), stats.value), videos.value,
                    Playlists(api, id.value), now, false)
  }

  /** The data for an API key: without one, the fallback. */
  function ContextData(apiKey: Option<string>, server: string -> Api, settings: Settings, now: string): (d: YouTubeData)
    ensures !Truthy(apiKey) ==> d == FallbackData(now)
    ensures Truthy(apiKey) ==> d == ChannelData(server(apiKey.value), settings, now)
  {
    if !Truthy(apiKey) then FallbackData(now) else ChannelData(server(apiKey.value), settings, now)
  }

  /** However the settings and the server look, the fallback names the default channel. */
  lemma FallbackNamesDefaultChannel(apiKey: Option<string>, server: string -> Api, settings: Settings, now: string)
    requires ContextData(apiKey, server, settings, now).fallback
    ensures ContextData(apiKey, server, settings, now).channel.username == "BryanHoward"
    ensures ContextData(apiKey, server, settings, now).channel.url == "https://www.youtube.com/@BryanHoward"
  {
  }

  /** With a channel id configured, the username lookup is never consulted. */
  lemma ConfiguredIdSkipsLookup(api: Api, api2: Api, settings: Settings, now: string)
    requires Truthy(settings.youtubeChannelId)
    requires forall x :: api2.channelStats(x) == api.channelStats(x)
    requires forall x :: api2.channelUploads(x) == api.channelUploads(x)
    requires forall x :: api2.playlistItems(x) == api.playlistItems(x)
    requires forall x :: api2.videos(x) == api.videos(x)
    requires forall x :: api2.playlists(x) == api.playlists(x)
    ensures ChannelData(api2, settings, now) == ChannelData(api, settings, now)
  {
    var id := settings.youtubeChannelId.value;
    var uploads := api.channelUploads(id);
    if uploads.Ok? && uploads.body != [] && api.playlistItems(uploads.body[0]).Ok? {
      var items := api.playlistItems(uploads.body[0]).body;
      var videos, videos2 := LatestVideos(api, id).value, LatestVideos(api2, id).value;
      assert forall k :: 0 <= k < |items| ==> videos2[k] == ShapeVideo(api2, items[k]) == ShapeVideo(api, items[k]) == videos[k];
      assert videos2 == videos;
    }
  }

  /** A failed playlist fetch keeps the channel data: the list is just empty. */
  lemma PlaylistFailureIsNotFatal(api: Api, settings: Settings, now: string)
    requires !ChannelData(api, settings, now).fallback
    requires !api.playlists(ChannelData(api, settings, now).channel.id).Ok?
    ensures ChannelData(api, settings, now).playlists == []
  {
  }

  /**
   * Every stored video is a shaped playlist item: it has its watch url, a description of
   * at most 200 characters plus "...", and empty details when its details fetch failed.
   */
  lemma StoredVideosShaped(api: Api, settings: Settings, now: string)
    requires !ChannelData(api, settings, now).fallback
    ensures var d := ChannelData(api, settings, now);
            forall k :: 0 <= k < |d.videos| ==>
              && d.videos[k].url == WatchUrl(d.videos[k].id)
              && |d.videos[k].description| <= VideoDescriptionLimit + 3
              && (VideoDetails(api, d.videos[k].id).None? ==>
                    d.videos[k].duration == "" && d.videos[k].viewCount == 0 && d.videos[k].likeCount == 0)
  {
    var d := ChannelData(api, settings, now);
    var username := settings.youtubeChannelUsername.GetOr(DefaultUsername);
    var id := ResolveChannelId(api, settings.youtubeChannelId.GetOr(""), username).value;
    var u := api.channelUploads(id);
    if u.Ok? && u.body != [] {
      var items := api.playlistItems(u.body[0]).body;
      forall k | 0 <= k < |d.videos|
        ensures |d.videos[k].description| <= VideoDescriptionLimit + 3
      {
        var desc := items[k].description.GetOr("");
        assert d.videos[k] == ShapeVideo(api, items[k]);
        if |desc| > VideoDescriptionLimit {
          assert d.videos[k].description == desc[..VideoDescriptionLimit] + "...";
        }
      }
    }
  }

  /** The YouTube data generator and its `youtube_data` field (None: the initial `{}`). */
  class DataGenerator {
    const settings: Settings
    var youtubeData: Option<YouTubeData>

    constructor (settings: Settings)
      ensures this.settings == settings && youtubeData == None
    {
      this.settings := settings;
      youtubeData := None;
    }

    /**
     * `generate_context`; `apiKey` is the YOUTUBE_API_KEY environment variable and
     * `server` gives the Data API's answers for a key.
     */
    method GenerateContext(apiKey: Option<string>, server: string -> Api, now: string)
      modifies this
      ensures youtubeData == Some(ContextData(apiKey, server, settings, now))
    {
      if apiKey.None? || apiKey.value == "" {
        youtubeData := Some(FallbackData(now));
        return;
      }
      var api := server(apiKey.value);
      var username := settings.youtubeChannelUsername.GetOr(DefaultUsername);
      var channelId := settings.youtubeChannelId.GetOr("");
      if channelId == "" && username != "" {
        var lookup := api.channelsByUsername(username);
        if !lookup.Ok? {
          youtubeData := Some(FallbackData(now));
          return;
        }
        channelId := if lookup.body != [] then lookup.body[0] else "";
      }
      if channelId == "" {
        youtubeData := Some(FallbackData(now));
        return;
      }
      var stats := GetChannelStats(api, channelId);
      if stats.None? {
        youtubeData := Some(FallbackData(now));
        return;
      }
      var videos := GetLatestVideos(api, channelId);
      if videos.None? {
        youtubeData := Some(FallbackData(now));
        return;
      }
      var playlists := GetPlaylists(api, channelId);
      youtubeData := Some(YouTubeData(Channel(channelId, username, ChannelUrl(username), stats.value),
                                      videos.value, playlists, now, false));
    }
  }
}
