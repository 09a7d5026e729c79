/**
 * The playback queue engine of the browser client. The module-level
 * globals of the client become the fields of one App object, and
 * each handler that updates them becomes a method.
 *
 * Network replies, which the client awaits, are parameters of the
 * methods that await them: the stream endpoint's reply, the playlist
 * listing, whether a POST was delivered.
 */
module Player {
  import opened Wrappers
  import opened Tracks

  /**
   * The reply to a stream request: `{url}` with a 2xx status, or a failed
   * fetch. The url may be null; the page then assigns null to `audio.src`,
   * which becomes the source "null" that fails to load. `StreamOk(None)`
   * stands for that, so after it `audioSrc == None` means that broken
   * source, not an element that was never given one.
   */
  datatype StreamReply = StreamOk(url: Option<string>) | StreamFailed

  /**
   * The reply to a fetch whose JSON body the client walks: the fetch or
   * the JSON parse failed, the body parsed to something without the
   * expected list (such as an error object `{detail}`), or the list.
   */
  datatype Reply<T> = FetchFailed | Malformed | Received(value: T)

  /** What the play/pause button shows. */
  datatype Button = PlayIcon | PauseIcon | Spinner | ErrorIcon

  /** The label of the list a track was clicked in. */
  const SearchContext := "search"
  const HomeContext := "home"

  class App {
    var currentTrack: Option<Track>
    var currentQueue: seq<Track>
    var currentQueueIndex: int
    var lastSearchResults: seq<Track>
    /** `window.homeTracks`, undefined until the home view has loaded. */
    var homeTracks: Option<seq<Track>>
    var loadedPlaylists: map<int, Playlist>
    var likedTrackIds: set<Value>
    var isPlaying: bool
    var trackToAddToPlaylist: Option<Track>
    // the audio element
    var audioSrc: Option<string>
    var audioPaused: bool
    var audioTime: nat
    var playButton: Button

    /** The state the script starts in. */
    constructor ()
      ensures currentTrack == None && currentQueue == [] && currentQueueIndex == -1
      ensures lastSearchResults == [] && homeTracks == None
      ensures loadedPlaylists == map[] && likedTrackIds == {}
      ensures !isPlaying && trackToAddToPlaylist == None
      ensures audioSrc == None && audioPaused && audioTime == 0 && playButton == PlayIcon
    {
      currentTrack := None;
      currentQueue := [];
      currentQueueIndex := -1;
      lastSearchResults := [];
      homeTracks := None;
      loadedPlaylists := map[];
      likedTrackIds := {};
      isPlaying := false;
      trackToAddToPlaylist := None;
      audioSrc := None;
      audioPaused := true;
      audioTime := 0;
      playButton := PlayIcon;
    }

    /** The cursor points at a track of the queue. */
    predicate CursorInRange()
      reads this
    {
      0 <= currentQueueIndex < |currentQueue|
    }

    /** Whether the heart of a rendered track is filled: its resolved id is in the liked set. */
    predicate IsLiked(t: Track)
      reads this
    {
      ResolveId(t) in likedTrackIds
    }

    /** `downloadCurrentTrack`: the identifier it opens a download for, or None when nothing was played yet. */
    function DownloadId(): Option<Value>
      reads this
    {
      match currentTrack
      case None => None
      case Some(t) => Some(ResolveId(t))
    }

    /**
     * The liked set and the playlist table after `refreshLikedTracks`
     * received `listing`, when they held `wasLiked` and `wasLoaded`
     * before. Both are cleared before the body is walked, so a body that
     * is not a list leaves them empty; a failed fetch or parse leaves them
     * as they were.
     */
    predicate Refreshed(listing: Reply<seq<Playlist>>, wasLiked: set<Value>, wasLoaded: map<int, Playlist>)
      reads this
    {
      match listing
      case FetchFailed => likedTrackIds == wasLiked && loadedPlaylists == wasLoaded
      case Malformed => likedTrackIds == {} && loadedPlaylists == map[]
      case Received(pls) => likedTrackIds == LikedIds(pls) && loadedPlaylists == PlaylistTable(pls)
    }

    /**
     * The playback state once `playTrackFromQueue` has taken up track `t`:
     * it is the current track, its resolved id was requested and is the id
     * a download would now open, and the stream reply either set the audio
     * source (which rewinds the element to position 0) and started
     * playback, or left the audio element and the playing flag as they
     * were (`was…`) and shows the error icon.
     */
    predicate Started(t: Track, reply: StreamReply, requested: Option<Value>,
                      wasPlaying: bool, wasPaused: bool, wasSrc: Option<string>, wasTime: nat)
      reads this
    {
      && currentTrack == Some(t)
      && requested == Some(ResolveId(t))
      && DownloadId() == requested
      && (reply.StreamOk? ==> isPlaying && !audioPaused && audioSrc == reply.url && audioTime == 0 && playButton == PauseIcon)
      && (reply.StreamFailed? ==> isPlaying == wasPlaying && audioPaused == wasPaused && audioSrc == wasSrc
                                  && audioTime == wasTime && playButton == ErrorIcon)
    }

    /**
     * `refreshLikedTracks`. On a list of playlists, the liked set and the
     * playlist table are rebuilt from scratch from it; on a body that is
     * not a list both end up empty; when the fetch fails, nothing changes.
     */
    method RefreshLikedTracks(listing: Reply<seq<Playlist>>)
      modifies this`likedTrackIds, this`loadedPlaylists
      ensures Refreshed(listing, old(likedTrackIds), old(loadedPlaylists))
      ensures listing.Received? ==> forall id :: id in loadedPlaylists ==>
                forall j :: 0 <= j < |loadedPlaylists[id].songs| ==> IsLiked(loadedPlaylists[id].songs[j])
    {
      if listing.FetchFailed? {
        return;
      }
      likedTrackIds := {};
      loadedPlaylists := map[];
      if listing.Malformed? {
        // `forEach` is not a function of the body: the handler throws here
        return;
      }
      var pls := listing.value;
      var i := 0;
      while i < |pls|
        invariant 0 <= i <= |pls|
        invariant likedTrackIds == LikedIds(pls[..i])
        invariant loadedPlaylists == PlaylistTable(pls[..i])
      {
        var pl := pls[i];
        assert pls[..i + 1][..i] == pls[..i] && pls[..i + 1][i] == pl;
        loadedPlaylists := loadedPlaylists[pl.id := pl];
        var j := 0;
        while j < |pl.songs|
          invariant 0 <= j <= |pl.songs|
          invariant likedTrackIds == LikedIds(pls[..i]) + SongIds(pl.songs[..j])
          modifies this`likedTrackIds
        {
          assert pl.songs[..j + 1][..j] == pl.songs[..j];
          likedTrackIds := likedTrackIds + {ResolveId(pl.songs[j])};
          j := j + 1;
        }
        assert pl.songs[..j] == pl.songs;
        i := i + 1;
      }
      assert pls[..i] == pls;
      forall id | id in loadedPlaylists
        ensures forall j :: 0 <= j < |loadedPlaylists[id].songs| ==> IsLiked(loadedPlaylists[id].songs[j])
      {
        PlaylistTableExactly(pls);
        var k :| 0 <= k < |pls| && pls[k] == loadedPlaylists[id] && pls[k].id == id &&
                 forall j :: k < j < |pls| ==> pls[j].id != id;
        forall j | 0 <= j < |pls[k].songs| ensures ResolveId(pls[k].songs[j]) in likedTrackIds {
          SongIsLiked(pls, k, j);
        }
      }
    }

    /** `updatePlayBtn`: the button follows `isPlaying`. */
    method UpdatePlayButton()
      modifies this`playButton
      ensures playButton == if isPlaying then PauseIcon else PlayIcon
    {
      playButton := if isPlaying then PauseIcon else PlayIcon;
    }

    /**
     * `playTrackFromQueue`. With the cursor outside the queue it does
     * nothing. Otherwise the track under the cursor becomes the current
     * track, its resolved id is requested (for the history record and the
     * stream, whatever that id is), and the stream reply either starts
     * playback from position 0 or shows the error icon.
     */
    method PlayTrackFromQueue(reply: StreamReply) returns (requested: Option<Value>)
      modifies this`currentTrack, this`playButton, this`audioSrc, this`audioPaused, this`isPlaying, this`audioTime
      ensures !old(CursorInRange()) ==> requested.None? && unchanged(this)
      ensures old(CursorInRange()) ==>
                Started(old(currentQueue[currentQueueIndex]), reply, requested,
                        old(isPlaying), old(audioPaused), old(audioSrc), old(audioTime))
    {
      if currentQueueIndex < 0 || currentQueueIndex >= |currentQueue| {
        return None;
      }
      var track := currentQueue[currentQueueIndex];
      currentTrack := Some(track);
      playButton := Spinner;
      var realId := ResolveId(track);
      requested := Some(realId);
      match reply {
        case StreamOk(url) =>
          // assigning `src` runs the media element's load algorithm, which rewinds it
          audioSrc := url;
          audioTime := 0;
          audioPaused := false;
          isPlaying := true;
          UpdatePlayButton();
        case StreamFailed =>
          playButton := ErrorIcon;
      }
    }

    /**
     * `playContextTrack`: a click in the search results or on the home
     * page. The clicked list replaces the queue and the index becomes the
     * cursor, unchecked, but only when the list is non-empty; otherwise
     * nothing happens.
     */
    method PlayContextTrack(index: int, contextName: string, reply: StreamReply) returns (requested: Option<Value>)
      modifies this`currentQueue, this`currentQueueIndex
      modifies this`currentTrack, this`playButton, this`audioSrc, this`audioPaused, this`isPlaying, this`audioTime
      ensures var source := ContextList(old(lastSearchResults), old(homeTracks), contextName);
              && (|source| == 0 ==> requested.None? && unchanged(this))
              && (|source| > 0 ==> currentQueue == source && currentQueueIndex == index)
              && (|source| > 0 && 0 <= index < |source| ==>
                    Started(source[index], reply, requested, old(isPlaying), old(audioPaused), old(audioSrc), old(audioTime)))
              && (|source| > 0 && !(0 <= index < |source|) ==>
                    requested.None? &&
                    unchanged(this`currentTrack, this`playButton, this`audioSrc, this`audioPaused, this`isPlaying, this`audioTime))
    {
      var sourceList := ContextList(lastSearchResults, homeTracks, contextName);
      requested := None;
      if |sourceList| > 0 {
        currentQueue := sourceList;
        currentQueueIndex := index;
        requested := PlayTrackFromQueue(reply);
      }
    }

    /**
     * `playLibraryTrack`: a click on a song of a loaded playlist. That
     * playlist's songs replace the queue and the index becomes the cursor,
     * unchecked, when the playlist is loaded and has songs; otherwise
     * nothing happens.
     */
    method PlayLibraryTrack(playlistId: int, index: int, reply: StreamReply) returns (requested: Option<Value>)
      modifies this`currentQueue, this`currentQueueIndex
      modifies this`currentTrack, this`playButton, this`audioSrc, this`audioPaused, this`isPlaying, this`audioTime
      ensures var found := playlistId in old(loadedPlaylists) && |old(loadedPlaylists)[playlistId].songs| > 0;
              && (!found ==> requested.None? && unchanged(this))
              && (found ==> currentQueue == old(loadedPlaylists)[playlistId].songs && currentQueueIndex == index)
              && (found && 0 <= index < |currentQueue| ==>
                    Started(currentQueue[index], reply, requested, old(isPlaying), old(audioPaused), old(audioSrc), old(audioTime)))
              && (found && !(0 <= index < |currentQueue|) ==>
                    requested.None? &&
                    unchanged(this`currentTrack, this`playButton, this`audioSrc, this`audioPaused, this`isPlaying, this`audioTime))
    {
      requested := None;
      if playlistId in loadedPlaylists && |loadedPlaylists[playlistId].songs| > 0 {
        currentQueue := loadedPlaylists[playlistId].songs;
        currentQueueIndex := index;
        requested := PlayTrackFromQueue(reply);
      }
    }

    /**
     * `playNext`. Before the last track the cursor moves on by one. At or
     * past the last track of a non-empty queue it jumps to a random track
     * of the queue (any index may come up, the same one included). With an
     * empty queue playback stops.
     */
    method PlayNext(reply: StreamReply) returns (requested: Option<Value>)
      modifies this`currentQueueIndex
      modifies this`currentTrack, this`playButton, this`audioSrc, this`audioPaused, this`isPlaying, this`audioTime
      ensures |currentQueue| > 0 && old(currentQueueIndex) < |currentQueue| - 1 ==>
                currentQueueIndex == old(currentQueueIndex) + 1
      ensures |currentQueue| > 0 && old(currentQueueIndex) >= |currentQueue| - 1 ==> CursorInRange()
      ensures old(CursorInRange()) ==> CursorInRange()
      ensures CursorInRange() ==>
                Started(currentQueue[currentQueueIndex], reply, requested,
                        old(isPlaying), old(audioPaused), old(audioSrc), old(audioTime))
      ensures |currentQueue| > 0 && !CursorInRange() ==>
                requested.None? &&
                unchanged(this`currentTrack, this`playButton, this`audioSrc, this`audioPaused, this`isPlaying, this`audioTime)
      ensures |currentQueue| == 0 ==>
                currentQueueIndex == old(currentQueueIndex) && !isPlaying && playButton == PlayIcon && requested.None?
                && unchanged(this`currentTrack, this`audioSrc, this`audioPaused, this`audioTime)
    {
      requested := None;
      if |currentQueue| > 0 && currentQueueIndex < |currentQueue| - 1 {
        currentQueueIndex := currentQueueIndex + 1;
        requested := PlayTrackFromQueue(reply);
      } else if |currentQueue| > 0 {
        // Math.floor(Math.random() * currentQueue.length)
        var randomIndex :| 0 <= randomIndex < |currentQueue|;
        currentQueueIndex := randomIndex;
        requested := PlayTrackFromQueue(reply);
      } else {
        isPlaying := false;
        UpdatePlayButton();
      }
    }

    /**
     * `playPrev`. After the first track of a non-empty queue the cursor
     * moves back by one and that track is played; otherwise the cursor
     * stays and the audio element rewinds to position 0.
     */
    method PlayPrev(reply: StreamReply) returns (requested: Option<Value>)
      modifies this`currentQueueIndex
      modifies this`currentTrack, this`playButton, this`audioSrc, this`audioPaused, this`isPlaying, this`audioTime
      ensures var moves := |currentQueue| > 0 && old(currentQueueIndex) > 0;
              && (moves ==> currentQueueIndex == old(currentQueueIndex) - 1)
              && (moves && CursorInRange() ==>
                    Started(currentQueue[currentQueueIndex], reply, requested,
                            old(isPlaying), old(audioPaused), old(audioSrc), old(audioTime)))
              && (moves && !CursorInRange() ==>
                    requested.None? &&
                    unchanged(this`currentTrack, this`playButton, this`audioSrc, this`audioPaused, this`isPlaying, this`audioTime))
              && (!moves ==>
                    currentQueueIndex == old(currentQueueIndex) && audioTime == 0 && requested.None?
                    && unchanged(this`currentTrack, this`playButton, this`audioSrc, this`audioPaused, this`isPlaying))
      ensures old(CursorInRange()) ==> CursorInRange()
    {
      requested := None;
      if |currentQueue| > 0 && currentQueueIndex > 0 {
        currentQueueIndex := currentQueueIndex - 1;
        requested := PlayTrackFromQueue(reply);
      } else {
        audioTime := 0;
      }
    }

    /** `togglePlay`: a paused element resumes and playback is on; a playing one pauses and playback is off. */
    method TogglePlay()
      modifies this`audioPaused, this`isPlaying, this`playButton
      ensures audioPaused == !old(audioPaused)
      ensures isPlaying == old(audioPaused)
      ensures playButton == if isPlaying then PauseIcon else PlayIcon
    {
      if audioPaused {
        audioPaused := false;
        isPlaying := true;
      } else {
        audioPaused := true;
        isPlaying := false;
      }
      UpdatePlayButton();
    }

    /**
     * `handleSearch`: a list of results becomes the list that search
     * clicks play from; a failed fetch keeps the old one. A body that is
     * not a list is stored as it is, and since the client reads only its
     * `length` (undefined, so never positive) it is kept here as the empty
     * list.
     */
    method HandleSearch(reply: Reply<seq<Track>>)
      modifies this`lastSearchResults
      ensures reply.FetchFailed? ==> lastSearchResults == old(lastSearchResults)
      ensures reply.Malformed? ==> lastSearchResults == []
      ensures reply.Received? ==> lastSearchResults == reply.value
    {
      match reply {
        case FetchFailed =>
        case Malformed => lastSearchResults := [];
        case Received(results) => lastSearchResults := results;
      }
    }

    /**
     * `loadHome`: the recommended tracks become the list that home clicks
     * play from. A body without a track list (an error object) makes
     * `window.homeTracks` undefined before the handler throws; a failed
     * fetch changes nothing.
     */
    method LoadHome(reply: Reply<seq<Track>>)
      modifies this`homeTracks
      ensures reply.FetchFailed? ==> homeTracks == old(homeTracks)
      ensures reply.Malformed? ==> homeTracks == None
      ensures reply.Received? ==> homeTracks == Some(reply.value)
    {
      match reply {
        case FetchFailed =>
        case Malformed => homeTracks := None;
        case Received(tracks) => homeTracks := Some(tracks);
      }
    }

    /**
     * `openPlaylistModal`: remembers the track to add, under its resolved
     * id as `video_id`, and loads the playlists when none are loaded yet.
     */
    method OpenPlaylistModal(id: Value, title: string, artist: string, thumb: string, listing: Reply<seq<Playlist>>)
      modifies this`trackToAddToPlaylist, this`likedTrackIds, this`loadedPlaylists
      ensures trackToAddToPlaylist == Some(Track(id, Undefined, title, artist, thumb))
      ensures |old(loadedPlaylists)| == 0 ==> Refreshed(listing, old(likedTrackIds), old(loadedPlaylists))
      ensures |old(loadedPlaylists)| != 0 ==>
                likedTrackIds == old(likedTrackIds) && loadedPlaylists == old(loadedPlaylists)
    {
      trackToAddToPlaylist := Some(Track(id, Undefined, title, artist, thumb));
      if |loadedPlaylists| == 0 {
        RefreshLikedTracks(listing);
      }
    }

    /**
     * `saveToPlaylist`. Once the add request is delivered, the chosen
     * track's id joins the liked set at once, and then the liked set is
     * rebuilt from the fresh listing. When the request itself fails, the
     * handler stops before touching any state.
     */
    method SaveToPlaylist(delivered: bool, listing: Reply<seq<Playlist>>)
      modifies this`likedTrackIds, this`loadedPlaylists
      ensures !delivered ==> likedTrackIds == old(likedTrackIds) && loadedPlaylists == old(loadedPlaylists)
      ensures delivered ==>
                var added := if old(trackToAddToPlaylist).Some? then {old(trackToAddToPlaylist).value.videoId} else {};
                Refreshed(listing, old(likedTrackIds) + added, old(loadedPlaylists))
      ensures delivered && listing.FetchFailed? && trackToAddToPlaylist.Some? && Truthy(trackToAddToPlaylist.value.videoId) ==>
                IsLiked(trackToAddToPlaylist.value)
    {
      if !delivered {
        return;
      }
      if trackToAddToPlaylist.Some? {
        likedTrackIds := likedTrackIds + {trackToAddToPlaylist.value.videoId};
      }
      RefreshLikedTracks(listing);
    }
  }

  /** The list a click plays from: the last search results, the home tracks (or none yet), or nothing for another label. */
  function ContextList(searchResults: seq<Track>, homeTracks: Option<seq<Track>>, contextName: string): seq<Track>
  {
    if contextName == SearchContext then searchResults
    else if contextName == HomeContext then homeTracks.GetOr([])
    else []
  }
}
