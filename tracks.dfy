/**
 * Track records as the browser client sees them, and the rule it uses
 * everywhere to name a track: `video_id || id`.
 *
 * Search results carry the YouTube identifier in `id`; rows of the
 * playlist_songs table carry it in `video_id` and their own integer row
 * number in `id`. The client takes whichever of the two is truthy, in
 * that order, with JavaScript's `||`.
 */
module Tracks {

  /** A JavaScript value found in an identifier field of a track record. */
  datatype Value = Undefined | Null | Str(s: string) | Num(n: int)

  /** JavaScript truthiness of such a value: the empty string and 0 are falsy. */
  predicate Truthy(v: Value) {
    match v
    case Str(s) => s != ""
    case Num(n) => n != 0
    case _ => false
  }

  /** A track record: a search result, a home recommendation or a stored playlist row. */
  datatype Track = Track(videoId: Value, id: Value, title: string, artist: string, thumbnail: string)

  /** A playlist as listed by the backend: its row id, its name and its songs. */
  datatype Playlist = Playlist(id: int, name: string, songs: seq<Track>)

  /**
   * The identifier used to like, stream, download and record a track:
   * `video_id` when it is truthy, `id` otherwise.
   */
  function ResolveId(t: Track): (r: Value)
    ensures r == t.videoId || r == t.id
    ensures Truthy(t.videoId) ==> r == t.videoId
    ensures !Truthy(t.videoId) ==> r == t.id
    ensures Truthy(r) <==> Truthy(t.videoId) || Truthy(t.id)
  {
    if Truthy(t.videoId) then t.videoId else t.id
  }

  /** The identifiers of a list of songs, added one by one as the client's `forEach` does. */
  function SongIds(songs: seq<Track>): set<Value>
  {
    if songs == [] then {} else SongIds(songs[..|songs| - 1]) + {ResolveId(songs[|songs| - 1])}
  }

  /** The liked set built from a playlist listing: the identifiers of the songs of every playlist. */
  function LikedIds(pls: seq<Playlist>): set<Value>
  {
    if pls == [] then {} else LikedIds(pls[..|pls| - 1]) + SongIds(pls[|pls| - 1].songs)
  }

  /** The table of loaded playlists, keyed by playlist id; a later playlist with the same id wins. */
  function PlaylistTable(pls: seq<Playlist>): map<int, Playlist>
  {
    if pls == [] then map[] else PlaylistTable(pls[..|pls| - 1])[pls[|pls| - 1].id := pls[|pls| - 1]]
  }

  /** An identifier is in SongIds exactly when some song resolves to it. */
  lemma {:induction false} SongIdsExactly(songs: seq<Track>, v: Value)
    ensures v in SongIds(songs) <==> exists j :: 0 <= j < |songs| && ResolveId(songs[j]) == v
  {
    if songs != [] {
      var init := songs[..|songs| - 1];
      SongIdsExactly(init, v);
      if v in SongIds(init) {
        var j :| 0 <= j < |init| && ResolveId(init[j]) == v;
        assert songs[j] == init[j];
      }
      if j :| 0 <= j < |songs| && ResolveId(songs[j]) == v {
        if j < |init| {
          assert init[j] == songs[j];
        }
      }
    }
  }

  /**
   * The liked set built from a listing holds exactly the resolved
   * identifiers of all songs of all playlists, and nothing else.
   */
  lemma {:induction false} LikedIdsExactly(pls: seq<Playlist>, v: Value)
    ensures v in LikedIds(pls) <==>
            exists i, j :: 0 <= i < |pls| && 0 <= j < |pls[i].songs| && ResolveId(pls[i].songs[j]) == v
  {
    if pls != [] {
      var init, last := pls[..|pls| - 1], pls[|pls| - 1];
      LikedIdsExactly(init, v);
      SongIdsExactly(last.songs, v);
      if v in LikedIds(init) {
        var i, j :| 0 <= i < |init| && 0 <= j < |init[i].songs| && ResolveId(init[i].songs[j]) == v;
        assert pls[i] == init[i];
      } else if v in SongIds(last.songs) {
        var j :| 0 <= j < |last.songs| && ResolveId(last.songs[j]) == v;
        assert pls[|pls| - 1] == last;
      }
      if i, j :| 0 <= i < |pls| && 0 <= j < |pls[i].songs| && ResolveId(pls[i].songs[j]) == v {
        if i < |init| {
          assert init[i] == pls[i];
        }
      }
    }
  }

  /** Every song of every listed playlist resolves to a member of the liked set. */
  lemma SongIsLiked(pls: seq<Playlist>, i: int, j: int)
    requires 0 <= i < |pls| && 0 <= j < |pls[i].songs|
    ensures ResolveId(pls[i].songs[j]) in LikedIds(pls)
  {
    LikedIdsExactly(pls, ResolveId(pls[i].songs[j]));
  }

  /**
   * The playlist table has a key for exactly the listed playlist ids, and
   * maps each key to the last listed playlist with that id.
   */
  lemma {:induction false} PlaylistTableExactly(pls: seq<Playlist>)
    ensures forall k :: k in PlaylistTable(pls) <==> exists i :: 0 <= i < |pls| && pls[i].id == k
    ensures forall k :: k in PlaylistTable(pls) ==>
              exists i :: 0 <= i < |pls| && pls[i] == PlaylistTable(pls)[k] && pls[i].id == k &&
                          forall j :: i < j < |pls| ==> pls[j].id != k
  {
    if pls != [] {
      var init, last := pls[..|pls| - 1], pls[|pls| - 1];
      PlaylistTableExactly(init);
      var t := PlaylistTable(pls);
      forall k | k in t
        ensures exists i :: 0 <= i < |pls| && pls[i] == t[k] && pls[i].id == k &&
                            forall j :: i < j < |pls| ==> pls[j].id != k
      {
        if k == last.id {
          assert pls[|pls| - 1] == t[k];
        } else {
          var i :| 0 <= i < |init| && init[i] == PlaylistTable(init)[k] && init[i].id == k &&
                   forall j :: i < j < |init| ==> init[j].id != k;
          assert pls[i] == t[k];
          forall j | i < j < |pls| ensures pls[j].id != k {
            if j < |init| { assert pls[j] == init[j]; }
          }
        }
      }
      forall k ensures k in t <==> exists i :: 0 <= i < |pls| && pls[i].id == k {
        if i :| 0 <= i < |pls| && pls[i].id == k {
          if i < |init| { assert init[i] == pls[i]; }
        }
        if k in PlaylistTable(init) {
          var i :| 0 <= i < |init| && init[i].id == k;
          assert pls[i] == init[i];
        }
      }
    }
  }

  /** Playlist ids are primary keys, so when they are distinct each playlist is found under its own id. */
  lemma PlaylistTableFindsEach(pls: seq<Playlist>, i: int)
    requires forall a, b :: 0 <= a < b < |pls| ==> pls[a].id != pls[b].id
    requires 0 <= i < |pls|
    ensures pls[i].id in PlaylistTable(pls) && PlaylistTable(pls)[pls[i].id] == pls[i]
  {
  }

  /**
   * A search result (identifier in `id`) shows as liked once any playlist
   * holds a stored row for the same video (identifier in `video_id`).
   */
  lemma SavedSearchResultIsLiked(pls: seq<Playlist>, i: int, j: int, result: Track)
    requires 0 <= i < |pls| && 0 <= j < |pls[i].songs|
    requires Truthy(pls[i].songs[j].videoId)
    requires !Truthy(result.videoId) && result.id == pls[i].songs[j].videoId
    ensures ResolveId(result) in LikedIds(pls)
  {
    SongIsLiked(pls, i, j);
  }
}
