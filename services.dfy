/**
 * Result normalisation of the backend: `search_youtube` reshapes the
 * music service's search results for the client, and `get_home_content`
 * picks the home page's section, artist recommendations or a hits list.
 *
 * The music service's responses are inputs. Their dictionaries become
 * datatypes whose keys may be absent (None). Python's exceptions become
 * explicit: reading an absent key with `[...]` raises, which the model
 * writes as a converter returning None.
 */
module Services {
  import opened Wrappers

  datatype RawThumbnail = RawThumbnail(url: Option<string>)
  datatype RawArtist = RawArtist(name: Option<string>, id: Option<string>)
  /** One song of a search result or of an artist page. */
  datatype RawSong = RawSong(videoId: Option<string>, title: Option<string>,
                             artists: Option<seq<RawArtist>>, thumbnails: Option<seq<RawThumbnail>>)

  /** Python truthiness of an optional string: present and non-empty. */
  predicate Truthy(v: Option<string>) {
    v.Some? && v.value != ""
  }

  /** `song.get('videoId')` is truthy: the loops skip every other song. */
  predicate HasVideoId(song: RawSong) {
    Truthy(song.videoId)
  }

  /**
   * `thumbnails[-1]['url'] if thumbnails else ''`: the url of the last
   * thumbnail, '' when there are none, None when that entry has no url.
   */
  function Thumbnail(thumbnails: Option<seq<RawThumbnail>>): Option<string>
  {
    match thumbnails
    case None => Some("")
    case Some(ts) => if ts == [] then Some("") else ts[|ts| - 1].url
  }

  /** `artists[0]['name'] if artists else default`: None when the first artist has no name. */
  function FirstArtistName(artists: Option<seq<RawArtist>>, default: string): Option<string>
  {
    match artists
    case None => Some(default)
    case Some(a) => if a == [] then Some(default) else a[0].name
  }

  /** `artists[0]['id'] if artists and artists[0].get('id') else None`. */
  function FirstArtistId(artists: Option<seq<RawArtist>>): Option<string>
  {
    if artists.Some? && artists.value != [] && Truthy(artists.value[0].id) then artists.value[0].id else None
  }

  /** A cleaned search result, the shape the client receives. */
  datatype SearchTrack = SearchTrack(id: string, title: string, artist: string, artistId: Option<string>, thumbnail: string)

  const UnknownArtist := "Nieznany"

  /**
   * One search result as `search_youtube` reshapes it. None means that
   * reading a key raised: no title, a last thumbnail without url, or a
   * first artist without name.
   */
  function CleanResult(song: RawSong): Option<SearchTrack>
  {
    var thumb := Thumbnail(song.thumbnails);
    var artist := FirstArtistName(song.artists, UnknownArtist);
    if song.videoId.None? || song.title.None? || thumb.None? || artist.None? then None
    else Some(SearchTrack(song.videoId.value, song.title.value, artist.value, FirstArtistId(song.artists), thumb.value))
  }

  /**
   * What a loop over songs that appends converted songs has built: the
   * list so far, and whether a conversion raised (which ends the loop).
   */
  datatype Scan<T> = Scan(items: seq<T>, raised: bool)

  /** The `for` loops of both functions: skip songs without videoId, convert the others, stop at the first raise. */
  function ScanSongs<T>(songs: seq<RawSong>, convert: RawSong -> Option<T>): Scan<T>
  {
    if songs == [] then Scan([], false)
    else
      var before := ScanSongs(songs[..|songs| - 1], convert);
      var song := songs[|songs| - 1];
      if before.raised || !HasVideoId(song) then before
      else match convert(song)
        case None => Scan(before.items, true)
        case Some(t) => Scan(before.items + [t], false)
  }

  /** The songs that have a truthy videoId, in input order: a song is kept exactly when it has one. */
  function KeptSongs(songs: seq<RawSong>): (r: seq<RawSong>)
    ensures |r| <= |songs|
    ensures forall k :: 0 <= k < |r| ==> HasVideoId(r[k])
    ensures forall song :: song in r <==> song in songs && HasVideoId(song)
  {
    if songs == [] then []
    else KeptSongs(songs[..|songs| - 1]) + (if HasVideoId(songs[|songs| - 1]) then [songs[|songs| - 1]] else [])
  }

  /** Keeping commutes with concatenation: the kept songs of a list are those of its parts, in the same order. */
  lemma {:induction false} KeptSongsAppend(a: seq<RawSong>, b: seq<RawSong>)
    ensures KeptSongs(a + b) == KeptSongs(a) + KeptSongs(b)
  {
    if b == [] {
      assert a + b == a;
    } else {
      var init := b[..|b| - 1];
      assert (a + b)[..|a + b| - 1] == a + init;
      assert (a + b)[|a + b| - 1] == b[|b| - 1];
      KeptSongsAppend(a, init);
    }
  }

  /**
   * A scan converts the kept songs in order: the list built is the
   * conversions of a prefix of the kept songs. Without a raise that prefix
   * is all of them; with one, the next kept song is the one that raised.
   */
  lemma {:induction false} ScanExactly<T>(songs: seq<RawSong>, convert: RawSong -> Option<T>)
    ensures var s, kept := ScanSongs(songs, convert), KeptSongs(songs);
            && |s.items| <= |kept|
            && (forall k :: 0 <= k < |s.items| ==> convert(kept[k]) == Some(s.items[k]))
            && (!s.raised ==> |s.items| == |kept|)
            && (s.raised ==> |s.items| < |kept| && convert(kept[|s.items|]).None?)
  {
    if songs != [] {
      var init, song := songs[..|songs| - 1], songs[|songs| - 1];
      ScanExactly(init, convert);
      var kept0 := KeptSongs(init);
      var kept := KeptSongs(songs);
      assert forall k :: 0 <= k < |kept0| ==> kept[k] == kept0[k];
    }
  }

  /** Once a scan has raised, the songs after that point change nothing. */
  lemma {:induction false} ScanStopsAtRaise<T>(songs: seq<RawSong>, n: nat, convert: RawSong -> Option<T>)
    requires n <= |songs|
    requires ScanSongs(songs[..n], convert).raised
    ensures ScanSongs(songs, convert) == ScanSongs(songs[..n], convert)
  {
    if n < |songs| {
      var init := songs[..|songs| - 1];
      assert init[..n] == songs[..n];
      ScanStopsAtRaise(init, n, convert);
    } else {
      assert songs[..n] == songs;
    }
  }

  /** `search_youtube`: the cleaned results, or [] when the search or any cleaning raised. */
  function SearchResults(response: Option<seq<RawSong>>): seq<SearchTrack>
  {
    match response
    case None => []
    case Some(songs) =>
      var s := ScanSongs(songs, CleanResult);
      if s.raised then [] else s.items
  }

  /**
   * The dictionary `search_youtube` builds from `song`, read field by
   * field: id and title copied, the last thumbnail's url or "" without
   * thumbnails, the first artist's name or "Nieznany" without artists,
   * and the first artist's id only when that id is truthy.
   */
  predicate Reshaped(t: SearchTrack, song: RawSong) {
    && song.videoId == Some(t.id) && song.title == Some(t.title)
    && (if song.thumbnails.Some? && song.thumbnails.value != []
        then song.thumbnails.value[|song.thumbnails.value| - 1].url == Some(t.thumbnail)
        else t.thumbnail == "")
    && (if song.artists.Some? && song.artists.value != []
        then song.artists.value[0].name == Some(t.artist)
        else t.artist == UnknownArtist)
    && (if song.artists.Some? && song.artists.value != [] && Truthy(song.artists.value[0].id)
        then t.artistId == song.artists.value[0].id
        else t.artistId.None?)
  }

  /**
   * What `search_youtube` returns: never more results than the search gave;
   * [] when the search raised or when some song with a truthy videoId
   * lacks a key the reshaping reads; otherwise exactly the songs with a
   * truthy videoId, in order, each reshaped field by field.
   */
  lemma SearchResultsMeaning(response: Option<seq<RawSong>>)
    ensures response.None? ==> SearchResults(response) == []
    ensures response.Some? ==> |SearchResults(response)| <= |response.value|
    ensures response.Some? ==>
              (ScanSongs(response.value, CleanResult).raised <==>
                 exists k :: 0 <= k < |KeptSongs(response.value)| && CleanResult(KeptSongs(response.value)[k]).None?)
    ensures response.Some? && ScanSongs(response.value, CleanResult).raised ==> SearchResults(response) == []
    ensures response.Some? && !ScanSongs(response.value, CleanResult).raised ==>
              var out, kept := SearchResults(response), KeptSongs(response.value);
              && |out| == |kept|
              && (forall k :: 0 <= k < |out| ==> CleanResult(kept[k]) == Some(out[k]))
              && (forall k :: 0 <= k < |out| ==> HasVideoId(kept[k]) && Reshaped(out[k], kept[k]))
  {
    if response.Some? {
      ScanExactly(response.value, CleanResult);
    }
  }

  /** `search_youtube` as the loop that it is: appends cleaned results and gives [] once anything raises. */
  method SearchYoutube(response: Option<seq<RawSong>>) returns (clean: seq<SearchTrack>)
    ensures clean == SearchResults(response)
  {
    if response.None? {
      return [];
    }
    var songs := response.value;
    clean := [];
    var i := 0;
    while i < |songs|
      invariant 0 <= i <= |songs|
      invariant ScanSongs(songs[..i], CleanResult) == Scan(clean, false)
    {
      assert songs[..i + 1][..i] == songs[..i];
      var song := songs[i];
      if HasVideoId(song) {
        var cleaned := CleanResult(song);
        if cleaned.None? {
          ScanStopsAtRaise(songs, i + 1, CleanResult);
          return [];
        }
        clean := clean + [cleaned.value];
      }
      i := i + 1;
    }
    assert songs[..i] == songs;
  }

  // ---------------------------------------------------------------- home page

  /** A recommended track, the shape the home page receives. */
  datatype HomeTrack = HomeTrack(id: string, title: string, artist: string, thumbnail: string)

  /** The row of the user's last play, as the history query returns it. */
  datatype LastPlayed = LastPlayed(artistName: string, artistId: Option<string>)

  /** One `{results}` section of an artist page. */
  datatype ArtistSection = ArtistSection(results: Option<seq<RawSong>>)
  /** The artist page; only its 'songs' and 'singles' sections are read. */
  datatype ArtistPage = ArtistPage(songs: Option<ArtistSection>, singles: Option<ArtistSection>)

  /** The home page's answer: a section title and its tracks. */
  datatype Home = Home(title: string, tracks: seq<HomeTrack>)

  const RecommendationLimit := 8
  const BecausePrefix := "Ponieważ słuchasz "
  const HitsTitle := "🔥 Hity na czasie w Polsce"
  const HitsFailedTitle := "Nie udało się pobrać hitów"
  const VariousArtists := "Różni wykonawcy"

  /** One song as the home page reshapes it; None when reading a key raised. */
  function HomeSong(song: RawSong, fallbackArtist: string): Option<HomeTrack>
  {
    var artist := FirstArtistName(song.artists, fallbackArtist);
    var thumb := Thumbnail(song.thumbnails);
    if song.videoId.None? || song.title.None? || artist.None? || thumb.None? then None
    else Some(HomeTrack(song.videoId.value, song.title.value, artist.value, thumb.value))
  }

  /** The songs of the artist page: 'songs' results if present, else 'singles' results, else none. */
  function ArtistSongs(page: ArtistPage): seq<RawSong>
  {
    if page.songs.Some? && page.songs.value.results.Some? then page.songs.value.results.value
    else if page.singles.Some? && page.singles.value.results.Some? then page.singles.value.results.value
    else []
  }

  /** `results[:8]`. */
  function FirstEight(songs: seq<RawSong>): (r: seq<RawSong>)
    ensures |r| == if |songs| <= RecommendationLimit then |songs| else RecommendationLimit
    ensures r == songs[..|r|]
    ensures |songs| <= RecommendationLimit ==> r == songs
  {
    if |songs| <= RecommendationLimit then songs else songs[..RecommendationLimit]
  }

  /** The artist path runs only when the last play has a truthy artist id. */
  predicate TriesArtist(lastPlayed: Option<LastPlayed>) {
    lastPlayed.Some? && Truthy(lastPlayed.value.artistId)
  }

  /**
   * What the artist path builds. Not tried: nothing. The artist lookup
   * raised (page None): nothing, raised. Otherwise the scan of the first
   * eight songs, with the last played artist as fallback artist name.
   */
  function ArtistScan(lastPlayed: Option<LastPlayed>, page: Option<ArtistPage>): (r: Scan<HomeTrack>)
    ensures r.items != [] ==> TriesArtist(lastPlayed) && page.Some?
  {
    if !TriesArtist(lastPlayed) then Scan([], false)
    else match page
      case None => Scan([], true)
      case Some(p) => ScanSongs(FirstEight(ArtistSongs(p)), s => HomeSong(s, lastPlayed.value.artistName))
  }

  /**
   * `get_home_content`. When the artist path built anything, its list is
   * the answer, titled after the artist unless the loop raised part way
   * (then the title stays ""). Otherwise the hits search runs: its list
   * titled as hits, or, when it raised, what it built before the raise
   * titled as a failure.
   */
  function HomeContent(lastPlayed: Option<LastPlayed>, page: Option<ArtistPage>, hits: Option<seq<RawSong>>): Home
  {
    var artist := ArtistScan(lastPlayed, page);
    if artist.items != [] then
      Home(if artist.raised then "" else BecausePrefix + lastPlayed.value.artistName, artist.items)
    else match hits
      case None => Home(HitsFailedTitle, [])
      case Some(songs) =>
        var h := ScanSongs(songs, s => HomeSong(s, VariousArtists));
        Home(if h.raised then HitsFailedTitle else HitsTitle, h.items)
  }

  /** The artist path yields at most eight tracks, because only the first eight songs are examined. */
  lemma ArtistPathAtMostEight(lastPlayed: Option<LastPlayed>, page: Option<ArtistPage>)
    ensures |ArtistScan(lastPlayed, page).items| <= RecommendationLimit
  {
    if TriesArtist(lastPlayed) && page.Some? {
      var songs := FirstEight(ArtistSongs(page.value));
      ScanExactly(songs, s => HomeSong(s, lastPlayed.value.artistName));
    }
  }

  /**
   * The dictionary the home page builds from `song`, read field by field:
   * id and title copied, the first artist's name or `fallback` without
   * artists, and the last thumbnail's url or "" without thumbnails.
   */
  predicate HomeReshaped(t: HomeTrack, song: RawSong, fallback: string) {
    && song.videoId == Some(t.id) && song.title == Some(t.title)
    && (if song.artists.Some? && song.artists.value != []
        then song.artists.value[0].name == Some(t.artist)
        else t.artist == fallback)
    && (if song.thumbnails.Some? && song.thumbnails.value != []
        then song.thumbnails.value[|song.thumbnails.value| - 1].url == Some(t.thumbnail)
        else t.thumbnail == "")
  }

  /**
   * Which tracks come back. From the artist path: the first eight songs
   * of the artist page's 'songs' (or else 'singles') section, those with a
   * truthy videoId, reshaped in order with the last played artist as the
   * fallback artist name; all of them unless the loop raised, and then
   * those before the song that raised. From the hits: the hits with a
   * truthy videoId, reshaped in order with "Różni wykonawcy" as the
   * fallback; again all of them unless the loop raised.
   */
  lemma HomeTracksMeaning(lastPlayed: Option<LastPlayed>, page: Option<ArtistPage>, hits: Option<seq<RawSong>>)
    ensures var h, a := HomeContent(lastPlayed, page, hits), ArtistScan(lastPlayed, page);
            && (a.items != [] ==>
                  var kept, name := KeptSongs(FirstEight(ArtistSongs(page.value))), lastPlayed.value.artistName;
                  && |h.tracks| <= |kept|
                  && (!a.raised ==> |h.tracks| == |kept|)
                  && (a.raised ==> |h.tracks| < |kept| && HomeSong(kept[|h.tracks|], name).None?)
                  && (forall k :: 0 <= k < |h.tracks| ==> HomeSong(kept[k], name) == Some(h.tracks[k]))
                  && (forall k :: 0 <= k < |h.tracks| ==> HomeReshaped(h.tracks[k], kept[k], name)))
            && (a.items == [] && hits.Some? ==>
                  var kept, scan := KeptSongs(hits.value), ScanSongs(hits.value, s => HomeSong(s, VariousArtists));
                  && |h.tracks| <= |kept|
                  && (!scan.raised ==> |h.tracks| == |kept|)
                  && (scan.raised ==> |h.tracks| < |kept| && HomeSong(kept[|h.tracks|], VariousArtists).None?)
                  && (forall k :: 0 <= k < |h.tracks| ==> HomeSong(kept[k], VariousArtists) == Some(h.tracks[k]))
                  && (forall k :: 0 <= k < |h.tracks| ==> HomeReshaped(h.tracks[k], kept[k], VariousArtists)))
  {
    var a := ArtistScan(lastPlayed, page);
    if a.items != [] {
      ScanExactly(FirstEight(ArtistSongs(page.value)), s => HomeSong(s, lastPlayed.value.artistName));
    } else if hits.Some? {
      ScanExactly(hits.value, s => HomeSong(s, VariousArtists));
    }
  }

  predicate StartsWith(s: string, prefix: string) {
    |prefix| <= |s| && s[..|prefix|] == prefix
  }

  /**
   * Which title comes with which tracks. The artist title appears exactly
   * when the artist path built a non-empty list without raising; the hits
   * title exactly when the artist path built nothing and the hits loop
   * ran to the end; the empty title exactly when the artist loop raised
   * after building something; and the failure title in every other case.
   */
  lemma HomeTitleMeaning(lastPlayed: Option<LastPlayed>, page: Option<ArtistPage>, hits: Option<seq<RawSong>>)
    ensures var h, a := HomeContent(lastPlayed, page, hits), ArtistScan(lastPlayed, page);
            && (StartsWith(h.title, BecausePrefix) <==> a.items != [] && !a.raised)
            && (StartsWith(h.title, BecausePrefix) ==> h == Home(BecausePrefix + lastPlayed.value.artistName, a.items))
            && (h.title == "" <==> a.items != [] && a.raised)
            && (h.title == HitsTitle <==> a.items == [] && hits.Some? && !ScanSongs(hits.value, s => HomeSong(s, VariousArtists)).raised)
            && (a.items == [] ==> h.title == HitsTitle || h.title == HitsFailedTitle)
            && (a.items == [] && hits.None? ==> h == Home(HitsFailedTitle, []))
            && (a.items != [] ==> h.tracks == a.items)
  {
    var h, a := HomeContent(lastPlayed, page, hits), ArtistScan(lastPlayed, page);
    assert !StartsWith(HitsTitle, BecausePrefix) by { assert HitsTitle[0] != BecausePrefix[0]; }
    assert !StartsWith(HitsFailedTitle, BecausePrefix) by { assert HitsFailedTitle[0] != BecausePrefix[0]; }
    assert !StartsWith("", BecausePrefix);
    if a.items != [] && !a.raised {
      assert StartsWith(h.title, BecausePrefix) by {
        assert (BecausePrefix + lastPlayed.value.artistName)[..|BecausePrefix|] == BecausePrefix;
      }
      assert h.title != "" && h.title != HitsTitle;
    }
  }

  /** The artist page is consulted only when the last play has an artist id: otherwise any page gives the same answer. */
  lemma ArtistPageOnlyWithArtistId(lastPlayed: Option<LastPlayed>, page1: Option<ArtistPage>, page2: Option<ArtistPage>, hits: Option<seq<RawSong>>)
    requires !TriesArtist(lastPlayed)
    ensures HomeContent(lastPlayed, page1, hits) == HomeContent(lastPlayed, page2, hits)
    ensures HomeContent(lastPlayed, page1, hits).title != ""
  {
  }

  /** `get_home_content` as the two loops that it is, each appending to the shared recommendation list. */
  method GetHomeContent(lastPlayed: Option<LastPlayed>, page: Option<ArtistPage>, hits: Option<seq<RawSong>>)
    returns (home: Home)
    ensures home == HomeContent(lastPlayed, page, hits)
  {
    var recommendations: seq<HomeTrack> := [];
    var sectionTitle := "";
    if lastPlayed.Some? && Truthy(lastPlayed.value.artistId) && page.Some? {
      var name := lastPlayed.value.artistName;
      var convert := s => HomeSong(s, name);
      var results := FirstEight(ArtistSongs(page.value));
      var raised := false;
      var i := 0;
      while i < |results| && !raised
        invariant 0 <= i <= |results|
        invariant ScanSongs(results[..i], convert) == Scan(recommendations, raised)
      {
        assert results[..i + 1][..i] == results[..i];
        var song := results[i];
        if HasVideoId(song) {
          var track := HomeSong(song, name);
          if track.None? {
            raised := true;
          } else {
            recommendations := recommendations + [track.value];
          }
        }
        i := i + 1;
      }
      if raised {
        ScanStopsAtRaise(results, i, convert);
      } else {
        assert results[..i] == results;
      }
      if !raised && recommendations != [] {
        sectionTitle := BecausePrefix + name;
      }
    }
    if recommendations == [] {
      if hits.None? {
        sectionTitle := HitsFailedTitle;
      } else {
        var songs := hits.value;
        var convert := s => HomeSong(s, VariousArtists);
        var raised := false;
        var i := 0;
        while i < |songs| && !raised
          invariant 0 <= i <= |songs|
          invariant ScanSongs(songs[..i], convert) == Scan(recommendations, raised)
        {
          assert songs[..i + 1][..i] == songs[..i];
          var song := songs[i];
          if HasVideoId(song) {
            var track := HomeSong(song, VariousArtists);
            if track.None? {
              raised := true;
            } else {
              recommendations := recommendations + [track.value];
            }
          }
          i := i + 1;
        }
        if raised {
          ScanStopsAtRaise(songs, i, convert);
          sectionTitle := HitsFailedTitle;
        } else {
          assert songs[..i] == songs;
          sectionTitle := HitsTitle;
        }
      }
    }
    home := Home(sectionTitle, recommendations);
  }
}
