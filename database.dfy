/**
 * The backend's SQLite tables and the operations that change them.
 *
 * Each table is a sequence of rows in insertion order. What SQLite does
 * for these statements is written out: AUTOINCREMENT gives each new row
 * one more than the largest id the table has ever handed out; a UNIQUE
 * column makes an INSERT that repeats a value fail with IntegrityError
 * and leave the table as it was; an UPDATE rewrites every matching row
 * and reports how many it matched.
 *
 * bcrypt is a pair of functions the database is built with. The only
 * thing assumed of it is that a password verifies against any hash made
 * from it. The random salt bcrypt draws is a parameter.
 */
module Database {
  import opened Wrappers

  /** A password hashing scheme: `hash(password, salt)` and `verify(password, hash)`. */
  datatype Hasher = Hasher(hash: (string, nat) -> string, verify: (string, string) -> bool)

  /** A password always verifies against a hash made from it. */
  ghost predicate Sound(h: Hasher) {
    forall password: string, salt: nat :: h.verify(password, h.hash(password, salt))
  }

  datatype UserRow = UserRow(id: int, username: string, email: string, passwordHash: string,
                             verificationToken: Option<string>, isVerified: int)
  datatype PlaylistRow = PlaylistRow(id: int, userId: int, name: string)
  datatype SongRow = SongRow(id: int, playlistId: int, videoId: string, title: string, artist: string, thumbnail: string)
  datatype HistoryRow = HistoryRow(id: int, userId: int, videoId: string, artistId: Option<string>,
                                   artistName: string, title: string)

  /** The request body of an add-to-playlist call. */
  datatype AddToPlaylistModel = AddToPlaylistModel(playlistId: int, videoId: string, title: string, artist: string, thumbnail: string)
  /** The request body of a history call; a body without `artist_id` has None there. */
  datatype RecordHistoryModel = RecordHistoryModel(userId: int, videoId: string, title: string, artist: string, artistId: Option<string>)

  /** Some user already has this username or this email: an INSERT would break a UNIQUE column. */
  predicate Taken(users: seq<UserRow>, username: string, email: string) {
    exists i :: 0 <= i < |users| && (users[i].username == username || users[i].email == email)
  }

  /** The UNIQUE columns of the users table hold no value twice. */
  ghost predicate UniqueKeys(users: seq<UserRow>) {
    forall i, j :: 0 <= i < j < |users| ==> users[i].username != users[j].username && users[i].email != users[j].email
  }

  /** Some user waits for activation with this token. */
  predicate HasToken(users: seq<UserRow>, token: string) {
    exists i :: 0 <= i < |users| && users[i].verificationToken == Some(token)
  }

  /**
   * `UPDATE users SET is_verified = 1, verification_token = NULL WHERE
   * verification_token = ?`: rows holding the token become verified and
   * lose it; all other rows stay as they were.
   */
  function Activated(users: seq<UserRow>, token: string): (r: seq<UserRow>)
    ensures |r| == |users|
    ensures forall i :: 0 <= i < |users| ==>
              r[i].id == users[i].id && r[i].username == users[i].username &&
              r[i].email == users[i].email && r[i].passwordHash == users[i].passwordHash
    ensures forall i :: 0 <= i < |users| && users[i].verificationToken == Some(token) ==>
              r[i].isVerified == 1 && r[i].verificationToken == None
    ensures forall i :: 0 <= i < |users| && users[i].verificationToken != Some(token) ==> r[i] == users[i]
    ensures !HasToken(r, token)
  {
    seq(|users|, i requires 0 <= i < |users| =>
      if users[i].verificationToken == Some(token) then users[i].(isVerified := 1, verificationToken := None) else users[i])
  }

  /** Activation is one-shot: a second activation with the same token matches nothing and changes nothing. */
  lemma ActivationIsOneShot(users: seq<UserRow>, token: string)
    ensures !HasToken(Activated(users, token), token)
    ensures Activated(Activated(users, token), token) == Activated(users, token)
  {
  }

  /** `SELECT * FROM users WHERE username = ?` with `fetchone()`: the first row with that username. */
  function FindUser(users: seq<UserRow>, username: string): (r: Option<UserRow>)
    ensures r.None? <==> forall i :: 0 <= i < |users| ==> users[i].username != username
    ensures r.Some? ==> exists i :: 0 <= i < |users| && users[i] == r.value && r.value.username == username
  {
    if users == [] then None
    else if users[0].username == username then Some(users[0])
    else
      var rest := FindUser(users[1..], username);
      assert forall i :: 1 <= i < |users| ==> users[i] == users[1..][i - 1];
      rest
  }

  class Db {
    const hasher: Hasher
    var users: seq<UserRow>
    var playlists: seq<PlaylistRow>
    var playlistSongs: seq<SongRow>
    var history: seq<HistoryRow>
    // sqlite_sequence: the largest id each table has handed out
    var userSeq: nat
    var playlistSeq: nat
    var songSeq: nat
    var historySeq: nat

    ghost predicate Valid()
      reads this
    {
      && Sound(hasher)
      && UniqueKeys(users)
      && (forall i, j :: 0 <= i < j < |users| ==> users[i].id < users[j].id)
      && (forall i :: 0 <= i < |users| ==> 0 < users[i].id <= userSeq)
      && (forall i, j :: 0 <= i < j < |playlists| ==> playlists[i].id < playlists[j].id)
      && (forall i :: 0 <= i < |playlists| ==> 0 < playlists[i].id <= playlistSeq)
      && (forall i, j :: 0 <= i < j < |playlistSongs| ==> playlistSongs[i].id < playlistSongs[j].id)
      && (forall i :: 0 <= i < |playlistSongs| ==> 0 < playlistSongs[i].id <= songSeq)
      && (forall i, j :: 0 <= i < j < |history| ==> history[i].id < history[j].id)
      && (forall i :: 0 <= i < |history| ==> 0 < history[i].id <= historySeq)
    }

    /** `init_db` on a fresh file: four empty tables. */
    constructor (hasher: Hasher)
      requires Sound(hasher)
      ensures Valid() && this.hasher == hasher
      ensures users == [] && playlists == [] && playlistSongs == [] && history == []
    {
      this.hasher := hasher;
      users, playlists, playlistSongs, history := [], [], [], [];
      userSeq, playlistSeq, songSeq, historySeq := 0, 0, 0, 0;
    }

    /**
     * `verify_user`: the user's row when a user with that username exists
     * and the password verifies against its stored hash, None otherwise.
     */
    function VerifyUser(username: string, password: string): (r: Option<UserRow>)
      reads this
      requires Valid()
      ensures r.Some? <==> exists i :: 0 <= i < |users| && users[i].username == username &&
                                       hasher.verify(password, users[i].passwordHash)
      ensures r.Some? ==> r.value in users && r.value.username == username && hasher.verify(password, r.value.passwordHash)
    {
      match FindUser(users, username)
      case None => None
      case Some(u) => if hasher.verify(password, u.passwordHash) then Some(u) else None
    }

    /**
     * `create_user`. A username or email already present makes the INSERT
     * fail: False, table unchanged. Otherwise one unverified row is
     * appended holding the hash of the password and the token, and that
     * user can now log in with the password.
     */
    method CreateUser(username: string, password: string, email: string, token: string, salt: nat) returns (ok: bool)
      requires Valid()
      modifies this`users, this`userSeq
      ensures Valid()
      ensures ok <==> !Taken(old(users), username, email)
      ensures !ok ==> users == old(users) && userSeq == old(userSeq)
      ensures ok ==> userSeq == old(userSeq) + 1 &&
                     users == old(users) + [UserRow(userSeq, username, email, hasher.hash(password, salt), Some(token), 0)]
      ensures ok ==> VerifyUser(username, password) == Some(users[|users| - 1])
    {
      var hashed := hasher.hash(password, salt);
      if Taken(users, username, email) {
        return false;
      }
      userSeq := userSeq + 1;
      var row := UserRow(userSeq, username, email, hashed, Some(token), 0);
      users := users + [row];
      ok := true;
      assert users[|users| - 1] == row;
    }

    /**
     * `activate_user`. True exactly when some row held the token; those rows
     * become verified and lose the token, all others stay, so the same
     * token never activates twice.
     */
    method ActivateUser(token: string) returns (success: bool)
      requires Valid()
      modifies this`users
      ensures Valid()
      ensures success <==> HasToken(old(users), token)
      ensures users == Activated(old(users), token)
      ensures !HasToken(users, token)
    {
      success := HasToken(users, token);
      users := Activated(users, token);
    }

    /** `add_playlist`: appends one playlist row; no other table changes. */
    method AddPlaylist(userId: int, name: string)
      requires Valid()
      modifies this`playlists, this`playlistSeq
      ensures Valid()
      ensures playlistSeq == old(playlistSeq) + 1
      ensures playlists == old(playlists) + [PlaylistRow(playlistSeq, userId, name)]
    {
      playlistSeq := playlistSeq + 1;
      playlists := playlists + [PlaylistRow(playlistSeq, userId, name)];
    }

    /** `add_song_to_playlist`: appends one song row with the request's fields; no other table changes. */
    method AddSongToPlaylist(data: AddToPlaylistModel)
      requires Valid()
      modifies this`playlistSongs, this`songSeq
      ensures Valid()
      ensures songSeq == old(songSeq) + 1
      ensures playlistSongs == old(playlistSongs) +
                [SongRow(songSeq, data.playlistId, data.videoId, data.title, data.artist, data.thumbnail)]
    {
      songSeq := songSeq + 1;
      playlistSongs := playlistSongs + [SongRow(songSeq, data.playlistId, data.videoId, data.title, data.artist, data.thumbnail)];
    }

    /**
     * `add_history_entry`: appends one history row; the request's `artist`
     * goes to artist_name and its `artist_id` (None when absent) to
     * artist_id. No other table changes.
     */
    method AddHistoryEntry(data: RecordHistoryModel)
      requires Valid()
      modifies this`history, this`historySeq
      ensures Valid()
      ensures historySeq == old(historySeq) + 1
      ensures history == old(history) + [HistoryRow(historySeq, data.userId, data.videoId, data.artistId, data.artist, data.title)]
    {
      historySeq := historySeq + 1;
      history := history + [HistoryRow(historySeq, data.userId, data.videoId, data.artistId, data.artist, data.title)];
    }
  }
}
