/** `TrackService` of the catalogue backend: creating a track uploads its MP3
    (and its cover, when one is given) and then inserts the record; deleting a
    track removes its files and then the record. The record table is a map
    keyed by title; the object store is the `MinioRepository` model. */
module Catalogue {

  import opened Wrappers
  import opened Strings
  import opened TrackRecords
  import opened ObjectStore

  const TrackNotFound := HttpError(404, "Track not found")

  /** The `IntegrityError`s the insert of a new record can end in. */
  datatype DbError =
    | NullCoverUrl              // neither a cover file nor a cover URL: `cover_url` is NOT NULL
    | DuplicateTitle(title: string)  // `title` is the primary key

  /** What `delete_track` answers with: `{"status": ..., "deleted_title": ...}`. */
  datatype DeleteReply = DeleteReply(status: string, deletedTitle: string)

  /** `final_cover_url`: a given cover file wins over a given cover URL. */
  function FinalCoverUrl(coverFile: Option<string>, coverUrl: Option<string>): (r: Option<string>)
    ensures coverFile.Some? ==> r == coverFile
    ensures coverFile.None? ==> r == coverUrl
  {
    if coverFile.Some? then coverFile else coverUrl
  }

  predicate IsExternalUrl(url: string) {
    StartsWith(url, "http://") || StartsWith(url, "https://")
  }

  /** A cover that lives in bucket `image` (and not on another site). */
  predicate IsStoredCover(url: string) {
    url != "" && !IsExternalUrl(url)
  }

  /** The object store after the uploads of `create_track`: the MP3 under its
      own name in `media`, then the cover file, if any, in `image`. */
  function AfterUploads(store: Buckets, mp3Filename: string, coverFile: Option<string>): (r: Buckets)
    requires Media in store && Image in store
    ensures r.Keys == store.Keys
    ensures r[Media] == store[Media] + {mp3Filename}
    ensures r[Image] == store[Image] + OptionSet(coverFile)
    ensures forall b :: b in store && b != Media && b != Image ==> r[b] == store[b]
  {
    var s := Put(store, Media, mp3Filename);
    if coverFile.Some? then Put(s, Image, coverFile.value) else s
  }

  /** The object store after the deletions of `delete_track`: `media/<mp3_url>`
      always, `image/<cover_url>` only for a cover kept in the store. */
  function AfterDeletions(store: Buckets, track: Track): (r: Buckets)
    requires Media in store && Image in store
    ensures r.Keys == store.Keys
    ensures r[Media] == store[Media] - {track.mp3Url}
    ensures r[Image] == if IsStoredCover(track.coverUrl) then store[Image] - {track.coverUrl} else store[Image]
    ensures forall b :: b in store && b != Media && b != Image ==> r[b] == store[b]
  {
    var s := Remove(store, Media, track.mp3Url);
    if IsStoredCover(track.coverUrl) then Remove(s, Image, track.coverUrl) else s
  }

  /** Whether a removal of `delete_track` raises: the MinIO client refuses a
      blank object name, for the MP3 as for a stored cover. */
  predicate RemovalRaises(track: Track) {
    Blank(track.mp3Url) || (IsStoredCover(track.coverUrl) && Blank(track.coverUrl))
  }

  /** The paths `delete_track` hands to `delete_file`, in order. */
  function DeletedPaths(track: Track): (paths: seq<string>)
    ensures 1 <= |paths| <= 2 && paths[0] == Media + "/" + track.mp3Url
    ensures |paths| == 2 <==> IsStoredCover(track.coverUrl)
    ensures |paths| == 2 ==> paths[1] == Image + "/" + track.coverUrl
  {
    [Media + "/" + track.mp3Url] + if IsStoredCover(track.coverUrl) then [Image + "/" + track.coverUrl] else []
  }

  /** Each path `delete_track` builds names, once split by `delete_file`, the
      very object `create_track` uploaded: the MP3 in `media` and the stored
      cover in `image`, whatever `/` the file names contain. */
  lemma DeletedPathsNameUploadedObjects(track: Track)
    ensures SplitPath(DeletedPaths(track)[0]) == Some((Media, track.mp3Url))
    ensures |DeletedPaths(track)| == 2 ==> SplitPath(DeletedPaths(track)[1]) == Some((Image, track.coverUrl))
  {
    SplitJoinedPath(Media, track.mp3Url);
    SplitJoinedPath(Image, track.coverUrl);
  }

  /** Creating a track with a cover file and deleting it again leaves `media`
      and `image` as they were, when neither file name was there before. */
  lemma {:induction false} CreateThenDeleteRestoresStore(store: Buckets, artist: string, title: string, mp3Filename: string, coverFilename: string)
    requires Media in store && Image in store
    requires mp3Filename !in store[Media] && coverFilename !in store[Image]
    requires coverFilename != "" && !IsExternalUrl(coverFilename)
    ensures var track := Track(artist, title, coverFilename, mp3Filename);
      AfterDeletions(AfterUploads(store, mp3Filename, Some(coverFilename)), track) == store
  {
    var track := Track(artist, title, coverFilename, mp3Filename);
    var r := AfterDeletions(AfterUploads(store, mp3Filename, Some(coverFilename)), track);
    assert r[Media] == store[Media] by {
      assert store[Media] + {mp3Filename} - {mp3Filename} == store[Media];
    }
    assert r[Image] == store[Image] by {
      assert store[Image] + {coverFilename} - {coverFilename} == store[Image];
    }
    assert r.Keys == store.Keys;
    assert forall b :: b in r ==> r[b] == store[b];
  }

  /** `get_track_info` as written: an unknown title is a 404, and a known one
      raises the `AttributeError` of the missing `from_track_response` to its
      caller; `InternalServerError` stands for that exception (no route of the
      backend calls this method). */
  function GetTrackInfoAsWritten(table: Table, title: string): (r: Result<TrackResponse, HttpError>)
    ensures r.Err?
    ensures r == Err(TrackNotFound) <==> title !in table
  {
    if title !in table then Err(TrackNotFound) else Err(InternalServerError)
  }

  /** `get_track_info` as evidently intended: the stored record, field by field. */
  function GetTrackInfo(table: Table, title: string): (r: Result<TrackResponse, HttpError>)
    ensures r.Ok? <==> title in table
    ensures r.Err? ==> r.error == TrackNotFound
    ensures r.Ok? ==> var t := table[title];
      r.value == TrackResponse(t.artist, t.title, t.coverUrl, t.mp3Url)
  {
    if title !in table then Err(TrackNotFound)
    else
      var t := table[title];
      Ok(TrackResponse(t.artist, t.title, t.coverUrl, t.mp3Url))
  }

  /** A stored track that `get_track_info` as written fails to return. */
  lemma StoredTrackIsNotReturned()
    ensures var table := map["Song" := Track("Artist", "Song", "song.png", "Song.mp3")];
      && GetTrackInfoAsWritten(table, "Song") == Err(InternalServerError)
      && GetTrackInfo(table, "Song") == Ok(TrackResponse("Artist", "Song", "song.png", "Song.mp3"))
  {
  }

  class TrackService {
    var table: Table
    const minio: MinioRepository

    ghost predicate Valid()
      reads this, minio
    {
      minio.Valid() && KeyedByTitle(table)
    }

    constructor (minio: MinioRepository, table: Table)
      requires minio.Valid() && KeyedByTitle(table)
      ensures Valid() && this.minio == minio && this.table == table
    {
      this.minio := minio;
      this.table := table;
    }

    /** `create_track`: uploads the MP3 under its exact name, then the cover
        file if there is one, then inserts the record; the uploads stay even
        when the insert fails. */
    method CreateTrack(mp3Filename: string, artist: string, title: string, coverFile: Option<string>, coverUrl: Option<string>)
      returns (r: Result<Track, DbError>)
      requires Valid()
      modifies this, minio
      ensures Valid() && minio.publicRead == old(minio.publicRead)
      ensures minio.buckets == AfterUploads(old(minio.buckets), mp3Filename, coverFile)
      ensures FinalCoverUrl(coverFile, coverUrl).None? ==> r == Err(NullCoverUrl) && table == old(table)
      ensures FinalCoverUrl(coverFile, coverUrl).Some? && title in old(table) ==>
        r == Err(DuplicateTitle(title)) && table == old(table)
      ensures FinalCoverUrl(coverFile, coverUrl).Some? && title !in old(table) ==>
        && r == Ok(Track(artist, title, FinalCoverUrl(coverFile, coverUrl).value, mp3Filename))
        && table == old(table)[title := r.value]
    {
      var mp3Url := minio.UploadMp3(mp3Filename);
      var finalCoverUrl := coverUrl;
      if coverFile.Some? {
        var coverFilename := coverFile.value;
        var _ := minio.UploadImage(coverFilename);
        finalCoverUrl := Some(coverFilename);
      }
      if finalCoverUrl.None? {
        r := Err(NullCoverUrl);
      } else if title in table {
        r := Err(DuplicateTitle(title));
      } else {
        var track := Track(artist, title, finalCoverUrl.value, mp3Url);
        table := table[title := track];
        r := Ok(track);
      }
    }

    /** `delete_track`: an unknown title is a 404 and nothing is removed;
        otherwise the files go first, then the record. A removal that raises
        ends the request in a 500 that keeps the record, and an MP3 already
        removed stays removed. */
    method DeleteTrack(title: string) returns (r: Result<DeleteReply, HttpError>)
      requires Valid()
      modifies this, minio
      ensures title !in old(table) ==>
        r == Err(TrackNotFound) && table == old(table) && minio.buckets == old(minio.buckets)
      ensures title in old(table) && RemovalRaises(old(table)[title]) ==>
        var track := old(table)[title];
        && r == Err(InternalServerError)
        && table == old(table)
        && minio.buckets == if Blank(track.mp3Url) then old(minio.buckets)
                            else Remove(old(minio.buckets), Media, track.mp3Url)
      ensures title in old(table) && !RemovalRaises(old(table)[title]) ==>
        && r == Ok(DeleteReply("success", title))
        && table == old(table) - {title}
        && minio.buckets == AfterDeletions(old(minio.buckets), old(table)[title])
      ensures minio.publicRead == old(minio.publicRead)
      ensures Valid()
    {
      if title !in table {
        return Err(TrackNotFound);
      }
      var track := table[title];
      ghost var before := minio.buckets;
      var paths := DeletedPaths(track);
      DeletedPathsNameUploadedObjects(track);
      var deleted := minio.DeleteFile(paths[0]);
      if deleted.Err? {
        assert Blank(track.mp3Url) && minio.buckets == before;
        return Err(InternalServerError);
      }
      assert !Blank(track.mp3Url) && minio.buckets == Remove(before, Media, track.mp3Url);
      if IsStoredCover(track.coverUrl) {
        deleted := minio.DeleteFile(paths[1]);
        if deleted.Err? {
          assert Blank(track.coverUrl);
          return Err(InternalServerError);
        }
        assert !Blank(track.coverUrl);
      }
      table := table - {title};
      r := Ok(DeleteReply("success", title));
    }
  }
}
