/** The `POST /tracks/` endpoint: it checks the upload's file names before the
    service is called, and copies the created record into the response. */
module TracksRouter {

  import opened Wrappers
  import opened Strings
  import opened TrackRecords
  import Catalogue

  const OnlyMp3 := HttpError(400, "Only MP3 files are allowed")
  const OnlyImages := HttpError(400, "Only JPG/PNG images are allowed")

  /** One of `.jpg`, `.jpeg`, `.png`, compared case-sensitively. */
  predicate IsImageName(name: string) {
    EndsWith(name, ".jpg") || EndsWith(name, ".jpeg") || EndsWith(name, ".png")
  }

  /** The two checks of `create_track`, the MP3 name first; an absent cover
      file is not checked. `None` lets the request through. */
  function ValidateUpload(mp3Filename: string, coverFilename: Option<string>): (r: Option<HttpError>)
    ensures r.None? <==> EndsWith(mp3Filename, ".mp3") && (coverFilename.None? || IsImageName(coverFilename.value))
    ensures !EndsWith(mp3Filename, ".mp3") ==> r == Some(OnlyMp3)
    ensures r == Some(OnlyImages) <==>
      EndsWith(mp3Filename, ".mp3") && coverFilename.Some? && !IsImageName(coverFilename.value)
  {
    if !EndsWith(mp3Filename, ".mp3") then Some(OnlyMp3)
    else if coverFilename.Some? && !IsImageName(coverFilename.value) then Some(OnlyImages)
    else None
  }

  /** The extension checks are case-sensitive, and an upper-case MP3 name is
      refused even when the cover is also wrong. */
  lemma ExtensionChecksAreCaseSensitive()
    ensures ValidateUpload("song.MP3", Some("cover.gif")) == Some(OnlyMp3)
    ensures ValidateUpload("song.mp3", Some("cover.PNG")) == Some(OnlyImages)
    ensures ValidateUpload("song.mp3", Some("cover.jpeg")) == None
    ensures ValidateUpload("song.mp3", None) == None
  {
    assert !EndsWith("song.MP3", ".mp3") by { assert "song.MP3"[5] != ".mp3"[1]; }
    assert !IsImageName("cover.PNG") by { assert "cover.PNG"[6] != "png"[0]; }
  }

  /** `create_track`: a refused upload never reaches the service; otherwise
      the response copies the created record, and a failed insert is a 500. */
  method CreateTrack(service: Catalogue.TrackService, mp3Filename: string, artist: string, title: string,
                     coverFile: Option<string>, coverUrl: Option<string>)
    returns (r: Result<TrackResponse, HttpError>)
    requires service.Valid()
    modifies service, service.minio
    ensures service.Valid()
    ensures ValidateUpload(mp3Filename, coverFile).Some? ==>
      && r == Err(ValidateUpload(mp3Filename, coverFile).value)
      && service.table == old(service.table)
      && service.minio.buckets == old(service.minio.buckets)
    ensures ValidateUpload(mp3Filename, coverFile).None? ==>
      var cover := Catalogue.FinalCoverUrl(coverFile, coverUrl);
      && service.minio.buckets == Catalogue.AfterUploads(old(service.minio.buckets), mp3Filename, coverFile)
      && (cover.Some? && title !in old(service.table) ==>
            && r == Ok(TrackResponse(artist, title, cover.value, mp3Filename))
            && service.table == old(service.table)[title := Track(artist, title, cover.value, mp3Filename)])
      && (cover.None? || title in old(service.table) ==>
            r == Err(InternalServerError) && service.table == old(service.table))
    ensures service.minio.publicRead == old(service.minio.publicRead)
  {
    var refused := ValidateUpload(mp3Filename, coverFile);
    if refused.Some? {
      return Err(refused.value);
    }
    var created := service.CreateTrack(mp3Filename, artist, title, coverFile, coverUrl);
    match created
    case Ok(track) =>
      r := Ok(TrackResponse(track.artist, track.title, track.coverUrl, track.mp3Url));
    case Err(_) =>
      r := Err(InternalServerError);
  }
}
