/** `GET /track-info`: the name of the track the player last announced (the
    Redis key `last_track`) is cleaned and looked up in the track table. */
module NowPlaying {

  import opened Wrappers
  import opened Strings
  import opened TrackRecords

  const NoTrackInRedis := HttpError(404, "No track in Redis")

  function NotInDatabase(name: string): HttpError {
    HttpError(404, "Track '" + name + "' not found in database")
  }

  /** `track_name.replace('.mp3', '').strip()`. */
  function CleanName(trackName: string): (r: string)
    ensures |r| <= |trackName|
    ensures r == [] || (!IsSpace(r[0]) && !IsSpace(r[|r| - 1]))
  {
    Strip(RemoveAll(trackName, ".mp3"))
  }

  /** `get_current_track_info`: `lastTrack` is the value of `last_track`
      (`None` when the key is missing). */
  function GetCurrentTrackInfo(lastTrack: Option<string>, table: Table): (r: Result<TrackInfoResponse, HttpError>)
    ensures lastTrack.None? || lastTrack.value == "" ==> r == Err(NoTrackInRedis)
    ensures lastTrack.Some? && lastTrack.value != "" ==>
      var name := CleanName(lastTrack.value);
      && (name !in table ==> r == Err(NotInDatabase(name)))
      && (name in table ==>
            r == Ok(TrackInfoResponse(table[name].artist, table[name].title, table[name].coverUrl)))
  {
    if lastTrack.None? || lastTrack.value == "" then Err(NoTrackInRedis)
    else
      var name := CleanName(lastTrack.value);
      if name !in table then Err(NotInDatabase(name))
      else
        var track := table[name];
        Ok(TrackInfoResponse(track.artist, track.title, track.coverUrl))
  }

  /** When the player announces the key `<title>.mp3` of a track whose title
      holds no `.mp3` and no surrounding white space, the lookup finds that
      very record. */
  lemma AnnouncedKeyFindsItsTrack(title: string, table: Table)
    requires title in table && title != []
    requires !Contains(title, ".mp3")
    requires !IsSpace(title[0]) && !IsSpace(title[|title| - 1])
    ensures var t := table[title];
      GetCurrentTrackInfo(Some(title + ".mp3"), table) == Ok(TrackInfoResponse(t.artist, t.title, t.coverUrl))
  {
    assert ".mp3"[1..] == "mp3";
    RemoveAllTrailing(title, ".mp3");
    assert TrimStart(title) == title;
    assert TrimEnd(title) == title;
  }

  /** Every `.mp3` is removed, wherever it stands and not only a trailing
      one: the name is cut at each occurrence found from left to right, the
      pieces are glued together, and then the white space at both ends goes. */
  lemma CleaningRemovesEveryExtension(trackName: string)
    ensures CleanName(trackName) == Strip(Concat(Split(trackName, ".mp3")))
  {
    RemoveAllIsConcatOfSplit(trackName, ".mp3");
  }

  /** The `.` that starts `.mp3` does not occur again in it, so no two
      occurrences of `.mp3` can overlap. */
  lemma ExtensionStartsOnce()
    ensures ".mp3"[0] !in ".mp3"[1..]
  {
    assert ".mp3"[1..] == "mp3";
  }

  /** Whatever pieces without `.mp3` a name is built from, cleaning it glues
      exactly those pieces together and trims the result. */
  lemma CleanNameOfJoin(pieces: seq<string>)
    requires forall k :: 0 <= k < |pieces| ==> !Contains(pieces[k], ".mp3")
    ensures CleanName(Join(pieces, ".mp3")) == Strip(Concat(pieces))
  {
    ExtensionStartsOnce();
    RemoveAllOfJoin(pieces, ".mp3");
  }
}
