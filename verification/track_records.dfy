/** The record kept for each track (the `track_info` table, whose primary key
    is `title`), the shapes the HTTP API answers with, and the HTTP errors the
    backend raises. */
module TrackRecords {

  /** One row of `track_info`: every column is a non-null string. */
  datatype Track = Track(artist: string, title: string, coverUrl: string, mp3Url: string)

  /** `TrackResponse`: what `POST /tracks/` answers with. */
  datatype TrackResponse = TrackResponse(artist: string, title: string, coverUrl: string, mp3Url: string)

  /** `TrackInfoResponse`: what `GET /track-info` answers with. */
  datatype TrackInfoResponse = TrackInfoResponse(artist: string, title: string, coverUrl: string)

  /** A raised `HTTPException` (or the 500 that an uncaught exception becomes). */
  datatype HttpError = HttpError(status: nat, detail: string)

  const InternalServerError := HttpError(500, "Internal Server Error")

  /** The table: the record stored under each title. */
  type Table = map<string, Track>

  /** Every record is stored under its own title. */
  ghost predicate KeyedByTitle(table: Table) {
    forall title :: title in table ==> table[title].title == title
  }
}
