# Radio: a verified model of the streaming core

This project models the core of a small internet radio in Dafny.

- A GStreamer sender (`S3RTPPlayer`) plays the `.mp3` objects of a bucket one after the other. It announces each track on Redis and pushes the bytes into an RTP encoder.
- A mediasoup signalling server ingests that RTP stream through one plain transport. It keeps at most one live producer, and gives every listener socket its own WebRTC transport and consumer.
- The React listener (`RadioPlayer`) negotiates that transport and consumer and plays the stream.
- A FastAPI backend keeps the track catalogue: a record table keyed by title, plus MinIO buckets `media` and `image`. It validates uploads, and maps the announced file name back to its record.

Each source file is one module:

| module | file |
|---|---|
| `MediaServer` | `server.js` |
| `Listener` | `RadioPlayer.jsx` |
| `Playlist` | `play_all_media.py` |
| `ObjectStore` | `minio_repository.py` |
| `Catalogue` | `track_service.py` |
| `TracksRouter` | `tracks.py` |
| `NowPlaying` | `service.py` |

`Wrappers`, `Strings` and `TrackRecords` hold the shared types, the Python string operations, and the records and HTTP errors.

Code that changes state in place is modelled as a class:

- the server's module variables and per-socket fields;
- the listener's refs;
- the player's fields;
- the MinIO client;
- the service's table.

Each method of such a class is proved against a pure function of the old state. For the server and the player, that function is a transition on a snapshot datatype, and the lemmas state the promised properties about it:

- **Server and player invariants:**
  - at most one live producer, and it sits on the live ingest transport;
  - at most one producer stats interval running;
  - the player's cursor stays within the sorted track list.
- **Message properties:**
  - who receives which message, and in what order;
  - the player's full-pass and wrap-around behaviour.
- **Backend round trips:**
  - the round trip between upload paths and delete paths;
  - the cleaning of announced names.

Engine objects are numbered handles with a closed flag. Engine, network and Redis results are parameters of the step that receives them. Every event handler runs as one atomic step.

The model also exhibits behaviour of the code as written:

- A repeated `createWebRtcTransport` leaves the first transport open, even after `disconnect` (`MediaServer.SecondTransportOrphansFirst`, server.js:244).
- When the producer goes away, the ingest transport is recreated by one attempt after a flat 1000 ms. A failure of that attempt is only logged, and no further attempt is scheduled (`MediaServer.RecreationDue`).
- A listener that unmounts while a consumer is being created closes the transport it is created on, so that consume rejects and nothing is left held (`Listener.UnmountDuringConsume`).
- A re-listing of the bucket that raises escapes `push_loop`: the push thread ends without its end-of-stream (`Playlist.ListingErrorEndsThread`).
- A record whose `cover_url` is blank (for example `" "`, which the upload form accepts) cannot be deleted: the MinIO client refuses the blank object name after the MP3 was removed, and the request ends in a 500 that keeps the record (`Catalogue.TrackService.DeleteTrack`).

## Model

| member | source | states |
|---|---|---|
| Strings.RemoveAll | backend/Services/service.py:19 | Python `replace(pat, '')`: the result is never longer than the input, and a string without the pattern is returned unchanged (with `Strings.RemoveAllAbsent`) |
| Strings.Split | backend/Services/service.py:19 | Python `split(pat)`: the pieces joined with `pat` give back the string, no piece holds `pat`, and the first cut is at the first occurrence |
| Strings.RemoveAllFirst | backend/Services/service.py:19 | when `pat` first occurs right after `a`, removing it from `a + pat + b` keeps `a` and goes on with `b` |
| Strings.RemoveAllIsConcatOfSplit | backend/Services/service.py:19 | for every string, `replace(pat, '')` equals `''.join(split(pat))`: each occurrence found from left to right is removed, and nothing else |
| Strings.RemoveAllOfJoin | backend/Services/service.py:19 | for a pattern like `.mp3`, whose first character does not recur in it, removing it from `pat.join(pieces)` of pieces without `pat` gives exactly the pieces glued together |
| Strings.RemoveAllTrailing | backend/Services/service.py:19 | removing `.mp3` from `<t>.mp3`, where `t` holds no `.mp3`, gives back exactly `t` |
| Strings.Strip | backend/Services/service.py:19 | Python `strip()`: the result is the slice of the input between its leading and its trailing white space: everything cut off is white space, and the result neither starts nor ends with white space |
| ObjectStore.Put | backend/Repositories/minio_repository.py:41-47 | `put_object` adds the name to that bucket and leaves the other buckets and the bucket set unchanged |
| ObjectStore.Remove | backend/Repositories/minio_repository.py:74 | `remove_object` takes the name out of that bucket and leaves the others unchanged |
| ObjectStore.SplitPath | backend/Repositories/minio_repository.py:70-74 | at most one leading `/` is dropped; there is no split exactly when no `/` remains; otherwise the path is `bucket + "/" + object` with no `/` in the bucket |
| ObjectStore.SplitUnique | backend/Repositories/minio_repository.py:73 | the split at the first `/` is the only split whose bucket part holds no `/` |
| ObjectStore.SplitJoinedPath | backend/Repositories/minio_repository.py:73-74 | `bucket/name` splits back into that bucket and that name, whatever `/` the name contains |
| ObjectStore.DoubleSlashGivesEmptyBucket | backend/Repositories/minio_repository.py:70-73 | only one leading `/` is stripped: `//x` names bucket `""` |
| ObjectStore.UploadThenDeleteMp3 | backend/Repositories/minio_repository.py:39-74 | deleting `media/<name>` removes exactly the object `upload_mp3(name)` stored; a fresh name leaves the store as it was |
| ObjectStore.MinioRepository.constructor | backend/Repositories/minio_repository.py:6-13 | after construction both buckets exist, existing buckets keep their objects, a bucket it creates is empty, and `image` gets the public-read policy only when it did not exist |
| ObjectStore.MinioRepository.EnsureBucketsExist | backend/Repositories/minio_repository.py:15-24 | `media` and `image` exist afterwards; existing buckets are untouched; new ones are empty; public-read is added to `image` only when it was just made |
| ObjectStore.MinioRepository.UploadMp3 | backend/Repositories/minio_repository.py:39-51 | stores the file in `media` under the unmodified name and returns that name |
| ObjectStore.MinioRepository.UploadImage | backend/Repositories/minio_repository.py:53-65 | stores the file in `image` under the unmodified name and returns that name |
| ObjectStore.BlankIsStrippedEmpty | backend/Repositories/minio_repository.py:74 | an object name is blank exactly when Python's `strip()` leaves nothing of it |
| ObjectStore.MinioRepository.DeleteFile | backend/Repositories/minio_repository.py:67-77 | a path without `/` fails before anything is removed; a blank object name fails; a missing bucket fails; otherwise exactly the named object is removed |
| Catalogue.FinalCoverUrl | backend/Services/track_service.py:47-53 | a cover file's name overrides a given cover URL; without a file the given URL is kept |
| Catalogue.AfterUploads | backend/Services/track_service.py:40-53 | the MP3 goes to `media` under its own name; the cover goes to `image` only when a cover file is given; nothing else changes |
| Catalogue.AfterDeletions | backend/Services/track_service.py:71-74 | `media/<mp3_url>` is always removed; `image/<cover_url>` only for a non-empty cover that is not an `http://` or `https://` URL |
| Catalogue.DeletedPaths | backend/Services/track_service.py:72-74 | the first path is always `media/<mp3_url>`; there is a second path, `image/<cover_url>`, exactly for a cover kept in the store |
| Catalogue.DeletedPathsNameUploadedObjects | backend/Services/track_service.py:72-74 | each delete path, split by `delete_file`, names the object `create_track` uploaded |
| Catalogue.CreateThenDeleteRestoresStore | backend/Services/track_service.py:40-77 | creating a track with a cover file and deleting it restores the object store |
| Catalogue.GetTrackInfoAsWritten | backend/Services/track_service.py:16-30 | as written, the call never succeeds: an unknown title is 404 "Track not found", and a known one raises `AttributeError` (the `InternalServerError` result stands for that exception; no route calls the method) |
| Catalogue.GetTrackInfo | backend/Services/track_service.py:16-30 | corrected: success exactly for a stored title, with the record's four fields; otherwise 404 "Track not found" |
| Catalogue.StoredTrackIsNotReturned | backend/Services/track_service.py:22-30 | a one-record table on which the two versions differ |
| Catalogue.TrackService.constructor | backend/Services/track_service.py:12-14 | the service holds the given repository and table |
| Catalogue.TrackService.CreateTrack | backend/Services/track_service.py:32-64 | uploads as in `AfterUploads`, which stay even when the insert fails; no cover gives the NOT NULL error; a taken title gives the key error; otherwise the record (with `mp3_url` = the MP3 file name) is inserted and returned |
| Catalogue.TrackService.DeleteTrack | backend/Services/track_service.py:66-77 | an unknown title is 404 and changes nothing; a removal that raises (a blank MP3 or stored-cover name) is a 500 that keeps the record, with the MP3 gone if its own removal worked; otherwise the files are removed as in `AfterDeletions`, the record is dropped, and the reply is `success` with the title |
| TracksRouter.ValidateUpload | backend/Routers/tracks.py:22-31 | a request passes exactly when the MP3 name ends in `.mp3` and the cover, if any, ends in `.jpg`, `.jpeg` or `.png`; the MP3 error comes first |
| TracksRouter.ExtensionChecksAreCaseSensitive | backend/Routers/tracks.py:23-31 | `.MP3` and `.PNG` are refused; a missing cover is not checked |
| TracksRouter.CreateTrack | backend/Routers/tracks.py:13-49 | a refused upload never reaches the service and changes nothing; otherwise the files are uploaded, and either the record is inserted and the response copies it, or the table is unchanged and the reply is a 500; the bucket policies never change |
| NowPlaying.CleanName | backend/Services/service.py:19 | the cleaned name is no longer than the key and has no white space at either end |
| NowPlaying.GetCurrentTrackInfo | backend/Services/service.py:14-32 | a missing or empty `last_track` is 404 "No track in Redis"; an unknown cleaned name is 404 naming it; a match gives that record's artist, title and cover |
| NowPlaying.AnnouncedKeyFindsItsTrack | backend/Services/service.py:19-32 | the key `<title>.mp3` the player announces leads back to the record titled `title` |
| NowPlaying.CleaningRemovesEveryExtension | backend/Services/service.py:19 | for every name, the cleaned name is the name cut at each `.mp3` from left to right, glued back together and stripped |
| NowPlaying.CleanNameOfJoin | backend/Services/service.py:19 | a name built from pieces without `.mp3` joined by `.mp3` cleans to exactly those pieces glued together and stripped |
| Playlist.LexLeTotal | gstreamer/play_all_media.py:49 | Python's string order is total, so any two keys can be ordered |
| Playlist.Insert | gstreamer/play_all_media.py:49 | inserting into a sorted list keeps it sorted and adds exactly one copy of the key |
| Playlist.SortKeys | gstreamer/play_all_media.py:49 | `sorted`: an ordered permutation of its input |
| Playlist.Mp3Keys | gstreamer/play_all_media.py:49 | each key is kept as often as it occurs when it ends in `.mp3`, and dropped otherwise |
| Playlist.ListMp3Files | gstreamer/play_all_media.py:45-49 | no `Contents` gives `[]`; otherwise the keys ending in `.mp3`, sorted, each as often as listed |
| Playlist.ListedTracks | gstreamer/play_all_media.py:45-49 | a key is a track exactly when it is listed and ends in `.mp3` |
| Playlist.Chunks | gstreamer/play_all_media.py:117-120 | the successive 4096-byte reads put together give back the downloaded data |
| Playlist.ChunkSizes | gstreamer/play_all_media.py:117-120 | every chunk is 1 to 4096 bytes; all but the last are full; there are ⌈n/4096⌉ of them |
| Playlist.PushedCount | gstreamer/play_all_media.py:121-126 | the first refused push is the last one made; with no refusal, or a refusal numbered past the last chunk, all are made |
| Playlist.WholeTrackReachesEncoder | gstreamer/play_all_media.py:117-126 | without a refused push, the bytes pushed are the whole track, in order |
| Playlist.Initial | gstreamer/play_all_media.py:41-43 | the first listing becomes both the track list and the remembered list, with the cursor at 0 |
| Playlist.Refresh | gstreamer/play_all_media.py:54-63 | a changed listing replaces the list and resets the cursor to 0; an unchanged one changes nothing |
| Playlist.Relist | gstreamer/play_all_media.py:45-63 | a listing that raises changes nothing but ends the thread; any other listing refreshes the list as `Refresh` does |
| Playlist.PlayCurrent | gstreamer/play_all_media.py:111-131 | the track under the cursor is announced (if Redis is up) and its chunks pushed up to the first refusal; the cursor moves on by one whatever failed |
| Playlist.Step | gstreamer/play_all_media.py:99-131 | a re-listing that raises ends the thread and changes nothing else; empty list: only a refresh; past the end: refresh, then cursor 0; otherwise it announces `tracks[idx]` (if Redis is up), pushes its chunks up to the first refusal, and the cursor moves on by one even when the download or a push failed; the invariant is kept |
| Playlist.Stopped | gstreamer/play_all_media.py:138-144 | `stop` clears `pushing`, sends end-of-stream if `appsrc` exists, and stops the pipeline |
| Playlist.Run | gstreamer/play_all_media.py:98-131 | the loop runs its iterations until `pushing` is false or an exception ended the thread, keeping the invariant |
| Playlist.ListingErrorEndsThread | gstreamer/play_all_media.py:103-109 | a re-listing that raises ends the loop there: whatever rounds follow, nothing more is announced or pushed and no end-of-stream is emitted |
| Playlist.PassAnnouncesRemainingTracks | gstreamer/play_all_media.py:106-131 | with Redis up and no stop, the remaining tracks are announced once each in list order, and the cursor ends at the end of the list |
| Playlist.PassThenWrap | gstreamer/play_all_media.py:106-131 | with an unchanged bucket, a pass announces every track in sorted order, the last one stays in `last_track`, and the next iteration goes back to track 0 with the same list |
| Playlist.EmptyBucketPlaysNothing | gstreamer/play_all_media.py:100-104 | while no `.mp3` is listed (or the listing raises), nothing is announced or pushed |
| Playlist.S3RtpPlayer.constructor | gstreamer/play_all_media.py:18-43 | the state of `Initial` |
| Playlist.S3RtpPlayer.Start | gstreamer/play_all_media.py:78-96 | the pipeline and `appsrc` exist and are playing; nothing else changes |
| Playlist.S3RtpPlayer.RefreshTrackListIfChanged | gstreamer/play_all_media.py:54-63 | it reports a listing that raised and then changes nothing; otherwise the new state is `Refresh` of the old one |
| Playlist.S3RtpPlayer.PublishCurrentTrack | gstreamer/play_all_media.py:70-76 | publish, then set `last_track`; a Redis error skips the rest and is swallowed |
| Playlist.S3RtpPlayer.PushTrack | gstreamer/play_all_media.py:114-126 | the read-and-push loop pushes exactly the first `PushedCount` chunks of the track |
| Playlist.S3RtpPlayer.Iterate | gstreamer/play_all_media.py:99-131 | one loop body changes the state as `Step` does |
| Playlist.S3RtpPlayer.Stop | gstreamer/play_all_media.py:138-144 | the new state is `Stopped` of the old one |
| Playlist.S3RtpPlayer.PushLoop | gstreamer/play_all_media.py:98-136 | the loop gives the state of `Run`, then one more end-of-stream once `pushing` is false, unless an exception ended the thread |
| Listener.ConnectOutcomeOf | frontend/src/components/RadioPlayer.jsx:91-98 | `errback` with the server's text exactly when the reply has a truthy `error`; `callback` otherwise, including for no reply |
| Listener.ConsumeRejection | frontend/src/components/RadioPlayer.jsx:112-116 | a reply is rejected exactly when it has an error or no producer id; the reason is the error, else "No producerId" |
| Listener.Closing | frontend/src/components/RadioPlayer.jsx:153-168 | cleanup closes exactly the consumer, transport and socket it holds, the consumer first and the socket last |
| Listener.RadioPlayer.constructor | frontend/src/components/RadioPlayer.jsx:13-24 | mounted with an open socket, no device, transport, consumer or stream |
| Listener.RadioPlayer.OnRouterRtpCapabilities | frontend/src/components/RadioPlayer.jsx:26-37 | after unmount nothing happens; otherwise a new device replaces the ref, and a transport is requested only if it loaded |
| Listener.RadioPlayer.OnProducerAvailable | frontend/src/components/RadioPlayer.jsx:39-43 | a consume request goes out exactly when a loaded device and a transport exist and no consumer is held |
| Listener.RadioPlayer.OnProducerUnavailable | frontend/src/components/RadioPlayer.jsx:45-51 | the stream becomes null; a held consumer is closed and cleared |
| Listener.RadioPlayer.OnTransportReply | frontend/src/components/RadioPlayer.jsx:58-106 | an error reply, or a failing `createRecvTransport`, creates no transport and sends nothing; otherwise the transport is stored and a consume request follows |
| Listener.RadioPlayer.OnTransportConnect | frontend/src/components/RadioPlayer.jsx:91-92 | the `connect` event fires when a consume runs on a transport that is neither connected nor being connected (the first consume, and again the next one after an `errback`), and sends `connectWebRtcTransport` (nothing goes out once the socket is disconnected); the invariant keeps at most one `connect` of a transport awaiting its acknowledgement |
| Listener.RadioPlayer.OnConnectReply | frontend/src/components/RadioPlayer.jsx:92-98 | the `connect` event is settled as `ConnectOutcomeOf` the reply; only `callback` marks the transport connected, and after `errback` the next consume connects it again |
| Listener.RadioPlayer.OnConsumeReply | frontend/src/components/RadioPlayer.jsx:110-124 | a rejected reply, or no transport, leaves the consumer ref alone; otherwise the engine starts a consumer on the receive transport |
| Listener.RadioPlayer.OnLocalConsumeDone | frontend/src/components/RadioPlayer.jsx:119-146 | a consume that the engine refuses, whose transport's `connect` was not settled with `callback`, or whose transport was closed meanwhile, rejects and changes nothing else; a created consumer becomes the ref, and the stream is set only while mounted |
| Listener.RadioPlayer.OnConsumerTrackGone | frontend/src/components/RadioPlayer.jsx:135-141 | `transportclose` or `trackended` makes the stream null and keeps the consumer ref |
| Listener.RadioPlayer.Cleanup | frontend/src/components/RadioPlayer.jsx:153-168 | closes and nulls consumer, transport, socket in that order; the stream becomes null; pending acknowledgements are dropped |
| Listener.Handshake | frontend/src/components/RadioPlayer.jsx:26-133 | capabilities, transport reply, consume reply and an accepted `connect` lead to exactly the requests `createWebRtcTransport`, `consume`, `connectWebRtcTransport` and a playing stream |
| Listener.ConnectRefused | frontend/src/components/RadioPlayer.jsx:91-146 | a `connect` the server refuses is settled with `errback`, the consume rejects, and nothing is held or played |
| Listener.ConnectRetried | frontend/src/components/RadioPlayer.jsx:39-146 | after a refused `connect`, the next `producer-available` consumes again on the same transport, `connect` fires a second time, and once the server accepts the track plays |
| Listener.UnmountDuringConsume | frontend/src/components/RadioPlayer.jsx:119-168 | unmounting while a consumer is being created closes its transport; the consume then rejects, and neither a stream nor a consumer is left |
| Listener.ProducerArrivesLater | frontend/src/components/RadioPlayer.jsx:39-116 | after "Producer not available" no consumer is held, and `producer-available` asks again |
| Listener.TransportRefused | frontend/src/components/RadioPlayer.jsx:60-64 | an error reply leaves no transport, so `producer-available` asks for nothing |
| MediaServer.Connected | mediasoup/server.js:115 | `io.emit` reaches exactly the connected sockets |
| MediaServer.Started | mediasoup/server.js:204-220 | start-up leaves a live ingest transport, no producer, and the invariant |
| MediaServer.Disconnection | mediasoup/server.js:178-202 | clears the stats interval; closes the producer only if live; nulls it; tells every connected socket `producer-unavailable`; schedules exactly one recreation; afterwards no producer is live |
| MediaServer.CloseIngest | mediasoup/server.js:66-70 | closing the old ingest transport closes its live producer, whose `transportclose` runs the disconnection |
| MediaServer.RecreateIngest | mediasoup/server.js:66-176 | the old transport is closed before a new live one replaces it; on failure the closed one stays; `producer-unavailable` goes out only if a producer was live |
| MediaServer.ProducerConnected | mediasoup/server.js:92-157 | a producer is made only when none is live; a new one is fresh, is announced with its id to every connected socket, and its stats interval becomes the only one running |
| MediaServer.StatsTick | mediasoup/server.js:121-141 | a tick changes nothing while the producer is live; otherwise the interval clears itself |
| MediaServer.RecreationDue | mediasoup/server.js:194-201 | the scheduled recreation runs once and keeps the invariant |
| MediaServer.Connection | mediasoup/server.js:222-229 | a new socket is registered; it gets the capabilities, then `producer-available` only if a producer is live |
| MediaServer.CreateWebRtcTransport | mediasoup/server.js:231-265 | on success the fresh transport's id is answered and replaces the socket's field; on failure only the error goes back |
| MediaServer.ConnectWebRtcTransport | mediasoup/server.js:267-276 | only the requester is answered: success, the engine's error, or the TypeError when it never made a transport |
| MediaServer.Consume | mediasoup/server.js:278-351 | "Producer not available" before the capability check; then the missing-transport TypeError or the engine's error; on success a fresh consumer is stored and described with the live producer's id |
| MediaServer.RecreatePlainTransport | mediasoup/server.js:353-362 | rebuilds the ingest transport, then answers success or the engine's error |
| MediaServer.SocketDisconnect | mediasoup/server.js:364-374 | closes and forgets the socket's transport and consumer, if held; nothing else changes |
| MediaServer.ConnectionGreeting | mediasoup/server.js:222-229 | a new socket's inbox is the capabilities, then `producer-available` with the live producer's id if there is one |
| MediaServer.ProducerAnnouncedToListeners | mediasoup/server.js:114-115 | a new producer's id reaches exactly the sockets connected at that moment |
| MediaServer.UnavailableAnnouncedToListeners | mediasoup/server.js:191 | `producer-unavailable` reaches exactly the connected sockets |
| MediaServer.ConsumeAnswersOnlyRequester | mediasoup/server.js:278-350 | every `consume` outcome is one message to the requester and none to anyone else |
| MediaServer.DisconnectIsIdempotent | mediasoup/server.js:364-374 | a repeated `disconnect` changes nothing |
| MediaServer.SecondTransportOrphansFirst | mediasoup/server.js:244 | a second transport replaces the first without closing it, and `disconnect` closes only the second |
| MediaServer.DisconnectionThenRecreation | mediasoup/server.js:178-202 | after a disconnection and its recreation, a fresh ingest transport is live and the next `tuple` makes a producer |
| MediaServer.Server.constructor | mediasoup/server.js:204-220 | the state of `Started` |
| MediaServer.Server.HandleProducerDisconnection | mediasoup/server.js:178-202 | the new state is `Disconnection` of the old one |
| MediaServer.Server.CreatePlainTransport | mediasoup/server.js:66-176 | the new state is `RecreateIngest` of the old one |
| MediaServer.Server.OnTuple | mediasoup/server.js:92-157 | the new state is `ProducerConnected` of the old one |
| MediaServer.Server.OnStatsTick | mediasoup/server.js:121-141 | the new state is `StatsTick` of the old one |
| MediaServer.Server.OnRecreationTimer | mediasoup/server.js:194-201 | the new state is `RecreationDue` of the old one |
| MediaServer.Server.OnConnection | mediasoup/server.js:222-229 | the new state is `Connection` of the old one |
| MediaServer.Server.OnCreateWebRtcTransport | mediasoup/server.js:231-265 | the new state is `CreateWebRtcTransport` of the old one |
| MediaServer.Server.OnConnectWebRtcTransport | mediasoup/server.js:267-276 | the new state is `ConnectWebRtcTransport` of the old one |
| MediaServer.Server.OnConsume | mediasoup/server.js:278-351 | the new state is `Consume` of the old one |
| MediaServer.Server.OnRecreatePlainTransport | mediasoup/server.js:353-362 | the new state is `RecreatePlainTransport` of the old one |
| MediaServer.Server.OnDisconnect | mediasoup/server.js:364-374 | the new state is `SocketDisconnect` of the old one |

## Left out

- **Asynchrony.** Every handler runs as one atomic step. Two `tuple` events racing across the `await` of `produce` are not modelled, and neither are two `createPlainTransport` calls racing.
- **Engine internals.** mediasoup and mediasoup-client internals are not modelled: RTP and RTCP, ICE, DTLS, codecs, `canConsume`. Their outcomes are parameters. The closing of a listener's consumer by its transport is not modelled separately, because `disconnect` closes both anyway. Nor is the closing of the listeners' consumers when the producer closes: mediasoup closes them, and no handler of `server.js` depends on it.
- **Engine close events.** Whether the engine really emits the ingest transport's `close` event is left to the caller. `Server.HandleProducerDisconnection` is the handler that event, and the producer's `trackended` and `transportclose`, would run.
- **Logging timers.** The consumer stats intervals, and the contents of the producer stats, only log. Only whether the producer interval runs is modelled.
- **`Playlist.Initial` failure.** A listing that raises inside `__init__` leaves no player. The model starts from a successful first listing.
- **`ObjectStore.MinioRepository.DeleteFile` bucket names.** The client's syntax check of bucket names is not modelled. A malformed bucket name is reported as `NoSuchBucket` where the client raises `ValueError`; both end the request in an error.
- **`ObjectStore.MinioRepository.UploadMp3` and `UploadImage` blank names.** `put_object` refuses a blank object name; the model's uploads accept it. The extension checks of `POST /tracks/` never let a blank file name through.
- **Start-up failure.** A failed worker, router or first ingest transport ends the process. The model starts from a successful start-up.
- **Listener network events.** Socket disconnects and reconnects that the listener did not ask for are not modelled. `ConsumeReply` and `TransportReply` carry only the fields the listener tests, with the empty string standing for every falsy value.
- **Sender plumbing.** S3, Redis, the GStreamer pipeline, the push thread, `time.sleep` and the GLib loop are parameters of each iteration (`Playlist.Round`). Only the first listing page is modelled, as in the code. An exception from the push itself is not modelled.
- **Hash comparison.** `Playlist.Refresh` compares listings by equality where the code compares `hash(tuple(...))`, so hash collisions are ignored.
- **Backend plumbing.** The database session, FastAPI dependency injection and object contents are not modelled. The table is a map keyed by title. The object store is a set of names per bucket.
- **Upload failures.** An S3 error during an upload propagates in the code. The model's uploads always succeed.
- **`Catalogue.TrackService.CreateTrack` failures.** It models only two insert failures: a NOT NULL `cover_url` and a duplicate title.
- **`TracksRouter.CreateTrack` errors.** It reports both insert failures as one 500.
- **White space.** `Strings.IsSpace` is Python's `str.isspace` over the code points listed there. No Unicode normalisation is done.
- **`get_all_tracks`.** It and the Redis polling loop of the `/track-updates` stream only forward data and are not part of this model.

## Findings

| source | as written | input that shows it | evidently intended | confidence | as-written member | corrected member |
|---|---|---|---|---|---|---|
| backend/Services/track_service.py:30 | a found track is converted with `TrackResponse.from_track_response`, which `TrackResponse` does not define, so the call raises `AttributeError` to its caller (no route of the backend calls the method) | a table holding a record titled `Song`, and `get_track_info("Song")` | return the record's artist, title, cover URL and MP3 URL | not executed | Catalogue.GetTrackInfoAsWritten | Catalogue.GetTrackInfo |
