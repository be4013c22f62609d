/** `S3RTPPlayer` of the streaming source: it lists the `.mp3` keys of a bucket
    in sorted order, plays them one after the other (announcing each on Redis
    and pushing its bytes into the encoder in 4096-byte chunks), and re-lists
    the bucket when it reaches the end. The S3 listing, the download, Redis
    and the GStreamer push results are inputs of each loop iteration (a
    `Round`); sleeping, threads and the GLib main loop are not modelled. */
module Playlist {

  import opened Wrappers
  import opened Strings

  type Bytes = seq<bv8>

  /** The size of each `read` of the downloaded track. */
  const ChunkSize: nat := 4096

  // ---------------------------------------------------------------------
  // Listing: `_list_mp3_files`

  /** Python's order on `str`: lexicographic on code points. */
  predicate LexLe(a: string, b: string)
    decreases |a|
  {
    a == [] || (b != [] && (a[0] < b[0] || (a[0] == b[0] && LexLe(a[1..], b[1..]))))
  }

  lemma {:induction false} LexLeTotal(a: string, b: string)
    ensures LexLe(a, b) || LexLe(b, a)
    decreases |a|
  {
    if a != [] && b != [] && a[0] == b[0] {
      LexLeTotal(a[1..], b[1..]);
    }
  }

  predicate Sorted(s: seq<string>) {
    forall i :: 0 < i < |s| ==> LexLe(s[i - 1], s[i])
  }

  /** Inserts `x` into the sorted `s`, before the first element it does not
      come after. */
  function Insert(x: string, s: seq<string>): (r: seq<string>)
    requires Sorted(s)
    ensures Sorted(r) && multiset(r) == multiset(s) + multiset{x}
    ensures |r| == |s| + 1 && (r[0] == x || (s != [] && r[0] == s[0]))
  {
    if s == [] then [x]
    else if LexLe(x, s[0]) then [x] + s
    else
      LexLeTotal(x, s[0]);
      var rest := Insert(x, s[1..]);
      assert s == [s[0]] + s[1..];
      [s[0]] + rest
  }

  /** Python's `sorted` on a list of keys. */
  function SortKeys(keys: seq<string>): (r: seq<string>)
    ensures Sorted(r) && multiset(r) == multiset(keys)
  {
    if keys == [] then []
    else
      assert keys == [keys[0]] + keys[1..];
      Insert(keys[0], SortKeys(keys[1..]))
  }

  /** The keys that end in `.mp3`, in listing order. */
  function Mp3Keys(keys: seq<string>): (r: seq<string>)
    ensures forall k :: multiset(r)[k] == if EndsWith(k, ".mp3") then multiset(keys)[k] else 0
  {
    if keys == [] then []
    else
      assert keys == [keys[0]] + keys[1..];
      (if EndsWith(keys[0], ".mp3") then [keys[0]] else []) + Mp3Keys(keys[1..])
  }

  /** `_list_mp3_files`: `listing` holds the keys of the bucket, or `None` when
      the answer has no `Contents`. The result is sorted and holds exactly the
      keys that end in `.mp3`, each as often as it was listed. */
  function ListMp3Files(listing: Option<seq<string>>): (r: seq<string>)
    ensures listing.None? ==> r == []
    ensures Sorted(r)
    ensures forall k :: multiset(r)[k] == if listing.Some? && EndsWith(k, ".mp3") then multiset(listing.value)[k] else 0
  {
    match listing
    case None => []
    case Some(keys) => SortKeys(Mp3Keys(keys))
  }

  /** A key is listed as a track exactly when the bucket holds it and it ends
      in `.mp3`. */
  lemma ListedTracks(keys: seq<string>, k: string)
    ensures k in ListMp3Files(Some(keys)) <==> k in keys && EndsWith(k, ".mp3")
  {
    var r := ListMp3Files(Some(keys));
    assert k in r <==> multiset(r)[k] > 0;
    assert k in keys <==> multiset(keys)[k] > 0;
  }

  // ---------------------------------------------------------------------
  // Chunking: the inner read loop of `push_loop`

  function Flatten(chunks: seq<Bytes>): Bytes {
    if chunks == [] then [] else chunks[0] + Flatten(chunks[1..])
  }

  /** The successive results of `read(4096)` until the empty read, which put
      together give back the data. */
  function Chunks(data: Bytes): (r: seq<Bytes>)
    ensures Flatten(r) == data
    decreases |data|
  {
    if data == [] then []
    else
      var n := if |data| < ChunkSize then |data| else ChunkSize;
      var rest := Chunks(data[n..]);
      var r := [data[..n]] + rest;
      assert r[1..] == rest;
      assert data == data[..n] + data[n..];
      r
  }

  /** Every chunk is non-empty and at most 4096 bytes long, and all but the
      last are full; there are as many as 4096-byte blocks needed. */
  lemma {:induction false} ChunkSizes(data: Bytes)
    ensures forall i :: 0 <= i < |Chunks(data)| ==> 0 < |Chunks(data)[i]| <= ChunkSize
    ensures forall i :: 0 <= i < |Chunks(data)| - 1 ==> |Chunks(data)[i]| == ChunkSize
    ensures |Chunks(data)| == (|data| + ChunkSize - 1) / ChunkSize
    decreases |data|
  {
    if data != [] {
      var n := if |data| < ChunkSize then |data| else ChunkSize;
      ChunkSizes(data[n..]);
      var r := Chunks(data);
      assert r == [data[..n]] + Chunks(data[n..]);
      forall i | 0 < i < |r| ensures r[i] == Chunks(data[n..])[i - 1] { }
    }
  }

  /** How many chunks reach the encoder when the push numbered `failAt` (from
      0) is the first one refused: that one is pushed, none after it. */
  function PushedCount(n: nat, failAt: Option<nat>): (k: nat)
    ensures k <= n
    ensures failAt.None? ==> k == n
    ensures failAt.Some? && failAt.value < n ==> k == failAt.value + 1
    ensures failAt.Some? && failAt.value >= n ==> k == n
  {
    if failAt.Some? && failAt.value < n then failAt.value + 1 else n
  }

  /** The read at `offset` returns the first of the chunks that remain. */
  lemma NextChunk(data: Bytes, offset: nat, end: nat)
    requires offset < |data|
    requires end == if offset + ChunkSize <= |data| then offset + ChunkSize else |data|
    ensures Chunks(data[offset..]) == [data[offset..end]] + Chunks(data[end..])
  {
    assert data[offset..][end - offset..] == data[end..];
    assert data[offset..][..end - offset] == data[offset..end];
  }

  lemma TakeOneMore(all: seq<Bytes>, count: nat, chunk: Bytes, rest: seq<Bytes>)
    requires count <= |all| && all[count..] == [chunk] + rest
    ensures count < |all| && all[..count + 1] == all[..count] + [chunk] && all[count + 1..] == rest
  {
    assert all[count] == all[count..][0];
    assert all[count + 1..] == all[count..][1..];
  }

  /** With no refused push, the chunks that reach the encoder are the whole
      track, in order. */
  lemma WholeTrackReachesEncoder(data: Bytes, failAt: Option<nat>)
    requires failAt.None? || failAt.value >= |Chunks(data)|
    ensures Flatten(Chunks(data)[..PushedCount(|Chunks(data)|, failAt)]) == data
  {
    assert Chunks(data)[..|Chunks(data)|] == Chunks(data);
  }

  // ---------------------------------------------------------------------
  // The player state and one iteration of `push_loop`

  /** How far `publish` then `set` get before Redis raises. */
  datatype RedisReply = Down | PublishOnly | Up

  /** What `list_objects_v2` answers: the keys of the bucket (`None` when the
      response has no `Contents`), or an exception. */
  datatype Listing = Listed(contents: Option<seq<string>>) | ListingRaised

  /** What the environment answers during one iteration: the bucket listing
      (used when the list is refreshed), how far Redis gets with the
      announcement, the downloaded bytes (`None`: the download raised), the
      first push the encoder refuses, and whether `stop` is called meanwhile. */
  datatype Round = Round(
    listing: Listing,
    redis: RedisReply,
    download: Option<Bytes>,
    failAt: Option<nat>,
    stopRequested: bool)

  /** The fields of the player, plus what it has sent out: the Redis key
      `last_track`, the messages on `track_updates`, the buffers pushed into
      `appsrc`, and the end-of-stream events emitted. `lastTrackList` stands for
      `last_track_list_hash` (hash collisions are not modelled). `started`
      says that `start` built the pipeline and `appsrc`; `playing` that the
      pipeline is in state PLAYING; `crashed` that an exception escaped
      `push_loop` and ended the push thread. */
  datatype PlayerState = PlayerState(
    tracks: seq<string>,
    lastTrackList: seq<string>,
    trackIdx: nat,
    pushing: bool,
    started: bool,
    playing: bool,
    lastTrack: Option<string>,
    announced: seq<string>,
    pushed: seq<Bytes>,
    endOfStreams: nat,
    crashed: bool)

  /** The invariant every step keeps: the remembered list is the current one,
      it is sorted, and the cursor is at most one past its end. */
  ghost predicate Inv(s: PlayerState) {
    s.lastTrackList == s.tracks && Sorted(s.tracks) && s.trackIdx <= |s.tracks|
  }

  function Initial(listing: Option<seq<string>>): (s: PlayerState)
    ensures Inv(s)
  {
    var tracks := ListMp3Files(listing);
    PlayerState(tracks, tracks, 0, true, false, false, None, [], [], 0, false)
  }

  /** `_refresh_track_list_if_changed`. */
  function Refresh(s: PlayerState, listing: Option<seq<string>>): (t: PlayerState)
    requires Inv(s)
    ensures Inv(t)
    ensures ListMp3Files(listing) != s.tracks ==>
      t == s.(tracks := ListMp3Files(listing), lastTrackList := ListMp3Files(listing), trackIdx := 0)
    ensures ListMp3Files(listing) == s.tracks ==> t == s
  {
    var relisted := ListMp3Files(listing);
    if relisted != s.lastTrackList then s.(tracks := relisted, lastTrackList := relisted, trackIdx := 0) else s
  }

  /** `_publish_current_track`: the message goes out, then the key is set;
      a Redis error is swallowed and skips what is left. */
  function Publish(s: PlayerState, name: string, redis: RedisReply): (t: PlayerState)
    ensures t.(lastTrack := s.lastTrack, announced := s.announced) == s
    ensures t.announced == s.announced + (if redis.Down? then [] else [name])
    ensures t.lastTrack == if redis.Up? then Some(name) else s.lastTrack
  {
    match redis
    case Down => s
    case PublishOnly => s.(announced := s.announced + [name])
    case Up => s.(lastTrack := Some(name), announced := s.announced + [name])
  }

  /** The download and the chunk loop; a download that raised pushes nothing. */
  function Play(s: PlayerState, download: Option<Bytes>, failAt: Option<nat>): (t: PlayerState)
    ensures t.(pushed := s.pushed) == s
    ensures download.None? ==> t.pushed == s.pushed
    ensures download.Some? ==>
      t.pushed == s.pushed + Chunks(download.value)[..PushedCount(|Chunks(download.value)|, failAt)]
  {
    match download
    case None => s
    case Some(data) =>
      var chunks := Chunks(data);
      s.(pushed := s.pushed + chunks[..PushedCount(|chunks|, failAt)])
  }

  /** `_refresh_track_list_if_changed` on what `list_objects_v2` answered;
      a listing that raises changes nothing but ends the thread. */
  function Relist(s: PlayerState, listing: Listing): (t: PlayerState)
    requires Inv(s)
    ensures Inv(t)
    ensures listing.ListingRaised? ==> t == s.(crashed := true)
    ensures listing.Listed? ==> t == Refresh(s, listing.contents)
  {
    match listing
    case ListingRaised => s.(crashed := true)
    case Listed(contents) => Refresh(s, contents)
  }

  /** The last branch of the loop body: the track under the cursor is
      announced and played, and the cursor moves on by one. */
  function PlayCurrent(s: PlayerState, r: Round): (t: PlayerState)
    requires Inv(s) && s.trackIdx < |s.tracks|
    ensures Inv(t)
    ensures t.pushing == s.pushing && t.started == s.started && t.endOfStreams == s.endOfStreams
    ensures t.crashed == s.crashed
    ensures t.tracks == s.tracks && t.trackIdx == s.trackIdx + 1
    ensures t.announced == s.announced + (if r.redis.Down? then [] else [s.tracks[s.trackIdx]])
    ensures t.lastTrack == (if r.redis.Up? then Some(s.tracks[s.trackIdx]) else s.lastTrack)
    ensures r.download.None? ==> t.pushed == s.pushed
    ensures r.download.Some? ==>
      t.pushed == s.pushed + Chunks(r.download.value)[..PushedCount(|Chunks(r.download.value)|, r.failAt)]
  {
    var current := s.tracks[s.trackIdx];
    var played := Play(Publish(s, current, r.redis), r.download, r.failAt);
    played.(trackIdx := s.trackIdx + 1)
  }

  /** One iteration of the body of `push_loop`. The two re-listings sit
      outside its `try`, so a listing that raises escapes the loop. */
  function Step(s: PlayerState, r: Round): (t: PlayerState)
    requires Inv(s)
    ensures Inv(t)
    ensures t.pushing == s.pushing && t.started == s.started && t.endOfStreams == s.endOfStreams
    ensures t.crashed == (s.crashed || (s.trackIdx == |s.tracks| && r.listing.ListingRaised?))
    // a re-listing that raises changes nothing but ends the thread
    ensures s.trackIdx == |s.tracks| && r.listing.ListingRaised? ==> t == s.(crashed := true)
    // an empty list: nothing is announced or pushed, the bucket is re-listed
    ensures s.tracks == [] && r.listing.Listed? ==> t == Refresh(s, r.listing.contents)
    // past the end: re-list, then start from the first track whatever changed
    ensures s.tracks != [] && s.trackIdx == |s.tracks| && r.listing.Listed? ==>
      t == Refresh(s, r.listing.contents).(trackIdx := 0)
    // otherwise the track under the cursor is announced and played, and the
    // cursor moves on by one whether the download and pushes worked or not
    ensures s.trackIdx < |s.tracks| ==>
      && t.tracks == s.tracks && t.trackIdx == s.trackIdx + 1
      && t.announced == s.announced + (if r.redis.Down? then [] else [s.tracks[s.trackIdx]])
      && t.lastTrack == (if r.redis.Up? then Some(s.tracks[s.trackIdx]) else s.lastTrack)
      && (r.download.None? ==> t.pushed == s.pushed)
      && (r.download.Some? ==>
            t.pushed == s.pushed + Chunks(r.download.value)[..PushedCount(|Chunks(r.download.value)|, r.failAt)])
  {
    if s.tracks == [] then Relist(s, r.listing)
    else if s.trackIdx >= |s.tracks| then
      if r.listing.ListingRaised? then Relist(s, r.listing) else Relist(s, r.listing).(trackIdx := 0)
    else PlayCurrent(s, r)
  }

  /** `stop`: the loop flag is cleared, `appsrc` (if built) gets end-of-stream,
      and the pipeline (if built) goes to state NULL. */
  function Stopped(s: PlayerState): (t: PlayerState)
    ensures !t.pushing && !t.playing
  {
    s.(pushing := false, playing := false,
       endOfStreams := if s.started then s.endOfStreams + 1 else s.endOfStreams)
  }

  /** The iterations of `push_loop` over `rounds`, stopping at the first
      iteration that starts with `pushing` false, or once the thread ended. */
  function Run(s: PlayerState, rounds: seq<Round>): (t: PlayerState)
    requires Inv(s)
    ensures Inv(t)
    decreases |rounds|
  {
    if rounds == [] || !s.pushing || s.crashed then s
    else
      var next := Step(s, rounds[0]);
      Run(if rounds[0].stopRequested then Stopped(next) else next, rounds[1..])
  }

  /** The end of `push_loop`, once `pushing` is false: `appsrc` gets
      end-of-stream, unless an exception ended the thread before. */
  function LoopExit(s: PlayerState): PlayerState {
    if !s.pushing && s.started && !s.crashed then s.(endOfStreams := s.endOfStreams + 1) else s
  }

  /** The rounds announce what they find and let the loop go on. */
  ghost predicate SteadyRounds(rounds: seq<Round>, listing: Option<seq<string>>) {
    forall i :: 0 <= i < |rounds| ==>
      rounds[i].redis.Up? && !rounds[i].stopRequested && rounds[i].listing == Listed(listing)
  }

  /** From track `trackIdx` on, with Redis up and no stop, the loop announces
      the rest of the list in sorted order and ends just past its end. */
  lemma {:induction false} PassAnnouncesRemainingTracks(s: PlayerState, rounds: seq<Round>, listing: Option<seq<string>>)
    requires Inv(s) && s.pushing && !s.crashed
    requires |rounds| == |s.tracks| - s.trackIdx
    requires SteadyRounds(rounds, listing)
    ensures Run(s, rounds).announced == s.announced + s.tracks[s.trackIdx..]
    ensures Run(s, rounds).tracks == s.tracks && Run(s, rounds).trackIdx == |s.tracks|
    ensures Run(s, rounds).pushing
    ensures rounds != [] ==> Run(s, rounds).lastTrack == Some(s.tracks[|s.tracks| - 1])
    decreases |rounds|
  {
    if rounds != [] {
      var next := Step(s, rounds[0]);
      assert next == PlayCurrent(s, rounds[0]);
      assert next.announced == s.announced + [s.tracks[s.trackIdx]];
      assert Run(s, rounds) == Run(next, rounds[1..]);
      assert SteadyRounds(rounds[1..], listing) by {
        forall i | 0 <= i < |rounds[1..]| ensures rounds[1..][i] == rounds[i + 1] { }
      }
      PassAnnouncesRemainingTracks(next, rounds[1..], listing);
      assert s.tracks[s.trackIdx..] == [s.tracks[s.trackIdx]] + s.tracks[s.trackIdx + 1..];
    }
  }

  /** With a bucket that does not change, one pass from the first track
      announces every track once, in sorted order; the next iteration
      re-lists, keeps the list and goes back to the first track. */
  lemma {:induction false} PassThenWrap(s: PlayerState, rounds: seq<Round>, listing: Option<seq<string>>, next: Round)
    requires Inv(s) && s.pushing && !s.crashed && s.trackIdx == 0 && s.tracks != []
    requires ListMp3Files(listing) == s.tracks
    requires |rounds| == |s.tracks| && SteadyRounds(rounds, listing)
    requires next.listing == Listed(listing)
    ensures Run(s, rounds).announced == s.announced + s.tracks
    ensures Run(s, rounds).lastTrack == Some(s.tracks[|s.tracks| - 1])
    ensures var wrapped := Step(Run(s, rounds), next);
      wrapped.tracks == s.tracks && wrapped.trackIdx == 0
  {
    PassAnnouncesRemainingTracks(s, rounds, listing);
    assert s.tracks[0..] == s.tracks;
  }

  /** While the bucket holds no `.mp3` key, the loop announces and pushes
      nothing. */
  lemma {:induction false} EmptyBucketPlaysNothing(s: PlayerState, rounds: seq<Round>)
    requires Inv(s) && s.tracks == []
    requires forall i :: 0 <= i < |rounds| ==>
      rounds[i].listing.Listed? ==> ListMp3Files(rounds[i].listing.contents) == []
    ensures Run(s, rounds).announced == s.announced && Run(s, rounds).pushed == s.pushed
    ensures Run(s, rounds).tracks == [] && Run(s, rounds).lastTrack == s.lastTrack
    decreases |rounds|
  {
    if rounds != [] && s.pushing {
      var next := Step(s, rounds[0]);
      var after := if rounds[0].stopRequested then Stopped(next) else next;
      assert after.tracks == [] && after.announced == s.announced && after.pushed == s.pushed;
      forall i | 0 <= i < |rounds[1..]| && rounds[1..][i].listing.Listed?
        ensures ListMp3Files(rounds[1..][i].listing.contents) == []
      {
        assert rounds[1..][i] == rounds[i + 1];
      }
      EmptyBucketPlaysNothing(after, rounds[1..]);
    }
  }

  /** A re-listing that raises escapes `push_loop`: the thread ends there,
      nothing more is announced, pushed or re-listed whatever rounds would
      follow, and the loop's own end-of-stream never comes. */
  lemma {:induction false} ListingErrorEndsThread(s: PlayerState, r: Round, rest: seq<Round>)
    requires Inv(s) && s.pushing && !s.crashed
    requires s.trackIdx == |s.tracks| && r.listing.ListingRaised? && !r.stopRequested
    ensures LoopExit(Run(s, [r] + rest)) == s.(crashed := true)
  {
    var rounds := [r] + rest;
    assert rounds[0] == r && rounds[1..] == rest;
    assert Run(s, rounds) == Run(Step(s, r), rest);
  }

  // ---------------------------------------------------------------------
  // The player object

  class S3RtpPlayer {
    var tracks: seq<string>
    var lastTrackList: seq<string>
    var trackIdx: nat
    var pushing: bool
    var started: bool
    var playing: bool
    var lastTrack: Option<string>
    var announced: seq<string>
    var pushed: seq<Bytes>
    var endOfStreams: nat
    var crashed: bool

    function State(): PlayerState
      reads this
    {
      PlayerState(tracks, lastTrackList, trackIdx, pushing, started, playing,
                  lastTrack, announced, pushed, endOfStreams, crashed)
    }

    ghost predicate Valid()
      reads this
    {
      Inv(State())
    }

    /** `__init__`: the first listing, its remembered copy, the cursor at 0. */
    constructor (listing: Option<seq<string>>)
      ensures Valid() && State() == Initial(listing)
    {
      tracks := ListMp3Files(listing);
      lastTrackList := ListMp3Files(listing);
      trackIdx := 0;
      pushing := true;
      started, playing := false, false;
      lastTrack, announced, pushed, endOfStreams := None, [], [], 0;
      crashed := false;
    }

    /** `start`: builds the pipeline and `appsrc` and sets it PLAYING (the
        thread running `PushLoop` and the GLib loop are not modelled). */
    method Start()
      requires Valid()
      modifies this
      ensures Valid() && State() == old(State()).(started := true, playing := true)
    {
      started := true;
      playing := true;
    }

    /** `_refresh_track_list_if_changed`; `raised` says that the listing
        raised, which leaves the player as it was. */
    method RefreshTrackListIfChanged(listing: Listing) returns (raised: bool)
      requires Valid()
      modifies this
      ensures raised <==> listing.ListingRaised?
      ensures listing.ListingRaised? ==> State() == old(State())
      ensures listing.Listed? ==> State() == Refresh(old(State()), listing.contents)
      ensures Valid()
    {
      if listing.ListingRaised? {
        return true;
      }
      raised := false;
      var newTracks := ListMp3Files(listing.contents);
      if newTracks != lastTrackList {
        tracks := newTracks;
        lastTrackList := newTracks;
        trackIdx := 0;
      }
    }

    method PublishCurrentTrack(trackName: string, redis: RedisReply)
      modifies this
      ensures State() == Publish(old(State()), trackName, redis)
    {
      if redis.Down? {
        return;
      }
      announced := announced + [trackName];
      if redis.PublishOnly? {
        return;
      }
      lastTrack := Some(trackName);
    }

    /** The chunk loop: read 4096 bytes at a time and push each into
        `appsrc`, stopping at the empty read or after the first refused push. */
    method PushTrack(data: Bytes, failAt: Option<nat>)
      modifies this`pushed
      ensures pushed == old(pushed) + Chunks(data)[..PushedCount(|Chunks(data)|, failAt)]
    {
      ghost var all := Chunks(data);
      var offset := 0;
      var count := 0;
      while true
        invariant 0 <= offset <= |data| && count <= |all|
        invariant all[count..] == Chunks(data[offset..])
        invariant pushed == old(pushed) + all[..count]
        invariant failAt.Some? ==> count <= failAt.value
        decreases |data| - offset
      {
        var end := if offset + ChunkSize <= |data| then offset + ChunkSize else |data|;
        var chunk := data[offset..end];
        if chunk == [] {
          assert data[offset..] == [];
          assert count == PushedCount(|all|, failAt);
          break;
        }
        NextChunk(data, offset, end);
        TakeOneMore(all, count, chunk, Chunks(data[end..]));
        pushed := pushed + [chunk];
        var flowOk := failAt != Some(count);
        offset, count := end, count + 1;
        if !flowOk {
          assert count == PushedCount(|all|, failAt);
          break;
        }
      }
    }

    /** One pass of the `while self.pushing` body. */
    method Iterate(round: Round)
      requires Valid()
      modifies this
      ensures Valid() && State() == Step(old(State()), round)
    {
      if tracks == [] {
        var raised := RefreshTrackListIfChanged(round.listing);
        crashed := crashed || raised;
        return;
      }
      if trackIdx >= |tracks| {
        var raised := RefreshTrackListIfChanged(round.listing);
        if raised {
          crashed := true;
          return;
        }
        trackIdx := 0;
        return;
      }
      var currentKey := tracks[trackIdx];
      PublishCurrentTrack(currentKey, round.redis);
      match round.download {
        case None =>
        case Some(data) => PushTrack(data, round.failAt);
      }
      trackIdx := trackIdx + 1;
    }

    /** `stop`. */
    method Stop()
      requires Valid()
      modifies this
      ensures Valid() && State() == Stopped(old(State()))
    {
      pushing := false;
      if started {
        endOfStreams := endOfStreams + 1;
      }
      playing := false;
    }

    /** `push_loop` for as many iterations as `rounds` describes; `stop`
        called during an iteration takes effect at its end, and the loop then
        emits its own end-of-stream. */
    method PushLoop(rounds: seq<Round>)
      requires Valid()
      modifies this
      ensures Valid() && State() == LoopExit(Run(old(State()), rounds))
    {
      var i := 0;
      while pushing && !crashed && i < |rounds|
        invariant 0 <= i <= |rounds| && Valid()
        invariant Run(old(State()), rounds) == Run(State(), rounds[i..])
      {
        Iterate(rounds[i]);
        if rounds[i].stopRequested {
          Stop();
        }
        assert rounds[i..][1..] == rounds[i + 1..];
        i := i + 1;
      }
      if !pushing && started && !crashed {
        endOfStreams := endOfStreams + 1;
      }
    }
  }
}
