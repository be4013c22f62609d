/** The MinIO repository: two buckets, `media` for MP3 files and `image` for
    covers, and the deletion of an object named by a `bucket/object` path.
    The object store is modelled as the set of object names in each bucket;
    object contents and network failures are not modelled. */
module ObjectStore {

  import opened Wrappers
  import opened Strings

  const Media := "media"
  const Image := "image"

  /** Bucket name to the names of the objects it holds. */
  type Buckets = map<string, set<string>>

  datatype StoreError =
    | MalformedPath(path: string)   // `split("/", 1)` gave one part: a ValueError
    | BlankObjectName(name: string) // the ValueError of `remove_object` on an empty or all-blank name
    | NoSuchBucket(bucket: string)  // the S3Error of `remove_object` on a missing bucket

  /** `put_object(bucket, name, ...)` on an existing bucket. */
  function Put(store: Buckets, bucket: string, name: string): (r: Buckets)
    requires bucket in store
    ensures r.Keys == store.Keys && name in r[bucket]
    ensures r[bucket] == store[bucket] + {name}
    ensures forall b :: b in store && b != bucket ==> r[b] == store[b]
  {
    store[bucket := store[bucket] + {name}]
  }

  /** `remove_object(bucket, name)` on an existing bucket; removing a missing
      object is not an error. */
  function Remove(store: Buckets, bucket: string, name: string): (r: Buckets)
    requires bucket in store
    ensures r.Keys == store.Keys && name !in r[bucket]
    ensures r[bucket] == store[bucket] - {name}
    ensures forall b :: b in store && b != bucket ==> r[b] == store[b]
  {
    store[bucket := store[bucket] - {name}]
  }

  /** An object name the MinIO client refuses before it sends anything
      (`not name.strip()`): empty, or white space only. */
  predicate Blank(name: string) {
    forall i :: 0 <= i < |name| ==> IsSpace(name[i])
  }

  /** `Blank` is Python's `not name.strip()`. */
  lemma BlankIsStrippedEmpty(name: string)
    ensures Blank(name) <==> Strip(name) == []
  {
    var t := TrimStart(name);
    assert t == name[|name| - |t|..];
    if Strip(name) == [] {
      forall i | 0 <= i < |name| ensures IsSpace(name[i]) {
        if i >= |name| - |t| {
          assert name[i] == t[i - (|name| - |t|)];
        }
      }
    }
  }

  /** The path handling of `delete_file`: at most one leading `/` is dropped,
      then the rest is split at its first `/` into the bucket and the object
      name (which may itself contain `/`); no `/` left is an error. */
  function SplitPath(path: string): (r: Option<(string, string)>)
    ensures var p := if StartsWith(path, "/") then path[1..] else path;
      && (r.None? <==> '/' !in p)
      && (r.Some? ==> p == r.value.0 + "/" + r.value.1 && '/' !in r.value.0)
  {
    var p := if StartsWith(path, "/") then path[1..] else path;
    match IndexOf(p, '/')
    case None => None
    case Some(i) =>
      assert p == p[..i] + "/" + p[i + 1..];
      Some((p[..i], p[i + 1..]))
  }

  /** A split at a `/` is the split at the first one when the part before it
      holds no `/`. */
  lemma {:induction false} SplitUnique(b: string, o: string, b': string, o': string)
    requires '/' !in b && '/' !in b'
    requires b + "/" + o == b' + "/" + o'
    ensures b == b' && o == o'
  {
    var p := b + "/" + o;
    assert p[|b|] == '/' && p[|b'|] == '/';
    assert forall i :: 0 <= i < |b| ==> p[i] == b[i] != '/';
    assert forall i :: 0 <= i < |b'| ==> p[i] == b'[i] != '/';
    assert b == p[..|b|] == b';
    assert o == p[|b| + 1..] == o';
  }

  /** The path `bucket/name` names object `name` in `bucket` whenever the
      bucket name is non-empty and has no `/`: whatever the object name holds. */
  lemma SplitJoinedPath(bucket: string, name: string)
    requires bucket != [] && '/' !in bucket
    ensures SplitPath(bucket + "/" + name) == Some((bucket, name))
  {
    var path := bucket + "/" + name;
    assert path[0] == bucket[0];
    assert !StartsWith(path, "/");
    var r := SplitPath(path);
    SplitUnique(r.value.0, r.value.1, bucket, name);
  }

  /** Only one leading `/` is dropped: a second one leaves an empty bucket name. */
  lemma DoubleSlashGivesEmptyBucket(rest: string)
    ensures SplitPath("//" + rest) == Some(("", rest))
  {
    var r := SplitPath("//" + rest);
    assert ("//" + rest)[1..] == "" + "/" + rest;
    SplitUnique(r.value.0, r.value.1, "", rest);
  }

  /** Deleting `media/<name>` removes exactly the object that uploading `name`
      stored, and nothing else. */
  lemma {:induction false} UploadThenDeleteMp3(store: Buckets, name: string)
    requires Media in store
    ensures SplitPath(Media + "/" + name) == Some((Media, name))
    ensures Remove(Put(store, Media, name), Media, name) == store[Media := store[Media] - {name}]
    ensures name !in store[Media] ==> Remove(Put(store, Media, name), Media, name) == store
  {
    SplitJoinedPath(Media, name);
    assert store[Media] + {name} - {name} == store[Media] - {name};
    if name !in store[Media] {
      assert store[Media] + {name} - {name} == store[Media];
      assert store[Media := store[Media]] == store;
    }
  }

  /** The MinIO client as the repository sees it: the buckets with their
      objects, and the buckets that carry the public-read policy. */
  class MinioRepository {
    var buckets: Buckets
    var publicRead: set<string>

    ghost predicate Valid()
      reads this
    {
      Media in buckets && Image in buckets
    }

    /** `__init__` connects to the server holding `existing` and calls
        `ensure_buckets_exist`. */
    constructor (existing: Buckets, policies: set<string>)
      ensures Valid()
      ensures buckets.Keys == existing.Keys + {Media, Image}
      ensures forall b :: b in existing ==> buckets[b] == existing[b]
      ensures forall b :: b in buckets && b !in existing ==> buckets[b] == {}
      ensures publicRead == if Image in existing then policies else policies + {Image}
    {
      buckets, publicRead := existing, policies;
      new;
      EnsureBucketsExist();
    }

    /** Creates `media` and `image` when missing; a bucket that exists is left
        as it is, and only a freshly made `image` gets the public-read policy. */
    method EnsureBucketsExist()
      modifies this
      ensures Valid()
      ensures buckets.Keys == old(buckets).Keys + {Media, Image}
      ensures forall b :: b in old(buckets) ==> buckets[b] == old(buckets)[b]
      ensures forall b :: b in buckets && b !in old(buckets) ==> buckets[b] == {}
      ensures publicRead == if Image in old(buckets) then old(publicRead) else old(publicRead) + {Image}
    {
      if Media !in buckets {
        buckets := buckets[Media := {}];
      }
      if Image !in buckets {
        buckets := buckets[Image := {}];
        publicRead := publicRead + {Image};
      }
    }

    /** `upload_mp3`: stores the file in `media` under its unmodified name and
        returns that name. */
    method UploadMp3(filename: string) returns (stored: string)
      requires Valid()
      modifies this`buckets
      ensures Valid()
      ensures stored == filename
      ensures buckets == Put(old(buckets), Media, filename)
    {
      buckets := Put(buckets, Media, filename);
      stored := filename;
    }

    /** `upload_image`: the same, in bucket `image`. */
    method UploadImage(filename: string) returns (stored: string)
      requires Valid()
      modifies this`buckets
      ensures Valid()
      ensures stored == filename
      ensures buckets == Put(old(buckets), Image, filename)
    {
      buckets := Put(buckets, Image, filename);
      stored := filename;
    }

    /** `delete_file`: fails, before removing anything, on a path without `/`
        (after dropping one leading `/`), on a blank object name, and on a
        bucket that does not exist. */
    method DeleteFile(path: string) returns (r: Result<(), StoreError>)
      modifies this`buckets
      ensures SplitPath(path).None? ==> r == Err(MalformedPath(path)) && buckets == old(buckets)
      ensures SplitPath(path).Some? ==>
        var (bucket, name) := SplitPath(path).value;
        if Blank(name) then r == Err(BlankObjectName(name)) && buckets == old(buckets)
        else if bucket in old(buckets) then r.Ok? && buckets == Remove(old(buckets), bucket, name)
        else r == Err(NoSuchBucket(bucket)) && buckets == old(buckets)
    {
      match SplitPath(path)
      case None =>
        r := Err(MalformedPath(path));
      case Some((bucket, name)) =>
        if Blank(name) {
          r := Err(BlankObjectName(name));
        } else if bucket in buckets {
          buckets := Remove(buckets, bucket, name);
          r := Ok(());
        } else {
          r := Err(NoSuchBucket(bucket));
        }
    }
  }
}
