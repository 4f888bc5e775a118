/** The gitignore catalog fetcher: a week-long local cache in front of the
    remote template list. The clock, the cache file and the remote endpoint are
    the state of a `Host`; what they answer is given, not computed. */
module Fetcher {
  import opened Wrappers
  import opened Catalog

  const SecsInWeek: nat := 60 * 60 * 24 * 7
  const NanosPerSec: nat := 1_000_000_000
  /** One week in nanoseconds. */
  const Week: nat := SecsInWeek * NanosPerSec

  /** A `SystemTime`, in nanoseconds since the Unix epoch. */
  type Time = int

  /** A member of the catalog's JSON object: its key, and the `contents` field of
      its value when that field exists and is a string. */
  datatype Member = Member(key: string, contents: Option<string>)

  /** A JSON document: an object, as its members in iteration order, or any
      other value. */
  datatype Json = Object(members: seq<Member>) | NotObject

  predicate DistinctKeys(members: seq<Member>) {
    forall i, j :: 0 <= i < j < |members| ==> members[i].key != members[j].key
  }

  predicate DistinctNames(items: seq<Item>) {
    forall i, j :: 0 <= i < j < |items| ==> items[i].name != items[j].name
  }

  /** `parse` on an object: every member whose `contents` is a string becomes
      an item `(key, contents)`; the other members are dropped. */
  function Parse(members: seq<Member>): (r: seq<Item>)
    ensures |r| <= |members|
    ensures forall k :: 0 <= k < |r| ==> Member(r[k].name, Some(r[k].contents)) in members
    ensures forall m :: m in members && m.contents.Some? ==> Item(m.key, m.contents.value) in r
  {
    if members == [] then []
    else
      var head := match members[0].contents
        case Some(c) => [Item(members[0].key, c)]
        case None => [];
      head + Parse(members[1..])
  }

  /** `parse` keeps the object's order: it works member by member. */
  lemma {:induction false} ParseAppend(a: seq<Member>, b: seq<Member>)
    ensures Parse(a + b) == Parse(a) + Parse(b)
  {
    if a == [] {
      assert a + b == b;
    } else {
      assert (a + b)[1..] == a[1..] + b;
      ParseAppend(a[1..], b);
    }
  }

  /** The keys of a JSON object are distinct, and so are the names `parse` yields. */
  lemma {:induction false} ParseKeepsNamesDistinct(members: seq<Member>)
    requires DistinctKeys(members)
    ensures DistinctNames(Parse(members))
  {
    if members != [] {
      var rest := members[1..];
      assert DistinctKeys(rest) by {
        forall i, j | 0 <= i < j < |rest| ensures rest[i].key != rest[j].key {
          assert rest[i] == members[i + 1] && rest[j] == members[j + 1];
        }
      }
      ParseKeepsNamesDistinct(rest);
      var tail := Parse(rest);
      forall k | 0 <= k < |tail| ensures tail[k].name != members[0].key {
        var m :| m in rest && m == Member(tail[k].name, Some(tail[k].contents));
        var i :| 0 <= i < |rest| && rest[i] == m;
        assert members[i + 1] == m;
      }
    }
  }

  /** `parse` on any JSON value: a value that is not an object fails its `expect`. */
  function ParseValue(v: Json): (r: Result<seq<Item>>)
    ensures r.Ok? <==> v.Object?
    ensures r.Ok? ==> r.value == Parse(v.members)
    ensures r.Err? ==> r.error == Panic("response is expected to be a json object")
  {
    match v
    case Object(members) => Ok(Parse(members))
    case NotObject => Err(Panic("response is expected to be a json object"))
  }

  /** The cache file as this model sees it: its creation time as the metadata
      reports it (or the error reading it), and its contents as a JSON value
      (or the error opening or deserialising it). */
  datatype CacheFile = CacheFile(birth: Result<Time>, body: Result<Json>)

  /** `cache_expired`: a missing file is expired; otherwise the file is expired
      when it is at least a week old, counted in whole seconds. */
  function Expired(cache: Option<CacheFile>, now: Time): (r: Result<bool>)
    ensures cache.None? ==> r == Ok(true)
    ensures cache.Some? && cache.value.birth.Err? ==> r == Err(cache.value.birth.error)
    ensures cache.Some? && cache.value.birth.Ok? && now < cache.value.birth.value ==> r == Err(Clock)
    ensures cache.Some? && cache.value.birth.Ok? && cache.value.birth.value <= now ==>
      r == Ok(now - cache.value.birth.value >= Week)
  {
    match cache
    case None => Ok(true)
    case Some(file) =>
      match file.birth
      case Err(e) => Err(e)
      case Ok(created) =>
        if now < created then Err(Clock)
        else
          var diff := (now - created) / NanosPerSec;
          if diff < SecsInWeek then Ok(false) else Ok(true)
  }

  /** The boundary is inclusive: a file exactly a week old is expired, one a
      second (or a nanosecond) younger is not. */
  lemma WeekBoundary(created: Time, body: Result<Json>)
    ensures Expired(Some(CacheFile(Ok(created), body)), created + Week) == Ok(true)
    ensures Expired(Some(CacheFile(Ok(created), body)), created + Week - NanosPerSec) == Ok(false)
    ensures Expired(Some(CacheFile(Ok(created), body)), created + Week - 1) == Ok(false)
  {
  }

  /** The file `save_to_cache` leaves: `File::create` truncates an existing file
      in place, so its creation time stays; a new file is created now. */
  function Saved(cache: Option<CacheFile>, v: Json, now: Time): CacheFile {
    match cache
    case None => CacheFile(Ok(now), Ok(v))
    case Some(file) => CacheFile(file.birth, Ok(v))
  }

  /** What `get` does to the outside world, in order. */
  datatype Effect = CallRemote | SaveCache(value: Json) | ReadCache

  /** The outcome of one `get`: its result, the cache file afterwards and the
      effects performed. */
  datatype Step = Step(result: Result<seq<Item>>, cache: Option<CacheFile>, effects: seq<Effect>)

  /** `get`, as a function of the cache file, the clock, the remote answer and
      the error saving runs into (if any). */
  function Fetch(cache: Option<CacheFile>, now: Time, remote: Result<Json>, saveFault: Option<Error>): Step {
    match Expired(cache, now)
    case Err(e) => Step(Err(e), cache, [])
    case Ok(expired) =>
      if expired then
        match remote
        case Err(e) => Step(Err(e), cache, [CallRemote])
        case Ok(v) =>
          match saveFault
          case Some(e) => Step(Err(e), cache, [CallRemote, SaveCache(v)])
          case None => Step(ParseValue(v), Some(Saved(cache, v, now)), [CallRemote, SaveCache(v)])
      else
        match cache.value.body
        case Err(e) => Step(Err(e), cache, [ReadCache])
        case Ok(v) => Step(ParseValue(v), cache, [ReadCache])
  }

  /** A fresh cache is read and parsed; the remote endpoint is not called and
      nothing is saved. */
  lemma FreshCacheSkipsRemote(cache: Option<CacheFile>, now: Time, remote: Result<Json>, saveFault: Option<Error>)
    requires Expired(cache, now) == Ok(false)
    ensures cache.Some?
    ensures Fetch(cache, now, remote, saveFault).effects == [ReadCache]
    ensures Fetch(cache, now, remote, saveFault).cache == cache
    ensures cache.value.body.Ok? ==>
      Fetch(cache, now, remote, saveFault).result == ParseValue(cache.value.body.value)
  {
  }

  /** An expired cache calls the remote endpoint first, then saves its answer,
      then parses it; an error from either step ends `get` with that error. */
  lemma ExpiredCacheRefreshes(cache: Option<CacheFile>, now: Time, remote: Result<Json>, saveFault: Option<Error>)
    requires Expired(cache, now) == Ok(true)
    ensures var s := Fetch(cache, now, remote, saveFault);
      && (remote.Err? ==> s.effects == [CallRemote] && s.result == Err(remote.error) && s.cache == cache)
      && (remote.Ok? ==> s.effects == [CallRemote, SaveCache(remote.value)])
      && (remote.Ok? && saveFault.Some? ==> s.result == Err(saveFault.value) && s.cache == cache)
      && (remote.Ok? && saveFault.None? ==>
            s.result == ParseValue(remote.value) && s.cache.Some? && s.cache.value.body == Ok(remote.value))
  {
  }

  /** Whatever path `get` takes, a catalog it returns is the parse of what the
      cache file holds afterwards. */
  lemma ResultMatchesCache(cache: Option<CacheFile>, now: Time, remote: Result<Json>, saveFault: Option<Error>)
    requires Fetch(cache, now, remote, saveFault).result.Ok?
    ensures var s := Fetch(cache, now, remote, saveFault);
      s.cache.Some? && s.cache.value.body.Ok? && ParseValue(s.cache.value.body.value) == s.result
  {
  }

  /** A refresh that creates the cache file leaves a fresh cache, but one that
      rewrites an expired file keeps the file's old creation time, so the cache
      stays expired and the next `get` calls the remote endpoint again. */
  lemma RefreshKeepsCreationTime(cache: Option<CacheFile>, now: Time, remote: Result<Json>, saveFault: Option<Error>)
    requires Expired(cache, now) == Ok(true)
    requires Fetch(cache, now, remote, saveFault).result.Ok?
    ensures cache.None? ==> Expired(Fetch(cache, now, remote, saveFault).cache, now) == Ok(false)
    ensures cache.Some? ==> Expired(Fetch(cache, now, remote, saveFault).cache, now) == Ok(true)
  {
  }

  /** The machine `get` runs on: the file at the cache path (if any), the
      clock, what the remote endpoint answers, and the error saving to the
      cache runs into (if any). `effects` records the visible steps taken. */
  class Host {
    var cache: Option<CacheFile>
    const now: Time
    const remote: Result<Json>
    const saveFault: Option<Error>
    var effects: seq<Effect>

    constructor (cache: Option<CacheFile>, now: Time, remote: Result<Json>, saveFault: Option<Error>)
      ensures this.cache == cache && this.now == now && this.remote == remote
      ensures this.saveFault == saveFault && effects == []
    {
      this.cache := cache;
      this.now := now;
      this.remote := remote;
      this.saveFault := saveFault;
      effects := [];
    }

    /** `fetch_from_remote`: one GET of the template list. */
    method FetchFromRemote() returns (r: Result<Json>)
      modifies this`effects
      ensures r == remote
      ensures effects == old(effects) + [CallRemote]
    {
      effects := effects + [CallRemote];
      r := remote;
    }

    /** `fetch_from_cache`: open and deserialise the cache file. */
    method FetchFromCache() returns (r: Result<Json>)
      modifies this`effects
      ensures r == if cache.None? then Err(Io("cache file not found")) else cache.value.body
      ensures effects == old(effects) + [ReadCache]
    {
      effects := effects + [ReadCache];
      if cache.None? {
        r := Err(Io("cache file not found"));
      } else {
        r := cache.value.body;
      }
    }

    /** `save_to_cache`: create the cache directory and write `v` over the file. */
    method SaveToCache(v: Json) returns (r: Result<()>)
      modifies this`cache, this`effects
      ensures effects == old(effects) + [SaveCache(v)]
      ensures saveFault.None? ==> r == Ok(()) && cache == Some(Saved(old(cache), v, now))
      ensures saveFault.Some? ==> r == Err(saveFault.value) && cache == old(cache)
    {
      effects := effects + [SaveCache(v)];
      if saveFault.Some? {
        r := Err(saveFault.value);
      } else {
        cache := Some(Saved(cache, v, now));
        r := Ok(());
      }
    }

    /** `get`: refresh an expired cache from the remote endpoint, or read a
      fresh one, then parse the catalog. */
    method Get() returns (r: Result<seq<Item>>)
      modifies this`cache, this`effects
      ensures var s := Fetch(old(cache), now, remote, saveFault);
        r == s.result && cache == s.cache && effects == old(effects) + s.effects
    {
      var expired := Expired(cache, now);
      if expired.Err? {
        return Err(expired.error);
      }
      var resource: Json;
      if expired.value {
        var response := FetchFromRemote();
        if response.Err? {
          return Err(response.error);
        }
        var saved := SaveToCache(response.value);
        if saved.Err? {
          return Err(saved.error);
        }
        resource := response.value;
      } else {
        var read := FetchFromCache();
        if read.Err? {
          return Err(read.error);
        }
        resource := read.value;
      }
      r := ParseValue(resource);
    }
  }
}
