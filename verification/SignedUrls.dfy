/** Signed display URLs, kept so that the same file gets the same URL while at least 12 hours of it are left. */
module SignedUrls {
  import opened Base

  type Path = string

  const SIGN_TTL: int := 24 * HOUR
  const REUSE_MIN_LEFT: int := 12 * HOUR
  const CACHE_MAX: nat := 20_000

  /** A URL as the bucket signs it. */
  datatype Url = Url(path: Path, expiresAt: Time, token: nat)
  datatype Entry = Entry(url: Url, expiresAt: Time)

  /** A map that remembers in what order its keys were first set. */
  datatype Cache = Cache(order: seq<Path>, entries: map<Path, Entry>)

  datatype Bucket = Signs(url: Url) | NoObject | Fails
  datatype Answer = Found(url: Url) | Missing | Threw

  function IndexOf(order: seq<Path>, p: Path): (k: nat)
    requires p in order
    ensures k < |order| && order[k] == p && p !in order[..k]
  {
    if order[0] == p then 0 else
    assert order == [order[0]] + order[1..];
    1 + IndexOf(order[1..], p)
  }

  function Without(order: seq<Path>, k: nat): seq<Path>
    requires k < |order|
  {
    order[..k] + order[k + 1..]
  }

  function Drop(c: Cache, p: Path): Cache {
    if p !in c.order then c else Cache(Without(c.order, IndexOf(c.order, p)), c.entries - {p})
  }

  /** Setting a key that is there keeps its place. */
  function Put(c: Cache, p: Path, e: Entry): Cache {
    Cache(if p in c.order then c.order else c.order + [p], c.entries[p := e])
  }

  function MakeRoom(c: Cache): Cache {
    if |c.order| >= CACHE_MAX then Drop(c, c.order[0]) else c
  }

  function Store(c: Cache, p: Path, e: Entry): Cache {
    Put(MakeRoom(c), p, e)
  }

  predicate IsCacheable(expiresIn: int, download: bool) {
    !download && expiresIn <= SIGN_TTL
  }

  predicate Hits(c: Cache, p: Path, now: Time) {
    p in c.entries && c.entries[p].expiresAt - now > REUSE_MIN_LEFT
  }

  function Lifetime(expiresIn: int, download: bool): int {
    if IsCacheable(expiresIn, download) then SIGN_TTL else expiresIn
  }

  function Sign(c: Cache, p: Path, expiresIn: int, download: bool, bucket: Bucket, now: Time): (Cache, Answer) {
    if IsCacheable(expiresIn, download) && Hits(c, p, now) then (c, Found(c.entries[p].url))
    else match bucket
      case Signs(url) =>
        (if IsCacheable(expiresIn, download) then Store(c, p, Entry(url, now + SIGN_TTL)) else c, Found(url))
      case NoObject => (c, Missing)
      case Fails => (c, Threw)
  }

  function DropAll(c: Cache, paths: seq<Path>): Cache {
    if paths == [] then c else Drop(DropAll(c, paths[..|paths| - 1]), paths[|paths| - 1])
  }

  // ----- what every cache keeps

  ghost predicate Distinct(order: seq<Path>) {
    forall i, j :: 0 <= i < j < |order| ==> order[i] != order[j]
  }

  ghost predicate Sized(c: Cache) {
    && |c.order| <= CACHE_MAX
    && Distinct(c.order)
    && (forall p :: p in c.order <==> p in c.entries)
  }

  ghost predicate Valid(c: Cache) {
    Sized(c) && forall p :: p in c.entries ==> c.entries[p].url.path == p && c.entries[p].expiresAt == c.entries[p].url.expiresAt
  }

  lemma WithoutMeans(order: seq<Path>, k: nat)
    requires Distinct(order) && k < |order|
    ensures Distinct(Without(order, k)) && order[k] !in Without(order, k)
    ensures forall q :: q in Without(order, k) <==> q in order && q != order[k]
  {
    var r := Without(order, k);
    assert forall i :: 0 <= i < |r| ==> r[i] == order[if i < k then i else i + 1];
    forall q | q in order && q != order[k] ensures q in r {
      var i :| 0 <= i < |order| && order[i] == q;
      assert r[if i < k then i else i - 1] == q;
    }
  }

  lemma DropKeeps(c: Cache, p: Path)
    requires Valid(c)
    ensures Valid(Drop(c, p)) && p !in Drop(c, p).order
    ensures forall q :: q in Drop(c, p).order <==> q in c.order && q != p
    ensures forall q :: q in Drop(c, p).entries ==> q in c.entries && Drop(c, p).entries[q] == c.entries[q]
    ensures |Drop(c, p).order| == if p in c.order then |c.order| - 1 else |c.order|
  {
    if p in c.order {
      var k := IndexOf(c.order, p);
      WithoutMeans(c.order, k);
      hide Distinct;
      assert |Without(c.order, k)| == |c.order| - 1;
      hide Without;
    }
  }

  lemma PutKeeps(c: Cache, p: Path, e: Entry)
    requires Valid(c) && (|c.order| < CACHE_MAX || p in c.order) && e.url.path == p && e.expiresAt == e.url.expiresAt
    ensures Valid(Put(c, p, e))
  {
  }

  lemma StoreKeeps(c: Cache, p: Path, url: Url, now: Time)
    requires Valid(c) && url.path == p && url.expiresAt == now + SIGN_TTL
    ensures Valid(Store(c, p, Entry(url, now + SIGN_TTL)))
  {
    assert |c.order| <= CACHE_MAX;
    hide Drop, Put, Valid;
    if |c.order| >= CACHE_MAX {
      DropKeeps(c, c.order[0]);
    }
    PutKeeps(MakeRoom(c), p, Entry(url, now + SIGN_TTL));
  }

  lemma {:induction false} DropAllKeeps(c: Cache, paths: seq<Path>)
    requires Valid(c)
    ensures Valid(DropAll(c, paths)) && forall q :: q in DropAll(c, paths).order <==> q in c.order && q !in paths
    ensures forall q :: q in DropAll(c, paths).entries ==> q in c.entries && DropAll(c, paths).entries[q] == c.entries[q]
  {
    if paths != [] {
      var init, last := paths[..|paths| - 1], paths[|paths| - 1];
      assert paths == init + [last];
      DropAllKeeps(c, init);
      DropKeeps(DropAll(c, init), last);
    }
  }

  // ----- the service

  /** What the bucket may answer: a URL of the asked path that lasts as long as asked. */
  predicate IsHonest(bucket: Bucket, p: Path, lifetime: int, now: Time) {
    bucket.Signs? ==> bucket.url.path == p && bucket.url.expiresAt == now + lifetime
  }

  /** A URL of the asked path; for display it has more than 12 hours left, otherwise it lasts as asked. */
  predicate IsGood(url: Url, p: Path, expiresIn: int, download: bool, now: Time) {
    && url.path == p
    && (if IsCacheable(expiresIn, download) then url.expiresAt > now + 12 * 3600 * 1000 else url.expiresAt == now + expiresIn)
  }

  /** Signing keeps the cache sound, and every URL it answers is of the asked path and lasts long enough. */
  lemma SignServes(c: Cache, p: Path, expiresIn: int, download: bool, bucket: Bucket, now: Time)
    requires Valid(c) && IsHonest(bucket, p, Lifetime(expiresIn, download), now)
    ensures var r := Sign(c, p, expiresIn, download, bucket, now);
      Valid(r.0) && |r.0.order| <= 20_000 && (r.1.Found? ==> IsGood(r.1.url, p, expiresIn, download, now))
  {
    if bucket.Signs? && IsCacheable(expiresIn, download) {
      StoreKeeps(c, p, bucket.url, now);
    }
    hide Store;
  }

  class SupabaseStorage {
    var signCache: Cache

    constructor ()
      ensures Valid(signCache) && signCache == Cache([], map[])
    {
      signCache := Cache([], map[]);
    }

    /** Keeps a display URL, dropping the oldest entry first when the cache is full. */
    method Keep(p: Path, url: Url, now: Time)
      requires Valid(signCache)
      modifies this
      ensures signCache == Store(old(signCache), p, Entry(url, now + SIGN_TTL))
    {
      hide Drop, Put, Valid;
      if |signCache.order| >= CACHE_MAX {
        signCache := Drop(signCache, signCache.order[0]);
      }
      signCache := Put(signCache, p, Entry(url, now + SIGN_TTL));
    }

    /** Either the file's cached URL or a new one; a display URL always has more than 12 hours left. */
    method SignPath(p: Path, expiresIn: int, download: bool, bucket: Bucket, now: Time) returns (answer: Answer)
      requires Valid(signCache) && IsHonest(bucket, p, Lifetime(expiresIn, download), now)
      modifies this
      ensures Valid(signCache) && |signCache.order| <= 20_000
      ensures (signCache, answer) == Sign(old(signCache), p, expiresIn, download, bucket, now)
      ensures answer.Found? ==> IsGood(answer.url, p, expiresIn, download, now)
    {
      SignServes(signCache, p, expiresIn, download, bucket, now);
      hide Valid, IsHonest, IsGood, Store;
      var cacheable := !download && expiresIn <= SIGN_TTL;
      if cacheable && p in signCache.entries && signCache.entries[p].expiresAt - now > REUSE_MIN_LEFT {
        return Found(signCache.entries[p].url);
      }
      match bucket
      case Signs(url) =>
        if cacheable { Keep(p, url, now); }
        return Found(url);
      case NoObject =>
        return Missing;
      case Fails =>
        return Threw;
    }

    /** Deleting forgets the file and whatever goes with it; empty names are skipped. */
    method DeleteFile(storagePath: Path, more: seq<Option<Path>>)
      requires Valid(signCache)
      modifies this
      ensures Valid(signCache)
      ensures signCache == DropAll(old(signCache), Present([Some(storagePath)] + more))
      ensures forall q :: q in signCache.order <==> q in old(signCache).order && (q == "" || (q != storagePath && Some(q) !in more))
      ensures forall q :: q in signCache.order ==> q in signCache.entries && q in old(signCache).entries && signCache.entries[q] == old(signCache).entries[q]
    {
      var paths := Present([Some(storagePath)] + more);
      for i := 0 to |paths|
        invariant signCache == DropAll(old(signCache), paths[..i])
      {
        assert paths[..i + 1][..i] == paths[..i];
        signCache := Drop(signCache, paths[i]);
      }
      assert paths[..|paths|] == paths;
      DropAllKeeps(old(signCache), paths);
      PresentMeans([Some(storagePath)] + more);
    }
  }

  function Present(paths: seq<Option<Path>>): seq<Path> {
    if paths == [] then []
    else if paths[0].Some? && paths[0].value != "" then [paths[0].value] + Present(paths[1..])
    else Present(paths[1..])
  }

  /** Every name that is given and not empty. */
  lemma {:induction false} PresentMeans(paths: seq<Option<Path>>)
    ensures forall q :: q in Present(paths) <==> q != "" && Some(q) in paths
  {
    if paths != [] {
      PresentMeans(paths[1..]);
      assert paths == [paths[0]] + paths[1..];
    }
  }

  /** A display URL – not a download, and asked for a day at most – is answered from the cache while more than 12 hours
      of it are left. Otherwise the bucket decides: what it signs is answered, no object is missing, and a failure is
      thrown; only a display URL it signs changes the cache. */
  lemma SignAnswers(c: Cache, p: Path, expiresIn: int, download: bool, bucket: Bucket, now: Time)
    requires Valid(c)
    ensures var r, display := Sign(c, p, expiresIn, download, bucket, now), !download && expiresIn <= 24 * 3600 * 1000;
      if display && p in c.order && c.entries[p].expiresAt - now > 12 * 3600 * 1000 then r == (c, Found(c.entries[p].url))
      else if bucket.NoObject? then r == (c, Missing)
      else if bucket.Fails? then r == (c, Threw)
      else if !display then r == (c, Found(bucket.url))
      else r.1 == Found(bucket.url) && Keeps(c, r.0, p, Entry(bucket.url, now + 24 * 3600 * 1000))
  {
    if bucket.Signs? { StoreOnRows(c, p, Entry(bucket.url, now + SIGN_TTL)); }
    hide Store, Keeps;
  }

  /** The URL is kept for its file, in its old place or last; if 20 000 files were kept, the oldest is forgotten first. */
  ghost predicate Keeps(c: Cache, d: Cache, p: Path, e: Entry) {
    var (order, entries) := if |c.order| >= 20_000 then (c.order[1..], c.entries - {c.order[0]}) else (c.order, c.entries);
    d.entries == entries[p := e] && d.order == if p in order then order else order + [p]
  }

  lemma StoreOnRows(c: Cache, p: Path, e: Entry)
    requires Valid(c)
    ensures Keeps(c, Store(c, p, e), p, e)
  {
    hide Drop, Valid;
    if |c.order| >= CACHE_MAX { DropFirst(c); }
  }

  lemma DropFirst(c: Cache)
    requires Valid(c) && c.order != []
    ensures Drop(c, c.order[0]) == Cache(c.order[1..], c.entries - {c.order[0]})
  {
    var k := IndexOf(c.order, c.order[0]);
    assert k == 0;
    assert Without(c.order, 0) == c.order[1..];
  }

  // ----- the same URL again

  datatype Op = Ask(path: Path, expiresIn: int, download: bool, bucket: Bucket) | Forget(paths: seq<Path>)
  datatype Call = Call(op: Op, at: Time)

  function Step(c: Cache, x: Call): Cache {
    match x.op
    case Ask(p, expiresIn, download, bucket) => Sign(c, p, expiresIn, download, bucket, x.at).0
    case Forget(paths) => DropAll(c, paths)
  }

  function Final(c: Cache, calls: seq<Call>): Cache
    decreases |calls|
  {
    if calls == [] then c else Final(Step(c, calls[0]), calls[1..])
  }

  /** Every call of the run meets an honest bucket, and comes no later than `now`. */
  ghost predicate HonestUntil(calls: seq<Call>, now: Time) {
    forall i :: 0 <= i < |calls| ==> IsHonestCall(calls[i]) && calls[i].at <= now
  }

  predicate OnlyAsks(calls: seq<Call>) {
    forall i :: 0 <= i < |calls| ==> calls[i].op.Ask?
  }

  predicate Spares(calls: seq<Call>, p: Path) {
    forall i :: 0 <= i < |calls| && calls[i].op.Forget? ==> p !in calls[i].op.paths
  }

  lemma RestOfRun(calls: seq<Call>, p: Path, now: Time)
    requires calls != [] && HonestUntil(calls, now)
    ensures IsHonestCall(calls[0]) && calls[0].at <= now && HonestUntil(calls[1..], now)
    ensures OnlyAsks(calls) ==> calls[0].op.Ask? && OnlyAsks(calls[1..])
    ensures Spares(calls, p) ==> (calls[0].op.Forget? ==> p !in calls[0].op.paths) && Spares(calls[1..], p)
  {
  }

  ghost predicate IsHonestCall(x: Call) {
    x.op.Ask? ==> IsHonest(x.op.bucket, x.op.path, Lifetime(x.op.expiresIn, x.op.download), x.at)
  }

  /** How many other files can still be stored before p has to make room. */
  function Reserve(c: Cache, p: Path): int
    requires p in c.order
  {
    IndexOf(c.order, p) + CACHE_MAX - |c.order|
  }

  /** The call stores another file: a display URL that was not cached, signed by the bucket. */
  predicate StoresOther(c: Cache, x: Call, p: Path) {
    && x.op.Ask? && x.op.path != p && IsCacheable(x.op.expiresIn, x.op.download)
    && !Hits(c, x.op.path, x.at) && x.op.bucket.Signs?
  }

  /** … and that file takes a new last place; a renewed one keeps the place it has, unless it is the one dropped. */
  predicate TakesPlace(c: Cache, x: Call, p: Path) {
    StoresOther(c, x, p) && x.op.path !in MakeRoom(c).order
  }

  /** The call drops p: it deletes it, or stores another file while the cache is full and p is the oldest. */
  predicate Loses(c: Cache, x: Call, p: Path) {
    if x.op.Forget? then p in x.op.paths
    else StoresOther(c, x, p) && |c.order| >= CACHE_MAX && c.order[0] == p
  }

  lemma IndexIs(order: seq<Path>, p: Path, k: nat)
    requires k < |order| && order[k] == p && Distinct(order)
    ensures IndexOf(order, p) == k
  {
    assert order[IndexOf(order, p)] == order[k];
  }

  lemma DropsAnother(c: Cache, q: Path, p: Path)
    requires Valid(c) && p in c.order && q != p
    ensures p in Drop(c, q).order && p in Drop(c, q).entries && Drop(c, q).entries[p] == c.entries[p]
    ensures Reserve(Drop(c, q), p) >= Reserve(c, p)
    ensures q in c.order && IndexOf(c.order, q) == 0 ==> Reserve(Drop(c, q), p) == Reserve(c, p)
  {
    DropKeeps(c, q);
    if q in c.order {
      var k, i := IndexOf(c.order, q), IndexOf(c.order, p);
      IndexIs(Drop(c, q).order, p, if i < k then i else i - 1);
    }
  }

  lemma RoomIsMade(c: Cache, p: Path)
    requires Valid(c) && p in c.order && !(|c.order| >= CACHE_MAX && c.order[0] == p)
    ensures var room := MakeRoom(c);
      && Valid(room) && |room.order| < CACHE_MAX
      && p in room.order && p in room.entries && room.entries[p] == c.entries[p] && Reserve(room, p) == Reserve(c, p)
  {
    if |c.order| >= CACHE_MAX {
      IndexIs(c.order, c.order[0], 0);
      DropsAnother(c, c.order[0], p);
      DropKeeps(c, c.order[0]);
    }
  }

  lemma PutAnother(c: Cache, q: Path, e: Entry, p: Path)
    requires Valid(c) && p in c.order && q != p
    ensures var d := Put(c, q, e);
      && p in d.order && p in d.entries && d.entries[p] == c.entries[p]
      && Reserve(d, p) == Reserve(c, p) - if q in c.order then 0 else 1
  {
    if q !in c.order {
      var k := IndexOf(c.order, p);
      var order := c.order + [q];
      assert order[k] == p;
      assert Distinct(order);
      IndexIs(order, p, k);
    }
  }

  /** Storing another file leaves p where it is; only a new place at the end uses up p's reserve. */
  lemma StoresAnother(c: Cache, q: Path, e: Entry, p: Path)
    requires Valid(c) && p in c.order && q != p && !(|c.order| >= CACHE_MAX && c.order[0] == p)
    ensures var d := Store(c, q, e);
      && p in d.order && p in d.entries && d.entries[p] == c.entries[p]
      && Reserve(d, p) == Reserve(c, p) - if q in MakeRoom(c).order then 0 else 1
  {
    RoomIsMade(c, p);
    hide Valid, MakeRoom, Put, Reserve;
    PutAnother(MakeRoom(c), q, e, p);
  }

  /** … but when p is the oldest of a full cache, it is dropped. */
  lemma StoreDropsOldest(c: Cache, q: Path, e: Entry, p: Path)
    requires Valid(c) && q != p && |c.order| >= CACHE_MAX && c.order[0] == p
    ensures p !in Store(c, q, e).order && p !in Store(c, q, e).entries
  {
    DropKeeps(c, p);
  }

  lemma {:induction false} DropsOthers(c: Cache, paths: seq<Path>, p: Path)
    requires Valid(c) && p in c.order && p !in paths
    ensures var d := DropAll(c, paths); p in d.order && p in d.entries && d.entries[p] == c.entries[p] && Reserve(d, p) >= Reserve(c, p)
  {
    if paths != [] {
      var init, last := paths[..|paths| - 1], paths[|paths| - 1];
      assert paths == init + [last];
      DropsOthers(c, init, p);
      DropAllKeeps(c, init);
      DropsAnother(DropAll(c, init), last, p);
    }
  }

  lemma StepKeeps(c: Cache, x: Call)
    requires Valid(c) && IsHonestCall(x)
    ensures Valid(Step(c, x))
  {
    match x.op
    case Ask(p, expiresIn, download, bucket) =>
      if bucket.Signs? && IsCacheable(expiresIn, download) { StoreKeeps(c, p, bucket.url, x.at); }
    case Forget(paths) => DropAllKeeps(c, paths);
  }

  /** Through any sequence of signing and deleting, the cache holds at most 20 000 files and each its own URL. */
  lemma {:induction false} NeverTooLarge(c: Cache, calls: seq<Call>)
    requires Valid(c) && forall i :: 0 <= i < |calls| ==> IsHonestCall(calls[i])
    ensures Valid(Final(c, calls)) && |Final(c, calls).order| <= 20_000
    decreases |calls|
  {
    if calls != [] {
      StepKeeps(c, calls[0]);
      NeverTooLarge(Step(c, calls[0]), calls[1..]);
    }
  }

  /** The cache holds this very entry for p. */
  predicate Has(c: Cache, p: Path, e: Entry) {
    p in c.order && p in c.entries && c.entries[p] == e
  }

  /** Exactly: while p's URL may be reused, a call keeps p's entry if and only if it neither deletes p nor stores
      another file when the cache is full and p is the oldest. What it keeps it keeps in place: deletions of others
      never shorten p's reserve, and of the stores only those of files without a place of their own use it up. */
  lemma EntrySurvives(c: Cache, x: Call, p: Path)
    requires Valid(c) && IsHonestCall(x) && p in c.order && Hits(c, p, x.at)
    ensures Has(Step(c, x), p, c.entries[p]) <==> !Loses(c, x, p)
    ensures Loses(c, x, p) ==> p !in Step(c, x).entries
    ensures !Loses(c, x, p) ==>
      var d := Step(c, x);
      if x.op.Forget? then Reserve(d, p) >= Reserve(c, p)
      else Reserve(d, p) == Reserve(c, p) - if TakesPlace(c, x, p) then 1 else 0
  {
    hide Store, Drop, MakeRoom;
    match x.op
    case Ask(q, expiresIn, download, bucket) =>
      if StoresOther(c, x, p) {
        if Loses(c, x, p) {
          StoreDropsOldest(c, q, Entry(bucket.url, x.at + SIGN_TTL), p);
        } else {
          StoresAnother(c, q, Entry(bucket.url, x.at + SIGN_TTL), p);
        }
      }
    case Forget(paths) =>
      if p in paths { DropAllKeeps(c, paths); } else { DropsOthers(c, paths, p); }
  }

  /** No call of the run deletes p, or stores another file when the cache is full and p is the oldest. */
  ghost predicate NeverLost(c: Cache, calls: seq<Call>, p: Path)
    decreases |calls|
  {
    calls == [] || (!Loses(c, calls[0], p) && NeverLost(Step(c, calls[0]), calls[1..], p))
  }

  /** The cache holds this entry for p before and after every call of the run. */
  ghost predicate HoldsOn(c: Cache, calls: seq<Call>, p: Path, e: Entry)
    decreases |calls|
  {
    Has(c, p, e) && (calls == [] || HoldsOn(Step(c, calls[0]), calls[1..], p, e))
  }

  /** Main result: over any run within the URL's reusable time the file keeps its URL if and only if it is neither
      deleted nor pushed out as the oldest of a full cache; and while it keeps it, asking gives that URL, whatever
      the bucket would have answered. */
  lemma {:induction false} SameUrlAgain(c: Cache, calls: seq<Call>, p: Path, expiresIn: int, bucket: Bucket, now: Time)
    requires Valid(c) && HonestUntil(calls, now)
    requires p in c.order && Hits(c, p, now) && expiresIn <= SIGN_TTL
    ensures HoldsOn(c, calls, p, c.entries[p]) <==> NeverLost(c, calls, p)
    ensures NeverLost(c, calls, p) ==>
      Sign(Final(c, calls), p, expiresIn, false, bucket, now) == (Final(c, calls), Found(c.entries[p].url))
    decreases |calls|
  {
    if calls != [] {
      RestOfRun(calls, p, now);
      hide Step, Loses, Valid, IsHonestCall, HonestUntil;
      StepKeeps(c, calls[0]);
      EntrySurvives(c, calls[0], p);
      if !Loses(c, calls[0], p) {
        SameUrlAgain(Step(c, calls[0]), calls[1..], p, expiresIn, bucket, now);
      }
    }
  }

  // ----- how long a place lasts

  /** With `room` places left behind p, every store of another file in the run finds one. */
  ghost predicate Fits(c: Cache, calls: seq<Call>, p: Path, room: int)
    decreases |calls|
  {
    calls == []
    || (&& (StoresOther(c, calls[0], p) ==> room >= 1)
        && Fits(Step(c, calls[0]), calls[1..], p, if TakesPlace(c, calls[0], p) then room - 1 else room))
  }

  /** Nothing is left behind p exactly when the cache is full and p the oldest. */
  lemma FullAtZero(c: Cache, p: Path)
    requires Valid(c) && p in c.order
    ensures Reserve(c, p) >= 0 && (Reserve(c, p) == 0 <==> |c.order| >= CACHE_MAX && c.order[0] == p)
  {
  }

  /** One call in terms of p's reserve. */
  lemma ReserveStep(c: Cache, x: Call, p: Path, now: Time)
    requires Valid(c) && IsHonestCall(x) && x.at <= now && p in c.order && Hits(c, p, now)
    requires x.op.Forget? ==> p !in x.op.paths
    ensures Reserve(c, p) >= 0 && (Loses(c, x, p) <==> StoresOther(c, x, p) && Reserve(c, p) == 0)
    ensures !Loses(c, x, p) ==>
      var d := Step(c, x);
      && Valid(d) && p in d.order && Hits(d, p, now)
      && Reserve(d, p) >= Reserve(c, p) - (if TakesPlace(c, x, p) then 1 else 0)
      && (x.op.Ask? ==> Reserve(d, p) == Reserve(c, p) - if TakesPlace(c, x, p) then 1 else 0)
  {
    StepKeeps(c, x);
    EntrySurvives(c, x, p);
    FullAtZero(c, p);
    hide Step, Valid, IsHonestCall, Reserve, Store, MakeRoom;
  }

  /** A file that no call deletes keeps its URL as long as the stores of others fit behind it. */
  lemma {:induction false} FitsLasts(c: Cache, calls: seq<Call>, p: Path, room: int, now: Time)
    requires Valid(c) && HonestUntil(calls, now)
    requires p in c.order && Hits(c, p, now) && Spares(calls, p)
    requires Fits(c, calls, p, room) && room <= Reserve(c, p)
    ensures NeverLost(c, calls, p)
    decreases |calls|
  {
    if calls != [] {
      RestOfRun(calls, p, now);
      hide Step, Valid, IsHonestCall, StoresOther, Reserve, Loses, TakesPlace, Hits, HonestUntil, Spares;
      ReserveStep(c, calls[0], p, now);
      FitsLasts(Step(c, calls[0]), calls[1..], p, if TakesPlace(c, calls[0], p) then room - 1 else room, now);
    }
  }

  lemma {:induction false} LastsOnlyIfFits(c: Cache, calls: seq<Call>, p: Path, now: Time)
    requires Valid(c) && HonestUntil(calls, now) && OnlyAsks(calls)
    requires p in c.order && Hits(c, p, now) && NeverLost(c, calls, p)
    ensures Fits(c, calls, p, Reserve(c, p))
    decreases |calls|
  {
    if calls != [] {
      RestOfRun(calls, p, now);
      hide Step, Valid, IsHonestCall, StoresOther, Reserve, Loses, TakesPlace, Hits, HonestUntil, OnlyAsks;
      ReserveStep(c, calls[0], p, now);
      LastsOnlyIfFits(Step(c, calls[0]), calls[1..], p, now);
    }
  }

  /** In a run without deletions that is exactly how long. */
  lemma LastsExactly(c: Cache, calls: seq<Call>, p: Path, now: Time)
    requires Valid(c) && HonestUntil(calls, now) && OnlyAsks(calls)
    requires p in c.order && Hits(c, p, now)
    ensures NeverLost(c, calls, p) <==> Fits(c, calls, p, Reserve(c, p))
  {
    assert Spares(calls, p);
    hide Valid, HonestUntil, OnlyAsks, Spares, Reserve, NeverLost, Fits, Hits;
    if NeverLost(c, calls, p) { LastsOnlyIfFits(c, calls, p, now); }
    if Fits(c, calls, p, Reserve(c, p)) { FitsLasts(c, calls, p, Reserve(c, p), now); }
  }

  /** The stores of other files in a run, … */
  ghost function Stored(c: Cache, calls: seq<Call>, p: Path): nat
    decreases |calls|
  {
    if calls == [] then 0
    else (if StoresOther(c, calls[0], p) then 1 else 0) + Stored(Step(c, calls[0]), calls[1..], p)
  }

  /** … and those among them that took a new place. */
  ghost function NewPlaces(c: Cache, calls: seq<Call>, p: Path): nat
    decreases |calls|
  {
    if calls == [] then 0
    else (if TakesPlace(c, calls[0], p) then 1 else 0) + NewPlaces(Step(c, calls[0]), calls[1..], p)
  }

  /** Counting is enough: fewer new places than there is room, or no more stores than there is room. */
  lemma {:induction false} CountedFits(c: Cache, calls: seq<Call>, p: Path, room: int)
    requires NewPlaces(c, calls, p) < room || Stored(c, calls, p) <= room
    ensures Fits(c, calls, p, room)
    decreases |calls|
  {
    if calls != [] {
      CountedFits(Step(c, calls[0]), calls[1..], p, if TakesPlace(c, calls[0], p) then room - 1 else room);
    }
  }

  /** A file signed for the first time keeps its URL through 19 998 new files and any number of renewals, or through
      19 999 stores of other files of either kind; reads of cached files, and asks that sign nothing, cost nothing. */
  lemma FreshUrlLasts(c: Cache, p: Path, expiresIn: int, url: Url, at: Time, calls: seq<Call>, again: int, bucket: Bucket, now: Time)
    requires Valid(c) && p !in c.order && IsCacheable(expiresIn, false) && IsHonest(Signs(url), p, SIGN_TTL, at)
    requires HonestUntil(calls, now)
    requires Spares(calls, p) && now < at + 12 * HOUR && again <= SIGN_TTL
    requires var d := Sign(c, p, expiresIn, false, Signs(url), at).0;
      NewPlaces(d, calls, p) <= 19_998 || Stored(d, calls, p) <= 19_999
    ensures Sign(Final(Sign(c, p, expiresIn, false, Signs(url), at).0, calls), p, again, false, bucket, now).1 == Found(url)
  {
    var d := Sign(c, p, expiresIn, false, Signs(url), at).0;
    StoreKeeps(c, p, url, at);
    FreshIsLast(c, p, Entry(url, at + SIGN_TTL));
    hide Store, Valid, Sign, Reserve, HonestUntil, Spares;
    CountedFits(d, calls, p, 19_999);
    FitsLasts(d, calls, p, 19_999, now);
    SameUrlAgain(d, calls, p, again, bucket, now);
  }

  lemma FreshIsLast(c: Cache, p: Path, e: Entry)
    requires Valid(c) && p !in c.order && e.url.path == p && e.expiresAt == e.url.expiresAt
    ensures var d := Store(c, p, e); p in d.order && p in d.entries && d.entries[p] == e && Reserve(d, p) == 19_999
  {
    var room := MakeRoom(c);
    if |c.order| >= CACHE_MAX { DropKeeps(c, c.order[0]); }
    PutKeeps(room, p, e);
    IndexIs(Store(c, p, e).order, p, |room.order|);
  }

  /** … but only then: a file whose URL is renewed keeps its old place in the queue. When it is the oldest of
      19 999, two new files are enough to drop the URL just signed. */
  lemma RenewedCanBeLostAtOnce(c: Cache, p: Path, e: Entry, q: Path, eq: Entry, r: Path, er: Entry)
    requires Valid(c) && |c.order| == 19_999 && c.order[0] == p
    requires q !in c.order && r !in c.order && q != r
    ensures p !in Store(Store(Store(c, p, e), q, eq), r, er).order
  {
    var c1 := Store(c, p, e);
    var c2 := Store(c1, q, eq);
    assert c1.order == c.order && c2.order == c.order + [q];
    assert Distinct(c2.order);
    IndexIs(c2.order, p, 0);
    WithoutMeans(c2.order, 0);
  }
}
