/** The sliding-window rate limiter of `src/middleware/rate_limit_middleware.ts`. Times are in milliseconds. */
module RateLimiter {
  import opened Json

  /** A Redis sorted set in which every member is its own score, and the moment at which the key expires. */
  datatype Bucket = Bucket(members: set<int>, expires: Option<int>)

  const EMPTY := Bucket({}, None)

  function Present(b: Bucket, now: int): set<int> {
    if b.expires.Some? && b.expires.value <= now then {} else b.members
  }

  /** Prune what has left the window, add this millisecond, renew the expiry. */
  function Request(b: Bucket, now: int, window: nat): Bucket {
    Bucket((set m | m in Present(b, now) && now - window < m) + {now}, Some(now + window))
  }

  function Requests(b: Bucket, times: seq<int>, window: nat): Bucket
    decreases |times|
  {
    if times == [] then b
    else Request(Requests(b, times[..|times| - 1], window), times[|times| - 1], window)
  }

  /** The full log: every request ever, admitted or not, in order of time. */
  predicate InOrder(times: seq<int>) {
    forall j, k :: 0 <= j < k < |times| ==> times[j] <= times[k]
  }

  /** The distinct milliseconds of the log in the window that ends at `now`. */
  function Recent(times: seq<int>, now: int, window: nat): set<int> {
    set t | t in times && now - window < t <= now
  }

  /** The decision on the request at `k`, as the code makes it from the bucket. */
  predicate Admitted(times: seq<int>, k: nat, window: nat, limit: int)
    requires k < |times|
  {
    |Requests(EMPTY, times[..k + 1], window).members| <= limit
  }

  /** What a bucket still shows of the log it has seen, at any later time. */
  predicate Shows(b: Bucket, times: seq<int>, window: nat) {
    times != [] &&
    var last := times[|times| - 1];
    b.members == Recent(times, last, window) + {last} && b.expires == Some(last + window)
  }

  lemma Latest(times: seq<int>, m: int)
    requires InOrder(times) && m in times
    ensures m <= times[|times| - 1]
  {
    var j :| 0 <= j < |times| && times[j] == m;
  }

  lemma PruneIsExact(b: Bucket, times: seq<int>, window: nat, now: int, m: int)
    requires InOrder(times) && Shows(b, times, window) && times[|times| - 1] <= now && now - window < m
    ensures m in Present(b, now) <==> m in times
  {
    if m in times {
      Latest(times, m);
    }
  }

  lemma RecentAppend(times: seq<int>, now: int, window: nat, m: int)
    requires InOrder(times + [now])
    ensures m in Recent(times + [now], now, window) + {now} <==> (m in times && now - window < m) || m == now
  {
    if m in times {
      assert m in times + [now];
      Latest(times + [now], m);
    }
  }

  /** After the last request the bucket holds exactly that request's window of the log. */
  lemma {:induction false} BucketIsWindow(times: seq<int>, window: nat)
    requires InOrder(times) && times != []
    ensures Shows(Requests(EMPTY, times, window), times, window)
    decreases |times|
  {
    var n := |times| - 1;
    var earlier, now := times[..n], times[n];
    assert times == earlier + [now];
    var b := Requests(EMPTY, earlier, window);
    if n > 0 {
      BucketIsWindow(earlier, window);
    }
    forall m ensures m in Request(b, now, window).members <==> m in Recent(times, now, window) + {now} {
      RecentAppend(earlier, now, window, m);
      if n > 0 && now - window < m {
        PruneIsExact(b, earlier, window, now, m);
      }
    }
  }

  /**
   Pruning and expiry never change a decision: a request passes exactly when the distinct milliseconds of the whole log
   in its window, its own included, number at most the limit.
   */
  lemma RefinesFullLog(times: seq<int>, k: nat, window: nat, limit: int)
    requires InOrder(times) && k < |times|
    ensures Admitted(times, k, window, limit) <==>
            |Recent(times[..k + 1], times[k], window) + {times[k]}| <= limit
  {
    BucketIsWindow(times[..k + 1], window);
  }

  /** The milliseconds of the admitted requests in the window that ends at `end`. */
  function AdmittedIn(times: seq<int>, end: int, window: nat, limit: int): set<int> {
    set k | 0 <= k < |times| && AdmittedAt(times, k, end, window, limit) :: times[k]
  }

  lemma SubsetSize(a: set<int>, b: set<int>)
    requires a <= b
    ensures |a| <= |b|
  {
    assert b == a + (b - a);
  }

  /** The last index below `n` at which `hit` holds. */
  lemma {:induction false} LastHit(hit: int -> bool, n: nat) returns (k: nat)
    requires exists j :: 0 <= j < n && hit(j)
    ensures k < n && hit(k) && forall j :: k < j < n ==> !hit(j)
  {
    k := n - 1;
    if !hit(k) {
      k := LastHit(hit, n - 1);
    }
  }

  predicate AdmittedAt(times: seq<int>, k: int, end: int, window: nat, limit: int) {
    0 <= k < |times| && end - window < times[k] <= end && Admitted(times, k, window, limit)
  }

  /** All that was admitted in a window lies in the window that the last admitted request was judged by. */
  lemma AdmittedWereCounted(times: seq<int>, end: int, window: nat, limit: int, k: nat)
    requires InOrder(times) && AdmittedAt(times, k, end, window, limit)
    requires forall j :: k < j < |times| ==> !AdmittedAt(times, j, end, window, limit)
    ensures AdmittedIn(times, end, window, limit) <= Recent(times[..k + 1], times[k], window) + {times[k]}
  {
    forall m | m in AdmittedIn(times, end, window, limit)
      ensures m in Recent(times[..k + 1], times[k], window) + {times[k]} {
      var j :| 0 <= j < |times| && AdmittedAt(times, j, end, window, limit) && times[j] == m;
      assert j <= k;
      assert times[..k + 1][j] == m;
    }
  }

  /** In no window, wherever it ends, do the admitted requests occupy more than `limit` distinct milliseconds. */
  lemma AdmittedWithinLimit(times: seq<int>, end: int, window: nat, limit: nat)
    requires InOrder(times)
    ensures |set k | 0 <= k < |times| && end - window < times[k] <= end
                     && Admitted(times, k, window, limit) :: times[k]| <= limit
  {
    var admitted := AdmittedIn(times, end, window, limit);
    assert admitted == set k | 0 <= k < |times| && end - window < times[k] <= end
                               && Admitted(times, k, window, limit) :: times[k];
    if admitted == {} {
      return;
    }
    var t :| t in admitted;
    var hit := (j: int) => AdmittedAt(times, j, end, window, limit);
    var j :| 0 <= j < |times| && AdmittedAt(times, j, end, window, limit) && times[j] == t;
    assert hit(j);
    var k := LastHit(hit, |times|);
    assert forall i :: k < i < |times| ==> !AdmittedAt(times, i, end, window, limit) by {
      forall i | k < i < |times| ensures !AdmittedAt(times, i, end, window, limit) {
        assert !hit(i);
      }
    }
    RefinesFullLog(times, k, window, limit);
    AdmittedWereCounted(times, end, window, limit, k);
    SubsetSize(admitted, Recent(times[..k + 1], times[k], window) + {times[k]});
  }

  /** The limiter counts milliseconds, not requests: any number of requests in one millisecond passes. */
  lemma BurstPasses(n: nat, now: int, window: nat, limit: int, k: nat)
    requires limit >= 1 && k < n
    ensures var times := seq(n, i => now); Admitted(times, k, window, limit)
  {
    var times := seq(n, i => now);
    RefinesFullLog(times, k, window, limit);
    assert Recent(times[..k + 1], now, window) + {now} == {now};
  }

  datatype Verdict = Pass | TooManyRequests | Unavailable

  datatype Options = Options(limit: int, windowSeconds: nat, failOpen: bool, bypassInTestEnv: bool)

  /** What the pipeline comes to: lost as a whole, or each of its commands served or failed for itself. */
  datatype Replies = Lost | Each(prune: bool, add: bool, card: bool, renew: bool)

  const SERVED := Each(true, true, true, true)

  /** Redis drops a set with its last member, and its expiry with it. */
  function Kept(members: set<int>, expires: Option<int>): Bucket {
    if members == {} then EMPTY else Bucket(members, expires)
  }

  /** The bucket after the pipeline. */
  function Piped(b: Bucket, now: int, window: nat, r: Replies): Bucket {
    if r.Lost? then b
    else
      var alive := if Present(b, now) == {} then EMPTY else b;
      var pruned := if r.prune then Kept((set m | m in alive.members && now - window < m), alive.expires) else alive;
      var added := if r.add then Bucket(pruned.members + {now}, pruned.expires) else pruned;
      if r.renew && added.members != {} then added.(expires := Some(now + window)) else added
  }

  /** What the middleware takes the count to be: a failed ZCARD reads as zero. */
  function CountOf(b: Bucket, now: int, window: nat, r: Replies): int {
    if r == Lost || !r.card then 0 else |Piped(b, now, window, r).members|
  }

  /** A pipeline that is served is a request of the log; when ZCARD fails, nobody is refused under any limit. */
  lemma ServedIsRequest(b: Bucket, now: int, window: nat, limit: nat, r: Replies)
    ensures Piped(b, now, window, SERVED) == Request(b, now, window)
    ensures CountOf(b, now, window, SERVED) == |Request(b, now, window).members|
    ensures r.Each? && !r.card ==> CountOf(b, now, window, r) <= limit
  {
    assert (if Present(b, now) == {} then EMPTY else b).members == Present(b, now);
  }

  /** The bucket after a pipeline, member by member, for every way in which its commands are served or fail. */
  lemma PipelineMeans(b: Bucket, now: int, window: nat, r: Replies, m: int)
    ensures r == Lost ==> Piped(b, now, window, r) == b && CountOf(b, now, window, r) == 0
    ensures r.Each? ==>
              var b' := Piped(b, now, window, r);
              var lapsed := b.expires.Some? && b.expires.value <= now;
              && (m in b'.members <==>
                    (m in b.members && !lapsed && (r.prune ==> now - window < m)) || (r.add && m == now))
              && CountOf(b, now, window, r) == (if r.card then |b'.members| else 0)
              && (b'.members == {} ==> b'.expires == None)
              && (b'.members != {} && r.renew ==> b'.expires == Some(now + window))
              && (m in b'.members && m != now && !r.renew ==> b'.expires == b.expires)
  {
  }

  class RateLimitMiddleware {
    const inTest: bool
    var keys: map<string, Bucket>

    function BucketOf(key: string): Bucket
      reads this
    {
      if key in keys then keys[key] else EMPTY
    }

    /** The four commands of the pipeline, each served or failed for itself; the count is what ZCARD said, or zero. */
    method Exec(key: string, now: int, window: nat, r: Replies) returns (count: int)
      requires r.Each?
      modifies this`keys
      ensures BucketOf(key) == Piped(old(BucketOf(key)), now, window, r)
      ensures count == CountOf(old(BucketOf(key)), now, window, r)
      ensures forall k :: k != key ==> BucketOf(k) == old(BucketOf(k))
    {
      var bucket := if key in keys then keys[key] else EMPTY;
      if bucket.members == {} || (bucket.expires.Some? && bucket.expires.value <= now) {
        bucket := EMPTY;
      }
      if r.prune {
        var left := set m | m in bucket.members && m > now - window;
        bucket := if left == {} then EMPTY else Bucket(left, bucket.expires);
      }
      if r.add {
        bucket := bucket.(members := bucket.members + {now});
      }
      count := if r.card then |bucket.members| else 0;
      if r.renew && bucket.members != {} {
        bucket := bucket.(expires := Some(now + window));
      }
      keys := keys[key := bucket];
    }

    /** `handle`; `remaining` is the header that goes with a count. */
    method Handle(key: string, now: int, o: Options, r: Replies) returns (v: Verdict, remaining: Option<int>)
      modifies this`keys
      ensures var skipped := inTest && !o.bypassInTestEnv;
              var count := CountOf(old(BucketOf(key)), now, o.windowSeconds * 1000, r);
              && BucketOf(key) == (if skipped then old(BucketOf(key))
                                   else Piped(old(BucketOf(key)), now, o.windowSeconds * 1000, r))
              && (skipped ==> v == Pass && remaining == None)
              && (!skipped && r.Lost? ==> v == (if o.failOpen then Pass else Unavailable) && remaining == None)
              && (!skipped && r.Each? ==>
                    v == (if count > o.limit then TooManyRequests else Pass)
                      && remaining.Some? && remaining.value == if count < o.limit then o.limit - count else 0)
      ensures forall k :: k != key ==> BucketOf(k) == old(BucketOf(k))
    {
      if inTest && !o.bypassInTestEnv {
        return Pass, None;
      }
      if r.Lost? {
        return if o.failOpen then Pass else Unavailable, None;
      }
      var count := Exec(key, now, o.windowSeconds * 1000, r);
      remaining := Some(if o.limit - count < 0 then 0 else o.limit - count);
      v := if count > o.limit then TooManyRequests else Pass;
    }
  }
}
