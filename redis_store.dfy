/**
 * The in-memory stand-in for Redis (server/app/utils/redis_client.py):
 * a value map and an expiry map purged on read, a command pipeline replayed
 * in order, and the fixed-window rate limiter built on it.
 *
 * The wall clock is an explicit `now`, in microseconds; a TTL of `n`
 * seconds expires `n * Second` later. Byte strings are written as strings.
 */
module RedisStore {
  import opened Wrappers
  import opened Text
  import opened Numeric

  /** What the server stores: raw bytes, an integer counter, or text. */
  datatype Value = Bytes(bytes: string) | Int(n: int) | Str(text: string)

  /** The exceptions `incr` can raise: `int(bytes)` on non-numeric bytes, `str + 1`. */
  datatype RedisError = ValueError | TypeError

  /** The two dictionaries of an `InMemoryRedis`. */
  datatype Store = Store(data: map<string, Value>, expiry: map<string, int>)

  const EmptyStore: Store := Store(map[], map[])

  /** Every expiry belongs to a stored key; all operations keep this. */
  predicate ExpiryTracked(st: Store) {
    st.expiry.Keys <= st.data.Keys
  }

  predicate Expired(st: Store, key: string, now: int) {
    key in st.expiry && st.expiry[key] <= now
  }

  /** `key` is stored and its expiry, if any, lies in the future. */
  predicate Live(st: Store, key: string, now: int) {
    key in st.data && !Expired(st, key, now)
  }

  /** `str(value).encode()` for the value types the server stores; bytes are returned as they are. */
  function Encode(v: Value): string {
    match v
    case Bytes(b) => b
    case Int(n) => IntToDecimal(n)
    case Str(s) => s
  }

  /** A truthy `ex` argument: present and non-zero. */
  predicate Truthy(ex: Option<int>) {
    ex.Some? && ex.value != 0
  }

  // ------------------------------------------------------------------ operations on values

  /** `_cleanup_expired`: every key whose expiry is not in the future leaves both maps. */
  function Purge(st: Store, now: int): (r: Store)
    ensures forall k :: k in r.data <==> Live(st, k, now)
    ensures forall k :: k in r.data ==> k in st.data && r.data[k] == st.data[k]
    ensures forall k :: k in r.expiry <==> k in st.expiry && st.expiry[k] > now
    ensures forall k :: k in r.expiry ==> k in st.expiry && r.expiry[k] == st.expiry[k]
    ensures forall k :: !Expired(r, k, now)
    ensures ExpiryTracked(st) ==> ExpiryTracked(r)
  {
    var gone := set k | k in st.expiry && st.expiry[k] <= now;
    Store(st.data - gone, st.expiry - gone)
  }

  /** `get`: purge, then the encoded value of a live key, or None. */
  function GetOp(st: Store, key: string, now: int): (r: (Store, Option<string>))
    ensures r.0 == Purge(st, now)
    ensures r.1.Some? <==> Live(st, key, now)
    ensures r.1.Some? ==> r.1.value == Encode(st.data[key])
  {
    var p := Purge(st, now);
    (p, if key in p.data then Some(Encode(p.data[key])) else None)
  }

  /** `set`: store the value; write an expiry only when `ex` is truthy, otherwise keep the old one. */
  function SetOp(st: Store, key: string, v: Value, ex: Option<int>, now: int): (r: Store)
    ensures r.data.Keys == st.data.Keys + {key} && r.data[key] == v
    ensures forall k :: k in st.data && k != key ==> r.data[k] == st.data[k]
    ensures Truthy(ex) ==> key in r.expiry && r.expiry[key] == now + ex.value * Second
    ensures !Truthy(ex) ==> r.expiry == st.expiry
    ensures forall k :: k != key ==> (k in r.expiry <==> k in st.expiry)
    ensures forall k :: k != key && k in st.expiry ==> r.expiry[k] == st.expiry[k]
    ensures ExpiryTracked(st) ==> ExpiryTracked(r)
  {
    Store(st.data[key := v], if Truthy(ex) then st.expiry[key := now + ex.value * Second] else st.expiry)
  }

  /** `delete(*keys)`: drop the listed keys and their expiries; count the distinct listed keys that were stored. */
  function DeleteOp(st: Store, keys: seq<string>): (r: (Store, nat))
    ensures r.0.data.Keys <= st.data.Keys && r.0.expiry.Keys <= st.expiry.Keys
    ensures ExpiryTracked(st) ==> ExpiryTracked(r.0)
  {
    var ks := KeySet(keys);
    (Store(st.data - ks, st.expiry - ks), |ks * st.data.Keys|)
  }

  /** Exactly the listed keys go, every other entry keeps its value, and the count is of distinct listed keys that were stored. */
  lemma DeleteOpSpec(st: Store, keys: seq<string>)
    ensures var r := DeleteOp(st, keys);
      && (forall k :: k in r.0.data <==> k in st.data && k !in keys)
      && (forall k :: k in r.0.data ==> r.0.data[k] == st.data[k])
      && (forall k :: k in r.0.expiry <==> k in st.expiry && k !in keys)
      && (forall k :: k in r.0.expiry ==> r.0.expiry[k] == st.expiry[k])
      && r.1 == |set k | k in keys && k in st.data|
  {
    assert (set k | k in keys && k in st.data) == KeySet(keys) * st.data.Keys;
  }

  lemma DeleteOpValue(st: Store, keys: seq<string>)
    ensures var ks := KeySet(keys);
      DeleteOp(st, keys) == (Store(st.data - ks, st.expiry - ks), |ks * st.data.Keys|)
  {
  }

  /** The loop of `delete` on the two dictionaries. */
  method DeleteKeys(st: Store, keys: seq<string>) returns (out: Store, count: nat)
    requires ExpiryTracked(st)
    ensures out == Store(st.data - KeySet(keys), st.expiry - KeySet(keys))
    ensures count == |KeySet(keys) * st.data.Keys|
  {
    var d, e := st.data, st.expiry;
    count := 0;
    var i := 0;
    ghost var removed: set<string> := {};
    while i < |keys|
      invariant 0 <= i <= |keys|
      invariant removed == KeySet(keys[..i])
      invariant d == st.data - removed && e == st.expiry - removed
      invariant count == |removed * st.data.Keys|
    {
      var key := keys[i];
      KeySetSnoc(keys, i);
      DeleteStep(st, removed, key, d, e, count);
      if key in d {
        d := d - {key};
        e := e - {key};
        count := count + 1;
      }
      removed := removed + {key};
      i := i + 1;
    }
    DeleteDone(st, keys, removed, d, e);
    out := Store(d, e);
  }

  /** One key of `delete`: the loop's dictionaries and count move from the keys seen to one more key. */
  lemma DeleteStep(st: Store, removed: set<string>, key: string, d: map<string, Value>, e: map<string, int>, count: nat)
    requires ExpiryTracked(st)
    requires d == st.data - removed && e == st.expiry - removed && count == |removed * st.data.Keys|
    ensures var r := removed + {key};
      key in d ==> d - {key} == st.data - r && e - {key} == st.expiry - r && count + 1 == |r * st.data.Keys|
    ensures var r := removed + {key};
      key !in d ==> d == st.data - r && e == st.expiry - r && count == |r * st.data.Keys|
  {
    HitCount(removed, st.data.Keys, key);
    MapMinusStep(st.data, removed, key);
    MapMinusStep(st.expiry, removed, key);
  }

  lemma DeleteDone(st: Store, keys: seq<string>, removed: set<string>, d: map<string, Value>, e: map<string, int>)
    requires removed == KeySet(keys[..|keys|])
    requires d == st.data - removed && e == st.expiry - removed
    ensures Store(d, e) == Store(st.data - KeySet(keys), st.expiry - KeySet(keys))
    ensures removed == KeySet(keys)
  {
    assert keys[..|keys|] == keys;
  }

  /** The keys named in a `delete` call, as a set. */
  function KeySet(keys: seq<string>): set<string>
  {
    set k | k in keys
  }

  lemma KeySetSnoc(keys: seq<string>, i: nat)
    requires i < |keys|
    ensures KeySet(keys[..i + 1]) == KeySet(keys[..i]) + {keys[i]}
  {
    assert keys[..i + 1] == keys[..i] + [keys[i]];
  }

  /** Removing one more key from a map with keys already removed. */
  lemma MapMinusStep<V>(m: map<string, V>, removed: set<string>, key: string)
    ensures (m - removed) - {key} == m - (removed + {key})
    ensures key !in m - removed ==> m - removed == m - (removed + {key})
  {
  }

  /** Adding one key to the deleted set counts one more hit exactly when it is a new, present key. */
  lemma HitCount(removed: set<string>, present: set<string>, key: string)
    ensures key in present && key !in removed ==> |(removed + {key}) * present| == |removed * present| + 1
    ensures !(key in present && key !in removed) ==> (removed + {key}) * present == removed * present
  {
    if key in present && key !in removed {
      assert (removed + {key}) * present == removed * present + {key};
    }
  }

  /** `exists`: purge, then 1 for a live key and 0 otherwise. */
  function ExistsOp(st: Store, key: string, now: int): (r: (Store, int))
    ensures r.0 == Purge(st, now)
    ensures r.1 == 1 <==> Live(st, key, now)
    ensures r.1 == 0 <==> !Live(st, key, now)
  {
    var p := Purge(st, now);
    (p, if key in p.data then 1 else 0)
  }

  /** `expire`: set an expiry on a stored key (no purge first); an absent key changes nothing. */
  function ExpireOp(st: Store, key: string, seconds: int, now: int): (r: (Store, bool))
    ensures r.1 <==> key in st.data
    ensures !r.1 ==> r.0 == st
    ensures r.1 ==> r.0.data == st.data && key in r.0.expiry && r.0.expiry[key] == now + seconds * Second
    ensures forall k :: k != key ==> (k in r.0.expiry <==> k in st.expiry)
    ensures forall k :: k != key && k in st.expiry ==> r.0.expiry[k] == st.expiry[k]
    ensures ExpiryTracked(st) ==> ExpiryTracked(r.0)
  {
    if key in st.data then (Store(st.data, st.expiry[key := now + seconds * Second]), true)
    else (st, false)
  }

  /** Whole seconds left before `deadline`, as `max(0, int(remaining))` computes them. */
  function RemainingSeconds(deadline: int, now: int): (r: int)
  {
    MaxInt(0, Trunc((deadline - now) as real / Second as real))
  }

  /** `ttl` (no purge first): -2 for an absent key, -1 for a key without expiry, whole seconds left otherwise. */
  function TtlOp(st: Store, key: string, now: int): (r: int)
  {
    if key !in st.data then -2
    else if key !in st.expiry then -1
    else RemainingSeconds(st.expiry[key], now)
  }

  lemma RemainingSecondsValue(deadline: int, now: int)
    ensures RemainingSeconds(deadline, now) >= 0
    ensures deadline <= now ==> RemainingSeconds(deadline, now) == 0
    ensures deadline > now ==> RemainingSeconds(deadline, now) == (deadline - now) / Second
  {
    var d := deadline - now;
    if d > 0 {
      var q := d / Second;
      var x := d as real / Second as real;
      assert d == q * Second + d % Second;
      assert q as real <= x < q as real + 1.0;
      assert Trunc(x) == q;
    }
  }

  /** The three answers of `ttl` are told apart by the key's presence and its expiry. */
  lemma TtlCases(st: Store, key: string, now: int)
    ensures TtlOp(st, key, now) == -2 <==> key !in st.data
    ensures TtlOp(st, key, now) == -1 <==> key in st.data && key !in st.expiry
    ensures key in st.data && key in st.expiry ==> TtlOp(st, key, now) >= 0
    ensures key in st.data && key in st.expiry && st.expiry[key] <= now ==> TtlOp(st, key, now) == 0
  {
    if key in st.data && key in st.expiry {
      RemainingSecondsValue(st.expiry[key], now);
    }
  }

  /** `incr`: purge, read the value (0 when absent), parse bytes as a decimal, store and return one more. */
  function IncrOp(st: Store, key: string, now: int): (r: (Store, Result<int, RedisError>))
    ensures r.1.Err? ==> r.0 == Purge(st, now)
    ensures r.1.Ok? ==> r.0.data == Purge(st, now).data[key := Int(r.1.value)]
    ensures r.1.Ok? ==> r.0.expiry == Purge(st, now).expiry
    ensures !Live(st, key, now) ==> r.1 == Ok(1)
    ensures Live(st, key, now) && st.data[key].Int? ==> r.1 == Ok(st.data[key].n + 1)
    ensures r.1 == Err(TypeError) <==> Live(st, key, now) && st.data[key].Str?
    ensures r.1 == Err(ValueError) <==> Live(st, key, now) && st.data[key].Bytes? && PyBytesInt(st.data[key].bytes).None?
    ensures ExpiryTracked(st) ==> ExpiryTracked(r.0)
  {
    IncrPurged(Purge(st, now), key)
  }

  lemma IncrOpPurges(st: Store, key: string, now: int)
    ensures IncrOp(st, key, now) == IncrPurged(Purge(st, now), key)
  {
  }

  /** `incr` on a store already purged of expired keys. */
  function IncrPurged(p: Store, key: string): (r: (Store, Result<int, RedisError>))
  {
    var current := if key in p.data then p.data[key] else Int(0);
    match current
    case Str(_) => (p, Err(TypeError))
    case Bytes(b) =>
      (match PyBytesInt(b)
       case None => (p, Err(ValueError))
       case Some(n) => (Store(p.data[key := Int(n + 1)], p.expiry), Ok(n + 1)))
    case Int(n) => (Store(p.data[key := Int(n + 1)], p.expiry), Ok(n + 1))
  }

  /**
   * Stored bytes that `int` reads as n count up to n + 1, like a stored
   * integer; `int(b"1_0")` is 10 (`Text.PyBytesIntGrouped`), so `b"1_0"` counts up to 11.
   */
  lemma IncrOfNumericBytes(st: Store, key: string, now: int)
    requires Live(st, key, now) && st.data[key].Bytes? && PyBytesInt(st.data[key].bytes).Some?
    ensures IncrOp(st, key, now).1 == Ok(PyBytesInt(st.data[key].bytes).value + 1)
  {
    IncrOpPurges(st, key, now);
    var p := Purge(st, now);
    assert key in p.data && p.data[key] == st.data[key];
  }

  // ------------------------------------------------------------------ properties across operations

  /** A key written without `ex` and without an earlier expiry reads back as its encoding at any time. */
  lemma SetThenGet(st: Store, key: string, v: Value, now: int, later: int)
    requires key !in st.expiry
    ensures GetOp(SetOp(st, key, v, None, now), key, later).1 == Some(Encode(v))
  {
  }

  /** A key written with a positive `ex` reads back until `ex` seconds have passed, and reads as absent from then on. */
  lemma SetWithExpiryThenGet(st: Store, key: string, v: Value, ex: int, now: int, later: int)
    requires ex > 0
    ensures later < now + ex * Second ==> GetOp(SetOp(st, key, v, Some(ex), now), key, later).1 == Some(Encode(v))
    ensures later >= now + ex * Second ==> GetOp(SetOp(st, key, v, Some(ex), now), key, later).1 == None
  {
  }

  /** After a successful `incr`, `get` at the same instant sees the new count in decimal, and a second `incr` gives one more. */
  lemma IncrThenGetAndIncr(st: Store, key: string, now: int)
    requires IncrOp(st, key, now).1.Ok?
    ensures GetOp(IncrOp(st, key, now).0, key, now).1 == Some(IntToDecimal(IncrOp(st, key, now).1.value))
    ensures IncrOp(IncrOp(st, key, now).0, key, now).1 == Ok(IncrOp(st, key, now).1.value + 1)
  {
    var (s1, c) := IncrOp(st, key, now);
    assert Live(s1, key, now);
  }

  /** `delete` counts a key listed twice once. */
  lemma DeleteCountsDistinct(st: Store, key: string)
    ensures DeleteOp(st, [key, key]).1 == DeleteOp(st, [key]).1 == (if key in st.data then 1 else 0)
  {
    var both := KeySet([key, key]) * st.data.Keys;
    var one := KeySet([key]) * st.data.Keys;
    assert KeySet([key, key]) == KeySet([key]) == {key};
    if key in st.data {
      assert both == {key} && one == {key};
    } else {
      assert both == {} && one == {};
    }
  }

  // ------------------------------------------------------------------ the pipeline's commands

  /** A queued pipeline command. */
  datatype Command =
    | IncrCmd(key: string)
    | TtlCmd(key: string)
    | ExpireCmd(key: string, seconds: int)
    | GetCmd(key: string)
    | SetCmd(key: string, value: Value, ex: Option<int>)
    | DeleteCmd(key: string)

  /** What one command contributes to `execute`'s result list. */
  datatype Reply = IntReply(i: int) | BoolReply(b: bool) | BytesReply(bytes: Option<string>)

  /** The direct call a command stands for, on the store it finds. */
  function Apply(st: Store, cmd: Command, now: int): (r: (Store, Result<Reply, RedisError>))
    ensures ExpiryTracked(st) ==> ExpiryTracked(r.0)
  {
    match cmd
    case IncrCmd(k) =>
      var (s, x) := IncrOp(st, k, now);
      (s, if x.Ok? then Ok(IntReply(x.value)) else Err(x.error))
    case TtlCmd(k) => (st, Ok(IntReply(TtlOp(st, k, now))))
    case ExpireCmd(k, secs) =>
      var (s, ok) := ExpireOp(st, k, secs, now);
      (s, Ok(BoolReply(ok)))
    case GetCmd(k) =>
      var (s, v) := GetOp(st, k, now);
      (s, Ok(BytesReply(v)))
    case SetCmd(k, v, ex) => (SetOp(st, k, v, ex, now), Ok(BoolReply(true)))
    case DeleteCmd(k) =>
      var (s, n) := DeleteOp(st, [k]);
      (s, Ok(IntReply(n)))
  }

  /** The store after a run, and either every reply or the exception that stopped it. */
  datatype Outcome = Outcome(store: Store, replies: Result<seq<Reply>, RedisError>)

  /** The queued commands replayed in order; the first exception ends the run. */
  function Run(st: Store, cmds: seq<Command>, now: int): (r: Outcome)
    ensures ExpiryTracked(st) ==> ExpiryTracked(r.store)
    decreases |cmds|
  {
    if |cmds| == 0 then Outcome(st, Ok([]))
    else
      var prev := Run(st, cmds[..|cmds| - 1], now);
      if prev.replies.Err? then prev
      else
        var (s, x) := Apply(prev.store, cmds[|cmds| - 1], now);
        if x.Err? then Outcome(s, Err(x.error))
        else Outcome(s, Ok(prev.replies.value + [x.value]))
  }

  /**
   * A run that raises nothing gives one reply per command, and the reply to
   * command `k` is what the direct call gives on the store the first `k`
   * commands left.
   */
  lemma {:induction false} RunReplies(st: Store, cmds: seq<Command>, now: int)
    requires Run(st, cmds, now).replies.Ok?
    ensures |Run(st, cmds, now).replies.value| == |cmds|
    ensures forall k :: 0 <= k < |cmds| ==>
      Run(st, cmds[..k], now).replies.Ok? &&
      Apply(Run(st, cmds[..k], now).store, cmds[k], now).1 == Ok(Run(st, cmds, now).replies.value[k])
    decreases |cmds|
  {
    if |cmds| > 0 {
      var n := |cmds| - 1;
      var init := cmds[..n];
      var prev := Run(st, init, now);
      assert prev.replies.Ok?;
      RunReplies(st, init, now);
      forall k | 0 <= k < |cmds|
        ensures Run(st, cmds[..k], now).replies.Ok?
        ensures Apply(Run(st, cmds[..k], now).store, cmds[k], now).1 == Ok(Run(st, cmds, now).replies.value[k])
      {
        if k < n {
          assert init[..k] == cmds[..k];
        } else {
          assert cmds[..k] == init;
        }
      }
    }
  }

  /** Once an exception has ended a prefix of the run, later commands change nothing. */
  lemma {:induction false} RunStopsAtError(st: Store, cmds: seq<Command>, j: nat, now: int)
    requires j <= |cmds| && Run(st, cmds[..j], now).replies.Err?
    ensures Run(st, cmds, now) == Run(st, cmds[..j], now)
    decreases |cmds| - j
  {
    if j < |cmds| {
      var init := cmds[..|cmds| - 1];
      assert init[..j] == cmds[..j];
      RunStopsAtError(st, init, j, now);
    } else {
      assert cmds[..j] == cmds;
    }
  }

  /** Replaying one more command extends the run by that command's direct call. */
  lemma RunSnoc(st: Store, cmds: seq<Command>, i: nat, now: int)
    requires i < |cmds| && Run(st, cmds[..i], now).replies.Ok?
    ensures Run(st, cmds[..i + 1], now) ==
      var prev := Run(st, cmds[..i], now);
      var (s, x) := Apply(prev.store, cmds[i], now);
      if x.Err? then Outcome(s, Err(x.error)) else Outcome(s, Ok(prev.replies.value + [x.value]))
  {
    assert cmds[..i + 1][..i] == cmds[..i];
  }

  // ------------------------------------------------------------------ keys and the rate limiter

  /** `f"{prefix}:{id}"`, the key a session store or rate limiter uses. */
  function PrefixedKey(prefix: string, id: string): string {
    prefix + ":" + id
  }

  /** Under one prefix, different ids get different keys; colon-free prefixes never share a key. */
  lemma PrefixedKeyInjective(p1: string, a: string, p2: string, b: string)
    requires ':' !in p1 && ':' !in p2
    ensures PrefixedKey(p1, a) == PrefixedKey(p2, b) ==> p1 == p2 && a == b
  {
    var k1, k2 := PrefixedKey(p1, a), PrefixedKey(p2, b);
    if k1 == k2 {
      PrefixedKeyShape(p1, a);
      PrefixedKeyShape(p2, b);
      if |p1| < |p2| {
        assert false;
      } else if |p2| < |p1| {
        assert false;
      } else {
        assert p1 == k1[..|p1|] && p2 == k2[..|p2|];
        assert a == k1[|p1| + 1..] && b == k2[|p2| + 1..];
      }
    }
  }

  lemma PrefixedKeyShape(p: string, id: string)
    ensures |PrefixedKey(p, id)| == |p| + 1 + |id|
    ensures PrefixedKey(p, id)[|p|] == ':'
    ensures forall i :: 0 <= i < |p| ==> PrefixedKey(p, id)[i] == p[i]
  {
  }

  /** `is_allowed`'s answer: (is_allowed, remaining_requests, reset_time). */
  datatype RateDecision = RateDecision(allowed: bool, remaining: int, resetSeconds: int)

  /** One `is_allowed` call on the store: `incr` and `ttl` in a pipeline, then an expiry for a fresh window. */
  function RateCheck(st: Store, key: string, now: int, maxRequests: int, window: int): (r: (Store, Result<RateDecision, RedisError>))
  {
    var (s1, c) := IncrOp(st, key, now);
    if c.Err? then (s1, Err(c.error))
    else RateDecide(s1, key, c.value, now, maxRequests, window)
  }

  /** After the increment: start the window when the key has no expiry, then decide on `count`. */
  function RateDecide(s1: Store, key: string, count: int, now: int, maxRequests: int, window: int)
    : (r: (Store, Result<RateDecision, RedisError>))
  {
    var t := TtlOp(s1, key, now);
    var s2 := if t == -1 then ExpireOp(s1, key, window, now).0 else s1;
    var reset := if t == -1 then window else t;
    (s2, Ok(RateDecision(count <= maxRequests, MaxInt(0, maxRequests - count), reset)))
  }

  /**
   * A request is allowed exactly when the incremented count is within
   * `maxRequests`; the remaining budget never goes negative; a counter without
   * expiry starts a window of `window` seconds; the reset time is never negative
   * when the window is not.
   */
  lemma RateCheckDecision(st: Store, key: string, now: int, maxRequests: int, window: int)
    requires ExpiryTracked(st) && window >= 0
    ensures var (s, r) := RateCheck(st, key, now, maxRequests, window);
      var c := IncrOp(st, key, now).1;
      (r.Ok? <==> c.Ok?) &&
      (r.Ok? ==> (r.value.allowed <==> c.value <= maxRequests)) &&
      (r.Ok? ==> r.value.remaining == MaxInt(0, maxRequests - c.value) && r.value.remaining >= 0) &&
      (r.Ok? ==> r.value.resetSeconds >= 0) &&
      (r.Ok? && !Live(st, key, now) ==>
         (c.value == 1 && r.value.resetSeconds == window && key in s.expiry && s.expiry[key] == now + window * Second))
  {
    var (s1, c) := IncrOp(st, key, now);
    if c.Ok? {
      TtlCases(s1, key, now);
    }
  }

  /** Within a positive window, the next request at the same instant counts one more. */
  lemma RateCheckCountsUp(st: Store, key: string, now: int, maxRequests: int, window: int)
    requires window > 0
    requires IncrOp(st, key, now).1.Ok?
    ensures IncrOp(RateCheck(st, key, now, maxRequests, window).0, key, now).1 == Ok(IncrOp(st, key, now).1.value + 1)
  {
    var (s1, c) := IncrOp(st, key, now);
    assert Live(s1, key, now) && s1.data[key] == Int(c.value);
    RateDecideKeepsCount(s1, key, c.value, now, maxRequests, window);
  }

  /** Starting the window keeps the stored values, and a live counter stays live. */
  lemma RateDecideKeepsCount(s1: Store, key: string, count: int, now: int, maxRequests: int, window: int)
    requires Live(s1, key, now) && window > 0
    ensures RateDecide(s1, key, count, now, maxRequests, window).0.data == s1.data
    ensures Live(RateDecide(s1, key, count, now, maxRequests, window).0, key, now)
  {
    if TtlOp(s1, key, now) == -1 {
      var e := ExpireOp(s1, key, window, now).0;
      assert e.expiry[key] == now + window * Second;
      assert now + window * Second > now by { assert Second > 0; }
    }
  }

  /** The pipeline `is_allowed` builds replays as the two direct calls. */
  lemma RunIncrTtl(st: Store, key: string, now: int)
    ensures var (s1, c) := IncrOp(st, key, now);
      Run(st, [IncrCmd(key), TtlCmd(key)], now) ==
        if c.Err? then Outcome(s1, Err(c.error))
        else Outcome(s1, Ok([IntReply(c.value), IntReply(TtlOp(s1, key, now))]))
  {
    var cmds := [IncrCmd(key), TtlCmd(key)];
    assert cmds[..0] == [];
    assert Run(st, cmds[..0], now) == Outcome(st, Ok([]));
    RunSnoc(st, cmds, 0, now);
    assert cmds[0] == IncrCmd(key);
    var (s1, c) := IncrOp(st, key, now);
    if c.Ok? {
      assert Apply(st, cmds[0], now) == (s1, Ok(IntReply(c.value)));
      assert [] + [IntReply(c.value)] == [IntReply(c.value)];
      assert Run(st, cmds[..1], now) == Outcome(s1, Ok([IntReply(c.value)]));
      RunSnoc(st, cmds, 1, now);
      assert cmds[1] == TtlCmd(key);
      assert Apply(s1, cmds[1], now) == (s1, Ok(IntReply(TtlOp(s1, key, now))));
      assert [IntReply(c.value)] + [IntReply(TtlOp(s1, key, now))] == [IntReply(c.value), IntReply(TtlOp(s1, key, now))];
      assert cmds[..2] == cmds;
    } else {
      RunStopsAtError(st, cmds, 1, now);
    }
  }

  // ------------------------------------------------------------------ the objects

  /** `InMemoryRedis`: the two dictionaries, changed in place by each call. */
  class InMemoryRedis {
    var data: map<string, Value>
    var expiry: map<string, int>

    function State(): Store
      reads this
    {
      Store(data, expiry)
    }

    ghost predicate Valid()
      reads this
    {
      ExpiryTracked(State())
    }

    constructor ()
      ensures Valid() && State() == EmptyStore
    {
      data := map[];
      expiry := map[];
    }

    /** `close`: both dictionaries emptied. */
    method Close()
      modifies this
      ensures Valid() && State() == EmptyStore
    {
      data := map[];
      expiry := map[];
    }

    /** `_cleanup_expired`: collect the keys whose expiry has come, then remove each from both maps. */
    method CleanupExpired(now: int)
      requires Valid()
      modifies this
      ensures Valid() && State() == Purge(old(State()), now)
    {
      var expired := set k | k in expiry && expiry[k] <= now;
      ghost var all := expired;
      while expired != {}
        invariant expired <= all
        invariant data == old(data) - (all - expired)
        invariant expiry == old(expiry) - (all - expired)
        decreases |expired|
      {
        var k :| k in expired;
        data := data - {k};
        expiry := expiry - {k};
        expired := expired - {k};
      }
    }

    method Get(key: string, now: int) returns (r: Option<string>)
      requires Valid()
      modifies this
      ensures Valid() && (State(), r) == GetOp(old(State()), key, now)
    {
      CleanupExpired(now);
      if key in data {
        r := Some(Encode(data[key]));
      } else {
        r := None;
      }
    }

    method Set(key: string, value: Value, ex: Option<int>, now: int) returns (ok: bool)
      requires Valid()
      modifies this
      ensures Valid() && ok && State() == SetOp(old(State()), key, value, ex, now)
    {
      data := data[key := value];
      if Truthy(ex) {
        expiry := expiry[key := now + ex.value * Second];
      }
      ok := true;
    }

    /** `setex(key, ttl, value)` is `set(key, value, ex=ttl)`. */
    method Setex(key: string, ttl: int, value: Value, now: int) returns (ok: bool)
      requires Valid()
      modifies this
      ensures Valid() && ok && State() == SetOp(old(State()), key, value, Some(ttl), now)
    {
      ok := Set(key, value, Some(ttl), now);
    }

    /** `delete(*keys)`, one key at a time, counting those found. */
    method Delete(keys: seq<string>) returns (count: nat)
      requires Valid()
      modifies this
      ensures Valid() && (State(), count) == DeleteOp(old(State()), keys)
    {
      var st;
      st, count := DeleteKeys(State(), keys);
      DeleteOpValue(State(), keys);
      data, expiry := st.data, st.expiry;
    }

    method Exists(key: string, now: int) returns (n: int)
      requires Valid()
      modifies this
      ensures Valid() && (State(), n) == ExistsOp(old(State()), key, now)
    {
      CleanupExpired(now);
      n := if key in data then 1 else 0;
    }

    method Expire(key: string, seconds: int, now: int) returns (ok: bool)
      requires Valid()
      modifies this
      ensures Valid() && (State(), ok) == ExpireOp(old(State()), key, seconds, now)
    {
      if key in data {
        expiry := expiry[key := now + seconds * Second];
        ok := true;
      } else {
        ok := false;
      }
    }

    method Ttl(key: string, now: int) returns (t: int)
      ensures t == TtlOp(State(), key, now)
      ensures t >= -2
    {
      if key !in data {
        t := -2;
      } else if key !in expiry {
        t := -1;
      } else {
        var remaining := (expiry[key] - now) as real / Second as real;
        t := MaxInt(0, Trunc(remaining));
      }
    }

    method Incr(key: string, now: int) returns (r: Result<int, RedisError>)
      requires Valid()
      modifies this
      ensures Valid() && (State(), r) == IncrOp(old(State()), key, now)
    {
      ghost var before := State();
      CleanupExpired(now);
      ghost var purged := State();
      IncrOpPurges(before, key, now);
      var current := if key in data then data[key] else Int(0);
      match current {
        case Str(_) =>
          r := Err(TypeError);
        case Bytes(b) =>
          var parsed := PyBytesInt(b);
          if parsed.None? {
            r := Err(ValueError);
          } else {
            data := data[key := Int(parsed.value + 1)];
            r := Ok(parsed.value + 1);
          }
        case Int(n) =>
          data := data[key := Int(n + 1)];
          r := Ok(n + 1);
      }
      assert (State(), r) == IncrPurged(purged, key);
    }

    method Pipeline() returns (p: InMemoryPipeline)
      ensures fresh(p) && p.redis == this && p.commands == []
    {
      p := new InMemoryPipeline(this);
    }
  }

  /** `InMemoryPipeline`: commands queued on a client, replayed by `execute`. */
  class InMemoryPipeline {
    const redis: InMemoryRedis
    var commands: seq<Command>

    constructor (redis: InMemoryRedis)
      ensures this.redis == redis && commands == []
    {
      this.redis := redis;
      commands := [];
    }

    method Incr(key: string)
      modifies this
      ensures commands == old(commands) + [IncrCmd(key)]
    {
      commands := commands + [IncrCmd(key)];
    }

    method Ttl(key: string)
      modifies this
      ensures commands == old(commands) + [TtlCmd(key)]
    {
      commands := commands + [TtlCmd(key)];
    }

    method Expire(key: string, seconds: int)
      modifies this
      ensures commands == old(commands) + [ExpireCmd(key, seconds)]
    {
      commands := commands + [ExpireCmd(key, seconds)];
    }

    method Get(key: string)
      modifies this
      ensures commands == old(commands) + [GetCmd(key)]
    {
      commands := commands + [GetCmd(key)];
    }

    method Set(key: string, value: Value, ex: Option<int>)
      modifies this
      ensures commands == old(commands) + [SetCmd(key, value, ex)]
    {
      commands := commands + [SetCmd(key, value, ex)];
    }

    method Delete(key: string)
      modifies this
      ensures commands == old(commands) + [DeleteCmd(key)]
    {
      commands := commands + [DeleteCmd(key)];
    }

    /** One queued command, sent to the client as the direct call it stands for. */
    method Dispatch(cmd: Command, now: int) returns (reply: Result<Reply, RedisError>)
      requires redis.Valid()
      modifies redis
      ensures redis.Valid()
      ensures (redis.State(), reply) == Apply(old(redis.State()), cmd, now)
    {
      match cmd {
        case IncrCmd(k) =>
          var x := redis.Incr(k, now);
          reply := if x.Ok? then Ok(IntReply(x.value)) else Err(x.error);
        case TtlCmd(k) =>
          var t := redis.Ttl(k, now);
          reply := Ok(IntReply(t));
        case ExpireCmd(k, secs) =>
          var ok := redis.Expire(k, secs, now);
          reply := Ok(BoolReply(ok));
        case GetCmd(k) =>
          var v := redis.Get(k, now);
          reply := Ok(BytesReply(v));
        case SetCmd(k, v, ex) =>
          var ok := redis.Set(k, v, ex, now);
          reply := Ok(BoolReply(ok));
        case DeleteCmd(k) =>
          var n := redis.Delete([k]);
          reply := Ok(IntReply(n));
      }
    }

    /**
     * `execute`: each queued command in order against the client; the queue is
     * kept, so a second `execute` replays it again.
     */
    method Execute(now: int) returns (r: Result<seq<Reply>, RedisError>)
      requires redis.Valid()
      modifies redis
      ensures redis.Valid()
      ensures Outcome(redis.State(), r) == Run(old(redis.State()), commands, now)
    {
      ghost var st0 := redis.State();
      var results: seq<Reply> := [];
      var i := 0;
      while i < |commands|
        invariant 0 <= i <= |commands|
        invariant redis.Valid()
        invariant Run(st0, commands[..i], now) == Outcome(redis.State(), Ok(results))
      {
        RunSnoc(st0, commands, i, now);
        var reply := Dispatch(commands[i], now);
        if reply.Err? {
          RunStopsAtError(st0, commands, i + 1, now);
          return Err(reply.error);
        }
        results := results + [reply.value];
        i := i + 1;
      }
      assert commands[..i] == commands;
      r := Ok(results);
    }
  }

  /** What the `incr`-then-`ttl` pipeline leaves, read off its outcome. */
  lemma IncrTtlReplies(st: Store, after: Store, results: Result<seq<Reply>, RedisError>, key: string, now: int)
    requires Outcome(after, results) == Run(st, [IncrCmd(key), TtlCmd(key)], now)
    ensures after == IncrOp(st, key, now).0
    ensures results.Err? <==> IncrOp(st, key, now).1.Err?
    ensures results.Err? ==> results.error == IncrOp(st, key, now).1.error
    ensures results.Ok? ==> results.value == [IntReply(IncrOp(st, key, now).1.value), IntReply(TtlOp(after, key, now))]
  {
    RunIncrTtl(st, key, now);
  }

  /** `RedisRateLimiter`: a fixed-window counter per identifier. */
  class RedisRateLimiter {
    const redis: InMemoryRedis
    const prefix: string
    const maxRequests: int
    const windowSeconds: int

    constructor (redis: InMemoryRedis, prefix: string, maxRequests: int, windowSeconds: int)
      ensures this.redis == redis && this.prefix == prefix
      ensures this.maxRequests == maxRequests && this.windowSeconds == windowSeconds
    {
      this.redis := redis;
      this.prefix := prefix;
      this.maxRequests := maxRequests;
      this.windowSeconds := windowSeconds;
    }

    method IsAllowed(identifier: string, now: int) returns (r: Result<RateDecision, RedisError>)
      requires redis.Valid()
      modifies redis
      ensures redis.Valid()
      ensures (redis.State(), r) == RateCheck(old(redis.State()), PrefixedKey(prefix, identifier), now, maxRequests, windowSeconds)
    {
      var key := PrefixedKey(prefix, identifier);
      ghost var st0 := redis.State();
      var pipe := redis.Pipeline();
      pipe.Incr(key);
      pipe.Ttl(key);
      var results := pipe.Execute(now);
      IncrTtlReplies(st0, redis.State(), results, key, now);
      if results.Err? {
        return Err(results.error);
      }
      r := Decide(key, results.value[0].i, results.value[1].i, now);
    }

    /** The rest of `is_allowed` once the pipeline has replied with the count and the `ttl`. */
    method Decide(key: string, currentCount: int, ttl: int, now: int) returns (r: Result<RateDecision, RedisError>)
      requires redis.Valid() && ttl == TtlOp(redis.State(), key, now)
      modifies redis
      ensures redis.Valid()
      ensures (redis.State(), r) == RateDecide(old(redis.State()), key, currentCount, now, maxRequests, windowSeconds)
    {
      var reset := ttl;
      if ttl == -1 {
        var _ := redis.Expire(key, windowSeconds, now);
        reset := windowSeconds;
      }
      var remaining := MaxInt(0, maxRequests - currentCount);
      r := Ok(RateDecision(currentCount <= maxRequests, remaining, reset));
    }
  }
}
