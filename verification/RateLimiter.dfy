// The per-client rate limiter of the HTTP server, with its pass that drops stale entries.
module RateLimiter {
  import opened Records

  type Key = string

  datatype Visitor = Visitor(count: int, lastSeen: Time)

  const CAPACITY: nat := 10000

  // `evictAt` and `now` are the two clock readings of one call.
  datatype Request = Request(key: Key, evictAt: Time, now: Time)

  // What one call does to the table of visitors, and its answer.
  datatype Answer = Answer(visitors: map<Key, Visitor>, admitted: bool)

  function Fresh(visitors: map<Key, Visitor>, window: nat, now: Time): map<Key, Visitor> {
    map k | k in visitors && now - visitors[k].lastSeen <= 2 * window :: visitors[k]
  }

  function Evicted(visitors: map<Key, Visitor>, window: nat, now: Time): map<Key, Visitor> {
    if |visitors| > CAPACITY then Fresh(visitors, window, now) else visitors
  }

  function Admit(visitors: map<Key, Visitor>, rate: int, window: nat, key: Key, now: Time): Answer {
    if key !in visitors || now - visitors[key].lastSeen > window then Answer(visitors[key := Visitor(1, now)], true)
    else if visitors[key].count >= rate then Answer(visitors, false)
    else Answer(visitors[key := Visitor(visitors[key].count + 1, now)], true)
  }

  class Limiter {
    const rate: int
    const window: nat
    var visitors: map<Key, Visitor>

    constructor (rate: int, window: nat)
      ensures this.rate == rate && this.window == window && visitors == map[]
    {
      this.rate, this.window, visitors := rate, window, map[];
    }

    method Evict(now: Time)
      modifies this
      ensures visitors == Evicted(old(visitors), window, now)
    {
      if |visitors| > CAPACITY {
        var rest := visitors.Keys;
        while rest != {}
          invariant rest <= old(visitors).Keys
          invariant visitors
            == map k | k in old(visitors) && (k in rest || now - old(visitors)[k].lastSeen <= 2 * window) ::
              old(visitors)[k]
          decreases |rest|
        {
          var k := AnyOf(rest);
          if now - visitors[k].lastSeen > 2 * window {
            visitors := visitors - {k};
          }
          rest := rest - {k};
        }
      }
    }

    method Allow(key: Key, evictAt: Time, now: Time) returns (admitted: bool)
      modifies this
      ensures Answer(visitors, admitted) == Admit(Evicted(old(visitors), window, evictAt), rate, window, key, now)
    {
      Evict(evictAt);
      if key !in visitors || now - visitors[key].lastSeen > window {
        visitors := visitors[key := Visitor(1, now)];
        return true;
      }
      if visitors[key].count >= rate {
        return false;
      }
      visitors := visitors[key := Visitor(visitors[key].count + 1, now)];
      admitted := true;
    }
  }

  // ----- Traces -------------------------------------------------------------------------

  // The limiter after a trace of requests and its last answer; `evicting` tells whether stale
  // entries are dropped on the way.
  function Served(trace: seq<Request>, rate: int, window: nat, evicting: bool): Answer {
    if trace == [] then Answer(map[], false)
    else
      var visitors := Served(trace[..|trace|-1], rate, window, evicting).visitors;
      var r := trace[|trace|-1];
      Admit(if evicting then Evicted(visitors, window, r.evictAt) else visitors, rate, window, r.key, r.now)
  }

  // Whether request i is admitted.
  predicate Admitted(trace: seq<Request>, rate: int, window: nat, evicting: bool, i: nat)
    requires i < |trace|
  {
    Served(trace[..i+1], rate, window, evicting).admitted
  }

  // The clock never runs backwards.
  ghost predicate Timely(trace: seq<Request>) {
    && (forall i | 0 <= i < |trace| :: trace[i].evictAt <= trace[i].now)
    && (forall i, j | 0 <= i < j < |trace| :: trace[i].now <= trace[j].evictAt)
  }

  // ----- Eviction changes no answer -----------------------------------------------------

  // The evicting table is part of the full one, and what it misses is stale.
  ghost predicate Trimmed(small: map<Key, Visitor>, full: map<Key, Visitor>, window: nat, now: Time) {
    && (forall k | k in small :: k in full && full[k] == small[k])
    && (forall k | k in full && k !in small :: now - full[k].lastSeen > window)
  }

  lemma TrimmedStep(small: map<Key, Visitor>, full: map<Key, Visitor>, rate: int, window: nat, before: Time, r: Request)
    requires Trimmed(small, full, window, before) && before <= r.evictAt <= r.now
    ensures var a := Admit(Evicted(small, window, r.evictAt), rate, window, r.key, r.now);
      var b := Admit(full, rate, window, r.key, r.now);
      a.admitted == b.admitted && Trimmed(a.visitors, b.visitors, window, r.now)
  {
    var kept := Evicted(small, window, r.evictAt);
    assert Trimmed(kept, full, window, r.now);
  }

  lemma {:induction false} TrimmedAlways(trace: seq<Request>, rate: int, window: nat)
    requires Timely(trace)
    ensures var a, b := Served(trace, rate, window, true), Served(trace, rate, window, false);
      a.admitted == b.admitted && (trace != [] ==> Trimmed(a.visitors, b.visitors, window, trace[|trace|-1].now))
  {
    if trace == [] {
    } else {
      var n := |trace| - 1;
      var r := trace[n];
      TrimmedAlways(trace[..n], rate, window);
      hide Admit, Evicted;
      var a, b := Served(trace[..n], rate, window, true), Served(trace[..n], rate, window, false);
      if n == 0 {
        assert Trimmed(a.visitors, b.visitors, window, r.evictAt);
        TrimmedStep(a.visitors, b.visitors, rate, window, r.evictAt, r);
      } else {
        assert trace[..n][n-1] == trace[n-1];
        TrimmedStep(a.visitors, b.visitors, rate, window, trace[n-1].now, r);
      }
    }
  }

  // The limiter answers every request as it would if it never dropped an entry.
  lemma EvictionUnseen(trace: seq<Request>, rate: int, window: nat, i: nat)
    requires Timely(trace) && i < |trace|
    ensures Admitted(trace, rate, window, true, i) == Admitted(trace, rate, window, false, i)
  {
    TrimmedAlways(trace[..i+1], rate, window);
  }

  // ----- The bound ----------------------------------------------------------------------

  // Requests of a key admitted from `from` on, for one window.
  function Count(trace: seq<Request>, rate: int, window: nat, evicting: bool, key: Key, from: Time): nat {
    if trace == [] then 0
    else
      var r := trace[|trace|-1];
      Count(trace[..|trace|-1], rate, window, evicting, key, from)
      + if r.key
        == key && from <= r.now <= from + window && Served(trace, rate, window, evicting).admitted then 1 else 0
  }

  function Bound(rate: int): int {
    if rate < 1 then 1 else rate
  }

  // While the last admission lies in the interval, its count covers all admissions in it.
  ghost predicate Counted(trace: seq<Request>, rate: int, window: nat, key: Key, from: Time) {
    var visitors := Served(trace, rate, window, false).visitors;
    var c := Count(trace, rate, window, false, key, from);
    && 0 <= c <= Bound(rate)
    && (c > 0 ==> key in visitors && from <= visitors[key].lastSeen)
    && (key in visitors ==>
          && trace != [] && visitors[key].lastSeen <= trace[|trace|-1].now && visitors[key].count >= 1
          && (visitors[key].lastSeen <= from + window ==> c <= visitors[key].count))
  }

  lemma {:induction false} CountedAlways(trace: seq<Request>, rate: int, window: nat, key: Key, from: Time)
    requires Timely(trace)
    ensures Counted(trace, rate, window, key, from)
  {
    if trace == [] {
    } else {
      var n := |trace| - 1;
      CountedAlways(trace[..n], rate, window, key, from);
      assert n > 0 ==> trace[..n][n-1] == trace[n-1];
    }
  }

  lemma {:induction false} CountsAgree(trace: seq<Request>, rate: int, window: nat, key: Key, from: Time)
    requires Timely(trace)
    ensures Count(trace, rate, window, true, key, from) == Count(trace, rate, window, false, key, from)
  {
    if trace == [] {
    } else {
      CountsAgree(trace[..|trace|-1], rate, window, key, from);
      TrimmedAlways(trace, rate, window);
      hide Served, Trimmed;
    }
  }

  // Any closed interval of one window's length admits at most `rate` requests of a key, or one
  // when the rate is below one.
  lemma WindowBound(trace: seq<Request>, rate: int, window: nat, key: Key, from: Time)
    requires Timely(trace)
    ensures Count(trace, rate, window, true, key, from) <= Bound(rate)
  {
    CountsAgree(trace, rate, window, key, from);
    CountedAlways(trace, rate, window, key, from);
    hide Served, Count;
  }

  // A rate below one still admits the first request.
  lemma FirstAdmitted(key: Key, rate: int, window: nat, now: Time)
    ensures Count([Request(key, now, now)], rate, window, true, key, now) == 1
  {
    var trace := [Request(key, now, now)];
    assert trace[..0] == [];
    assert Served([], rate, window, true) == Answer(map[], false);
    assert Evicted(map[], window, now) == map[];
    assert Served(trace, rate, window, true).admitted;
  }

  // ----- Exactly which requests are refused ---------------------------------------------

  // The answers to a trace, one by one.
  function Answers(trace: seq<Request>, rate: int, window: nat, evicting: bool): (answers: seq<bool>)
    ensures |answers| == |trace|
  {
    seq(|trace|, i requires 0 <= i < |trace| => Admitted(trace, rate, window, evicting, i))
  }

  // Request j is one of the key's and was admitted.
  predicate Hit(trace: seq<Request>, answers: seq<bool>, key: Key, j: nat) {
    j < |trace| && j < |answers| && trace[j].key == key && answers[j]
  }

  // The key's last admission before request n.
  ghost predicate LastHit(trace: seq<Request>, answers: seq<bool>, key: Key, n: nat, j: nat) {
    j < n && Hit(trace, answers, key, j) && forall l: nat | j < l < n :: !Hit(trace, answers, key, l)
  }

  // Request f was admitted more than a window after the key's last admission, or is its first.
  ghost predicate Opens(trace: seq<Request>, answers: seq<bool>, window: nat, key: Key, f: nat) {
    Hit(trace, answers, key, f)
    && forall j: nat | LastHit(trace, answers, key, f, j) :: trace[f].now - trace[j].now > window
  }

  ghost predicate LastOpening(trace: seq<Request>, answers: seq<bool>, window: nat, key: Key, n: nat, f: nat) {
    && f < n && Opens(trace, answers, window, key, f)
    && forall l: nat | f < l < n :: !Opens(trace, answers, window, key, l)
  }

  // The key's admissions from request f on and before request n.
  function Hits(trace: seq<Request>, answers: seq<bool>, key: Key, f: nat, n: nat): nat
    decreases n
  {
    if n <= f then 0
    else Hits(trace, answers, key, f, n - 1) + if Hit(trace, answers, key, n - 1) then 1 else 0
  }

  // What the full table knows of a key before request n.
  ghost predicate Known(trace: seq<Request>, answers: seq<bool>, window: nat, key: Key, n: nat, v: Visitor, j: nat,
                        f: nat) {
    && LastHit(trace, answers, key, n, j) && v.lastSeen == trace[j].now
    && LastOpening(trace, answers, window, key, n, f) && f <= j && v.count == Hits(trace, answers, key, f, n) >= 1
  }

  ghost predicate Remembered(trace: seq<Request>, answers: seq<bool>, window: nat, key: Key, n: nat,
                             visitors: map<Key, Visitor>) {
    if key in visitors then exists j: nat, f: nat :: Known(trace, answers, window, key, n, visitors[key], j, f)
    else forall j: nat | j < n :: !Hit(trace, answers, key, j)
  }

  // Without a hit of the key the next request changes nothing for it.
  lemma NoHitKeeps(trace: seq<Request>, answers: seq<bool>, window: nat, key: Key, n: nat, v: Visitor, j: nat, f: nat)
    requires Known(trace, answers, window, key, n, v, j, f) && !Hit(trace, answers, key, n)
    ensures Known(trace, answers, window, key, n + 1, v, j, f)
  {
    assert !Opens(trace, answers, window, key, n);
  }

  lemma NewHitOpens(trace: seq<Request>, answers: seq<bool>, window: nat, key: Key, n: nat)
    requires Hit(trace, answers, key, n)
    requires forall j: nat | LastHit(trace, answers, key, n, j) :: trace[n].now - trace[j].now > window
    ensures Known(trace, answers, window, key, n + 1, Visitor(1, trace[n].now), n, n)
  {
    assert Hits(trace, answers, key, n, n) == 0;
  }

  lemma NewHitCounts(trace: seq<Request>, answers: seq<bool>, window: nat, key: Key, n: nat, v: Visitor, j: nat, f: nat)
    requires Known(trace, answers, window, key, n, v, j, f) && Hit(trace, answers, key, n)
    requires trace[n].now - v.lastSeen <= window
    ensures Known(trace, answers, window, key, n + 1, Visitor(v.count + 1, trace[n].now), n, f)
  {
    assert !Opens(trace, answers, window, key, n);
    hide Opens, Hit;
    assert Hits(trace, answers, key, f, n + 1) == Hits(trace, answers, key, f, n) + 1;
  }

  lemma OneLastHit(trace: seq<Request>, answers: seq<bool>, key: Key, n: nat, i: nat, j: nat)
    requires LastHit(trace, answers, key, n, i) && LastHit(trace, answers, key, n, j)
    ensures i == j
  {
    assert i <= j && j <= i;
  }

  lemma OneLastOpening(trace: seq<Request>, answers: seq<bool>, window: nat, key: Key, n: nat, i: nat, j: nat)
    requires LastOpening(trace, answers, window, key, n, i) && LastOpening(trace, answers, window, key, n, j)
    ensures i == j
  {
    hide Opens;
    assert i <= j && j <= i;
  }

  lemma TableStep(trace: seq<Request>, answers: seq<bool>, rate: int, window: nat, key: Key, n: nat,
                  visitors: map<Key, Visitor>)
    requires n < |trace| == |answers| && Remembered(trace, answers, window, key, n, visitors)
    requires answers[n] == Admit(visitors, rate, window, trace[n].key, trace[n].now).admitted
    ensures Remembered(trace, answers, window, key, n + 1,
                       Admit(visitors, rate, window, trace[n].key, trace[n].now).visitors)
  {
    hide LastHit, LastOpening, Opens, Known, Hits;
    var after := Admit(visitors, rate, window, trace[n].key, trace[n].now).visitors;
    if key in visitors {
      var j: nat, f: nat :| Known(trace, answers, window, key, n, visitors[key], j, f);
      if !Hit(trace, answers, key, n) {
        NoHitKeeps(trace, answers, window, key, n, visitors[key], j, f);
        assert Known(trace, answers, window, key, n + 1, after[key], j, f);
      } else if trace[n].now - visitors[key].lastSeen > window {
        KnownLast(trace, answers, window, key, n, visitors[key], j, f);
        NewHitOpens(trace, answers, window, key, n);
        assert Known(trace, answers, window, key, n + 1, after[key], n, n);
      } else {
        NewHitCounts(trace, answers, window, key, n, visitors[key], j, f);
        assert Known(trace, answers, window, key, n + 1, after[key], n, f);
      }
    } else if Hit(trace, answers, key, n) {
      NoLast(trace, answers, key, n);
      NewHitOpens(trace, answers, window, key, n);
      assert Known(trace, answers, window, key, n + 1, after[key], n, n);
    }
  }

  lemma NoLast(trace: seq<Request>, answers: seq<bool>, key: Key, n: nat)
    requires forall j: nat | j < n :: !Hit(trace, answers, key, j)
    ensures forall j: nat :: !LastHit(trace, answers, key, n, j)
  {
  }

  lemma KnownLast(trace: seq<Request>, answers: seq<bool>, window: nat, key: Key, n: nat, v: Visitor, j: nat, f: nat)
    requires Known(trace, answers, window, key, n, v, j, f)
    ensures forall i: nat | LastHit(trace, answers, key, n, i) :: i == j && trace[i].now == v.lastSeen
  {
    hide Opens, Hits, LastOpening;
    forall i: nat | LastHit(trace, answers, key, n, i) ensures i == j {
      OneLastHit(trace, answers, key, n, i, j);
    }
  }

  lemma {:induction false} TableRemembers(trace: seq<Request>, rate: int, window: nat, key: Key, n: nat)
    requires n <= |trace|
    ensures Remembered(trace, Answers(trace, rate, window, false), window, key, n,
                       Served(trace[..n], rate, window, false).visitors)
  {
    hide Admit, Known;
    if n == 0 {
    } else {
      var answers, m := Answers(trace, rate, window, false), n - 1;
      TableRemembers(trace, rate, window, key, m);
      assert trace[..n][..m] == trace[..m] && trace[..m+1] == trace[..n];
      hide Remembered;
      TableStep(trace, answers, rate, window, key, m, Served(trace[..m], rate, window, false).visitors);
    }
  }

  lemma AnswersAgree(trace: seq<Request>, rate: int, window: nat)
    requires Timely(trace)
    ensures Answers(trace, rate, window, true) == Answers(trace, rate, window, false)
  {
    hide Admitted;
    forall i | 0 <= i < |trace|
      ensures Answers(trace, rate, window, true)[i] == Answers(trace, rate, window, false)[i]
    {
      EvictionUnseen(trace, rate, window, i);
    }
  }

  // The key has had its share: its last admission is at most a window back, and it has had `rate`
  // admissions, or one when the rate is below one, since the last that followed a longer pause.
  ghost predicate Spent(trace: seq<Request>, answers: seq<bool>, rate: int, window: nat, i: nat)
    requires i < |trace|
  {
    var key := trace[i].key;
    exists j: nat, f: nat ::
      && LastHit(trace, answers, key, i, j) && trace[i].now - trace[j].now <= window
      && LastOpening(trace, answers, window, key, i, f)
      && Hits(trace, answers, key, f, i) >= if rate < 1 then 1 else rate
  }

  // A request is refused exactly when its key has had its share.
  lemma RefusedExactly(trace: seq<Request>, rate: int, window: nat, i: nat)
    requires Timely(trace) && i < |trace|
    ensures var answers := Answers(trace, rate, window, true); !answers[i] <==> Spent(trace, answers, rate, window, i)
  {
    hide LastHit, LastOpening, Hits, Known;
    var answers, r := Answers(trace, rate, window, true), trace[i];
    AnswersAgree(trace, rate, window);
    TableRemembers(trace, rate, window, r.key, i);
    var visitors := Served(trace[..i], rate, window, false).visitors;
    assert trace[..i+1][..i] == trace[..i] && trace[..i+1][i] == r;
    assert answers[i] == Admit(visitors, rate, window, r.key, r.now).admitted;
    if r.key in visitors {
      var j: nat, f: nat :| Known(trace, answers, window, r.key, i, visitors[r.key], j, f);
      KnownMeans(trace, answers, window, r.key, i, visitors[r.key], j, f);
    } else {
      NoLast(trace, answers, r.key, i);
    }
  }

  lemma KnownMeans(trace: seq<Request>, answers: seq<bool>, window: nat, key: Key, n: nat, v: Visitor, j: nat, f: nat)
    requires Known(trace, answers, window, key, n, v, j, f) && n < |trace|
    ensures LastHit(trace, answers, key, n, j) && v.lastSeen == trace[j].now
    ensures LastOpening(trace, answers, window, key, n, f) && v.count == Hits(trace, answers, key, f, n) >= 1
    ensures forall i: nat | LastHit(trace, answers, key, n, i) :: i == j
    ensures forall g: nat | LastOpening(trace, answers, window, key, n, g) :: g == f
  {
    hide Hits;
    KnownLast(trace, answers, window, key, n, v, j, f);
    forall g: nat | LastOpening(trace, answers, window, key, n, g) ensures g == f {
      OneLastOpening(trace, answers, window, key, n, g, f);
    }
  }

  lemma {:induction false} HitsGrow(trace: seq<Request>, answers: seq<bool>, key: Key, f: nat, n: nat)
    ensures Hits(trace, answers, key, f, n) <= Hits(trace, answers, key, 0, n)
  {
    if n > 0 {
      HitsGrow(trace, answers, key, f, n - 1);
    }
  }

  // A key that has been admitted fewer times than the rate so far is admitted, and so is one that has
  // not been admitted for more than a window.
  lemma AdmittedWhen(trace: seq<Request>, rate: int, window: nat, i: nat)
    requires Timely(trace) && i < |trace|
    ensures var answers := Answers(trace, rate, window, true);
      && (Hits(trace, answers, trace[i].key, 0, i) < (if rate < 1 then 1 else rate) ==> answers[i])
      && ((forall j: nat | j < i && Hit(trace, answers, trace[i].key, j) :: trace[i].now - trace[j].now > window)
          ==> answers[i])
  {
    hide Answers, Hits, LastOpening;
    var answers, key := Answers(trace, rate, window, true), trace[i].key;
    RefusedExactly(trace, rate, window, i);
    forall f: nat ensures Hits(trace, answers, key, f, i) <= Hits(trace, answers, key, 0, i) {
      HitsGrow(trace, answers, key, f, i);
    }
  }
}
