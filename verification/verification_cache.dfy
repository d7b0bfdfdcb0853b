/** The API-key verification cache: a bounded map in insertion order, an in-flight table, and asynchronous derivations. */
module VerificationCache {
  import opened Basics

  datatype ParsedHash = ParsedHash(salt: string, derivedKey: string)

  /** Key derivation and the stored-hash parser are foreign; the cache only needs them to be functions. */
  datatype Config = Config(derive: (string, string) -> string, parse: string -> Option<ParsedHash>, size: Positive, ttl: Positive)

  // ----- credentials and fingerprints -----

  predicate Base64Url(c: char) {
    'A' <= c <= 'Z' || 'a' <= c <= 'z' || '0' <= c <= '9' || c == '_' || c == '-'
  }

  /** sf_test_ and 12 characters, a dot, and 43 characters */
  predicate IsCredential(s: string) {
    && |s| == 64 && s[..8] == "sf_test_" && s[20] == '.'
    && (forall i | 8 <= i < 20 :: Base64Url(s[i])) && (forall i | 21 <= i < 64 :: Base64Url(s[i]))
  }

  /** The hashed text; SHA-256 is taken to be injective. */
  function Fingerprint(plaintext: string, stored: string): string {
    plaintext + ['\0'] + stored
  }

  /** The zero byte separates the parts because a credential contains none. */
  lemma FingerprintIsInjective(p: string, s: string, q: string, t: string)
    requires IsCredential(p) && IsCredential(q) && Fingerprint(p, s) == Fingerprint(q, t)
    ensures p == q && s == t
  {
    var f := Fingerprint(p, s);
    assert f[..64] == p && f[..64] == q;
    assert f[65..] == s && f[65..] == t;
  }

  /** Verification without any cache. */
  predicate Direct(c: Config, plaintext: string, stored: string) {
    && IsCredential(plaintext) && c.parse(stored).Some?
    && c.derive(plaintext, c.parse(stored).value.salt) == c.parse(stored).value.derivedKey
  }

  const ALPHABET := Characters('A', 26) + Characters('a', 26) + Characters('0', 10) + "-_"

  /** A text of n characters of the alphabet. */
  ghost predicate Word(s: string, n: nat) {
    |s| == n && forall i | 0 <= i < n :: s[i] in ALPHABET
  }

  /** The plaintext is the test prefix with a key id, a dot and a secret, and derives the stored key under the stored salt. */
  ghost predicate Verifies(c: Config, plaintext: string, stored: string) {
    exists id, secret, hash ::
      && Word(id, 12) && Word(secret, 43) && plaintext == "sf_test_" + id + "." + secret
      && c.parse(stored) == Some(hash) && c.derive(plaintext, hash.salt) == hash.derivedKey
  }

  lemma AlphabetIsBase64Url(c: char)
    ensures c in ALPHABET <==> Base64Url(c)
  {
    var n := c as int;
    if 'A' <= c <= 'Z' {
      assert ALPHABET[n - 65] == c;
    } else if 'a' <= c <= 'z' {
      assert ALPHABET[n - 71] == c;
    } else if '0' <= c <= '9' {
      assert ALPHABET[n + 4] == c;
    } else if c == '-' || c == '_' {
      assert ALPHABET[62] == '-' && ALPHABET[63] == '_';
    } else {
      assert c !in Characters('A', 26) && c !in Characters('a', 26) && c !in Characters('0', 10);
    }
  }

  lemma DirectMeans(c: Config, plaintext: string, stored: string)
    ensures Direct(c, plaintext, stored) <==> Verifies(c, plaintext, stored)
  {
    forall x ensures x in ALPHABET <==> Base64Url(x) { AlphabetIsBase64Url(x); }
    if IsCredential(plaintext) {
      var id, secret := plaintext[8..20], plaintext[21..];
      assert plaintext == plaintext[..8] + id + [plaintext[20]] + secret;
      assert Word(id, 12) && Word(secret, 43);
    }
    if id, secret :| Word(id, 12) && Word(secret, 43) && plaintext == "sf_test_" + id + "." + secret {
      assert plaintext[..8] == "sf_test_" && plaintext[8..20] == id && plaintext[20] == '.' && plaintext[21..] == secret;
      forall i | 8 <= i < 20 ensures Base64Url(plaintext[i]) { assert plaintext[i] == id[i - 8]; }
      forall i | 21 <= i < 64 ensures Base64Url(plaintext[i]) { assert plaintext[i] == secret[i - 21]; }
    }
  }

  // ----- the cache as a map in insertion order -----

  datatype Entry = Entry(fingerprint: string, expiresAt: int)

  function Lookup(cache: seq<Entry>, f: string): (r: Option<int>)
    ensures r.Some? ==> Entry(f, r.value) in cache
    ensures r.None? ==> forall e | e in cache :: e.fingerprint != f
  {
    if cache == [] then None
    else if cache[0].fingerprint == f then Some(cache[0].expiresAt)
    else Lookup(cache[1..], f)
  }

  function Delete(cache: seq<Entry>, f: string): (r: seq<Entry>)
    ensures |r| <= |cache|
    ensures forall e :: e in r <==> e in cache && e.fingerprint != f
  {
    if cache == [] then [] else
    (if cache[0].fingerprint == f then [] else [cache[0]]) + Delete(cache[1..], f)
  }

  /** Map.set: an existing key keeps its place. */
  function Set(cache: seq<Entry>, f: string, expiresAt: int): (r: seq<Entry>)
    ensures forall e :: e in r ==> e in cache || e == Entry(f, expiresAt)
    ensures |r| == |cache| + if Lookup(cache, f).Some? then 0 else 1
  {
    if cache == [] then [Entry(f, expiresAt)]
    else if cache[0].fingerprint == f then [Entry(f, expiresAt)] + cache[1..]
    else [cache[0]] + Set(cache[1..], f, expiresAt)
  }

  ghost predicate DistinctKeys(cache: seq<Entry>) {
    forall i, j | 0 <= i < j < |cache| :: cache[i].fingerprint != cache[j].fingerprint
  }

  lemma {:induction false} DeleteDistinct(cache: seq<Entry>, f: string)
    requires DistinctKeys(cache)
    ensures DistinctKeys(Delete(cache, f))
  {
    if cache != [] {
      DeleteDistinct(cache[1..], f);
      var rest := Delete(cache[1..], f);
      forall j | 0 <= j < |rest| ensures rest[j].fingerprint != cache[0].fingerprint {
        assert rest[j] in cache[1..];
      }
    }
  }

  lemma {:induction false} DeleteAbsent(cache: seq<Entry>, f: string)
    requires forall e | e in cache :: e.fingerprint != f
    ensures Delete(cache, f) == cache
  {
    if cache != [] {
      assert cache[0] in cache && forall e | e in cache[1..] :: e in cache;
      DeleteAbsent(cache[1..], f);
    }
  }

  lemma {:induction false} DeletePresent(cache: seq<Entry>, f: string)
    requires DistinctKeys(cache) && Lookup(cache, f).Some?
    ensures |Delete(cache, f)| == |cache| - 1
  {
    if cache[0].fingerprint == f {
      forall e | e in cache[1..] ensures e.fingerprint != f {
        var i :| 0 <= i < |cache[1..]| && cache[1..][i] == e;
        assert cache[i + 1] == e;
      }
      DeleteAbsent(cache[1..], f);
    } else {
      DeletePresent(cache[1..], f);
    }
  }

  lemma {:induction false} SetKeeps(cache: seq<Entry>, f: string, expiresAt: int)
    requires DistinctKeys(cache)
    ensures DistinctKeys(Set(cache, f, expiresAt))
  {
    if cache != [] && cache[0].fingerprint != f {
      SetKeeps(cache[1..], f, expiresAt);
      var rest := Set(cache[1..], f, expiresAt);
      forall j | 0 <= j < |rest| ensures rest[j].fingerprint != cache[0].fingerprint {
        assert rest[j] in cache[1..] || rest[j] == Entry(f, expiresAt);
      }
    }
  }

  /** A hit moves the entry to the end with the expiry it had; an expired entry is dropped. */
  function CheckVerified(cache: seq<Entry>, f: string, now: int): (seq<Entry>, bool) {
    match Lookup(cache, f)
    case None => (cache, false)
    case Some(expiresAt) =>
      if expiresAt <= now then (Delete(cache, f), false) else (Set(Delete(cache, f), f, expiresAt), true)
  }

  /** Evicts the oldest entries until there is room for one more. */
  function Evict(cache: seq<Entry>, size: Positive): (r: seq<Entry>)
    ensures |r| < size
  {
    if |cache| >= size then cache[|cache| - size + 1..] else cache
  }

  function Remember(cache: seq<Entry>, f: string, size: Positive, expiresAt: int): seq<Entry> {
    Set(Evict(cache, size), f, expiresAt)
  }

  // ----- asynchronous calls -----

  datatype JobResult = Running | Resolved(verified: bool) | Rejected

  /** One derivation; a registered one is visible in the in-flight table until its cleanup. */
  datatype Job = Job(plaintext: string, stored: string, registered: bool, result: JobResult)

  datatype Answer = Refused | Cached(at: int) | Waits(job: nat)

  datatype Call = Call(plaintext: string, stored: string, answer: Answer)

  /** `derived` lists the successful derivations with the time they were remembered. */
  datatype State = State(
    cache: seq<Entry>, inFlight: map<string, nat>, jobs: seq<Job>, calls: seq<Call>, derived: seq<(string, int)>)

  const EMPTY := State([], map[], [], [], [])

  /** The synchronous part of verify, up to its first await. */
  function Begin(c: Config, s: State, plaintext: string, stored: string, now: int): State {
    if !IsCredential(plaintext) || c.parse(stored).None? then
      s.(calls := s.calls + [Call(plaintext, stored, Refused)])
    else
      var f := Fingerprint(plaintext, stored);
      var (cache, hit) := CheckVerified(s.cache, f, now);
      var checked := s.(cache := cache);
      if hit then checked.(calls := s.calls + [Call(plaintext, stored, Cached(now))])
      else if f in s.inFlight then checked.(calls := s.calls + [Call(plaintext, stored, Waits(s.inFlight[f]))])
      else
        var registered := |s.inFlight| < c.size;
        checked.(
          calls := s.calls + [Call(plaintext, stored, Waits(|s.jobs|))],
          jobs := s.jobs + [Job(plaintext, stored, registered, Running)],
          inFlight := if registered then s.inFlight[f := |s.jobs|] else s.inFlight)
  }

  /** A derivation ends: with the derived key, or by a rejection of the worker pool. */
  function Finish(c: Config, s: State, j: nat, rejected: bool, now: int): State {
    if j >= |s.jobs| || !s.jobs[j].result.Running? then s else
    var job := s.jobs[j];
    if rejected then s.(jobs := s.jobs[j := job.(result := Rejected)]) else
    var verified := Direct(c, job.plaintext, job.stored);
    var resolved := s.(jobs := s.jobs[j := job.(result := Resolved(verified))]);
    if !verified then resolved else
    var f := Fingerprint(job.plaintext, job.stored);
    resolved.(cache := Remember(s.cache, f, c.size, now + c.ttl), derived := s.derived + [(f, now)])
  }

  /** The finally callback of a registered derivation. */
  function Cleanup(s: State, j: nat): State {
    if j >= |s.jobs| || s.jobs[j].result.Running? || !s.jobs[j].registered then s else
    s.(inFlight := s.inFlight - {Fingerprint(s.jobs[j].plaintext, s.jobs[j].stored)},
       jobs := s.jobs[j := s.jobs[j].(registered := false)])
  }

  datatype Step =
    | Verify(plaintext: string, stored: string, now: int)
    | Derived(job: nat, rejected: bool, now: int)
    | Settled(job: nat)

  function Apply(c: Config, s: State, step: Step): State {
    match step
    case Verify(p, stored, now) => Begin(c, s, p, stored, now)
    case Derived(j, rejected, now) => Finish(c, s, j, rejected, now)
    case Settled(j) => Cleanup(s, j)
  }

  function Execute(c: Config, steps: seq<Step>): State {
    if steps == [] then EMPTY else Apply(c, Execute(c, steps[..|steps| - 1]), steps[|steps| - 1])
  }

  // ----- what every step keeps -----

  /** A cached fingerprint was derived successfully exactly one TTL before its expiry. */
  ghost predicate EntryOk(c: Config, s: State, e: Entry) {
    e in s.cache ==> (e.fingerprint, e.expiresAt - c.ttl) in s.derived
  }

  ghost predicate DerivedOk(c: Config, s: State, d: (string, int)) {
    d in s.derived ==> exists p, t :: d.0 == Fingerprint(p, t) && Direct(c, p, t)
  }

  ghost predicate JobOk(c: Config, s: State, j: int) {
    0 <= j < |s.jobs| ==>
      var job := s.jobs[j];
      && IsCredential(job.plaintext) && c.parse(job.stored).Some?
      && (job.result.Resolved? ==> job.result.verified == Direct(c, job.plaintext, job.stored))
      && (job.registered ==> Fingerprint(job.plaintext, job.stored) in s.inFlight && s.inFlight[Fingerprint(job.plaintext, job.stored)] == j)
  }

  ghost predicate FlightOk(s: State, f: string) {
    f in s.inFlight ==>
      && s.inFlight[f] < |s.jobs| && s.jobs[s.inFlight[f]].registered
      && f == Fingerprint(s.jobs[s.inFlight[f]].plaintext, s.jobs[s.inFlight[f]].stored)
  }

  ghost predicate CallOk(c: Config, s: State, k: int) {
    0 <= k < |s.calls| ==>
      var call := s.calls[k];
      match call.answer
      case Refused => !Direct(c, call.plaintext, call.stored)
      case Cached(at) =>
        && Direct(c, call.plaintext, call.stored)
        && exists t :: (Fingerprint(call.plaintext, call.stored), t) in s.derived && at < t + c.ttl
      case Waits(j) => j < |s.jobs| && s.jobs[j].plaintext == call.plaintext && s.jobs[j].stored == call.stored
  }

  ghost predicate Bounded(c: Config, s: State) {
    |s.cache| <= c.size && |s.inFlight| <= c.size && DistinctKeys(s.cache)
  }

  ghost predicate Consistent(c: Config, s: State) {
    && Bounded(c, s)
    && (forall e :: EntryOk(c, s, e)) && (forall d :: DerivedOk(c, s, d)) && (forall j :: JobOk(c, s, j))
    && (forall f :: FlightOk(s, f)) && (forall k :: CallOk(c, s, k))
  }

  lemma CheckKeeps(cache: seq<Entry>, f: string, now: int)
    requires DistinctKeys(cache)
    ensures var (r, hit) := CheckVerified(cache, f, now);
            && DistinctKeys(r) && |r| <= |cache| && (forall e | e in r :: e in cache)
            && (hit <==> exists e :: e in cache && e.fingerprint == f && now < e.expiresAt)
  {
    DeleteDistinct(cache, f);
    match Lookup(cache, f) {
      case None =>
      case Some(expiresAt) =>
        DeletePresent(cache, f);
        SetKeeps(Delete(cache, f), f, expiresAt);
        forall e | e in cache && e.fingerprint == f ensures e.expiresAt == expiresAt {
          var i :| 0 <= i < |cache| && cache[i] == e;
          var j :| 0 <= j < |cache| && cache[j] == Entry(f, expiresAt);
        }
        assert Lookup(Delete(cache, f), f).None?;
    }
  }

  /** A fingerprint that was derived belongs to the one pair it was made from. */
  lemma DerivedMeansDirect(c: Config, s: State, plaintext: string, stored: string, t: int)
    requires forall d :: DerivedOk(c, s, d)
    requires IsCredential(plaintext) && (Fingerprint(plaintext, stored), t) in s.derived
    ensures Direct(c, plaintext, stored)
  {
    assert DerivedOk(c, s, (Fingerprint(plaintext, stored), t));
    var p, q :| Fingerprint(plaintext, stored) == Fingerprint(p, q) && Direct(c, p, q);
    FingerprintIsInjective(plaintext, stored, p, q);
  }

  /** A hit is backed by a derivation of the same pair, younger than the TTL. */
  lemma HitIsDirect(c: Config, s: State, plaintext: string, stored: string, now: int)
    requires DistinctKeys(s.cache) && (forall e :: EntryOk(c, s, e)) && (forall d :: DerivedOk(c, s, d))
    requires IsCredential(plaintext) && CheckVerified(s.cache, Fingerprint(plaintext, stored), now).1
    ensures Direct(c, plaintext, stored)
    ensures exists t :: (Fingerprint(plaintext, stored), t) in s.derived && now < t + c.ttl
  {
    var f := Fingerprint(plaintext, stored);
    CheckKeeps(s.cache, f, now);
    var e :| e in s.cache && e.fingerprint == f && now < e.expiresAt;
    assert EntryOk(c, s, e);
    DerivedMeansDirect(c, s, plaintext, stored, e.expiresAt - c.ttl);
  }

  /** A call that joins a derivation joins one of its own pair. */
  lemma JoinIsSame(c: Config, s: State, plaintext: string, stored: string)
    requires (forall f :: FlightOk(s, f)) && (forall j :: JobOk(c, s, j))
    requires IsCredential(plaintext) && Fingerprint(plaintext, stored) in s.inFlight
    ensures var j := s.inFlight[Fingerprint(plaintext, stored)];
            j < |s.jobs| && s.jobs[j].plaintext == plaintext && s.jobs[j].stored == stored
  {
    var f := Fingerprint(plaintext, stored);
    assert FlightOk(s, f);
    var job := s.jobs[s.inFlight[f]];
    assert JobOk(c, s, s.inFlight[f]);
    FingerprintIsInjective(plaintext, stored, job.plaintext, job.stored);
  }

  /** The call that verify adds answers rightly. */
  lemma BeginAnswers(c: Config, s: State, plaintext: string, stored: string, now: int)
    requires Consistent(c, s)
    ensures var s' := Begin(c, s, plaintext, stored, now); CallOk(c, s', |s.calls|) && |s'.calls| == |s.calls| + 1
  {
    if IsCredential(plaintext) && c.parse(stored).Some? {
      var f := Fingerprint(plaintext, stored);
      if CheckVerified(s.cache, f, now).1 {
        HitIsDirect(c, s, plaintext, stored, now);
      } else if f in s.inFlight {
        JoinIsSame(c, s, plaintext, stored);
      }
    }
  }

  /** What the synchronous part changes besides adding its call: entries may only leave or move, and at most one job starts. */
  ghost predicate BeginDelta(c: Config, s: State, s': State) {
    && s'.derived == s.derived && (forall e | e in s'.cache :: e in s.cache)
    && |s'.calls| == |s.calls| + 1 && s'.calls[..|s.calls|] == s.calls
    && ((s'.jobs == s.jobs && s'.inFlight == s.inFlight)
        || (|s'.jobs| == |s.jobs| + 1 && s'.jobs[..|s.jobs|] == s.jobs
            && var job := s'.jobs[|s.jobs|]; var f := Fingerprint(job.plaintext, job.stored);
               IsCredential(job.plaintext) && c.parse(job.stored).Some? && job.result == Running && f !in s.inFlight
               && s'.inFlight == (if job.registered then s.inFlight[f := |s.jobs|] else s.inFlight)))
  }

  lemma BeginEffect(c: Config, s: State, plaintext: string, stored: string, now: int)
    requires Bounded(c, s)
    ensures var s' := Begin(c, s, plaintext, stored, now); BeginDelta(c, s, s') && Bounded(c, s')
  {
    CheckKeeps(s.cache, Fingerprint(plaintext, stored), now);
  }

  lemma BeginKeepsRows(c: Config, s: State, s': State)
    requires BeginDelta(c, s, s') && Consistent(c, s) && CallOk(c, s', |s.calls|)
    ensures (forall e :: EntryOk(c, s', e)) && (forall d :: DerivedOk(c, s', d)) && (forall j :: JobOk(c, s', j))
    ensures (forall f :: FlightOk(s', f)) && (forall k :: CallOk(c, s', k))
  {
    forall e ensures EntryOk(c, s', e) { assert EntryOk(c, s, e); }
    forall d ensures DerivedOk(c, s', d) { assert DerivedOk(c, s, d); }
    forall j ensures JobOk(c, s', j) {
      assert JobOk(c, s, j);
      if 0 <= j < |s.jobs| { assert s'.jobs[j] == s.jobs[j]; }
    }
    forall f ensures FlightOk(s', f) {
      assert FlightOk(s, f);
      if f in s.inFlight { assert s'.jobs[s.inFlight[f]] == s.jobs[s.inFlight[f]]; }
    }
    forall k ensures CallOk(c, s', k) {
      assert CallOk(c, s, k);
      if 0 <= k < |s.calls| { assert s'.calls[k] == s.calls[k]; }
    }
  }

  lemma BeginKeeps(c: Config, s: State, plaintext: string, stored: string, now: int)
    requires Consistent(c, s)
    ensures Consistent(c, Begin(c, s, plaintext, stored, now))
  {
    BeginAnswers(c, s, plaintext, stored, now);
    BeginEffect(c, s, plaintext, stored, now);
    BeginKeepsRows(c, s, Begin(c, s, plaintext, stored, now));
  }

  lemma FinishKeepsCache(c: Config, s: State, f: string, now: int)
    requires DistinctKeys(s.cache) && |s.cache| <= c.size
    ensures var r := Remember(s.cache, f, c.size, now + c.ttl);
            && DistinctKeys(r) && |r| <= c.size
            && forall e | e in r :: e in s.cache || e == Entry(f, now + c.ttl)
  {
    var kept := Evict(s.cache, c.size);
    assert forall e | e in kept :: e in s.cache;
    SetKeeps(kept, f, now + c.ttl);
  }

  /** What a finished derivation changes: its own result, and on success the cache and the list of derivations. */
  ghost predicate FinishDelta(c: Config, s: State, j: nat, now: int, s': State) {
    && j < |s.jobs| && s.jobs[j].result.Running? && s'.inFlight == s.inFlight && s'.calls == s.calls
    && (s'.jobs == s.jobs[j := s.jobs[j].(result := Rejected)]
        || s'.jobs == s.jobs[j := s.jobs[j].(result := Resolved(Direct(c, s.jobs[j].plaintext, s.jobs[j].stored)))])
    && var f := Fingerprint(s.jobs[j].plaintext, s.jobs[j].stored);
       (s'.cache == s.cache && s'.derived == s.derived)
       || (Direct(c, s.jobs[j].plaintext, s.jobs[j].stored)
           && s'.cache == Remember(s.cache, f, c.size, now + c.ttl) && s'.derived == s.derived + [(f, now)])
  }

  lemma FinishKeepsEntries(c: Config, s: State, j: nat, now: int, s': State)
    requires FinishDelta(c, s, j, now, s') && Bounded(c, s)
    requires (forall e :: EntryOk(c, s, e)) && (forall d :: DerivedOk(c, s, d))
    ensures Bounded(c, s') && (forall e :: EntryOk(c, s', e)) && (forall d :: DerivedOk(c, s', d))
  {
    FinishKeepsCache(c, s, Fingerprint(s.jobs[j].plaintext, s.jobs[j].stored), now);
    forall e ensures EntryOk(c, s', e) { assert EntryOk(c, s, e); }
    forall d ensures DerivedOk(c, s', d) { assert DerivedOk(c, s, d); }
  }

  lemma FinishKeepsJobs(c: Config, s: State, j: nat, now: int, s': State)
    requires FinishDelta(c, s, j, now, s')
    requires (forall i :: JobOk(c, s, i)) && (forall f :: FlightOk(s, f)) && (forall k :: CallOk(c, s, k))
    ensures (forall i :: JobOk(c, s', i)) && (forall f :: FlightOk(s', f)) && (forall k :: CallOk(c, s', k))
  {
    forall i ensures JobOk(c, s', i) { assert JobOk(c, s, i); }
    forall f ensures FlightOk(s', f) { assert FlightOk(s, f); }
    forall k ensures CallOk(c, s', k) { assert CallOk(c, s, k); }
  }

  lemma FinishKeeps(c: Config, s: State, j: nat, rejected: bool, now: int)
    requires Consistent(c, s)
    ensures Consistent(c, Finish(c, s, j, rejected, now))
  {
    var s' := Finish(c, s, j, rejected, now);
    if s' != s {
      assert FinishDelta(c, s, j, now, s');
      FinishKeepsEntries(c, s, j, now, s');
      FinishKeepsJobs(c, s, j, now, s');
    }
  }

  lemma CleanupKeeps(c: Config, s: State, j: nat)
    requires Consistent(c, s)
    ensures Consistent(c, Cleanup(s, j))
  {
    var s' := Cleanup(s, j);
    assert JobOk(c, s, j);
    if s' != s {
      var f := Fingerprint(s.jobs[j].plaintext, s.jobs[j].stored);
      assert s'.inFlight.Keys == s.inFlight.Keys - {f};
    }
    forall e ensures EntryOk(c, s', e) { assert EntryOk(c, s, e); }
    forall d ensures DerivedOk(c, s', d) { assert DerivedOk(c, s, d); }
    forall i ensures JobOk(c, s', i) { assert JobOk(c, s, i); }
    forall f ensures FlightOk(s', f) { assert FlightOk(s, f); }
    forall k ensures CallOk(c, s', k) { assert CallOk(c, s, k); }
  }

  lemma {:induction false} AlwaysConsistent(c: Config, steps: seq<Step>)
    ensures Consistent(c, Execute(c, steps))
  {
    if steps != [] {
      var s := Execute(c, steps[..|steps| - 1]);
      AlwaysConsistent(c, steps[..|steps| - 1]);
      match steps[|steps| - 1] {
        case Verify(p, stored, now) => BeginKeeps(c, s, p, stored, now);
        case Derived(j, rejected, now) => FinishKeeps(c, s, j, rejected, now);
        case Settled(j) => CleanupKeeps(c, s, j);
      }
    }
  }

  /** What a call resolves to, once it does. */
  function Resolution(s: State, call: Call): JobResult
    requires call.answer.Waits? ==> call.answer.job < |s.jobs|
  {
    match call.answer
    case Refused => Resolved(false)
    case Cached(_) => Resolved(true)
    case Waits(j) => s.jobs[j].result
  }

  /** Under any interleaving every call that resolves answers what direct verification answers, true and false alike. */
  lemma AgreesWithDirect(c: Config, steps: seq<Step>, k: nat)
    requires k < |Execute(c, steps).calls|
    ensures var s := Execute(c, steps); var call := s.calls[k];
            && (call.answer.Waits? ==> call.answer.job < |s.jobs|)
            && (Resolution(s, call).Resolved? ==> Resolution(s, call).verified == Direct(c, call.plaintext, call.stored))
            && (Resolution(s, call).Resolved? ==> (Resolution(s, call).verified <==> Verifies(c, call.plaintext, call.stored)))
  {
    AlwaysConsistent(c, steps);
    var s := Execute(c, steps);
    DirectMeans(c, s.calls[k].plaintext, s.calls[k].stored);
    assert CallOk(c, s, k);
    if s.calls[k].answer.Waits? { assert JobOk(c, s, s.calls[k].answer.job); }
  }

  /** A cached answer was given less than one TTL after a derivation of its own pair, and hits never extend it; neither table
      outgrows the configured size. */
  lemma CachedAnswersAreYoung(c: Config, steps: seq<Step>, k: nat)
    requires k < |Execute(c, steps).calls| && Execute(c, steps).calls[k].answer.Cached?
    ensures var s := Execute(c, steps); var call := s.calls[k];
            exists t :: (Fingerprint(call.plaintext, call.stored), t) in s.derived && call.answer.at < t + c.ttl
  {
    AlwaysConsistent(c, steps);
    assert CallOk(c, Execute(c, steps), k);
  }

  lemma TablesAreBounded(c: Config, steps: seq<Step>)
    ensures |Execute(c, steps).cache| <= c.size && |Execute(c, steps).inFlight| <= c.size
  {
    AlwaysConsistent(c, steps);
  }

  /** A hit keeps the expiry of its entry and of every other one. */
  lemma HitKeepsExpiry(cache: seq<Entry>, f: string, now: int)
    requires DistinctKeys(cache) && CheckVerified(cache, f, now).1
    ensures forall e :: e in CheckVerified(cache, f, now).0 <==> e in cache
  {
    var expiresAt := Lookup(cache, f).value;
    CheckKeeps(cache, f, now);
    SetAppends(Delete(cache, f), f, expiresAt);
    forall e | e in cache && e.fingerprint == f ensures e == Entry(f, expiresAt) {
      var i :| 0 <= i < |cache| && cache[i] == e;
      var j :| 0 <= j < |cache| && cache[j] == Entry(f, expiresAt);
    }
  }

  lemma {:induction false} SetAppends(cache: seq<Entry>, f: string, expiresAt: int)
    requires forall e | e in cache :: e.fingerprint != f
    ensures Set(cache, f, expiresAt) == cache + [Entry(f, expiresAt)]
  {
    if cache != [] {
      assert cache[0] in cache && forall e | e in cache[1..] :: e in cache;
      SetAppends(cache[1..], f, expiresAt);
    }
  }

  /** Derivations of one pair that are visible to other callers never run twice at the same time. */
  lemma OneRegisteredDerivation(c: Config, steps: seq<Step>, i: nat, j: nat)
    requires var s := Execute(c, steps);
             i < |s.jobs| && j < |s.jobs| && s.jobs[i].registered && s.jobs[j].registered
             && s.jobs[i].plaintext == s.jobs[j].plaintext && s.jobs[i].stored == s.jobs[j].stored
    ensures i == j
  {
    AlwaysConsistent(c, steps);
    assert JobOk(c, Execute(c, steps), i) && JobOk(c, Execute(c, steps), j);
  }

  // ----- what the cache is for -----

  /** How many entries were put or moved behind the entry of f. */
  function Behind(cache: seq<Entry>, f: string): nat {
    if cache == [] then 0
    else if cache[0].fingerprint == f then |cache| - 1
    else Behind(cache[1..], f)
  }

  lemma BehindCons(e: Entry, rest: seq<Entry>, f: string)
    ensures Behind([e] + rest, f) == if e.fingerprint == f then |rest| else Behind(rest, f)
    ensures Lookup([e] + rest, f) == if e.fingerprint == f then Some(e.expiresAt) else Lookup(rest, f)
  {
    assert ([e] + rest)[1..] == rest;
  }

  lemma {:induction false} DeleteBehind(cache: seq<Entry>, g: string, f: string)
    requires g != f && Lookup(cache, f).Some?
    ensures Lookup(Delete(cache, g), f) == Lookup(cache, f) && Behind(Delete(cache, g), f) <= Behind(cache, f)
  {
    var rest := Delete(cache[1..], g);
    BehindCons(cache[0], rest, f);
    assert [] + rest == rest;
    if cache[0].fingerprint != f { DeleteBehind(cache[1..], g, f); }
  }

  lemma {:induction false} SetBehind(cache: seq<Entry>, g: string, expiresAt: int, f: string)
    requires g != f && Lookup(cache, f).Some?
    ensures Lookup(Set(cache, g, expiresAt), f) == Lookup(cache, f) && Behind(Set(cache, g, expiresAt), f) <= Behind(cache, f) + 1
  {
    if cache[0].fingerprint == g {
      assert ([Entry(g, expiresAt)] + cache[1..])[1..] == cache[1..];
    } else {
      assert ([cache[0]] + Set(cache[1..], g, expiresAt))[1..] == Set(cache[1..], g, expiresAt);
      if cache[0].fingerprint != f { SetBehind(cache[1..], g, expiresAt, f); }
    }
  }

  lemma {:induction false} SetOwn(cache: seq<Entry>, f: string, expiresAt: int)
    ensures Lookup(Set(cache, f, expiresAt), f) == Some(expiresAt)
    ensures Behind(Set(cache, f, expiresAt), f) == if Lookup(cache, f).Some? then Behind(cache, f) else 0
  {
    if cache == [] {
    } else if cache[0].fingerprint == f {
      assert ([Entry(f, expiresAt)] + cache[1..])[1..] == cache[1..];
    } else {
      assert ([cache[0]] + Set(cache[1..], f, expiresAt))[1..] == Set(cache[1..], f, expiresAt);
      SetOwn(cache[1..], f, expiresAt);
    }
  }

  lemma {:induction false} BehindIsWithin(cache: seq<Entry>, f: string)
    ensures cache != [] ==> Behind(cache, f) < |cache|
  {
    if cache != [] { BehindIsWithin(cache[1..], f); }
  }

  lemma EvictionSpares(cache: seq<Entry>, size: Positive, f: string)
    requires |cache| <= size && Lookup(cache, f).Some? && Behind(cache, f) < size - 1
    ensures Lookup(Evict(cache, size), f) == Lookup(cache, f) && Behind(Evict(cache, size), f) == Behind(cache, f)
  {
    assert |cache| >= size ==> Evict(cache, size) == cache[1..];
  }

  /** The entry of f is in the cache until at least the time, with at most n entries behind it. */
  ghost predicate Kept(cache: seq<Entry>, f: string, until: int, n: int) {
    Lookup(cache, f).Some? && Lookup(cache, f).value >= until && Behind(cache, f) <= n
  }

  lemma CheckSpares(cache: seq<Entry>, g: string, now: int, f: string, until: int, n: int)
    requires DistinctKeys(cache) && Kept(cache, f, until, n) && n >= 0 && (g == f ==> now < until)
    ensures Kept(CheckVerified(cache, g, now).0, f, until, n + 1)
    ensures g == f ==> CheckVerified(cache, g, now).1
  {
    if Lookup(cache, g).Some? {
      var rest := Delete(cache, g);
      if g == f {
        SetOwn(rest, f, Lookup(cache, f).value);
        if Lookup(rest, f).Some? { assert Entry(f, Lookup(rest, f).value) in rest; }
      } else {
        DeleteBehind(cache, g, f);
        SetBehind(rest, g, Lookup(cache, g).value, f);
      }
    }
  }

  lemma RememberSpares(cache: seq<Entry>, size: Positive, g: string, expiresAt: int, f: string, until: int, n: int)
    requires |cache| <= size && Kept(cache, f, until, n) && 0 <= n < size - 1 && (g == f ==> expiresAt >= until)
    ensures Kept(Remember(cache, g, size, expiresAt), f, until, n + 1)
  {
    EvictionSpares(cache, size, f);
    if g == f { SetOwn(Evict(cache, size), f, expiresAt); } else { SetBehind(Evict(cache, size), g, expiresAt, f); }
  }

  /** The clocks of the steps that concern the pair: its calls come before the time, its derivations do not shorten it. */
  ghost predicate Timely(c: Config, s: State, step: Step, f: string, until: int) {
    match step
    case Verify(p, stored, now) => Fingerprint(p, stored) == f ==> now < until
    case Derived(j, _, now) => j < |s.jobs| && Fingerprint(s.jobs[j].plaintext, s.jobs[j].stored) == f ==> now + c.ttl >= until
    case Settled(_) => true
  }

  lemma BeginSpares(c: Config, s: State, plaintext: string, stored: string, now: int, f: string, until: int, n: int)
    requires DistinctKeys(s.cache) && Kept(s.cache, f, until, n) && n >= 0 && (Fingerprint(plaintext, stored) == f ==> now < until)
    ensures Kept(Begin(c, s, plaintext, stored, now).cache, f, until, n + 1)
  {
    CheckSpares(s.cache, Fingerprint(plaintext, stored), now, f, until, n);
  }

  lemma FinishSpares(c: Config, s: State, j: nat, rejected: bool, now: int, f: string, until: int, n: int)
    requires |s.cache| <= c.size && Kept(s.cache, f, until, n) && 0 <= n < c.size - 1
    requires j < |s.jobs| && Fingerprint(s.jobs[j].plaintext, s.jobs[j].stored) == f ==> now + c.ttl >= until
    ensures Kept(Finish(c, s, j, rejected, now).cache, f, until, n + 1)
  {
    if Finish(c, s, j, rejected, now).cache != s.cache {
      RememberSpares(s.cache, c.size, Fingerprint(s.jobs[j].plaintext, s.jobs[j].stored), now + c.ttl, f, until, n);
    }
  }

  lemma StepSpares(c: Config, s: State, step: Step, f: string, until: int, n: int)
    requires Bounded(c, s) && Kept(s.cache, f, until, n) && 0 <= n < c.size - 1 && Timely(c, s, step, f, until)
    ensures Kept(Apply(c, s, step).cache, f, until, n + 1)
  {
    match step
    case Verify(p, stored, now) => BeginSpares(c, s, p, stored, now, f, until, n);
    case Derived(j, rejected, now) => FinishSpares(c, s, j, rejected, now, f, until, n);
    case Settled(_) =>
  }

  lemma LastStep(c: Config, steps: seq<Step>, later: seq<Step>, n: nat)
    requires |later| == n + 1
    ensures Execute(c, steps + later) == Apply(c, Execute(c, steps + later[..n]), later[n])
  {
    assert (steps + later)[..|steps| + n] == steps + later[..n];
  }

  lemma {:induction false} EntryOutlives(c: Config, steps: seq<Step>, later: seq<Step>, f: string, until: int, n: int)
    requires Kept(Execute(c, steps).cache, f, until, n) && 0 <= n && n + |later| < c.size
    requires forall i | 0 <= i < |later| :: Timely(c, Execute(c, steps + later[..i]), later[i], f, until)
    ensures Kept(Execute(c, steps + later).cache, f, until, n + |later|)
    decreases |later|
  {
    if later == [] {
      assert steps + later == steps;
    } else {
      var m := |later| - 1;
      assert forall i | 0 <= i < m :: later[..m][i] == later[i] && later[..m][..i] == later[..i];
      EntryOutlives(c, steps, later[..m], f, until, n);
      LastStep(c, steps, later, m);
      AlwaysConsistent(c, steps + later[..m]);
      StepSpares(c, Execute(c, steps + later[..m]), later[m], f, until, n + m);
    }
  }

  /** The cache keeps what was used last: over every run, a pair whose entry has n entries behind it is answered from the cache
      until its expiry, without another derivation, as long as fewer than size - n steps happened since. */
  lemma RecentPairIsServed(c: Config, steps: seq<Step>, later: seq<Step>, plaintext: string, stored: string, now: int)
    requires IsCredential(plaintext) && c.parse(stored).Some?
    requires var s, f := Execute(c, steps), Fingerprint(plaintext, stored);
             && Lookup(s.cache, f).Some? && now < Lookup(s.cache, f).value && Behind(s.cache, f) + |later| < c.size
             && forall i | 0 <= i < |later| :: Timely(c, Execute(c, steps + later[..i]), later[i], f, Lookup(s.cache, f).value)
    ensures var s := Execute(c, steps + later); var s' := Apply(c, s, Verify(plaintext, stored, now));
            s'.calls == s.calls + [Call(plaintext, stored, Cached(now))] && s'.jobs == s.jobs && s'.inFlight == s.inFlight
  {
    var f := Fingerprint(plaintext, stored);
    var until, n := Lookup(Execute(c, steps).cache, f).value, Behind(Execute(c, steps).cache, f);
    EntryOutlives(c, steps, later, f, until, n);
    AlwaysConsistent(c, steps + later);
    CheckSpares(Execute(c, steps + later).cache, f, now, f, until, n + |later|);
  }

  lemma {:induction false} DropFinds(cache: seq<Entry>, k: nat, f: string)
    requires k <= |cache| && Lookup(cache, f).None?
    ensures Lookup(cache[k..], f).None?
  {
    if k > 0 {
      assert cache[1..][k - 1..] == cache[k..];
      DropFinds(cache[1..], k - 1, f);
    }
  }

  lemma RememberedLast(cache: seq<Entry>, size: Positive, f: string, expiresAt: int)
    ensures Lookup(Remember(cache, f, size, expiresAt), f) == Some(expiresAt)
    ensures Lookup(cache, f).None? ==> Behind(Remember(cache, f, size, expiresAt), f) == 0
  {
    SetOwn(Evict(cache, size), f, expiresAt);
    if Lookup(cache, f).None? && |cache| >= size { DropFinds(cache, |cache| - size + 1, f); }
  }

  /** A successful derivation makes its pair the last one of the cache, unless it is there already, for one TTL. */
  lemma DerivationIsRemembered(c: Config, s: State, j: nat, now: int)
    requires j < |s.jobs| && s.jobs[j].result.Running? && Direct(c, s.jobs[j].plaintext, s.jobs[j].stored)
    ensures var s' := Apply(c, s, Derived(j, false, now)); var f := Fingerprint(s.jobs[j].plaintext, s.jobs[j].stored);
            && |s'.jobs| == |s.jobs| && s'.jobs[j].result == Resolved(true) && Lookup(s'.cache, f) == Some(now + c.ttl)
            && (Lookup(s.cache, f).None? ==> Behind(s'.cache, f) == 0)
  {
    RememberedLast(s.cache, c.size, Fingerprint(s.jobs[j].plaintext, s.jobs[j].stored), now + c.ttl);
  }

  /** Job j is a derivation of the pair that other calls can see. */
  ghost predicate Visible(s: State, j: nat, plaintext: string, stored: string) {
    j < |s.jobs| && s.jobs[j].registered && s.jobs[j].plaintext == plaintext && s.jobs[j].stored == stored
  }

  /** A call that finds no live entry joins the visible derivation of its pair if there is one, and starts one otherwise; the
      new one is visible to others exactly while the in-flight table has room. */
  lemma MissJoinsOrDerives(c: Config, steps: seq<Step>, plaintext: string, stored: string, now: int)
    requires IsCredential(plaintext) && c.parse(stored).Some?
    requires forall x | Entry(Fingerprint(plaintext, stored), x) in Execute(c, steps).cache :: x <= now
    ensures var s := Execute(c, steps); var s' := Apply(c, s, Verify(plaintext, stored, now));
            && (forall j: nat | Visible(s, j, plaintext, stored) ::
                  s'.calls == s.calls + [Call(plaintext, stored, Waits(j))] && s'.jobs == s.jobs)
            && ((forall j: nat :: !Visible(s, j, plaintext, stored)) ==>
                  && s'.calls == s.calls + [Call(plaintext, stored, Waits(|s.jobs|))]
                  && s'.jobs == s.jobs + [Job(plaintext, stored, |s.inFlight| < c.size, Running)])
  {
    var s, f := Execute(c, steps), Fingerprint(plaintext, stored);
    AlwaysConsistent(c, steps);
    assert FlightOk(s, f);
    if f in s.inFlight { JoinIsSame(c, s, plaintext, stored); assert Visible(s, s.inFlight[f], plaintext, stored); }
    forall j: nat | Visible(s, j, plaintext, stored) ensures f in s.inFlight && s.inFlight[f] == j { assert JobOk(c, s, j); }
  }

  /** What a check leaves: a live entry at the end, with the expiry it had; no expired one; and all other entries. */
  ghost predicate Refreshed(cache: seq<Entry>, r: seq<Entry>, f: string, now: int) {
    && (forall e: Entry | e.fingerprint != f :: e in r <==> e in cache)
    && (forall x | Entry(f, x) in cache && now < x :: r != [] && r[|r| - 1] == Entry(f, x))
    && ((forall x | Entry(f, x) in cache :: x <= now) ==> forall e | e in r :: e.fingerprint != f)
  }

  lemma CheckRefreshes(cache: seq<Entry>, f: string, now: int)
    requires DistinctKeys(cache)
    ensures Refreshed(cache, CheckVerified(cache, f, now).0, f, now)
  {
    match Lookup(cache, f)
    case None =>
    case Some(expiresAt) =>
      SetAppends(Delete(cache, f), f, expiresAt);
      forall x | Entry(f, x) in cache ensures x == expiresAt {
        var i :| 0 <= i < |cache| && cache[i] == Entry(f, x);
        var j :| 0 <= j < |cache| && cache[j] == Entry(f, expiresAt);
      }
  }

  /** In every reachable state a call with a live entry moves it to the end, with the expiry it had; an expired entry is
      dropped; all other entries stay. */
  lemma CallsRefresh(c: Config, steps: seq<Step>, plaintext: string, stored: string, now: int)
    requires IsCredential(plaintext) && c.parse(stored).Some?
    ensures var s := Execute(c, steps);
            Refreshed(s.cache, Apply(c, s, Verify(plaintext, stored, now)).cache, Fingerprint(plaintext, stored), now)
  {
    AlwaysConsistent(c, steps);
    CheckRefreshes(Execute(c, steps).cache, Fingerprint(plaintext, stored), now);
  }

  /** In every reachable state a derivation ends with the answer of its pair, or with the rejection it met, and only a
      successful one changes the cache; once it is settled no call can join it. */
  lemma DerivationEnds(c: Config, steps: seq<Step>, j: nat, rejected: bool, now: int, plaintext: string, stored: string)
    requires var s := Execute(c, steps);
             j < |s.jobs| && s.jobs[j].result.Running? && s.jobs[j].plaintext == plaintext && s.jobs[j].stored == stored
    ensures var s := Execute(c, steps); var s' := Apply(c, s, Derived(j, rejected, now));
            && |s'.jobs| == |s.jobs| && s'.calls == s.calls
            && (if rejected then s'.jobs[j].result == Rejected
                else s'.jobs[j].result.Resolved? && (s'.jobs[j].result.verified <==> Verifies(c, plaintext, stored)))
            && (s'.jobs[j].result != Resolved(true) ==> s'.cache == s.cache)
            && (s.jobs[j].registered ==> forall i: nat :: !Visible(Apply(c, s', Settled(j)), i, plaintext, stored))
  {
    var s := Execute(c, steps);
    var s' := Apply(c, s, Derived(j, rejected, now));
    DirectMeans(c, plaintext, stored);
    forall i: nat | s.jobs[j].registered ensures !Visible(Apply(c, s', Settled(j)), i, plaintext, stored) {
      if i < |s.jobs| && s.jobs[i].registered && s.jobs[i].plaintext == plaintext && s.jobs[i].stored == stored {
        OneRegisteredDerivation(c, steps, i, j);
      }
    }
  }

  // ----- the service and its fields -----

  class CredentialService {
    const config: Config
    var cache: seq<Entry>
    var inFlight: map<string, nat>
    var jobs: seq<Job>
    var calls: seq<Call>
    var derived: seq<(string, int)>

    constructor (config: Config)
      ensures Fields() == EMPTY && this.config == config
    {
      this.config := config;
      cache, inFlight, jobs, calls, derived := [], map[], [], [], [];
    }

    function Fields(): State
      reads this
    {
      State(cache, inFlight, jobs, calls, derived)
    }

    method HasVerifiedFingerprint(f: string, now: int) returns (hit: bool)
      modifies `cache
      ensures (cache, hit) == CheckVerified(old(cache), f, now)
    {
      var expiresAt := Lookup(cache, f);
      if expiresAt.None? {
        return false;
      }
      cache := Delete(cache, f);
      if expiresAt.value <= now {
        return false;
      }
      cache := Set(cache, f, expiresAt.value);
      hit := true;
    }

    method RememberVerifiedFingerprint(f: string, now: int)
      modifies `cache
      ensures cache == Remember(old(cache), f, config.size, now + config.ttl)
    {
      while |cache| >= config.size
        invariant Evict(cache, config.size) == Evict(old(cache), config.size)
        decreases |cache|
      {
        assert |cache| > config.size ==> cache[1..][|cache| - config.size..] == cache[|cache| - config.size + 1..];
        cache := cache[1..];
      }
      cache := Set(cache, f, now + config.ttl);
    }

    /** verify up to its first await. */
    method Verify(plaintext: string, stored: string, now: int)
      modifies this
      ensures Fields() == Begin(config, old(Fields()), plaintext, stored, now)
    {
      if !IsCredential(plaintext) || config.parse(stored).None? {
        calls := calls + [Call(plaintext, stored, Refused)];
        return;
      }
      var f := Fingerprint(plaintext, stored);
      var hit := HasVerifiedFingerprint(f, now);
      if hit {
        calls := calls + [Call(plaintext, stored, Cached(now))];
        return;
      }
      if f in inFlight {
        calls := calls + [Call(plaintext, stored, Waits(inFlight[f]))];
        return;
      }
      var job := |jobs|;
      var registered := |inFlight| < config.size;
      jobs := jobs + [Job(plaintext, stored, registered, Running)];
      if registered {
        inFlight := inFlight[f := job];
      }
      calls := calls + [Call(plaintext, stored, Waits(job))];
    }

    /** verifyAndRemember from its await on. */
    method EndDerivation(j: nat, rejected: bool, now: int)
      requires j < |jobs| && jobs[j].result.Running?
      modifies this
      ensures Fields() == Finish(config, old(Fields()), j, rejected, now)
    {
      var job := jobs[j];
      if rejected {
        jobs := jobs[j := job.(result := Rejected)];
        return;
      }
      var verified := Direct(config, job.plaintext, job.stored);
      jobs := jobs[j := job.(result := Resolved(verified))];
      if verified {
        var f := Fingerprint(job.plaintext, job.stored);
        RememberVerifiedFingerprint(f, now);
        derived := derived + [(f, now)];
      }
    }
  }
}
