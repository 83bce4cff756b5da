/**
 The thread lock of src/worker/locks.py under any number of workers.

 `Redis` is the shared key space with its two atomic operations. `System` adds
 the workers of src/worker/runner.py and a clock; a run is any sequence of
 enabled steps, including crashes that skip the release.
 */
module ThreadLock {
  type Token = nat

  datatype Entry = Entry(token: Token, expiresAt: nat)

  // ----- The two Redis operations -----

  predicate Live(locks: map<string, Entry>, thread: string, now: nat) {
    thread in locks && now < locks[thread].expiresAt
  }

  /** SET key token NX EX ttl. */
  function SetNxEx(locks: map<string, Entry>, thread: string, token: Token, ttl: nat, now: nat):
    (map<string, Entry>, bool)
  {
    if Live(locks, thread, now) then (locks, false)
    else (locks[thread := Entry(token, now + ttl)], true)
  }

  /** The release script: delete the key only if it still holds `token`. */
  function CompareAndDelete(locks: map<string, Entry>, thread: string, token: Token, now: nat):
    (map<string, Entry>, bool)
  {
    if Live(locks, thread, now) && locks[thread].token == token then (locks - {thread}, true)
    else (locks, false)
  }

  class Redis {
    var locks: map<string, Entry>

    /** Entry of the context manager; false is ThreadLockError. */
    method Acquire(thread: string, token: Token, ttl: nat, now: nat) returns (acquired: bool)
      modifies this
      ensures (locks, acquired) == SetNxEx(old(locks), thread, token, ttl, now)
      ensures acquired <==> thread !in old(locks) || old(locks)[thread].expiresAt <= now
      ensures locks == if acquired then old(locks)[thread := Entry(token, now + ttl)] else old(locks)
    {
      if thread in locks && now < locks[thread].expiresAt {
        return false;
      }
      locks := locks[thread := Entry(token, now + ttl)];
      return true;
    }

    /** Exit of the context manager, on return and on exception alike. */
    method Release(thread: string, token: Token, now: nat) returns (released: bool)
      modifies this
      ensures (locks, released) == CompareAndDelete(old(locks), thread, token, now)
      ensures released <==>
        thread in old(locks) && now < old(locks)[thread].expiresAt && old(locks)[thread].token == token
      ensures released ==> thread !in locks
      ensures !released ==> locks == old(locks)
      ensures forall k :: k in old(locks) && k != thread ==> k in locks && locks[k] == old(locks)[k]
      ensures locks.Keys <= old(locks).Keys
    {
      if thread in locks && now < locks[thread].expiresAt && locks[thread].token == token {
        locks := locks - {thread};
        return true;
      }
      return false;
    }
  }

  // ----- Workers -----

  /** What a worker is doing: a job without a thread id runs its handler without a lock. */
  datatype Phase = Idle | Unlocked | Holding(thread: string, token: Token, since: nat)

  datatype System = System(now: nat, locks: map<string, Entry>, workers: map<nat, Phase>, issued: set<Token>)

  datatype Step =
    | Tick(seconds: nat)
    | StartLocked(worker: nat, thread: string, token: Token)
    | StartUnlocked(worker: nat)
    | Finish(worker: nat)
    | Crash(worker: nat)

  function PhaseOf(s: System, w: nat): Phase {
    if w in s.workers then s.workers[w] else Idle
  }

  /** Tokens are fresh UUIDs; a worker handles one job at a time. */
  predicate Enabled(s: System, step: Step) {
    match step
    case Tick(_) => true
    case StartLocked(w, _, token) => PhaseOf(s, w).Idle? && token !in s.issued
    case StartUnlocked(w) => PhaseOf(s, w).Idle?
    case Finish(w) => !PhaseOf(s, w).Idle?
    case Crash(w) => !PhaseOf(s, w).Idle?
  }

  function Next(s: System, step: Step, ttl: nat): System {
    match step
    case Tick(seconds) => s.(now := s.now + seconds)
    case StartLocked(w, thread, token) =>
      var (locks, acquired) := SetNxEx(s.locks, thread, token, ttl, s.now);
      var phase := if acquired then Holding(thread, token, s.now) else Idle;
      s.(locks := locks, workers := s.workers[w := phase], issued := s.issued + {token})
    case StartUnlocked(w) => s.(workers := s.workers[w := Unlocked])
    case Finish(w) =>
      var locks := match PhaseOf(s, w)
                   case Holding(thread, token, _) => CompareAndDelete(s.locks, thread, token, s.now).0
                   case _ => s.locks;
      s.(locks := locks, workers := s.workers[w := Idle])
    case Crash(w) => s.(workers := s.workers[w := Idle])
  }

  const INITIAL: System := System(0, map[], map[], {})

  predicate Legal(s: System, steps: seq<Step>, ttl: nat)
    decreases |steps|
  {
    steps == [] || (Enabled(s, steps[0]) && Legal(Next(s, steps[0], ttl), steps[1..], ttl))
  }

  function Run(s: System, steps: seq<Step>, ttl: nat): System
    decreases |steps|
  {
    if steps == [] then s else Run(Next(s, steps[0], ttl), steps[1..], ttl)
  }

  // ----- The invariant -----

  /** Worker `w` is in the body of `thread` and acquired less than `ttl` ago. */
  predicate Young(s: System, w: nat, ttl: nat) {
    PhaseOf(s, w).Holding? && s.now < PhaseOf(s, w).since + ttl
  }

  ghost predicate Inv(s: System, ttl: nat) {
    && (forall w :: PhaseOf(s, w).Holding? ==> PhaseOf(s, w).token in s.issued && PhaseOf(s, w).since <= s.now)
    && (forall v, w :: PhaseOf(s, v).Holding? && PhaseOf(s, w).Holding? && v != w ==>
          PhaseOf(s, v).token != PhaseOf(s, w).token)
    && (forall w :: Young(s, w, ttl) ==>
          var p := PhaseOf(s, w);
          p.thread in s.locks && s.locks[p.thread] == Entry(p.token, p.since + ttl))
    && (forall t :: t in s.locks ==> s.locks[t].token in s.issued && s.locks[t].expiresAt <= s.now + ttl)
  }

  lemma StepKeepsInv(s: System, step: Step, ttl: nat)
    requires Inv(s, ttl) && Enabled(s, step)
    ensures Inv(Next(s, step, ttl), ttl)
  {
    var n := Next(s, step, ttl);
    forall w | PhaseOf(n, w).Holding?
      ensures PhaseOf(n, w).token in n.issued && PhaseOf(n, w).since <= n.now
    {
      if step.Tick? || w != step.worker {
        assert PhaseOf(n, w) == PhaseOf(s, w);
      }
    }
    forall v, w | PhaseOf(n, v).Holding? && PhaseOf(n, w).Holding? && v != w
      ensures PhaseOf(n, v).token != PhaseOf(n, w).token
    {
      if step.Tick? || (v != step.worker && w != step.worker) {
        assert PhaseOf(n, v) == PhaseOf(s, v) && PhaseOf(n, w) == PhaseOf(s, w);
      } else {
        var kept := if v == step.worker then w else v;
        assert PhaseOf(n, kept) == PhaseOf(s, kept);
      }
    }
    forall w | Young(n, w, ttl)
      ensures var p := PhaseOf(n, w);
              p.thread in n.locks && n.locks[p.thread] == Entry(p.token, p.since + ttl)
    {
      if step.Tick? || w != step.worker {
        assert Young(s, w, ttl);
      }
    }
  }

  lemma {:induction false} RunKeepsInv(s: System, steps: seq<Step>, ttl: nat)
    requires Inv(s, ttl) && Legal(s, steps, ttl)
    ensures Inv(Run(s, steps, ttl), ttl)
    decreases |steps|
  {
    if steps != [] {
      StepKeepsInv(s, steps[0], ttl);
      RunKeepsInv(Next(s, steps[0], ttl), steps[1..], ttl);
    }
  }

  // ----- Mutual exclusion -----

  /** At every instant of every run, at most one worker per thread acquired less than `ttl` ago. */
  lemma AtMostOneYoungHolder(steps: seq<Step>, ttl: nat, v: nat, w: nat)
    requires Legal(INITIAL, steps, ttl)
    requires var s := Run(INITIAL, steps, ttl);
             Young(s, v, ttl) && Young(s, w, ttl) && PhaseOf(s, v).thread == PhaseOf(s, w).thread
    ensures v == w
  {
    RunKeepsInv(INITIAL, steps, ttl);
  }

  /** Hence bodies of one thread overlap only after one of them has outlived the lock. */
  lemma OverlapMeansOverrun(steps: seq<Step>, ttl: nat, v: nat, w: nat)
    requires Legal(INITIAL, steps, ttl) && v != w
    requires var s := Run(INITIAL, steps, ttl);
             && PhaseOf(s, v).Holding? && PhaseOf(s, w).Holding?
             && PhaseOf(s, v).thread == PhaseOf(s, w).thread
    ensures var s := Run(INITIAL, steps, ttl);
            PhaseOf(s, v).since + ttl <= s.now || PhaseOf(s, w).since + ttl <= s.now
  {
    RunKeepsInv(INITIAL, steps, ttl);
  }

  /** The bound is needed: two workers that outlive a 30 second lock do overlap. */
  lemma OverrunCanOverlap()
    ensures var steps := [StartLocked(0, "t", 0), Tick(30), StartLocked(1, "t", 1)];
            && Legal(INITIAL, steps, 30)
            && PhaseOf(Run(INITIAL, steps, 30), 0) == Holding("t", 0, 0)
            && PhaseOf(Run(INITIAL, steps, 30), 1) == Holding("t", 1, 30)
  {
    var steps := [StartLocked(0, "t", 0), Tick(30), StartLocked(1, "t", 1)];
    var s1 := Next(INITIAL, steps[0], 30);
    var s2 := Next(s1, steps[1], 30);
    var s3 := Next(s2, steps[2], 30);
    assert steps[1..] == [Tick(30), StartLocked(1, "t", 1)];
    assert steps[1..][1..] == [StartLocked(1, "t", 1)];
    assert steps[1..][1..][1..] == [];
    assert Legal(s3, [], 30) && Legal(s2, steps[1..][1..], 30) && Legal(s1, steps[1..], 30);
    assert Run(s2, steps[1..][1..], 30) == s3 && Run(s1, steps[1..], 30) == s3;
  }

  // ----- Releases -----

  /** However late, a release leaves every key alone that another worker put there. */
  lemma ReleaseDeletesOnlyOwnKey(steps: seq<Step>, ttl: nat, w: nat, other: nat)
    requires Legal(INITIAL, steps, ttl) && w != other
    requires PhaseOf(Run(INITIAL, steps, ttl), w).Holding?
    requires var s := Run(INITIAL, steps, ttl);
             var p := PhaseOf(s, other);
             p.Holding? && p.thread in s.locks && s.locks[p.thread].token == p.token
    ensures var s := Run(INITIAL, steps, ttl);
            var p := PhaseOf(s, other);
            var n := Next(s, Finish(w), ttl);
            p.thread in n.locks && n.locks[p.thread] == s.locks[p.thread] && PhaseOf(n, other) == p
  {
    RunKeepsInv(INITIAL, steps, ttl);
  }

  /**
   * A job that ends within its ttl frees its thread at once: the key is gone, and any worker that tries
   * in the same instant gets in.
   */
  lemma FinishFreesThread(steps: seq<Step>, w: nat, v: nat, token: Token, ttl: nat)
    requires Legal(INITIAL, steps, ttl) && Young(Run(INITIAL, steps, ttl), w, ttl)
    ensures var s := Run(INITIAL, steps, ttl);
            var thread := PhaseOf(s, w).thread;
            var after := Next(s, Finish(w), ttl);
            && thread !in after.locks && PhaseOf(after, w).Idle?
            && (forall t :: t != thread ==> (t in after.locks <==> t in s.locks))
            && (Enabled(after, StartLocked(v, thread, token)) ==>
                  PhaseOf(Next(after, StartLocked(v, thread, token), ttl), v) == Holding(thread, token, s.now))
  {
    RunKeepsInv(INITIAL, steps, ttl);
    hide Run, Legal;
  }

  // ----- Crashes -----

  /** No attempt on `thread` succeeds along the run. */
  predicate Quiet(s: System, steps: seq<Step>, thread: string, ttl: nat)
    decreases |steps|
  {
    steps == [] || (
      && !(steps[0].StartLocked? && steps[0].thread == thread && !Live(s.locks, thread, s.now))
      && Quiet(Next(s, steps[0], ttl), steps[1..], thread, ttl))
  }

  /** The key of `thread` carries a token that no running worker holds. */
  ghost predicate Orphaned(s: System, thread: string, token: Token, until: nat) {
    && token in s.issued
    && (forall w :: PhaseOf(s, w).Holding? ==> PhaseOf(s, w).token != token)
    && thread in s.locks && s.locks[thread] == Entry(token, until)
  }

  lemma {:induction false} OrphanStays(s: System, steps: seq<Step>, ttl: nat, thread: string, token: Token, until: nat)
    requires Orphaned(s, thread, token, until)
    requires Legal(s, steps, ttl) && Quiet(s, steps, thread, ttl)
    ensures Orphaned(Run(s, steps, ttl), thread, token, until)
    decreases |steps|
  {
    if steps != [] {
      var n := Next(s, steps[0], ttl);
      forall w | PhaseOf(n, w).Holding?
        ensures PhaseOf(n, w).token != token
      {
        if steps[0].Tick? || w != steps[0].worker {
          assert PhaseOf(n, w) == PhaseOf(s, w);
        }
      }
      OrphanStays(n, steps[1..], ttl, thread, token, until);
    }
  }

  /** After a crash inside the body the thread stays locked exactly until `ttl` after the acquisition. */
  lemma CrashFreesAfterTtl(steps: seq<Step>, w: nat, later: seq<Step>, ttl: nat)
    requires Legal(INITIAL, steps, ttl) && Young(Run(INITIAL, steps, ttl), w, ttl)
    requires var crashed := Next(Run(INITIAL, steps, ttl), Crash(w), ttl);
             Legal(crashed, later, ttl) && Quiet(crashed, later, PhaseOf(Run(INITIAL, steps, ttl), w).thread, ttl)
    ensures var p := PhaseOf(Run(INITIAL, steps, ttl), w);
            var end := Run(Next(Run(INITIAL, steps, ttl), Crash(w), ttl), later, ttl);
            Live(end.locks, p.thread, end.now) <==> end.now < p.since + ttl
  {
    RunKeepsInv(INITIAL, steps, ttl);
    var s := Run(INITIAL, steps, ttl);
    var p := PhaseOf(s, w);
    var crashed := Next(s, Crash(w), ttl);
    forall v | PhaseOf(crashed, v).Holding?
      ensures PhaseOf(crashed, v).token != p.token
    {
      assert v != w && PhaseOf(crashed, v) == PhaseOf(s, v);
    }
    OrphanStays(crashed, later, ttl, p.thread, p.token, p.since + ttl);
  }

  lemma {:induction false} KeysOnlyAge(s: System, steps: seq<Step>, thread: string, until: nat, ttl: nat)
    requires thread in s.locks ==> s.locks[thread].expiresAt <= until
    requires Legal(s, steps, ttl) && Quiet(s, steps, thread, ttl)
    ensures var end := Run(s, steps, ttl); thread in end.locks ==> end.locks[thread].expiresAt <= until
    decreases |steps|
  {
    if steps != [] {
      KeysOnlyAge(Next(s, steps[0], ttl), steps[1..], thread, until, ttl);
    }
  }

  /** No deadlock: whatever happened before, `ttl` seconds without a new holder free every thread. */
  lemma AcquirableAfterTtl(steps: seq<Step>, later: seq<Step>, thread: string, w: nat, token: Token, ttl: nat)
    requires Legal(INITIAL, steps, ttl)
    requires var s := Run(INITIAL, steps, ttl);
             Legal(s, later, ttl) && Quiet(s, later, thread, ttl)
    requires var end := Run(Run(INITIAL, steps, ttl), later, ttl);
             end.now >= Run(INITIAL, steps, ttl).now + ttl && Enabled(end, StartLocked(w, thread, token))
    ensures var end := Run(Run(INITIAL, steps, ttl), later, ttl);
            PhaseOf(Next(end, StartLocked(w, thread, token), ttl), w) == Holding(thread, token, end.now)
  {
    RunKeepsInv(INITIAL, steps, ttl);
    var s := Run(INITIAL, steps, ttl);
    KeysOnlyAge(s, later, thread, s.now + ttl, ttl);
  }

  // ----- Overlap, exactly -----

  /**
   * The converse of OverlapMeansOverrun, for every ttl: while `v` stays in the body and nobody else has
   * got in, the next attempt of another worker gets in beside it if and only if `v` has outlived its ttl.
   */
  lemma {:induction false} OverlapsIffOverrun(
    steps: seq<Step>, v: nat, thread: string, token: Token, later: seq<Step>, w: nat, other: Token, ttl: nat)
    requires Legal(INITIAL, steps, ttl) && Enabled(Run(INITIAL, steps, ttl), StartLocked(v, thread, token))
    requires var s := Next(Run(INITIAL, steps, ttl), StartLocked(v, thread, token), ttl);
             PhaseOf(s, v).Holding? && Legal(s, later, ttl) && Quiet(s, later, thread, ttl)
    requires var s := Next(Run(INITIAL, steps, ttl), StartLocked(v, thread, token), ttl);
             PhaseOf(Run(s, later, ttl), v) == PhaseOf(s, v)
             && Enabled(Run(s, later, ttl), StartLocked(w, thread, other))
    ensures var start := Run(INITIAL, steps, ttl);
            var end := Run(Next(start, StartLocked(v, thread, token), ttl), later, ttl);
            var after := Next(end, StartLocked(w, thread, other), ttl);
            && PhaseOf(after, v) == Holding(thread, token, start.now)
            && (PhaseOf(after, w) == Holding(thread, other, end.now) <==> start.now + ttl <= end.now)
  {
    var start := Run(INITIAL, steps, ttl);
    RunKeepsInv(INITIAL, steps, ttl);
    var s := Next(start, StartLocked(v, thread, token), ttl);
    StepKeepsInv(start, StartLocked(v, thread, token), ttl);
    RunKeepsInv(s, later, ttl);
    KeysOnlyAge(s, later, thread, start.now + ttl, ttl);
    var end := Run(s, later, ttl);
    if end.now < start.now + ttl {
      assert Young(end, v, ttl);
    }
    hide Legal, Quiet, Run;
  }
}
