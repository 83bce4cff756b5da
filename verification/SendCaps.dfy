/**
 Send caps of src/guardrails/send_caps.py.

 Counters live in Redis under keys that carry a UTC day or a `%Y-W%W` week and
 expire after two or eight days. The module gives the enforcer, its behaviour
 over whole traces of calls, and the interleavings of calls whose reads and
 final pipeline are separate steps. Times are in seconds since the epoch.
 */
module SendCaps {
  import opened Calendar
  import opened Options

  const SECONDS_PER_DAY := 86400

  function Day(now: nat): nat { now / SECONDS_PER_DAY }

  // ----- Counters -----

  datatype Key =
    | WorkspaceDaily(workspace: string, day: nat)
    | WorkspaceWeekly(workspace: string, week: Week)
    | AccountDaily(workspace: string, account: string, day: nat)

  datatype Counter = Counter(count: nat, expiresAt: nat)

  type Store = map<Key, Counter>

  datatype Caps = Caps(dailyWorkspace: int, weeklyWorkspace: int, dailyAccount: int)

  const SEND_CAPS := Caps(25, 100, 3)

  function Limit(caps: Caps, key: Key): int {
    match key
    case WorkspaceDaily(_, _) => caps.dailyWorkspace
    case WorkspaceWeekly(_, _) => caps.weeklyWorkspace
    case AccountDaily(_, _, _) => caps.dailyAccount
  }

  function Ttl(key: Key): nat {
    if key.WorkspaceWeekly? then 8 * SECONDS_PER_DAY else 2 * SECONDS_PER_DAY
  }

  /** GET with a missing or expired key read as zero; with `forever`, keys never expire. */
  function Read(store: Store, key: Key, now: nat, forever: bool): nat {
    if key in store && (forever || now < store[key].expiresAt) then store[key].count else 0
  }

  /** INCR followed by EXPIRE. */
  function Incremented(store: Store, key: Key, now: nat, forever: bool): Store {
    store[key := Counter(Read(store, key, now, forever) + 1, now + Ttl(key))]
  }

  /** The counters of one call, in the order they are checked. An empty account id counts as none. */
  function Keys(workspace: string, account: Option<string>, day: nat): seq<Key> {
    [WorkspaceDaily(workspace, day), WorkspaceWeekly(workspace, WeekOf(day))]
    + if account.Some? && account.value != "" then [AccountDaily(workspace, account.value, day)] else []
  }

  datatype Verdict = Sent | Refused(key: Key, current: int, limit: int)

  /** The first counter at its limit refuses the call. */
  function Check(store: Store, keys: seq<Key>, caps: Caps, now: nat, forever: bool): Verdict {
    if keys == [] then Sent
    else
      var current := Read(store, keys[0], now, forever);
      if current >= Limit(caps, keys[0]) then Refused(keys[0], current, Limit(caps, keys[0]))
      else Check(store, keys[1..], caps, now, forever)
  }

  function Bump(store: Store, keys: seq<Key>, now: nat, forever: bool): Store
    decreases |keys|
  {
    if keys == [] then store
    else Bump(Incremented(store, keys[0], now, forever), keys[1..], now, forever)
  }

  /** Counter `n` is the first of `keys` that is at its limit. */
  ghost predicate FullAt(store: Store, keys: seq<Key>, caps: Caps, now: nat, forever: bool, n: nat)
    requires n < |keys|
  {
    && Read(store, keys[n], now, forever) >= Limit(caps, keys[n])
    && forall k :: k in keys[..n] ==> Read(store, k, now, forever) < Limit(caps, k)
  }

  /** A call passes when all its counters are below their limits; a refusal tells of the first that is not. */
  lemma {:induction false} CheckMeaning(store: Store, keys: seq<Key>, caps: Caps, now: nat, forever: bool)
    ensures Check(store, keys, caps, now, forever).Sent? <==>
              forall k :: k in keys ==> Read(store, k, now, forever) < Limit(caps, k)
    ensures forall n :: 0 <= n < |keys| && FullAt(store, keys, caps, now, forever, n) ==>
              Check(store, keys, caps, now, forever)
              == Refused(keys[n], Read(store, keys[n], now, forever), Limit(caps, keys[n]))
  {
    if keys != [] {
      CheckMeaning(store, keys[1..], caps, now, forever);
      assert keys == [keys[0]] + keys[1..];
      forall n | 0 < n < |keys| && FullAt(store, keys, caps, now, forever, n)
        ensures FullAt(store, keys[1..], caps, now, forever, n - 1)
      {
        assert keys[0] in keys[..n];
        assert forall k :: k in keys[1..][..n - 1] ==> k in keys[..n];
      }
    }
  }

  predicate Distinct<T(==)>(s: seq<T>) {
    forall i, j :: 0 <= i < j < |s| ==> s[i] != s[j]
  }

  /** A pipeline over distinct keys counts one more on each of them and touches nothing else. */
  lemma {:induction false} BumpAt(store: Store, keys: seq<Key>, now: nat, forever: bool, k: Key)
    requires Distinct(keys)
    ensures Get(Bump(store, keys, now, forever), k) ==
            if k in keys then Some(Counter(Read(store, k, now, forever) + 1, now + Ttl(k))) else Get(store, k)
    decreases |keys|
  {
    if keys != [] {
      assert k in keys[1..] ==> k != keys[0];
      assert k in keys <==> k == keys[0] || k in keys[1..];
      BumpAt(Incremented(store, keys[0], now, forever), keys[1..], now, forever, k);
    }
  }

  lemma BumpedReads(store: Store, keys: seq<Key>, now: nat)
    requires Distinct(keys)
    ensures var after := Bump(store, keys, now, false);
            forall k :: Read(after, k, now, false) == Read(store, k, now, false) + if k in keys then 1 else 0
  {
    forall k
      ensures Read(Bump(store, keys, now, false), k, now, false)
              == Read(store, k, now, false) + if k in keys then 1 else 0
    {
      BumpAt(store, keys, now, false, k);
    }
  }

  function FirstFull(store: Store, caps: Caps, now: nat, key: Key, otherwise: Verdict): Verdict {
    var current := Read(store, key, now, false);
    if current >= Limit(caps, key) then Refused(key, current, Limit(caps, key)) else otherwise
  }

  lemma OneKey(store: Store, key: Key, rest: seq<Key>, caps: Caps, now: nat)
    ensures Check(store, [key] + rest, caps, now, false)
            == FirstFull(store, caps, now, key, Check(store, rest, caps, now, false))
    ensures Bump(store, [key] + rest, now, false) == Bump(Incremented(store, key, now, false), rest, now, false)
  {
    assert ([key] + rest)[1..] == rest;
  }

  lemma TwoKeys(store: Store, a: Key, b: Key, caps: Caps, now: nat)
    ensures Check(store, [a, b], caps, now, false)
            == FirstFull(store, caps, now, a, FirstFull(store, caps, now, b, Sent))
    ensures Bump(store, [a, b], now, false) == Incremented(Incremented(store, a, now, false), b, now, false)
  {
    assert [a, b] == [a] + ([b] + []);
    OneKey(store, a, [b] + [], caps, now);
    OneKey(store, b, [], caps, now);
    OneKey(Incremented(store, a, now, false), b, [], caps, now);
  }

  lemma ThreeKeys(store: Store, a: Key, b: Key, c: Key, caps: Caps, now: nat)
    ensures Check(store, [a, b, c], caps, now, false)
            == FirstFull(store, caps, now, a, FirstFull(store, caps, now, b, FirstFull(store, caps, now, c, Sent)))
    ensures Bump(store, [a, b, c], now, false)
            == Incremented(Incremented(Incremented(store, a, now, false), b, now, false), c, now, false)
  {
    assert [a, b, c] == [a] + [b, c];
    OneKey(store, a, [b, c], caps, now);
    TwoKeys(store, b, c, caps, now);
    TwoKeys(Incremented(store, a, now, false), b, c, caps, now);
  }

  predicate ExpiresAt(store: Store, key: Key, time: nat) {
    key in store && store[key].expiresAt == time
  }

  class SendCapEnforcer {
    var store: Store

    /** Raises nothing and counts the send, or names the first exhausted cap and counts nothing. */
    method CheckAndIncrement(workspace: string, account: Option<string>, caps: Caps, now: nat)
      returns (verdict: Verdict)
      modifies this
      ensures verdict == Check(old(store), Keys(workspace, account, Day(now)), caps, now, false)
      ensures verdict.Sent? <==>
                forall k :: k in Keys(workspace, account, Day(now)) ==> Read(old(store), k, now, false) < Limit(caps, k)
      ensures verdict.Sent? ==>
        && Read(old(store), WorkspaceDaily(workspace, Day(now)), now, false) < caps.dailyWorkspace
        && Read(old(store), WorkspaceWeekly(workspace, WeekOf(Day(now))), now, false) < caps.weeklyWorkspace
        && (account.Some? && account.value != "" ==>
              Read(old(store), AccountDaily(workspace, account.value, Day(now)), now, false) < caps.dailyAccount)
      ensures verdict.Sent? ==>
        && ExpiresAt(store, WorkspaceDaily(workspace, Day(now)), now + 2 * 86400)
        && ExpiresAt(store, WorkspaceWeekly(workspace, WeekOf(Day(now))), now + 8 * 86400)
        && (account.Some? && account.value != "" ==>
              ExpiresAt(store, AccountDaily(workspace, account.value, Day(now)), now + 2 * 86400))
      ensures verdict.Refused? ==> store == old(store)
      ensures verdict.Sent? ==> store == Bump(old(store), Keys(workspace, account, Day(now)), now, false)
      ensures forall k :: Read(store, k, now, false) ==
                Read(old(store), k, now, false)
                + if verdict.Sent? && k in Keys(workspace, account, Day(now)) then 1 else 0
    {
      var day := Day(now);
      var named := account.Some? && account.value != "";
      var daily := WorkspaceDaily(workspace, day);
      var weekly := WorkspaceWeekly(workspace, WeekOf(day));
      ghost var keys := Keys(workspace, account, day);
      CheckMeaning(store, keys, caps, now, false);
      if named {
        assert keys == [daily, weekly, AccountDaily(workspace, account.value, day)];
        ThreeKeys(store, daily, weekly, AccountDaily(workspace, account.value, day), caps, now);
      } else {
        assert keys == [daily, weekly];
        TwoKeys(store, daily, weekly, caps, now);
      }
      hide WeekOf, Check, Bump;

      var count := Read(store, daily, now, false);
      if count >= caps.dailyWorkspace {
        return Refused(daily, count, caps.dailyWorkspace);
      }
      count := Read(store, weekly, now, false);
      if count >= caps.weeklyWorkspace {
        return Refused(weekly, count, caps.weeklyWorkspace);
      }
      if named {
        var own := AccountDaily(workspace, account.value, day);
        count := Read(store, own, now, false);
        if count >= caps.dailyAccount {
          return Refused(own, count, caps.dailyAccount);
        }
      }
      BumpedReads(store, keys, now);
      store := Incremented(store, daily, now, false);
      store := Incremented(store, weekly, now, false);
      if named {
        store := Incremented(store, AccountDaily(workspace, account.value, day), now, false);
      }
      return Sent;
    }

    /** What is left of a workspace's two budgets, never negative, and what is used of them. */
    method GetRemaining(workspace: string, caps: Caps, now: nat)
      returns (daily: nat, weekly: nat, dailyUsed: nat, weeklyUsed: nat)
      ensures dailyUsed == Read(store, WorkspaceDaily(workspace, Day(now)), now, false)
      ensures weeklyUsed == Read(store, WorkspaceWeekly(workspace, WeekOf(Day(now))), now, false)
      ensures if dailyUsed <= caps.dailyWorkspace then daily + dailyUsed == caps.dailyWorkspace else daily == 0
      ensures if weeklyUsed <= caps.weeklyWorkspace then weekly + weeklyUsed == caps.weeklyWorkspace else weekly == 0
      ensures daily == 0 || weekly == 0 <==>
                Check(store, Keys(workspace, None, Day(now)), caps, now, false).Refused?
    {
      dailyUsed := Read(store, WorkspaceDaily(workspace, Day(now)), now, false);
      weeklyUsed := Read(store, WorkspaceWeekly(workspace, WeekOf(Day(now))), now, false);
      CheckMeaning(store, Keys(workspace, None, Day(now)), caps, now, false);
      assert Keys(workspace, None, Day(now))[1] == WorkspaceWeekly(workspace, WeekOf(Day(now)));
      daily := if caps.dailyWorkspace > dailyUsed then caps.dailyWorkspace - dailyUsed else 0;
      weekly := if caps.weeklyWorkspace > weeklyUsed then caps.weeklyWorkspace - weeklyUsed else 0;
    }
  }

  // ----- Traces of calls -----

  datatype Call = Call(workspace: string, account: Option<string>, now: nat)

  function After(store: Store, call: Call, caps: Caps, forever: bool): Store {
    var keys := Keys(call.workspace, call.account, Day(call.now));
    if Check(store, keys, caps, call.now, forever).Sent? then Bump(store, keys, call.now, forever) else store
  }

  function Verdicts(store: Store, calls: seq<Call>, caps: Caps, forever: bool): seq<Verdict>
    decreases |calls|
  {
    if calls == [] then []
    else
      var call := calls[0];
      [Check(store, Keys(call.workspace, call.account, Day(call.now)), caps, call.now, forever)]
      + Verdicts(After(store, call, caps, forever), calls[1..], caps, forever)
  }

  function Final(store: Store, calls: seq<Call>, caps: Caps, forever: bool): Store
    decreases |calls|
  {
    if calls == [] then store else Final(After(store, calls[0], caps, forever), calls[1..], caps, forever)
  }

  ghost predicate Ordered(calls: seq<Call>) {
    forall i, j :: 0 <= i < j < |calls| ==> calls[i].now <= calls[j].now
  }

  /** The key is one that a call at `t` may use. */
  predicate KeyOfTime(key: Key, t: nat) {
    match key
    case WorkspaceDaily(_, day) => day == Day(t)
    case WorkspaceWeekly(_, week) => week == WeekOf(Day(t))
    case AccountDaily(_, _, day) => day == Day(t)
  }

  /** Every counter was last written, before `now`, by a call of its own day or week. */
  ghost predicate Stamped(store: Store, now: nat) {
    forall k :: k in store ==>
      store[k].expiresAt >= Ttl(k) && store[k].expiresAt - Ttl(k) <= now && KeyOfTime(k, store[k].expiresAt - Ttl(k))
  }

  lemma ReadsOfOwnTimeAgree(store: Store, key: Key, now: nat)
    requires Stamped(store, now) && KeyOfTime(key, now)
    ensures Read(store, key, now, false) == Read(store, key, now, true)
  {
    if key in store {
      var t := store[key].expiresAt - Ttl(key);
      if key.WorkspaceWeekly? {
        WeekSpan(Day(t), Day(now));
      }
    }
  }

  lemma KeysAreDistinct(call: Call)
    ensures var keys := Keys(call.workspace, call.account, Day(call.now));
            Distinct(keys) && forall k :: k in keys ==> KeyOfTime(k, call.now)
  {
  }

  lemma {:induction false} CheckAgrees(store: Store, keys: seq<Key>, caps: Caps, now: nat)
    requires forall k :: k in keys ==> Read(store, k, now, false) == Read(store, k, now, true)
    ensures Check(store, keys, caps, now, false) == Check(store, keys, caps, now, true)
  {
    if keys != [] {
      CheckAgrees(store, keys[1..], caps, now);
    }
  }

  lemma SameEntries(a: Store, b: Store)
    requires forall k :: Get(a, k) == Get(b, k)
    ensures a == b
  {
    forall k
      ensures k in a <==> k in b
      ensures k in a ==> a[k] == b[k]
    {
      assert Get(a, k) == Get(b, k);
    }
  }

  lemma BumpAgrees(store: Store, keys: seq<Key>, now: nat)
    requires Distinct(keys)
    requires forall k :: k in keys ==> Read(store, k, now, false) == Read(store, k, now, true)
    ensures Bump(store, keys, now, false) == Bump(store, keys, now, true)
  {
    var a, b := Bump(store, keys, now, false), Bump(store, keys, now, true);
    forall k
      ensures Get(a, k) == Get(b, k)
    {
      BumpAt(store, keys, now, false, k);
      BumpAt(store, keys, now, true, k);
    }
    SameEntries(a, b);
  }

  lemma {:induction false} BumpStamps(store: Store, keys: seq<Key>, now: nat)
    requires Stamped(store, now) && forall k :: k in keys ==> KeyOfTime(k, now)
    ensures Stamped(Bump(store, keys, now, false), now)
    decreases |keys|
  {
    if keys != [] {
      assert KeyOfTime(keys[0], now);
      BumpStamps(Incremented(store, keys[0], now, false), keys[1..], now);
    }
  }

  lemma CallAgrees(store: Store, call: Call, caps: Caps)
    requires Stamped(store, call.now)
    ensures var keys := Keys(call.workspace, call.account, Day(call.now));
            Check(store, keys, caps, call.now, false) == Check(store, keys, caps, call.now, true)
    ensures After(store, call, caps, false) == After(store, call, caps, true)
    ensures Stamped(After(store, call, caps, false), call.now)
  {
    var keys := Keys(call.workspace, call.account, Day(call.now));
    KeysAreDistinct(call);
    forall k | k in keys
      ensures Read(store, k, call.now, false) == Read(store, k, call.now, true)
    {
      ReadsOfOwnTimeAgree(store, k, call.now);
    }
    hide Keys, Read, Check, Bump, Stamped, Distinct;
    CheckAgrees(store, keys, caps, call.now);
    BumpAgrees(store, keys, call.now);
    BumpStamps(store, keys, call.now);
  }

  /** The two and eight day expiries are never noticed: verdicts and store are those of a store that forgets nothing. */
  lemma {:induction false} ExpiryIsInvisible(store: Store, calls: seq<Call>, caps: Caps)
    requires Ordered(calls) && (calls != [] ==> Stamped(store, calls[0].now))
    ensures Verdicts(store, calls, caps, false) == Verdicts(store, calls, caps, true)
    ensures Final(store, calls, caps, false) == Final(store, calls, caps, true)
    decreases |calls|
  {
    if calls != [] {
      CallAgrees(store, calls[0], caps);
      var next := After(store, calls[0], caps, false);
      hide Check, Keys, After;
      ExpiryIsInvisible(next, calls[1..], caps);
    }
  }

  // ----- Bookkeeping -----

  function Count(store: Store, key: Key): nat { if key in store then store[key].count else 0 }

  /** The daily workspace counters of one week, up to day `hi`. */
  function SumDays(store: Store, workspace: string, week: Week, hi: nat): nat {
    if hi == 0 then 0
    else (if WeekOf(hi - 1) == week then Count(store, WorkspaceDaily(workspace, hi - 1)) else 0)
         + SumDays(store, workspace, week, hi - 1)
  }

  function SumAccounts(store: Store, workspace: string, day: nat, accounts: seq<string>): nat {
    if accounts == [] then 0
    else Count(store, AccountDaily(workspace, accounts[0], day)) + SumAccounts(store, workspace, day, accounts[1..])
  }

  /** `after` counts one more on exactly the keys of `keys`. */
  ghost predicate OneMore(before: Store, after: Store, keys: seq<Key>) {
    forall k :: Count(after, k) == Count(before, k) + if k in keys then 1 else 0
  }

  lemma {:induction false} SumDaysStep(before: Store, after: Store, keys: seq<Key>, workspace: string, week: Week,
                                       day: nat, hi: nat)
    requires OneMore(before, after, keys)
    requires forall d :: WorkspaceDaily(workspace, d) in keys ==> d == day
    ensures SumDays(after, workspace, week, hi) == SumDays(before, workspace, week, hi)
            + if WorkspaceDaily(workspace, day) in keys && day < hi && WeekOf(day) == week then 1 else 0
  {
    if hi > 0 {
      SumDaysStep(before, after, keys, workspace, week, day, hi - 1);
      var k := WorkspaceDaily(workspace, hi - 1);
      assert Count(after, k) == Count(before, k) + if k in keys then 1 else 0;
    }
  }

  lemma {:induction false} SumAccountsStep(before: Store, after: Store, keys: seq<Key>, workspace: string, day: nat,
                                           account: string, accounts: seq<string>)
    requires OneMore(before, after, keys) && Distinct(accounts)
    requires forall a :: AccountDaily(workspace, a, day) in keys ==> a == account
    ensures SumAccounts(after, workspace, day, accounts) == SumAccounts(before, workspace, day, accounts)
            + if AccountDaily(workspace, account, day) in keys && account in accounts then 1 else 0
  {
    if accounts != [] {
      SumAccountsStep(before, after, keys, workspace, day, account, accounts[1..]);
      var k := AccountDaily(workspace, accounts[0], day);
      assert Count(after, k) == Count(before, k) + if k in keys then 1 else 0;
      assert accounts == [accounts[0]] + accounts[1..];
    }
  }

  /** Weekly counters are the sum of their days, daily counters cover their accounts, nothing lies after `today`. */
  ghost predicate Balanced(store: Store, today: nat) {
    && (forall ws, week, hi :: hi > today ==> Count(store, WorkspaceWeekly(ws, week)) == SumDays(store, ws, week, hi))
    && (forall ws, day, accounts :: Distinct(accounts) ==>
          SumAccounts(store, ws, day, accounts) <= Count(store, WorkspaceDaily(ws, day)))
  }

  lemma CallKeepsBalance(store: Store, call: Call, caps: Caps, today: nat)
    requires Balanced(store, today) && today <= Day(call.now)
    ensures Balanced(After(store, call, caps, true), Day(call.now))
  {
    var day := Day(call.now);
    var keys := Keys(call.workspace, call.account, day);
    var after := After(store, call, caps, true);
    if Check(store, keys, caps, call.now, true).Sent? {
      KeysAreDistinct(call);
      forall k
        ensures Count(after, k) == Count(store, k) + if k in keys then 1 else 0
      {
        BumpAt(store, keys, call.now, true, k);
      }
      forall ws, week, hi | hi > day
        ensures Count(after, WorkspaceWeekly(ws, week)) == SumDays(after, ws, week, hi)
      {
        SumDaysStep(store, after, keys, ws, week, day, hi);
        assert keys[0].workspace == call.workspace && keys[1].workspace == call.workspace;
        assert WorkspaceDaily(ws, day) in keys <==> ws == call.workspace;
        assert WorkspaceWeekly(ws, WeekOf(day)) in keys <==> ws == call.workspace;
      }
      forall ws, d, accounts | Distinct(accounts)
        ensures SumAccounts(after, ws, d, accounts) <= Count(after, WorkspaceDaily(ws, d))
      {
        var name := if call.account.Some? then call.account.value else "";
        SumAccountsStep(store, after, keys, ws, d, name, accounts);
        assert keys[0] == WorkspaceDaily(call.workspace, day);
        assert AccountDaily(ws, name, d) in keys ==> WorkspaceDaily(ws, d) in keys;
      }
    }
  }

  lemma {:induction false} RunKeepsBalance(store: Store, calls: seq<Call>, caps: Caps, today: nat)
    requires Ordered(calls) && Balanced(store, today) && (calls != [] ==> today <= Day(calls[0].now))
    ensures Balanced(Final(store, calls, caps, true), if calls == [] then today else Day(calls[|calls| - 1].now))
    decreases |calls|
  {
    if calls != [] {
      CallKeepsBalance(store, calls[0], caps, today);
      var next := After(store, calls[0], caps, true);
      hide After, Balanced;
      RunKeepsBalance(next, calls[1..], caps, Day(calls[0].now));
    }
  }

  lemma {:induction false} SumDaysEmpty(ws: string, week: Week, hi: nat)
    ensures SumDays(map[], ws, week, hi) == 0
  {
    if hi > 0 {
      SumDaysEmpty(ws, week, hi - 1);
    }
  }

  lemma {:induction false} SumAccountsEmpty(ws: string, day: nat, accounts: seq<string>)
    ensures SumAccounts(map[], ws, day, accounts) == 0
  {
    if accounts != [] {
      SumAccountsEmpty(ws, day, accounts[1..]);
    }
  }

  lemma EmptyIsBalanced()
    ensures Balanced(map[], 0)
  {
    forall ws, week, hi
      ensures SumDays(map[], ws, week, hi) == 0
    {
      SumDaysEmpty(ws, week, hi);
    }
    forall ws, day, accounts
      ensures SumAccounts(map[], ws, day, accounts) == 0
    {
      SumAccountsEmpty(ws, day, accounts);
    }
  }

  /** After any trace from an empty store: weekly counters add up, and account counters fit in their day. */
  lemma CountersAddUp(calls: seq<Call>, caps: Caps, ws: string, week: Week, hi: nat, day: nat, accounts: seq<string>)
    requires Ordered(calls) && calls != [] && hi > Day(calls[|calls| - 1].now) && Distinct(accounts)
    ensures var store := Final(map[], calls, caps, false);
            && Count(store, WorkspaceWeekly(ws, week)) == SumDays(store, ws, week, hi)
            && SumAccounts(store, ws, day, accounts) <= Count(store, WorkspaceDaily(ws, day))
  {
    ExpiryIsInvisible(map[], calls, caps);
    EmptyIsBalanced();
    RunKeepsBalance(map[], calls, caps, 0);
  }

  // ----- Interleaved calls -----

  /** A worker inside a call has passed the checks of the first `passed` of its keys. */
  datatype Phase = Idle | Checking(keys: seq<Key>, passed: nat)

  datatype System = System(now: nat, store: Store, workers: map<nat, Phase>)

  /** Each read, and the final pipeline, is a step of its own; a worker may also die between them. */
  datatype Step =
    | Tick(seconds: nat)
    | Begin(worker: nat, workspace: string, account: Option<string>)
    | CheckNext(worker: nat)
    | Commit(worker: nat)
    | Crash(worker: nat)

  function PhaseOf(s: System, w: nat): Phase {
    if w in s.workers then s.workers[w] else Idle
  }

  predicate Enabled(s: System, step: Step) {
    match step
    case Tick(_) => true
    case Begin(w, _, _) => PhaseOf(s, w).Idle?
    case CheckNext(w) => PhaseOf(s, w).Checking? && PhaseOf(s, w).passed < |PhaseOf(s, w).keys|
    case Commit(w) => PhaseOf(s, w).Checking? && PhaseOf(s, w).passed == |PhaseOf(s, w).keys|
    case Crash(w) => PhaseOf(s, w).Checking?
  }

  /** The next check of worker `w` finds its counter at the limit. */
  predicate Full(s: System, w: nat, caps: Caps)
    requires Enabled(s, CheckNext(w))
  {
    var key := PhaseOf(s, w).keys[PhaseOf(s, w).passed];
    Read(s.store, key, s.now, false) >= Limit(caps, key)
  }

  function Next(s: System, step: Step, caps: Caps): System
    requires Enabled(s, step)
  {
    match step
    case Tick(seconds) => s.(now := s.now + seconds)
    case Begin(w, workspace, account) =>
      s.(workers := s.workers[w := Checking(Keys(workspace, account, Day(s.now)), 0)])
    case CheckNext(w) =>
      var p := PhaseOf(s, w);
      s.(workers := s.workers[w := if Full(s, w, caps) then Idle else Checking(p.keys, p.passed + 1)])
    case Commit(w) =>
      s.(store := Bump(s.store, PhaseOf(s, w).keys, s.now, false), workers := s.workers[w := Idle])
    case Crash(w) => s.(workers := s.workers[w := Idle])
  }

  /** Workers that have passed the check of `key` and not yet counted their send. */
  function Passed(s: System, key: Key): set<nat> {
    set w | w in s.workers && s.workers[w].Checking? && s.workers[w].passed <= |s.workers[w].keys|
            && key in s.workers[w].keys[..s.workers[w].passed]
  }

  /** Workers between their first passed check and their pipeline. */
  function Between(s: System): set<nat> {
    set w | w in s.workers && s.workers[w].Checking? && s.workers[w].passed > 0
  }

  /** Every step is enabled, and never more than `k` workers are between check and increment. */
  predicate Schedule(s: System, steps: seq<Step>, caps: Caps, k: nat)
    decreases |steps|
  {
    && |Between(s)| <= k
    && (steps == [] || (Enabled(s, steps[0]) && Schedule(Next(s, steps[0], caps), steps[1..], caps, k)))
  }

  function Run(s: System, steps: seq<Step>, caps: Caps, k: nat): System
    requires Schedule(s, steps, caps, k)
    decreases |steps|
  {
    if steps == [] then s else Run(Next(s, steps[0], caps), steps[1..], caps, k)
  }

  /** What a worker reading `key` now would find. */
  function Counted(s: System, key: Key): nat { Read(s.store, key, s.now, false) }

  /** Counted sends and sends already let through stay under the limit plus the possible overrun. */
  ghost predicate Bounded(s: System, caps: Caps, k: nat) {
    && (forall w :: w in s.workers && s.workers[w].Checking? ==>
          s.workers[w].passed <= |s.workers[w].keys| && Distinct(s.workers[w].keys))
    && (forall key :: Counted(s, key) + |Passed(s, key)| > 0 ==>
          Counted(s, key) + |Passed(s, key)| <= Limit(caps, key) - 1 + k)
  }

  lemma {:induction false} Subset(a: set<nat>, b: set<nat>)
    requires a <= b
    ensures |a| <= |b|
  {
    if a != {} {
      var x :| x in a;
      Subset(a - {x}, b - {x});
    }
  }

  lemma PassedIsBetween(s: System, key: Key)
    ensures |Passed(s, key)| <= |Between(s)|
  {
    Subset(Passed(s, key), Between(s));
  }

  /** What one step does to the workers past the check of `key`. */
  lemma PassedStep(s: System, step: Step, caps: Caps, key: Key)
    requires Enabled(s, step)
    ensures var before, after := Passed(s, key), Passed(Next(s, step, caps), key);
            match step
            case Tick(_) => after == before
            case Begin(_, _, _) => after == before
            case CheckNext(w) =>
              var p := PhaseOf(s, w);
              after == if Full(s, w, caps) then before - {w}
                       else if p.keys[p.passed] == key then before + {w} else before
            case Commit(w) => after == before - {w} && (key in PhaseOf(s, w).keys <==> w in before)
            case Crash(w) => after == before - {w}
  {
    var n := Next(s, step, caps);
    if step.CheckNext? {
      var p := PhaseOf(s, step.worker);
      assert p.keys[..p.passed + 1] == p.keys[..p.passed] + [p.keys[p.passed]];
    }
    if step.Commit? {
      var p := PhaseOf(s, step.worker);
      assert p.keys[..p.passed] == p.keys;
    }
    if step.Begin? {
      assert PhaseOf(n, step.worker).keys[..0] == [];
    }
  }

  lemma StepKeepsBoundOf(s: System, step: Step, caps: Caps, k: nat, key: Key)
    requires Bounded(s, caps, k) && Enabled(s, step) && |Between(Next(s, step, caps))| <= k
    ensures var n := Next(s, step, caps);
            Counted(n, key) + |Passed(n, key)| > 0 ==> Counted(n, key) + |Passed(n, key)| <= Limit(caps, key) - 1 + k
  {
    var n := Next(s, step, caps);
    PassedStep(s, step, caps, key);
    PassedIsBetween(n, key);
    hide Passed, Between, Keys, Bump;
    if step.Commit? {
      BumpAt(s.store, PhaseOf(s, step.worker).keys, s.now, false, key);
    }
  }

  lemma StepKeepsBound(s: System, step: Step, caps: Caps, k: nat)
    requires Bounded(s, caps, k) && Enabled(s, step) && |Between(Next(s, step, caps))| <= k
    ensures Bounded(Next(s, step, caps), caps, k)
  {
    var n := Next(s, step, caps);
    hide Passed, Between, Bump, Check, Counted;
    if step.Begin? {
      KeysAreDistinct(Call(step.workspace, step.account, s.now));
    }
    forall key
      ensures Counted(n, key) + |Passed(n, key)| > 0 ==>
                Counted(n, key) + |Passed(n, key)| <= Limit(caps, key) - 1 + k
    {
      StepKeepsBoundOf(s, step, caps, k, key);
    }
  }

  const INITIAL: System := System(0, map[], map[])

  lemma {:induction false} RunKeepsBound(s: System, steps: seq<Step>, caps: Caps, k: nat)
    requires Schedule(s, steps, caps, k) && Bounded(s, caps, k)
    ensures Bounded(Run(s, steps, caps, k), caps, k)
    decreases |steps|
  {
    if steps != [] {
      StepKeepsBound(s, steps[0], caps, k);
      hide Bounded;
      RunKeepsBound(Next(s, steps[0], caps), steps[1..], caps, k);
    }
  }

  lemma InitiallyBounded(caps: Caps, k: nat)
    ensures Bounded(INITIAL, caps, k)
  {
    assert forall key :: Passed(INITIAL, key) == {};
  }

  /** On every schedule a counter overruns its limit by at most one less than the workers inside a call. */
  lemma OverrunIsBounded(steps: seq<Step>, caps: Caps, k: nat, key: Key)
    requires Schedule(INITIAL, steps, caps, k)
    ensures var count := Counted(Run(INITIAL, steps, caps, k), key);
            count > 0 ==> count <= Limit(caps, key) - 1 + k
  {
    InitiallyBounded(caps, k);
    RunKeepsBound(INITIAL, steps, caps, k);
  }

  // ----- Only commits count -----

  /** The times at which a pipeline counted `key` along the steps. */
  function CommitTimes(s: System, steps: seq<Step>, caps: Caps, k: nat, key: Key): seq<nat>
    requires Schedule(s, steps, caps, k)
    decreases |steps|
  {
    if steps == [] then []
    else
      (if steps[0].Commit? && key in PhaseOf(s, steps[0].worker).keys then [s.now] else [])
      + CommitTimes(Next(s, steps[0], caps), steps[1..], caps, k, key)
  }

  /** How many of the last times follow each other, and precede `now`, by less than `ttl`. */
  function Chain(times: seq<nat>, ttl: nat, now: nat): nat {
    if times == [] then 0
    else
      var last := times[|times| - 1];
      if last + ttl <= now then 0 else 1 + Chain(times[..|times| - 1], ttl, last)
  }

  /** The stored counter of `key` is what the commits at `times` left. */
  ghost predicate Tells(store: Store, key: Key, times: seq<nat>) {
    if times == [] then key !in store
    else
      var last := times[|times| - 1];
      Get(store, key) == Some(Counter(1 + Chain(times[..|times| - 1], Ttl(key), last), last + Ttl(key)))
  }

  lemma ReadTells(store: Store, key: Key, times: seq<nat>, now: nat)
    requires Tells(store, key, times)
    ensures Read(store, key, now, false) == Chain(times, Ttl(key), now)
  {
  }

  lemma BumpTells(store: Store, keys: seq<Key>, now: nat, key: Key, times: seq<nat>)
    requires Tells(store, key, times) && Distinct(keys)
    ensures Tells(Bump(store, keys, now, false), key, if key in keys then times + [now] else times)
  {
    BumpAt(store, keys, now, false, key);
    ReadTells(store, key, times, now);
    assert (times + [now])[..|times|] == times;
    hide Bump, Chain, Read, Distinct;
  }

  lemma StepTells(s: System, step: Step, caps: Caps, key: Key, times: seq<nat>)
    requires Tells(s.store, key, times) && Enabled(s, step)
    requires step.Commit? ==> Distinct(PhaseOf(s, step.worker).keys)
    ensures Tells(Next(s, step, caps).store, key,
                  times + if step.Commit? && key in PhaseOf(s, step.worker).keys then [s.now] else [])
  {
    hide Bump, Tells, Distinct;
    assert times + [] == times;
    if step.Commit? {
      BumpTells(s.store, PhaseOf(s, step.worker).keys, s.now, key, times);
    }
  }

  lemma {:induction false} RunTells(s: System, steps: seq<Step>, caps: Caps, k: nat, key: Key, times: seq<nat>)
    requires Schedule(s, steps, caps, k) && Bounded(s, caps, k) && Tells(s.store, key, times)
    ensures Tells(Run(s, steps, caps, k).store, key, times + CommitTimes(s, steps, caps, k, key))
    decreases |steps|
  {
    hide Tells;
    if steps == [] {
      assert times + [] == times;
    } else {
      var counted :=
        if steps[0].Commit? && key in PhaseOf(s, steps[0].worker).keys then [s.now] else [];
      var rest := CommitTimes(Next(s, steps[0], caps), steps[1..], caps, k, key);
      StepTells(s, steps[0], caps, key, times);
      StepKeepsBound(s, steps[0], caps, k);
      RunTells(Next(s, steps[0], caps), steps[1..], caps, k, key, times + counted);
      assert times + (counted + rest) == times + counted + rest;
    }
  }

  /**
   * On every schedule a counter reads as the number of commits of its key since it last expired, so
   * refused and crashed calls and calls that are still checking contribute nothing.
   */
  lemma CountsAreCommits(steps: seq<Step>, caps: Caps, k: nat, key: Key)
    requires Schedule(INITIAL, steps, caps, k)
    ensures var end := Run(INITIAL, steps, caps, k);
            Counted(end, key) == Chain(CommitTimes(INITIAL, steps, caps, k, key), Ttl(key), end.now)
  {
    var times := CommitTimes(INITIAL, steps, caps, k, key);
    InitiallyBounded(caps, k);
    RunTells(INITIAL, steps, caps, k, key, []);
    assert [] + times == times;
    ReadTells(Run(INITIAL, steps, caps, k).store, key, times, Run(INITIAL, steps, caps, k).now);
  }

  // ----- The bound is attained -----

  lemma EmptySchedule(s: System, caps: Caps, k: nat)
    requires |Between(s)| <= k
    ensures Schedule(s, [], caps, k) && Run(s, [], caps, k) == s
  {
  }

  lemma OneStep(s: System, step: Step, caps: Caps, k: nat)
    requires Enabled(s, step) && |Between(s)| <= k && |Between(Next(s, step, caps))| <= k
    ensures Schedule(s, [step], caps, k) && Run(s, [step], caps, k) == Next(s, step, caps)
  {
    var n := Next(s, step, caps);
    EmptySchedule(n, caps, k);
    assert [step][1..] == [];
  }

  /** A schedule followed by a schedule from where it ends is a schedule. */
  lemma {:induction false} Join(s: System, xs: seq<Step>, ys: seq<Step>, caps: Caps, k: nat)
    requires Schedule(s, xs, caps, k) && Schedule(Run(s, xs, caps, k), ys, caps, k)
    ensures Schedule(s, xs + ys, caps, k)
    ensures Run(s, xs + ys, caps, k) == Run(Run(s, xs, caps, k), ys, caps, k)
    decreases |xs|
  {
    if xs == [] {
      assert [] + ys == ys;
    } else {
      assert (xs + ys)[1..] == xs[1..] + ys;
      Join(Next(s, xs[0], caps), xs[1..], ys, caps, k);
    }
  }

  /** At second 0 the first `inside` workers have passed all checks of `keys`, whose counters stand at `count`. */
  ghost predicate Stage(s: System, keys: seq<Key>, inside: nat, count: nat) {
    && s.now == 0
    && (forall w: nat :: w < inside ==> PhaseOf(s, w) == Checking(keys, |keys|))
    && (forall w: nat :: w >= inside ==> PhaseOf(s, w).Idle?)
    && (forall key :: key in keys ==> Counted(s, key) == count)
  }

  function Below(n: nat): (r: set<nat>)
    ensures |r| == n && forall w: nat :: w in r <==> w < n
  {
    if n == 0 then {} else Below(n - 1) + {n - 1}
  }

  lemma StageIsBetween(s: System, inside: nat)
    requires forall w: nat :: w >= inside ==> PhaseOf(s, w).Idle?
    ensures |Between(s)| <= inside
  {
    assert forall w: nat :: w in Between(s) ==> !PhaseOf(s, w).Idle?;
    Subset(Between(s), Below(inside));
  }

  lemma OthersKeepPhase(s: System, step: Step, caps: Caps)
    requires Enabled(s, step) && !step.Tick?
    ensures forall v: nat :: v != step.worker ==> PhaseOf(Next(s, step, caps), v) == PhaseOf(s, v)
  {
    hide Bump, Keys;
  }

  /** The next worker goes through the rest of its checks, none of which finds a full counter. */
  lemma {:induction false} PassChecks(s: System, keys: seq<Key>, passed: nat, inside: nat, caps: Caps, k: nat)
    returns (steps: seq<Step>)
    requires passed <= |keys| && inside < k
    requires PhaseOf(s, inside) == Checking(keys, passed)
    requires forall w: nat :: w > inside ==> PhaseOf(s, w).Idle?
    requires forall key :: key in keys ==> Counted(s, key) < Limit(caps, key)
    ensures Schedule(s, steps, caps, k)
    ensures Run(s, steps, caps, k) == s.(workers := s.workers[inside := Checking(keys, |keys|)])
    decreases |keys| - passed
  {
    hide Schedule, Run, Between;
    StageIsBetween(s, inside + 1);
    if passed == |keys| {
      steps := [];
      EmptySchedule(s, caps, k);
      assert s.workers[inside := Checking(keys, |keys|)] == s.workers;
    } else {
      var n := Next(s, CheckNext(inside), caps);
      assert keys[passed] in keys;
      assert n == s.(workers := s.workers[inside := Checking(keys, passed + 1)]);
      OthersKeepPhase(s, CheckNext(inside), caps);
      StageIsBetween(n, inside + 1);
      OneStep(s, CheckNext(inside), caps, k);
      var rest := PassChecks(n, keys, passed + 1, inside, caps, k);
      assert n.workers[inside := Checking(keys, |keys|)] == s.workers[inside := Checking(keys, |keys|)];
      Join(s, [CheckNext(inside)], rest, caps, k);
      steps := [CheckNext(inside)] + rest;
    }
  }

  /** One more worker passes all its checks while the counters are below their limits. */
  lemma Enter(
    s: System, ws: string, account: Option<string>, inside: nat, count: nat, caps: Caps, k: nat)
    returns (steps: seq<Step>)
    requires Stage(s, Keys(ws, account, 0), inside, count) && inside < k
    requires forall key :: key in Keys(ws, account, 0) ==> count < Limit(caps, key)
    ensures Schedule(s, steps, caps, k)
    ensures Stage(Run(s, steps, caps, k), Keys(ws, account, 0), inside + 1, count)
  {
    hide Schedule, Run, Between, Keys;
    var keys := Keys(ws, account, 0);
    var n := Next(s, Begin(inside, ws, account), caps);
    OthersKeepPhase(s, Begin(inside, ws, account), caps);
    StageIsBetween(s, inside);
    StageIsBetween(n, inside + 1);
    OneStep(s, Begin(inside, ws, account), caps, k);
    var rest := PassChecks(n, keys, 0, inside, caps, k);
    var end := Run(n, rest, caps, k);
    assert PhaseOf(end, inside) == Checking(keys, |keys|);
    assert forall w: nat :: w != inside ==> PhaseOf(end, w) == PhaseOf(n, w);
    Join(s, [Begin(inside, ws, account)], rest, caps, k);
    steps := [Begin(inside, ws, account)] + rest;
  }

  /** The last worker inside counts its send. */
  lemma Leave(s: System, keys: seq<Key>, inside: nat, count: nat, caps: Caps, k: nat) returns (steps: seq<Step>)
    requires Stage(s, keys, inside, count) && 0 < inside <= k && Distinct(keys)
    ensures Schedule(s, steps, caps, k) && Stage(Run(s, steps, caps, k), keys, inside - 1, count + 1)
  {
    hide Schedule, Run, Between, Bump;
    var n := Next(s, Commit(inside - 1), caps);
    BumpedReads(s.store, keys, s.now);
    OthersKeepPhase(s, Commit(inside - 1), caps);
    StageIsBetween(s, inside);
    StageIsBetween(n, inside - 1);
    OneStep(s, Commit(inside - 1), caps, k);
    steps := [Commit(inside - 1)];
  }

  lemma StageAtStart(keys: seq<Key>)
    ensures Stage(INITIAL, keys, 0, 0) && Between(INITIAL) == {}
  {
  }

  /** Calls made one after the other fill the counters up to `count`. */
  lemma {:induction false} Fill(ws: string, account: Option<string>, count: nat, caps: Caps, k: nat)
    returns (steps: seq<Step>)
    requires k >= 1 && forall key :: key in Keys(ws, account, 0) ==> count <= Limit(caps, key)
    ensures Schedule(INITIAL, steps, caps, k)
    ensures Stage(Run(INITIAL, steps, caps, k), Keys(ws, account, 0), 0, count)
  {
    hide Schedule, Run, Stage, Keys;
    if count == 0 {
      steps := [];
      StageAtStart(Keys(ws, account, 0));
      EmptySchedule(INITIAL, caps, k);
    } else {
      var before := Fill(ws, account, count - 1, caps, k);
      var s := Run(INITIAL, before, caps, k);
      var enter := Enter(s, ws, account, 0, count - 1, caps, k);
      KeysAreDistinct(Call(ws, account, 0));
      var leave := Leave(Run(s, enter, caps, k), Keys(ws, account, 0), 1, count - 1, caps, k);
      Join(s, enter, leave, caps, k);
      Join(INITIAL, before, enter + leave, caps, k);
      steps := before + (enter + leave);
    }
  }

  lemma {:induction false} EnterAll(
    s: System, ws: string, account: Option<string>, inside: nat, count: nat, caps: Caps, k: nat)
    returns (steps: seq<Step>)
    requires Stage(s, Keys(ws, account, 0), inside, count) && inside <= k
    requires forall key :: key in Keys(ws, account, 0) ==> count < Limit(caps, key)
    ensures Schedule(s, steps, caps, k)
    ensures Stage(Run(s, steps, caps, k), Keys(ws, account, 0), k, count)
    decreases k - inside
  {
    hide Schedule, Run, Keys, Between;
    if inside == k {
      steps := [];
      StageIsBetween(s, inside);
      EmptySchedule(s, caps, k);
    } else {
      var first := Enter(s, ws, account, inside, count, caps, k);
      var rest := EnterAll(Run(s, first, caps, k), ws, account, inside + 1, count, caps, k);
      Join(s, first, rest, caps, k);
      steps := first + rest;
    }
  }

  lemma {:induction false} LeaveAll(s: System, keys: seq<Key>, inside: nat, count: nat, caps: Caps, k: nat)
    returns (steps: seq<Step>)
    requires Stage(s, keys, inside, count) && inside <= k && Distinct(keys)
    ensures Schedule(s, steps, caps, k) && Stage(Run(s, steps, caps, k), keys, 0, count + inside)
    decreases inside
  {
    hide Schedule, Run, Between;
    if inside == 0 {
      steps := [];
      StageIsBetween(s, inside);
      EmptySchedule(s, caps, k);
    } else {
      var first := Leave(s, keys, inside, count, caps, k);
      var rest := LeaveAll(Run(s, first, caps, k), keys, inside - 1, count + 1, caps, k);
      Join(s, first, rest, caps, k);
      steps := first + rest;
    }
  }

  /** The smallest limit among the counters of a call. */
  function LeastLimit(caps: Caps, keys: seq<Key>): (r: int)
    requires keys != []
    ensures forall key :: key in keys ==> r <= Limit(caps, key)
    ensures exists key :: key in keys && r == Limit(caps, key)
  {
    var first := Limit(caps, keys[0]);
    if |keys| == 1 then first
    else
      var rest := LeastLimit(caps, keys[1..]);
      assert keys == [keys[0]] + keys[1..];
      assert keys[0] in keys;
      if first <= rest then first else rest
  }

  /**
   * The bound of OverrunIsBounded is attained, for every call, all positive caps and every number of
   * workers: a schedule ends with all counters of the call at k - 1 over the smallest of their limits.
   */
  lemma {:induction false} OverrunIsAttained(ws: string, account: Option<string>, caps: Caps, k: nat)
    returns (steps: seq<Step>)
    requires k >= 1 && LeastLimit(caps, Keys(ws, account, 0)) >= 1
    ensures Schedule(INITIAL, steps, caps, k)
    ensures forall key :: key in Keys(ws, account, 0) ==>
              Counted(Run(INITIAL, steps, caps, k), key) == LeastLimit(caps, Keys(ws, account, 0)) - 1 + k
  {
    hide Schedule, Run, Keys, LeastLimit;
    var keys := Keys(ws, account, 0);
    var count := LeastLimit(caps, keys) - 1;
    KeysAreDistinct(Call(ws, account, 0));
    var fill := Fill(ws, account, count, caps, k);
    var s := Run(INITIAL, fill, caps, k);
    var enter := EnterAll(s, ws, account, 0, count, caps, k);
    var leave := LeaveAll(Run(s, enter, caps, k), keys, k, count, caps, k);
    Join(s, enter, leave, caps, k);
    Join(INITIAL, fill, enter + leave, caps, k);
    steps := fill + (enter + leave);
  }

  /** The caps in force: 25 a day and 100 a week for a workspace, 3 a day for an account. */
  lemma CapsInForce(ws: string, account: string, day: nat)
    requires account != ""
    ensures SEND_CAPS.dailyWorkspace == 25 && SEND_CAPS.weeklyWorkspace == 100 && SEND_CAPS.dailyAccount == 3
    ensures LeastLimit(SEND_CAPS, Keys(ws, None, day)) == 25
    ensures LeastLimit(SEND_CAPS, Keys(ws, Some(account), day)) == 3
  {
    var daily, weekly := WorkspaceDaily(ws, day), WorkspaceWeekly(ws, WeekOf(day));
    assert Keys(ws, None, day) == [daily, weekly];
    assert Keys(ws, Some(account), day) == [daily, weekly, AccountDaily(ws, account, day)];
    assert daily in [daily, weekly] && AccountDaily(ws, account, day) in Keys(ws, Some(account), day);
    hide WeekOf, LeastLimit;
  }

  // ----- When the caps hold -----

  predicate WithinCap(s: System, caps: Caps, key: Key) {
    Counted(s, key) > 0 ==> Counted(s, key) <= Limit(caps, key)
  }

  /** No schedule with at most `k` workers between check and increment takes a counter past its limit. */
  ghost predicate CapsHold(caps: Caps, k: nat) {
    forall steps, key :: Schedule(INITIAL, steps, caps, k) ==> WithinCap(Run(INITIAL, steps, caps, k), caps, key)
  }

  predicate Blocked(p: Phase, caps: Caps)
    requires p.Checking?
  {
    exists i :: p.passed <= i < |p.keys| && Limit(caps, p.keys[i]) <= 0
  }

  /** With a workspace cap of zero or less nothing is ever counted. */
  ghost predicate NothingCounted(s: System, caps: Caps) {
    && s.store == map[]
    && forall w: nat :: PhaseOf(s, w).Checking? ==> Blocked(PhaseOf(s, w), caps)
  }

  lemma FreshCallIsBlocked(ws: string, account: Option<string>, day: nat, caps: Caps)
    requires caps.dailyWorkspace <= 0 || caps.weeklyWorkspace <= 0
    ensures Blocked(Checking(Keys(ws, account, day), 0), caps)
  {
    var keys := Keys(ws, account, day);
    assert Limit(caps, keys[0]) == caps.dailyWorkspace && Limit(caps, keys[1]) == caps.weeklyWorkspace;
    hide WeekOf, Keys;
  }

  /** A blocked call never gets past its last check: it either stops at this one or is still blocked. */
  lemma NextCheckIsBlocked(s: System, w: nat, caps: Caps)
    requires Enabled(s, CheckNext(w)) && s.store == map[] && Blocked(PhaseOf(s, w), caps)
    ensures Full(s, w, caps) || Blocked(Checking(PhaseOf(s, w).keys, PhaseOf(s, w).passed + 1), caps)
  {
    var p := PhaseOf(s, w);
    var i :| p.passed <= i < |p.keys| && Limit(caps, p.keys[i]) <= 0;
  }

  lemma StepCountsNothing(s: System, step: Step, caps: Caps)
    requires NothingCounted(s, caps) && Enabled(s, step) && (caps.dailyWorkspace <= 0 || caps.weeklyWorkspace <= 0)
    ensures NothingCounted(Next(s, step, caps), caps)
  {
    hide WeekOf, Bump, Keys, Limit;
    if !step.Tick? {
      assert PhaseOf(s, step.worker).Checking? ==> Blocked(PhaseOf(s, step.worker), caps);
      OthersKeepPhase(s, step, caps);
    }
    match step
    case Tick(_) =>
      assert forall w: nat :: PhaseOf(Next(s, step, caps), w) == PhaseOf(s, w);
    case Begin(w, ws, account) => FreshCallIsBlocked(ws, account, Day(s.now), caps);
    case CheckNext(w) => NextCheckIsBlocked(s, w, caps);
    case Commit(_) =>
    case Crash(_) =>
  }

  lemma {:induction false} RunCountsNothing(s: System, steps: seq<Step>, caps: Caps, k: nat)
    requires Schedule(s, steps, caps, k) && NothingCounted(s, caps)
    requires caps.dailyWorkspace <= 0 || caps.weeklyWorkspace <= 0
    ensures Run(s, steps, caps, k).store == map[]
    decreases |steps|
  {
    if steps != [] {
      StepCountsNothing(s, steps[0], caps);
      hide NothingCounted;
      RunCountsNothing(Next(s, steps[0], caps), steps[1..], caps, k);
    }
  }

  /**
   * The exact condition: all caps hold on all schedules if at most one worker is ever between check
   * and increment, or a workspace cap admits no call at all, and under no other circumstances.
   */
  lemma {:induction false} CapsHoldIff(caps: Caps, k: nat)
    ensures CapsHold(caps, k) <==> k <= 1 || caps.dailyWorkspace <= 0 || caps.weeklyWorkspace <= 0
  {
    hide Schedule, Run;
    if caps.dailyWorkspace <= 0 || caps.weeklyWorkspace <= 0 {
      forall steps, key | Schedule(INITIAL, steps, caps, k)
        ensures WithinCap(Run(INITIAL, steps, caps, k), caps, key)
      {
        RunCountsNothing(INITIAL, steps, caps, k);
      }
    } else if k <= 1 {
      forall steps, key | Schedule(INITIAL, steps, caps, k)
        ensures WithinCap(Run(INITIAL, steps, caps, k), caps, key)
      {
        OverrunIsBounded(steps, caps, k, key);
      }
    } else {
      var keys := Keys("", None, 0);
      var steps := OverrunIsAttained("", None, caps, k);
      var key :| key in keys && LeastLimit(caps, keys) == Limit(caps, key);
      assert !WithinCap(Run(INITIAL, steps, caps, k), caps, key);
    }
  }
}
