/**
 Account deduplication of src/normalization/domain_resolver.py.

 Records are Python dictionaries. URL parsing and suffix stripping enter as the
 two functions of `TextRules`; nothing is assumed about them.
 */
module AccountDedup {
  import opened Options

  datatype Value = Null | Text(text: string) | Number(n: real) | Dict(entries: map<string, Value>)

  type Record = map<string, Value>

  /** `canon` is normalize_domain on non-empty text, `clean` is _clean_company_name. */
  datatype TextRules = TextRules(canon: string -> string, clean: string -> string)

  function NormalizeDomain(rules: TextRules, raw: string): string {
    if raw == "" then "" else rules.canon(raw)
  }

  /** `record.get(key, "") or ""`. */
  function TextOf(r: Record, key: string): string {
    if key in r && r[key].Text? then r[key].text else ""
  }

  function Domain(rules: TextRules, r: Record): string { NormalizeDomain(rules, TextOf(r, "domain")) }

  function Name(r: Record): string { TextOf(r, "company_name") }

  // ----- Name similarity -----

  function Bigram(s: string, i: nat): string
    requires i + 2 <= |s|
  {
    s[i..i + 2]
  }

  function Bigrams(s: string): set<string> { set i: nat | i < |s| - 1 :: Bigram(s, i) }

  /** Dice coefficient of at least 0.85 on the bigrams of the cleaned names. */
  predicate Similar(rules: TextRules, a: string, b: string) {
    var x, y := rules.clean(a), rules.clean(b);
    || x == y
    || (&& x != "" && y != ""
        && Bigrams(x) != {} && Bigrams(y) != {}
        && 200 * |Bigrams(x) * Bigrams(y)| >= 85 * (|Bigrams(x)| + |Bigrams(y)|))
  }

  lemma SimilarIsSymmetric(rules: TextRules, a: string, b: string)
    ensures Similar(rules, a, b) == Similar(rules, b, a)
  {
    var x, y := Bigrams(rules.clean(a)), Bigrams(rules.clean(b));
    assert x * y == y * x;
  }

  function StretchAt(s: string, i: int): string
    requires 0 <= i <= |s| - 2
  {
    [s[i], s[i + 1]]
  }

  /** The bigrams of a text are its stretches of two characters. */
  lemma BigramsAre(s: string, t: string)
    ensures t in Bigrams(s) <==> |t| == 2 && exists i :: 0 <= i <= |s| - 2 && StretchAt(s, i) == t
  {
    if t in Bigrams(s) {
      var i: nat :| i < |s| - 1 && t == Bigram(s, i);
      assert StretchAt(s, i) == t;
    }
    if |t| == 2 && exists i :: 0 <= i <= |s| - 2 && StretchAt(s, i) == t {
      var i :| 0 <= i <= |s| - 2 && StretchAt(s, i) == t;
      assert Bigram(s, i) == t;
    }
  }

  lemma UnionSize(a: set<string>, b: set<string>)
    ensures |a + b| + |a * b| == |a| + |b|
  {
    assert a + b == a + (b - a) && b == (b - a) + (a * b);
  }

  /**
   * Two names are taken for one company's exactly when they are equal once cleaned, or at least 17 of 23 of
   * all their bigrams are common to both.
   */
  lemma SimilarIff(rules: TextRules, a: string, b: string)
    ensures var x, y := rules.clean(a), rules.clean(b);
      Similar(rules, a, b) <==>
        || x == y
        || (Bigrams(x) + Bigrams(y) != {} && 23 * |Bigrams(x) * Bigrams(y)| >= 17 * |Bigrams(x) + Bigrams(y)|)
  {
    var x, y := rules.clean(a), rules.clean(b);
    UnionSize(Bigrams(x), Bigrams(y));
    assert x == "" ==> Bigrams(x) == {};
    assert y == "" ==> Bigrams(y) == {};
    if Bigrams(x) == {} || Bigrams(y) == {} {
      assert Bigrams(x) * Bigrams(y) == {};
    }
  }

  // ----- Merging -----

  predicate Absent(r: Record, k: string) { k !in r || r[k] == Null }

  function MergedFields(target: Record, source: Record): Record {
    map k | k in target.Keys + source.Keys && (k in target || source[k] != Null) ::
      if Absent(target, k) && !Absent(source, k) then source[k] else target[k]
  }

  /** The target with its gaps filled from the source, metadata dictionaries merged key by key. */
  function Merged(target: Record, source: Record): Record {
    var t := MergedFields(target, source);
    if "metadata" in source && source["metadata"].Dict? then
      var kept := if "metadata" in t && t["metadata"].Dict? then t["metadata"].entries else map[];
      t["metadata" := Dict(source["metadata"].entries + kept)]
    else t
  }

  function Only<V>(m: map<string, V>, keys: set<string>): map<string, V> {
    map k | k in m && k in keys :: m[k]
  }

  lemma FieldAt(target: Record, source: Record, keys: set<string>, k: string)
    ensures Get(MergedFields(target, Only(source, keys)), k) ==
            if Absent(target, k) && k in keys && !Absent(source, k) then Get(source, k) else Get(target, k)
  {
  }

  lemma SameRecord(a: Record, b: Record)
    requires forall k :: Get(a, k) == Get(b, k)
    ensures a == b
  {
    forall k
      ensures k in a <==> k in b
      ensures k in a ==> a[k] == b[k]
    {
      assert Get(a, k) == Get(b, k);
    }
  }

  lemma MergedFieldsStep(target: Record, source: Record, done: set<string>, key: string)
    requires key in source && key !in done
    ensures var before := MergedFields(target, Only(source, done));
            MergedFields(target, Only(source, done + {key})) ==
            if source[key] != Null && Absent(before, key) then before[key := source[key]] else before
  {
    hide MergedFields, Only;
    var before := MergedFields(target, Only(source, done));
    var after := if source[key] != Null && Absent(before, key) then before[key := source[key]] else before;
    FieldAt(target, source, done, key);
    forall k
      ensures Get(MergedFields(target, Only(source, done + {key})), k) == Get(after, k)
    {
      FieldAt(target, source, done, k);
      FieldAt(target, source, done + {key}, k);
    }
    SameRecord(MergedFields(target, Only(source, done + {key})), after);
  }

  method MergeFields(target: Record, source: Record) returns (merged: Record)
    ensures merged == MergedFields(target, source)
  {
    merged := target;
    var todo := source.Keys;
    assert MergedFields(target, Only(source, {})) == target;
    assert source.Keys - todo == {};
    while todo != {}
      invariant todo <= source.Keys
      invariant merged == MergedFields(target, Only(source, source.Keys - todo))
    {
      var key :| key in todo;
      MergedFieldsStep(target, source, source.Keys - todo, key);
      if source[key] != Null && (key !in merged || merged[key] == Null) {
        merged := merged[key := source[key]];
      }
      assert source.Keys - (todo - {key}) == source.Keys - todo + {key};
      todo := todo - {key};
    }
    assert Only(source, source.Keys - todo) == source;
  }

  method MergeEntries(target: map<string, Value>, source: map<string, Value>) returns (merged: map<string, Value>)
    ensures merged == source + target
  {
    merged := target;
    var todo := source.Keys;
    assert Only(source, source.Keys - todo) + target == target;
    while todo != {}
      invariant todo <= source.Keys
      invariant merged == Only(source, source.Keys - todo) + target
    {
      var key :| key in todo;
      if key !in merged {
        merged := merged[key := source[key]];
      }
      todo := todo - {key};
    }
    assert Only(source, source.Keys - todo) == source;
  }

  method MergeMetadata(target: Record, source: Record) returns (merged: Record)
    ensures merged == Merged(target, source)
  {
    merged := MergeFields(target, source);
    if "metadata" in source && source["metadata"].Dict? {
      if "metadata" !in merged || !merged["metadata"].Dict? {
        merged := merged["metadata" := Dict(map[])];
      }
      var entries := MergeEntries(merged["metadata"].entries, source["metadata"].entries);
      merged := merged["metadata" := Dict(entries)];
    }
  }

  /** A value that is there stays; a gap takes the source's value. */
  lemma MergedAt(target: Record, source: Record, k: string)
    requires k != "metadata"
    ensures Get(Merged(target, source), k) ==
            if Absent(target, k) && !Absent(source, k) then Get(source, k) else Get(target, k)
  {
  }

  // ----- The pass -----

  /**
   The pass after some inputs. `firsts` and `homes` are history: where each
   survivor came from, and which survivor each input went to.
   */
  datatype Pass = Pass(seen: map<string, nat>, result: seq<Record>, firsts: seq<nat>, homes: seq<nat>)

  predicate SeenInRange(p: Pass) { forall d :: d in p.seen ==> p.seen[d] < |p.result| }

  predicate NamesMatch(rules: TextRules, name: string, existing: Record) {
    name != "" && Name(existing) != "" && Similar(rules, name, Name(existing))
  }

  function FindSimilar(rules: TextRules, result: seq<Record>, name: string, from: nat): (r: Option<nat>)
    requires from <= |result|
    ensures r.Some? ==> from <= r.value < |result| && NamesMatch(rules, name, result[r.value])
    ensures forall i :: from <= i < (if r.Some? then r.value else |result|) ==> !NamesMatch(rules, name, result[i])
    decreases |result| - from
  {
    if from == |result| then None
    else if NamesMatch(rules, name, result[from]) then Some(from)
    else FindSimilar(rules, result, name, from + 1)
  }

  /** The survivor an account belongs to: by domain first, then by name. */
  function Match(rules: TextRules, p: Pass, account: Record): (m: Option<nat>)
    requires SeenInRange(p)
    ensures m.Some? ==> m.value < |p.result|
  {
    var domain := Domain(rules, account);
    if domain != "" && domain in p.seen then Some(p.seen[domain])
    else FindSimilar(rules, p.result, Name(account), 0)
  }

  function Step(rules: TextRules, p: Pass, account: Record): (q: Pass)
    requires SeenInRange(p)
    ensures SeenInRange(q)
  {
    match Match(rules, p, account)
    case Some(i) =>
      p.(result := p.result[i := Merged(p.result[i], account)], homes := p.homes + [i])
    case None =>
      var domain := Domain(rules, account);
      Pass(if domain != "" then p.seen[domain := |p.result|] else p.seen,
           p.result + [account], p.firsts + [|p.homes|], p.homes + [|p.result|])
  }

  function Fold(rules: TextRules, accounts: seq<Record>): (p: Pass)
    ensures SeenInRange(p)
    decreases |accounts|
  {
    if accounts == [] then Pass(map[], [], [], [])
    else Step(rules, Fold(rules, accounts[..|accounts| - 1]), accounts[|accounts| - 1])
  }

  function Deduplicated(rules: TextRules, accounts: seq<Record>): seq<Record> { Fold(rules, accounts).result }

  /** The inner loop: merge into the first survivor with a similar name. */
  method MergeByName(rules: TextRules, survivors: seq<Record>, account: Record)
    returns (result: seq<Record>, matched: bool)
    ensures match FindSimilar(rules, survivors, Name(account), 0)
            case Some(i) => matched && result == survivors[i := Merged(survivors[i], account)]
            case None => !matched && result == survivors
  {
    hide Similar, Merged;
    var name := TextOf(account, "company_name");
    for i := 0 to |survivors|
      invariant FindSimilar(rules, survivors, name, 0) == FindSimilar(rules, survivors, name, i)
    {
      var existing := survivors[i];
      if name != "" && Name(existing) != "" && Similar(rules, name, Name(existing)) {
        var merged := MergeMetadata(existing, account);
        return survivors[i := merged], true;
      }
    }
    return survivors, false;
  }

  lemma FoldStep(rules: TextRules, xs: seq<Record>, x: Record)
    ensures Fold(rules, xs + [x]) == Step(rules, Fold(rules, xs), x)
  {
    assert (xs + [x])[..|xs|] == xs;
  }

  method DeduplicateAccounts(rules: TextRules, accounts: seq<Record>) returns (result: seq<Record>)
    ensures result == Deduplicated(rules, accounts)
  {
    hide Similar, Merged, NormalizeDomain, FindSimilar;
    var seen: map<string, nat> := map[];
    result := [];
    for n := 0 to |accounts|
      invariant seen == Fold(rules, accounts[..n]).seen
      invariant result == Fold(rules, accounts[..n]).result
    {
      var account := accounts[n];
      assert accounts[..n + 1] == accounts[..n] + [account];
      FoldStep(rules, accounts[..n], account);
      var domain := NormalizeDomain(rules, TextOf(account, "domain"));
      if domain != "" && domain in seen {
        var idx := seen[domain];
        var merged := MergeMetadata(result[idx], account);
        result := result[idx := merged];
      } else {
        var matched;
        result, matched := MergeByName(rules, result, account);
        if !matched {
          if domain != "" {
            seen := seen[domain := |result|];
          }
          result := result + [account];
        }
      }
    }
    assert accounts[..|accounts|] == accounts;
  }

  // ----- What the pass keeps -----

  lemma MergedKeepsText(target: Record, source: Record, k: string)
    requires k != "metadata" && TextOf(target, k) != ""
    ensures TextOf(Merged(target, source), k) == TextOf(target, k)
  {
    MergedAt(target, source, k);
  }

  /** Survivors are first occurrences in input order; every input belongs to a survivor no later than itself. */
  ghost predicate Shaped(xs: seq<Record>, p: Pass) {
    && |p.firsts| == |p.result| && |p.homes| == |xs|
    && (forall i :: 0 <= i < |p.firsts| ==> p.firsts[i] < |xs| && p.homes[p.firsts[i]] == i)
    && (forall i, j :: 0 <= i < j < |p.firsts| ==> p.firsts[i] < p.firsts[j])
    && (forall q :: 0 <= q < |xs| ==> p.homes[q] < |p.firsts| && p.firsts[p.homes[q]] <= q)
  }

  /** Text a survivor brought with it is never overwritten. */
  ghost predicate KeepsText(xs: seq<Record>, p: Pass, k: string)
    requires Shaped(xs, p)
  {
    forall i :: 0 <= i < |p.result| && TextOf(xs[p.firsts[i]], k) != "" ==>
      TextOf(p.result[i], k) == TextOf(xs[p.firsts[i]], k)
  }

  /** The domain survivor `i` arrived with. */
  function FirstDomain(rules: TextRules, xs: seq<Record>, p: Pass, i: nat): string
    requires i < |p.firsts| && p.firsts[i] < |xs|
  {
    Domain(rules, xs[p.firsts[i]])
  }

  /** The index holds exactly the non-empty domains of first occurrences. */
  ghost predicate Indexed(rules: TextRules, xs: seq<Record>, p: Pass)
    requires Shaped(xs, p) && SeenInRange(p)
  {
    && (forall d :: d in p.seen ==> d != "" && FirstDomain(rules, xs, p, p.seen[d]) == d)
    && (forall i :: 0 <= i < |p.result| && FirstDomain(rules, xs, p, i) != "" ==>
          FirstDomain(rules, xs, p, i) in p.seen && p.seen[FirstDomain(rules, xs, p, i)] == i)
  }

  /** Input `q` is its own survivor, or has its survivor's domain, or a similar name. */
  ghost predicate Represented(rules: TextRules, xs: seq<Record>, p: Pass, q: nat)
    requires Shaped(xs, p) && q < |xs|
  {
    var survivor := p.result[p.homes[q]];
    || p.firsts[p.homes[q]] == q
    || (Domain(rules, xs[q]) != "" && Domain(rules, xs[q]) == Domain(rules, survivor))
    || NamesMatch(rules, Name(xs[q]), survivor)
  }

  ghost predicate Sound(rules: TextRules, xs: seq<Record>, p: Pass) {
    && Shaped(xs, p) && SeenInRange(p)
    && KeepsText(xs, p, "domain") && KeepsText(xs, p, "company_name")
    && Indexed(rules, xs, p)
    && forall q :: 0 <= q < |xs| ==> Represented(rules, xs, p, q)
  }

  lemma ShapedLengths(xs: seq<Record>, p: Pass)
    requires Shaped(xs, p)
    ensures |p.homes| == |xs| && |p.firsts| == |p.result|
    ensures forall i :: 0 <= i < |p.firsts| ==> p.firsts[i] < |xs|
    ensures forall q :: 0 <= q < |p.homes| ==> p.homes[q] < |p.result|
  {
  }

  lemma StepCases(rules: TextRules, p: Pass, x: Record)
    requires SeenInRange(p)
    ensures var q := Step(rules, p, x);
            match Match(rules, p, x)
            case Some(h) =>
              && q.seen == p.seen && q.firsts == p.firsts
              && q.result == p.result[h := Merged(p.result[h], x)] && q.homes == p.homes + [h]
            case None =>
              && q.result == p.result + [x] && q.firsts == p.firsts + [|p.homes|] && q.homes == p.homes + [|p.result|]
              && (if Domain(rules, x) == "" then q.seen == p.seen
                  else Domain(rules, x) !in p.seen && q.seen == p.seen[Domain(rules, x) := |p.result|])
  {
  }

  lemma StepKeepsShape(rules: TextRules, xs: seq<Record>, p: Pass, x: Record)
    requires Shaped(xs, p) && SeenInRange(p)
    ensures Shaped(xs + [x], Step(rules, p, x))
  {
    hide Step, Match, Domain;
    StepCases(rules, p, x);
  }

  lemma {:induction false} StepKeepsText(rules: TextRules, xs: seq<Record>, p: Pass, x: Record, k: string)
    requires Shaped(xs, p) && SeenInRange(p) && KeepsText(xs, p, k) && k != "metadata"
    ensures Shaped(xs + [x], Step(rules, p, x)) && KeepsText(xs + [x], Step(rules, p, x), k)
  {
    StepKeepsShape(rules, xs, p, x);
    var m := Match(rules, p, x);
    if m.Some? && TextOf(p.result[m.value], k) != "" {
      MergedKeepsText(p.result[m.value], x, k);
    }
  }

  lemma KeepsDomain(rules: TextRules, xs: seq<Record>, p: Pass, i: nat)
    requires Sound(rules, xs, p) && i < |p.result| && FirstDomain(rules, xs, p, i) != ""
    ensures Domain(rules, p.result[i]) == FirstDomain(rules, xs, p, i)
  {
  }

  /** A name or domain that a record is represented by survives a merge into its survivor. */
  lemma MergeRepresents(rules: TextRules, y: Record, target: Record, x: Record)
    ensures Domain(rules, target) != "" ==> Domain(rules, Merged(target, x)) == Domain(rules, target)
    ensures NamesMatch(rules, Name(y), target) ==> NamesMatch(rules, Name(y), Merged(target, x))
  {
    hide Merged, Similar;
    if TextOf(target, "domain") != "" {
      MergedKeepsText(target, x, "domain");
    }
    if Name(target) != "" {
      MergedKeepsText(target, x, "company_name");
    }
  }

  lemma OldIsRepresented(rules: TextRules, xs: seq<Record>, p: Pass, x: Record, q: nat)
    requires Shaped(xs, p) && SeenInRange(p) && q < |xs| && Represented(rules, xs, p, q)
    ensures Shaped(xs + [x], Step(rules, p, x)) && Represented(rules, xs + [x], Step(rules, p, x), q)
  {
    hide Merged, Step, Match, Domain, NamesMatch, Name, Similar;
    StepKeepsShape(rules, xs, p, x);
    StepCases(rules, p, x);
    var m := Match(rules, p, x);
    if m.Some? {
      MergeRepresents(rules, xs[q], p.result[m.value], x);
    }
  }

  lemma NewIsRepresented(rules: TextRules, xs: seq<Record>, p: Pass, x: Record)
    requires Sound(rules, xs, p)
    ensures Shaped(xs + [x], Step(rules, p, x)) && Represented(rules, xs + [x], Step(rules, p, x), |xs|)
  {
    hide Merged, Step, Domain, Similar, Name, KeepsText, FirstDomain;
    StepKeepsShape(rules, xs, p, x);
    StepCases(rules, p, x);
    var m := Match(rules, p, x);
    if m.Some? {
      MergeRepresents(rules, x, p.result[m.value], x);
      if Domain(rules, x) != "" && Domain(rules, x) in p.seen {
        KeepsDomain(rules, xs, p, p.seen[Domain(rules, x)]);
      }
    }
  }

  lemma StepRepresents(rules: TextRules, xs: seq<Record>, p: Pass, x: Record, q: nat)
    requires Sound(rules, xs, p) && q <= |xs|
    ensures Shaped(xs + [x], Step(rules, p, x)) && Represented(rules, xs + [x], Step(rules, p, x), q)
  {
    hide Step, Shaped, Represented, KeepsText, Indexed;
    if q < |xs| {
      OldIsRepresented(rules, xs, p, x, q);
    } else {
      NewIsRepresented(rules, xs, p, x);
    }
  }

  lemma FirstDomainStep(rules: TextRules, xs: seq<Record>, p: Pass, x: Record)
    requires Shaped(xs, p) && SeenInRange(p) && Shaped(xs + [x], Step(rules, p, x))
    ensures var q := Step(rules, p, x);
            && (forall i :: 0 <= i < |p.result| ==> FirstDomain(rules, xs + [x], q, i) == FirstDomain(rules, xs, p, i))
            && (|q.result| > |p.result| ==> FirstDomain(rules, xs + [x], q, |p.result|) == Domain(rules, x))
  {
    StepCases(rules, p, x);
    hide Step, Match, Merged, Domain;
  }

  lemma MergeKeepsIndex(rules: TextRules, xs: seq<Record>, p: Pass, x: Record)
    requires Shaped(xs, p) && SeenInRange(p) && Indexed(rules, xs, p) && Match(rules, p, x).Some?
    ensures var q := Step(rules, p, x); Shaped(xs + [x], q) && Indexed(rules, xs + [x], q)
  {
    hide Step, Match, Merged, Domain, FirstDomain, Shaped;
    StepKeepsShape(rules, xs, p, x);
    ShapedLengths(xs, p);
    StepCases(rules, p, x);
    FirstDomainStep(rules, xs, p, x);
  }

  lemma AppendKeepsIndex(rules: TextRules, xs: seq<Record>, p: Pass, x: Record)
    requires Shaped(xs, p) && SeenInRange(p) && Indexed(rules, xs, p) && Match(rules, p, x).None?
    ensures var q := Step(rules, p, x); Shaped(xs + [x], q) && Indexed(rules, xs + [x], q)
  {
    hide Step, Match, Merged, Domain, FirstDomain, Shaped;
    StepKeepsShape(rules, xs, p, x);
    ShapedLengths(xs, p);
    StepCases(rules, p, x);
    FirstDomainStep(rules, xs, p, x);
  }

  lemma StepKeepsIndex(rules: TextRules, xs: seq<Record>, p: Pass, x: Record)
    requires Shaped(xs, p) && SeenInRange(p) && Indexed(rules, xs, p)
    ensures var q := Step(rules, p, x); Shaped(xs + [x], q) && Indexed(rules, xs + [x], q)
  {
    hide Step, Match, Indexed, Shaped;
    if Match(rules, p, x).Some? {
      MergeKeepsIndex(rules, xs, p, x);
    } else {
      AppendKeepsIndex(rules, xs, p, x);
    }
  }

  lemma StepKeepsSound(rules: TextRules, xs: seq<Record>, p: Pass, x: Record)
    requires Sound(rules, xs, p)
    ensures Sound(rules, xs + [x], Step(rules, p, x))
  {
    StepKeepsIndex(rules, xs, p, x);
    StepKeepsText(rules, xs, p, x, "domain");
    StepKeepsText(rules, xs, p, x, "company_name");
    forall q | 0 <= q < |xs + [x]|
      ensures Represented(rules, xs + [x], Step(rules, p, x), q)
    {
      StepRepresents(rules, xs, p, x, q);
    }
    hide Step, Represented, KeepsText, Indexed, Shaped;
  }

  lemma EmptyIsSound(rules: TextRules)
    ensures Sound(rules, [], Fold(rules, []))
  {
    hide Step, Represented, Domain, TextOf;
    var empty: seq<Record> := [];
    assert Fold(rules, empty) == Pass(map[], [], [], []);
  }

  lemma {:induction false} FoldIsSound(rules: TextRules, xs: seq<Record>)
    ensures Sound(rules, xs, Fold(rules, xs))
    decreases |xs|
  {
    hide *;
    if xs == [] {
      EmptyIsSound(rules);
    } else {
      var n := |xs| - 1;
      FoldIsSound(rules, xs[..n]);
      assert xs[..n] + [xs[n]] == xs;
      FoldStep(rules, xs[..n], xs[n]);
      StepKeepsSound(rules, xs[..n], Fold(rules, xs[..n]), xs[n]);
    }
  }

  lemma FoldIsShaped(rules: TextRules, xs: seq<Record>)
    ensures Shaped(xs, Fold(rules, xs))
  {
    FoldIsSound(rules, xs);
  }

  // ----- Main results -----

  /** Survivors are the first occurrences, in input order, and every input is represented by one. */
  lemma EveryInputIsRepresented(rules: TextRules, xs: seq<Record>, q: nat)
    requires q < |xs|
    ensures Shaped(xs, Fold(rules, xs)) && Represented(rules, xs, Fold(rules, xs), q)
  {
    FoldIsSound(rules, xs);
  }

  lemma MatchIsEarliest(rules: TextRules, xs: seq<Record>, p: Pass, x: Record)
    requires Sound(rules, xs, p)
    ensures var m := Match(rules, p, x);
      if exists i :: 0 <= i < |p.result| && FirstDomain(rules, xs, p, i) == Domain(rules, x) != "" then
        m.Some? && FirstDomain(rules, xs, p, m.value) == Domain(rules, x)
      else if m.Some? then
        && NamesMatch(rules, Name(x), p.result[m.value])
        && forall j :: 0 <= j < m.value ==> !NamesMatch(rules, Name(x), p.result[j])
      else forall j :: 0 <= j < |p.result| ==> !NamesMatch(rules, Name(x), p.result[j])
  {
    hide Domain, NamesMatch, FirstDomain, Represented, KeepsText, Name;
  }

  /**
   * Where the next record goes: to the survivor that came with its domain; else to the earliest survivor
   * with a similar name; else it becomes a survivor.
   */
  lemma {:induction false} HomeIsEarliest(rules: TextRules, xs: seq<Record>, x: Record)
    ensures Shaped(xs, Fold(rules, xs)) && Shaped(xs + [x], Fold(rules, xs + [x]))
    ensures var p, h := Fold(rules, xs), Fold(rules, xs + [x]).homes[|xs|];
      if exists i :: 0 <= i < |p.result| && FirstDomain(rules, xs, p, i) == Domain(rules, x) != "" then
        h < |p.result| && FirstDomain(rules, xs, p, h) == Domain(rules, x)
      else if exists i :: 0 <= i < |p.result| && NamesMatch(rules, Name(x), p.result[i]) then
        && h < |p.result| && NamesMatch(rules, Name(x), p.result[h])
        && forall j :: 0 <= j < h ==> !NamesMatch(rules, Name(x), p.result[j])
      else h == |p.result|
  {
    var p := Fold(rules, xs);
    FoldIsSound(rules, xs);
    FoldIsShaped(rules, xs);
    FoldIsShaped(rules, xs + [x]);
    FoldStep(rules, xs, x);
    StepCases(rules, p, x);
    ShapedLengths(xs, p);
    MatchIsEarliest(rules, xs, p, x);
    hide Fold, Step, Match, Domain, NamesMatch, FirstDomain, Sound, Merged;
  }

  /** The inputs that went to survivor `i`, in order. */
  function Group(xs: seq<Record>, homes: seq<nat>, i: nat): seq<Record>
    requires |xs| == |homes|
    decreases |xs|
  {
    if xs == [] then []
    else
      var n := |xs| - 1;
      Group(xs[..n], homes[..n], i) + if homes[n] == i then [xs[n]] else []
  }

  function MergeAll(group: seq<Record>): Record
    requires group != []
    decreases |group|
  {
    var n := |group| - 1;
    if n == 0 then group[0] else Merged(MergeAll(group[..n]), group[n])
  }

  lemma {:induction false} GroupEmpty(xs: seq<Record>, homes: seq<nat>, i: nat)
    requires |xs| == |homes| && forall q :: 0 <= q < |homes| ==> homes[q] != i
    ensures Group(xs, homes, i) == []
    decreases |xs|
  {
    if xs != [] {
      GroupEmpty(xs[..|xs| - 1], homes[..|xs| - 1], i);
    }
  }

  lemma GroupStep(xs: seq<Record>, homes: seq<nat>, x: Record, h: nat, i: nat)
    requires |xs| == |homes|
    ensures Group(xs + [x], homes + [h], i) == Group(xs, homes, i) + if h == i then [x] else []
  {
    assert (xs + [x])[..|xs|] == xs && (homes + [h])[..|xs|] == homes;
  }

  lemma MergeAllStep(group: seq<Record>, x: Record)
    requires group != []
    ensures MergeAll(group + [x]) == Merged(MergeAll(group), x)
  {
    assert (group + [x])[..|group|] == group;
  }

  /** Survivor `i` is the left-to-right merge of its group, which its first occurrence opens. */
  ghost predicate IsGroupMerge(xs: seq<Record>, p: Pass, i: nat)
    requires Shaped(xs, p) && i < |p.result|
  {
    var group := Group(xs, p.homes, i);
    group != [] && group[0] == xs[p.firsts[i]] && p.result[i] == MergeAll(group)
  }

  lemma SingletonMerge(x: Record)
    ensures MergeAll([x]) == x
  {
  }

  lemma StepMergesGroup(rules: TextRules, xs: seq<Record>, p: Pass, x: Record, i: nat)
    requires Shaped(xs, p) && SeenInRange(p)
    requires i < |p.result| ==> IsGroupMerge(xs, p, i)
    requires i < |Step(rules, p, x).result|
    ensures Shaped(xs + [x], Step(rules, p, x)) && IsGroupMerge(xs + [x], Step(rules, p, x), i)
  {
    StepKeepsShape(rules, xs, p, x);
    ShapedLengths(xs, p);
    StepCases(rules, p, x);
    hide Group, MergeAll, Merged, Step, Shaped;
    var q := Step(rules, p, x);
    var h := q.homes[|xs|];
    GroupStep(xs, p.homes, x, h, i);
    if i == |p.result| {
      GroupEmpty(xs, p.homes, i);
      SingletonMerge(x);
      assert [] + [x] == [x];
    } else if h == i {
      MergeAllStep(Group(xs, p.homes, i), x);
    } else {
      assert Group(xs, p.homes, i) + [] == Group(xs, p.homes, i);
    }
  }

  lemma {:induction false} SurvivorIsGroupMerge(rules: TextRules, xs: seq<Record>, i: nat)
    requires Shaped(xs, Fold(rules, xs)) && i < |Fold(rules, xs).result|
    ensures IsGroupMerge(xs, Fold(rules, xs), i)
    decreases |xs|
  {
    var n := |xs| - 1;
    var before, x := xs[..n], xs[n];
    assert before + [x] == xs;
    FoldStep(rules, before, x);
    FoldIsShaped(rules, before);
    var p := Fold(rules, before);
    hide Step, IsGroupMerge, Fold, Shaped, Sound;
    if i < |p.result| {
      SurvivorIsGroupMerge(rules, before, i);
    }
    StepMergesGroup(rules, before, p, x, i);
  }

  /** The first value of a group that is neither missing nor None. */
  function FirstValue(group: seq<Record>, k: string): Option<Value> {
    if group == [] then None
    else if !Absent(group[0], k) then Some(group[0][k])
    else FirstValue(group[1..], k)
  }

  lemma {:induction false} FirstValueOfAppend(group: seq<Record>, x: Record, k: string)
    ensures FirstValue(group + [x], k) ==
            if FirstValue(group, k).Some? then FirstValue(group, k) else if Absent(x, k) then None else Some(x[k])
  {
    if group == [] {
      assert group + [x] == [x];
      assert FirstValue([x][1..], k) == None;
    } else {
      assert (group + [x])[1..] == group[1..] + [x];
      FirstValueOfAppend(group[1..], x, k);
    }
  }

  /** Every field of a merge is the first value its group has for it. */
  lemma {:induction false} MergeTakesFirstValue(group: seq<Record>, k: string)
    requires group != [] && k != "metadata"
    ensures Get(MergeAll(group), k) ==
            if FirstValue(group, k).Some? then FirstValue(group, k) else Get(group[0], k)
    ensures FirstValue(group, k).Some? ==> FirstValue(group, k).value != Null
    decreases |group|
  {
    var n := |group| - 1;
    assert group == group[..n] + [group[n]];
    FirstValueOfAppend(group[..n], group[n], k);
    if n > 0 {
      MergeTakesFirstValue(group[..n], k);
      MergedAt(MergeAll(group[..n]), group[n], k);
    }
  }

  /** The survivor's fields, from the inputs alone. */
  lemma {:induction false} SurvivorTakesFirstValues(rules: TextRules, xs: seq<Record>, i: nat, k: string)
    requires Shaped(xs, Fold(rules, xs)) && i < |Fold(rules, xs).result| && k != "metadata"
    ensures var p := Fold(rules, xs);
            var first := FirstValue(Group(xs, p.homes, i), k);
            Get(p.result[i], k) == if first.Some? then first else Get(xs[p.firsts[i]], k)
  {
    SurvivorIsGroupMerge(rules, xs, i);
    MergeTakesFirstValue(Group(xs, Fold(rules, xs).homes, i), k);
  }

  predicate HasMetadata(r: Record) { "metadata" in r && r["metadata"].Dict? }

  function Entries(r: Record): map<string, Value> { if HasMetadata(r) then r["metadata"].entries else map[] }

  function FirstEntry(group: seq<Record>, k: string): Option<Value> {
    if group == [] then None
    else if k in Entries(group[0]) then Some(Entries(group[0])[k])
    else FirstEntry(group[1..], k)
  }

  lemma {:induction false} FirstEntryOfAppend(group: seq<Record>, x: Record, k: string)
    ensures FirstEntry(group + [x], k) ==
            if FirstEntry(group, k).Some? then FirstEntry(group, k) else Get(Entries(x), k)
  {
    if group == [] {
      assert group + [x] == [x];
      assert FirstEntry([x][1..], k) == None;
    } else {
      assert (group + [x])[1..] == group[1..] + [x];
      FirstEntryOfAppend(group[1..], x, k);
    }
  }

  /** Whatever the records hold under "metadata", a merge unites the entries, those of the target first. */
  lemma MergedEntries(target: Record, source: Record)
    ensures HasMetadata(Merged(target, source)) <==> HasMetadata(target) || HasMetadata(source)
    ensures Entries(Merged(target, source)) == Entries(source) + Entries(target)
  {
  }

  /** The metadata of a merge is the left-biased union over the group, and is there if any record has some. */
  lemma {:induction false} MergeUnitesMetadata(group: seq<Record>, k: string)
    requires group != []
    ensures HasMetadata(MergeAll(group)) <==> exists r :: r in group && HasMetadata(r)
    ensures Get(Entries(MergeAll(group)), k) == FirstEntry(group, k)
    decreases |group|
  {
    hide Merged, HasMetadata, Entries;
    var n := |group| - 1;
    assert group == group[..n] + [group[n]];
    FirstEntryOfAppend(group[..n], group[n], k);
    if n > 0 {
      MergeUnitesMetadata(group[..n], k);
      MergedEntries(MergeAll(group[..n]), group[n]);
    } else {
      assert group[..0] == [];
    }
  }

  /** The survivor's metadata, from the inputs alone. */
  lemma {:induction false} SurvivorUnitesMetadata(rules: TextRules, xs: seq<Record>, i: nat, k: string)
    requires Shaped(xs, Fold(rules, xs)) && i < |Fold(rules, xs).result|
    ensures var p := Fold(rules, xs);
            var group := Group(xs, p.homes, i);
            && (HasMetadata(p.result[i]) <==> exists r :: r in group && HasMetadata(r))
            && Get(Entries(p.result[i]), k) == FirstEntry(group, k)
  {
    hide Fold, Merged, HasMetadata, Entries, FirstEntry;
    SurvivorIsGroupMerge(rules, xs, i);
    MergeUnitesMetadata(Group(xs, Fold(rules, xs).homes, i), k);
  }

  // ----- Domains -----

  /** Survivors whose first occurrence has a domain keep it, and no two of them share one. */
  lemma IndexedDomainsAreDistinct(rules: TextRules, xs: seq<Record>, i: nat, j: nat)
    requires Shaped(xs, Fold(rules, xs)) && i < j < |Fold(rules, xs).result|
    requires var p := Fold(rules, xs); FirstDomain(rules, xs, p, i) != "" && FirstDomain(rules, xs, p, j) != ""
    ensures var p := Fold(rules, xs); Domain(rules, p.result[i]) != Domain(rules, p.result[j])
  {
    FoldIsSound(rules, xs);
  }

  ghost predicate AllHaveDomains(rules: TextRules, xs: seq<Record>) {
    forall x :: x in xs ==> Domain(rules, x) != ""
  }

  ghost predicate DistinctDomains(rules: TextRules, xs: seq<Record>) {
    forall i, j :: 0 <= i < j < |xs| && Domain(rules, xs[i]) != "" ==> Domain(rules, xs[i]) != Domain(rules, xs[j])
  }

  lemma DomainsAreDistinct(rules: TextRules, xs: seq<Record>)
    requires AllHaveDomains(rules, xs)
    ensures DistinctDomains(rules, Deduplicated(rules, xs))
  {
    FoldIsSound(rules, xs);
    var p := Fold(rules, xs);
    forall i, j | 0 <= i < j < |p.result|
      ensures Domain(rules, p.result[i]) != Domain(rules, p.result[j])
    {
      assert xs[p.firsts[i]] in xs && xs[p.firsts[j]] in xs;
      IndexedDomainsAreDistinct(rules, xs, i, j);
    }
  }

  // ----- Names -----

  /** Every record has a company name, possibly empty: what the typed Account guarantees. */
  ghost predicate NamesPresent(xs: seq<Record>) {
    forall x :: x in xs ==> !Absent(x, "company_name")
  }

  ghost predicate DissimilarNames(rules: TextRules, xs: seq<Record>) {
    forall i, j :: 0 <= i < j < |xs| ==> !NamesMatch(rules, Name(xs[j]), xs[i])
  }

  lemma {:induction false} StepKeepsDissimilar(rules: TextRules, p: Pass, x: Record)
    requires SeenInRange(p) && NamesPresent(p.result) && DissimilarNames(rules, p.result)
    requires !Absent(x, "company_name")
    ensures var q := Step(rules, p, x); NamesPresent(q.result) && DissimilarNames(rules, q.result)
  {
    hide Merged, Similar;
    var m := Match(rules, p, x);
    if m.Some? {
      MergedAt(p.result[m.value], x, "company_name");
      assert p.result[m.value] in p.result;
    }
  }

  /** Survivors with names are pairwise dissimilar. */
  lemma {:induction false} NamesAreDissimilar(rules: TextRules, xs: seq<Record>)
    requires NamesPresent(xs)
    ensures NamesPresent(Deduplicated(rules, xs)) && DissimilarNames(rules, Deduplicated(rules, xs))
    decreases |xs|
  {
    if xs != [] {
      var n := |xs| - 1;
      assert xs[..n] + [xs[n]] == xs;
      NamesAreDissimilar(rules, xs[..n]);
      FoldStep(rules, xs[..n], xs[n]);
      StepKeepsDissimilar(rules, Fold(rules, xs[..n]), xs[n]);
    }
  }

  // ----- Domains of records that come without one -----

  /** Survivors go by the name their first occurrence came with. */
  ghost predicate NamesKept(xs: seq<Record>, p: Pass)
    requires Shaped(xs, p)
  {
    forall i :: 0 <= i < |p.result| ==>
      !Absent(p.result[i], "company_name") && Name(p.result[i]) == Name(xs[p.firsts[i]])
  }

  /** Every domain a survivor has, it came with: none was filled in from a later record. */
  ghost predicate Settled(rules: TextRules, xs: seq<Record>, p: Pass)
    requires Shaped(xs, p)
  {
    forall i :: 0 <= i < |p.result| && FirstDomain(rules, xs, p, i) == "" ==> Domain(rules, p.result[i]) == ""
  }

  lemma StepKeepsNames(rules: TextRules, xs: seq<Record>, p: Pass, x: Record)
    requires Shaped(xs, p) && SeenInRange(p) && NamesKept(xs, p) && !Absent(x, "company_name")
    ensures Shaped(xs + [x], Step(rules, p, x)) && NamesKept(xs + [x], Step(rules, p, x))
  {
    hide Merged, Step, Match, Domain;
    StepKeepsShape(rules, xs, p, x);
    StepCases(rules, p, x);
    var m := Match(rules, p, x);
    if m.Some? {
      MergedAt(p.result[m.value], x, "company_name");
    }
  }

  lemma EmptyIsSettled(rules: TextRules)
    ensures Shaped([], Fold(rules, [])) && NamesKept([], Fold(rules, [])) && Settled(rules, [], Fold(rules, []))
  {
  }

  lemma {:induction false} FoldKeepsNames(rules: TextRules, xs: seq<Record>)
    requires NamesPresent(xs)
    ensures Shaped(xs, Fold(rules, xs)) && NamesKept(xs, Fold(rules, xs))
    decreases |xs|
  {
    hide Step, Shaped, NamesKept;
    FoldIsShaped(rules, xs);
    if xs == [] {
      EmptyIsSettled(rules);
    } else {
      var n := |xs| - 1;
      assert xs[..n] + [xs[n]] == xs;
      FoldKeepsNames(rules, xs[..n]);
      FoldStep(rules, xs[..n], xs[n]);
      StepKeepsNames(rules, xs[..n], Fold(rules, xs[..n]), xs[n]);
    }
  }

  /** `x` has no domain, or is not named like an earlier record without one. */
  ghost predicate NotLate(rules: TextRules, xs: seq<Record>, x: Record) {
    Domain(rules, x) != "" ==>
      forall a :: 0 <= a < |xs| && Domain(rules, xs[a]) == "" ==> !NamesMatch(rules, Name(x), xs[a])
  }

  /** No record with a domain is named like an earlier record without one. */
  ghost predicate NoLateDomains(rules: TextRules, xs: seq<Record>) {
    forall b :: 0 <= b < |xs| ==> NotLate(rules, xs[..b], xs[b])
  }

  /** A merge keeps the domain there is, and fills a gap with the other's domain or not at all. */
  lemma MergedDomain(rules: TextRules, target: Record, source: Record)
    ensures var d := Domain(rules, Merged(target, source));
      if Domain(rules, target) != "" then d == Domain(rules, target) else d == "" || d == Domain(rules, source)
  {
    hide Merged;
    MergedAt(target, source, "domain");
  }

  lemma FirstDomainIs(rules: TextRules, xs: seq<Record>, p: Pass, i: nat)
    requires Shaped(xs, p) && i < |p.result|
    ensures FirstDomain(rules, xs, p, i) == Domain(rules, xs[p.firsts[i]])
  {
  }

  /** A survivor that came without a domain is only found by name. */
  lemma MatchByName(rules: TextRules, xs: seq<Record>, p: Pass, x: Record)
    requires Sound(rules, xs, p)
    ensures var m := Match(rules, p, x);
      m.Some? && FirstDomain(rules, xs, p, m.value) == "" ==>
        Domain(rules, x) !in p.seen && NamesMatch(rules, Name(x), p.result[m.value])
  {
    hide Similar, NormalizeDomain, Represented, KeepsText, Name;
  }

  lemma StepKeepsSettled(rules: TextRules, xs: seq<Record>, p: Pass, x: Record)
    requires Sound(rules, xs, p) && NamesKept(xs, p) && Settled(rules, xs, p) && NotLate(rules, xs, x)
    ensures Shaped(xs + [x], Step(rules, p, x)) && Settled(rules, xs + [x], Step(rules, p, x))
  {
    hide Merged, Step, Match, Domain, Similar, Represented, KeepsText, Indexed, FirstDomain, Name;
    StepKeepsShape(rules, xs, p, x);
    StepCases(rules, p, x);
    FirstDomainStep(rules, xs, p, x);
    var m := Match(rules, p, x);
    if m.Some? {
      MatchByName(rules, xs, p, x);
      MergedDomain(rules, p.result[m.value], x);
      FirstDomainIs(rules, xs, p, m.value);
    }
  }

  lemma NoLateDomainsBefore(rules: TextRules, xs: seq<Record>, n: nat)
    requires n < |xs| && NamesPresent(xs) && NoLateDomains(rules, xs)
    ensures NamesPresent(xs[..n]) && NoLateDomains(rules, xs[..n]) && NotLate(rules, xs[..n], xs[n])
    ensures !Absent(xs[n], "company_name")
  {
    hide NotLate;
    forall b | 0 <= b < n
      ensures NotLate(rules, xs[..n][..b], xs[..n][b])
    {
      assert xs[..n][..b] == xs[..b];
    }
  }

  lemma {:induction false} FoldIsSettled(rules: TextRules, xs: seq<Record>)
    requires NamesPresent(xs) && NoLateDomains(rules, xs)
    ensures Shaped(xs, Fold(rules, xs)) && Settled(rules, xs, Fold(rules, xs))
    decreases |xs|
  {
    hide Step, Sound, NamesKept, Settled, Shaped, NotLate, NoLateDomains, NamesPresent, Fold;
    FoldIsShaped(rules, xs);
    if xs == [] {
      EmptyIsSettled(rules);
    } else {
      var n := |xs| - 1;
      assert xs[..n] + [xs[n]] == xs;
      NoLateDomainsBefore(rules, xs, n);
      FoldIsSettled(rules, xs[..n]);
      FoldKeepsNames(rules, xs[..n]);
      FoldIsSound(rules, xs[..n]);
      FoldStep(rules, xs[..n], xs[n]);
      StepKeepsSettled(rules, xs[..n], Fold(rules, xs[..n]), xs[n]);
    }
  }

  /** In a settled pass the index tells of exactly the survivors' domains. */
  lemma SettledIsIndexed(rules: TextRules, xs: seq<Record>, p: Pass)
    requires Sound(rules, xs, p) && Settled(rules, xs, p)
    ensures forall i :: 0 <= i < |p.result| && Domain(rules, p.result[i]) != "" ==>
              Domain(rules, p.result[i]) in p.seen && p.seen[Domain(rules, p.result[i])] == i
    ensures forall d :: d in p.seen ==> Domain(rules, p.result[p.seen[d]]) == d != ""
  {
    hide Domain, Represented, FirstDomain, KeepsText;
    forall i | 0 <= i < |p.result|
      ensures Domain(rules, p.result[i]) == FirstDomain(rules, xs, p, i)
    {
      if FirstDomain(rules, xs, p, i) != "" {
        KeepsDomain(rules, xs, p, i);
      }
    }
  }

  lemma SettledDomainsAreDistinct(rules: TextRules, xs: seq<Record>)
    requires Shaped(xs, Fold(rules, xs)) && Settled(rules, xs, Fold(rules, xs))
    ensures DistinctDomains(rules, Deduplicated(rules, xs))
  {
    hide Fold, Domain, Settled, Shaped;
    FoldIsSound(rules, xs);
    SettledIsIndexed(rules, xs, Fold(rules, xs));
  }

  /**
   * Records may lack a domain: the survivors' domains are distinct as long as the branch that fills a
   * domain by name has no occasion, that is, no record with a domain is named like an earlier one without.
   */
  lemma {:induction false} DomainsAreDistinctUnlessLate(rules: TextRules, xs: seq<Record>)
    requires NamesPresent(xs) && NoLateDomains(rules, xs)
    ensures DistinctDomains(rules, Deduplicated(rules, xs))
  {
    hide *;
    FoldIsSettled(rules, xs);
    SettledDomainsAreDistinct(rules, xs);
  }

  // ----- Exactly when the next record is safe -----

  /** A nameless record with the domain of `r`. */
  function Echo(r: Record): Record
    requires "domain" in r
  {
    map["domain" := r["domain"], "company_name" := Text("")]
  }

  lemma EchoFacts(rules: TextRules, r: Record)
    requires Domain(rules, r) != ""
    ensures "domain" in r && Domain(rules, Echo(r)) == Domain(rules, r) && Name(Echo(r)) == ""
    ensures !Absent(Echo(r), "company_name")
  {
  }

  /** An echo goes to the survivor that is indexed for its domain, or becomes a survivor. */
  lemma MatchOfEcho(rules: TextRules, p: Pass, x: Record)
    requires SeenInRange(p) && Name(x) == "" && Domain(rules, x) != ""
    ensures Match(rules, p, x) == Get(p.seen, Domain(rules, x))
  {
    hide Similar, NormalizeDomain;
  }

  lemma Clash(rules: TextRules, xs: seq<Record>, i: nat, j: nat)
    requires i < |xs| && j < |xs| && i != j && Domain(rules, xs[i]) == Domain(rules, xs[j]) != ""
    ensures !DistinctDomains(rules, xs)
  {
    hide Domain;
    var a, b := if i < j then i else j, if i < j then j else i;
    assert Domain(rules, xs[a]) == Domain(rules, xs[b]);
  }

  lemma EchoBreaksIt(rules: TextRules, xs: seq<Record>, p: Pass, i: nat)
    requires Sound(rules, xs, p) && i < |p.result|
    requires FirstDomain(rules, xs, p, i) == "" && Domain(rules, p.result[i]) != ""
    ensures "domain" in p.result[i] && !DistinctDomains(rules, Step(rules, p, Echo(p.result[i])).result)
  {
    hide Merged, Step, Domain, Match, Echo, FirstDomain, Name, Represented, KeepsText, DistinctDomains;
    EchoFacts(rules, p.result[i]);
    var echo := Echo(p.result[i]);
    var d := Domain(rules, p.result[i]);
    MatchOfEcho(rules, p, echo);
    StepCases(rules, p, echo);
    if d in p.seen {
      KeepsDomain(rules, xs, p, p.seen[d]);
      MergedDomain(rules, p.result[p.seen[d]], echo);
    }
    Clash(rules, Step(rules, p, echo).result, i, if d in p.seen then p.seen[d] else |p.result|);
  }

  lemma MatchOfSeen(rules: TextRules, p: Pass, x: Record)
    requires SeenInRange(p)
    ensures Domain(rules, x) != "" && Domain(rules, x) in p.seen ==>
              Match(rules, p, x) == Some(p.seen[Domain(rules, x)])
  {
  }

  lemma OneMoreIsDistinct(rules: TextRules, xs: seq<Record>, p: Pass, x: Record)
    requires Sound(rules, xs, p) && Settled(rules, xs, p)
    ensures DistinctDomains(rules, Step(rules, p, x).result)
  {
    hide Merged, Step, Domain, Match, FirstDomain, Name, Represented, KeepsText, Settled, Indexed;
    SettledIsIndexed(rules, xs, p);
    StepCases(rules, p, x);
    var m := Match(rules, p, x);
    if m.Some? {
      MergedDomain(rules, p.result[m.value], x);
      MatchOfSeen(rules, p, x);
    }
  }

  /** Whatever named record comes next, the survivors' domains are distinct. */
  ghost predicate SafeForOneMore(rules: TextRules, xs: seq<Record>) {
    forall x :: !Absent(x, "company_name") ==> DistinctDomains(rules, Deduplicated(rules, xs + [x]))
  }

  /**
   * The exact extent of the guarantee: domains stay distinct whatever record is deduplicated next if and
   * only if no survivor's domain was filled in from a later record.
   */
  lemma {:induction false} SafeForOneMoreIff(rules: TextRules, xs: seq<Record>)
    ensures Shaped(xs, Fold(rules, xs))
    ensures SafeForOneMore(rules, xs) <==> Settled(rules, xs, Fold(rules, xs))
  {
    hide Fold, Step, Domain, Sound, Shaped, FirstDomain, DistinctDomains;
    var p := Fold(rules, xs);
    FoldIsSound(rules, xs);
    FoldIsShaped(rules, xs);
    if Settled(rules, xs, p) {
      forall x | !Absent(x, "company_name")
        ensures DistinctDomains(rules, Deduplicated(rules, xs + [x]))
      {
        FoldStep(rules, xs, x);
        OneMoreIsDistinct(rules, xs, p, x);
      }
    } else {
      ShapedLengths(xs, p);
      var i :| 0 <= i < |p.result| && FirstDomain(rules, xs, p, i) == "" && Domain(rules, p.result[i]) != "";
      EchoBreaksIt(rules, xs, p, i);
      EchoFacts(rules, p.result[i]);
      FoldStep(rules, xs, Echo(p.result[i]));
    }
  }

  // ----- A second pass -----

  ghost predicate Related(rules: TextRules, earlier: Record, later: Record) {
    || (Domain(rules, later) != "" && Domain(rules, earlier) == Domain(rules, later))
    || NamesMatch(rules, Name(later), earlier)
  }

  ghost predicate Unrelated(rules: TextRules, xs: seq<Record>) {
    forall i, j :: 0 <= i < j < |xs| ==> !Related(rules, xs[i], xs[j])
  }

  /** Nothing was merged so far. */
  ghost predicate Untouched(xs: seq<Record>, p: Pass) {
    p.result == xs && |p.firsts| == |xs| && forall i :: 0 <= i < |xs| ==> p.firsts[i] == i
  }

  /** An untouched pass merges the next account exactly when an earlier one is related to it. */
  lemma MatchMeansRelated(rules: TextRules, xs: seq<Record>, p: Pass, x: Record)
    requires Sound(rules, xs, p) && Untouched(xs, p)
    ensures Match(rules, p, x).None? <==> forall i :: 0 <= i < |xs| ==> !Related(rules, xs[i], x)
    ensures Match(rules, p, x).None? ==> Untouched(xs + [x], Step(rules, p, x))
  {
    hide Similar, Merged, NormalizeDomain, Represented, KeepsText;
    var d := Domain(rules, x);
    var m := Match(rules, p, x);
    if d != "" && d in p.seen {
      assert Related(rules, xs[p.seen[d]], x);
    } else {
      if m.Some? {
        assert Related(rules, xs[m.value], x);
      }
      forall i | 0 <= i < |xs| && m.None?
        ensures !Related(rules, xs[i], x)
      {
        assert FirstDomain(rules, xs, p, i) == Domain(rules, xs[i]);
      }
    }
  }

  lemma {:induction false} ResultIsNoLonger(rules: TextRules, xs: seq<Record>)
    ensures |Fold(rules, xs).result| <= |xs|
    decreases |xs|
  {
    if xs != [] {
      ResultIsNoLonger(rules, xs[..|xs| - 1]);
    }
  }

  lemma {:induction false} UntouchedIffUnrelated(rules: TextRules, xs: seq<Record>)
    ensures |Fold(rules, xs).result| == |xs| <==> Unrelated(rules, xs)
    ensures Unrelated(rules, xs) ==> Untouched(xs, Fold(rules, xs))
    decreases |xs|
  {
    if xs != [] {
      var n := |xs| - 1;
      var before, x := xs[..n], xs[n];
      assert before + [x] == xs;
      FoldStep(rules, before, x);
      FoldIsSound(rules, before);
      ResultIsNoLonger(rules, before);
      UntouchedIffUnrelated(rules, before);
      var p := Fold(rules, before);
      StepCases(rules, p, x);
      hide Sound, Step, Merged, Match, Related;
      if Unrelated(rules, before) {
        MatchMeansRelated(rules, before, p, x);
      }
    }
  }

  /** The pass leaves a list alone exactly when no two of its records belong together. */
  lemma FixedPointIffUnrelated(rules: TextRules, xs: seq<Record>)
    ensures Deduplicated(rules, xs) == xs <==> Unrelated(rules, xs)
  {
    UntouchedIffUnrelated(rules, xs);
  }

  /** What makes two records one company's, spelled out. */
  ghost predicate OneCompany(rules: TextRules, earlier: Record, later: Record) {
    var x, y := rules.clean(Name(earlier)), rules.clean(Name(later));
    || (Domain(rules, earlier) != "" && Domain(rules, earlier) == Domain(rules, later))
    || (Name(earlier) != "" && Name(later) != ""
        && (|| x == y
            || (Bigrams(x) + Bigrams(y) != {} && 23 * |Bigrams(x) * Bigrams(y)| >= 17 * |Bigrams(x) + Bigrams(y)|)))
  }

  lemma RelatedIffOneCompany(rules: TextRules, earlier: Record, later: Record)
    ensures Related(rules, earlier, later) <==> OneCompany(rules, earlier, later)
  {
    SimilarIff(rules, Name(later), Name(earlier));
    var x, y := Bigrams(rules.clean(Name(earlier))), Bigrams(rules.clean(Name(later)));
    assert x * y == y * x && x + y == y + x;
    hide Similar, Bigrams, Domain, Name;
  }

  /**
   * All records survive unchanged exactly when no two of them have one non-empty domain or names that are
   * equal once cleaned or share 17 of 23 bigrams.
   */
  lemma {:induction false} AllSurviveIffNoTwoAreOne(rules: TextRules, xs: seq<Record>)
    ensures Deduplicated(rules, xs) == xs <==>
              forall i, j :: 0 <= i < j < |xs| ==> !OneCompany(rules, xs[i], xs[j])
  {
    hide Fold, OneCompany, Related;
    FixedPointIffUnrelated(rules, xs);
    forall i, j | 0 <= i < j < |xs|
      ensures Related(rules, xs[i], xs[j]) <==> OneCompany(rules, xs[i], xs[j])
    {
      RelatedIffOneCompany(rules, xs[i], xs[j]);
    }
  }

  lemma FirstOfTwo(rules: TextRules, x: Record)
    ensures var p := Step(rules, Pass(map[], [], [], []), x); p.result == [x] && p.firsts == [0] && p.homes == [0]
  {
  }

  lemma FoldOfTwo(rules: TextRules, a: Record, b: Record)
    ensures Fold(rules, [a, b]) == Step(rules, Step(rules, Pass(map[], [], [], []), a), b)
  {
    hide Step;
    assert [a, b] == [a] + [b] && [a] == [] + [a];
    FoldStep(rules, [a], b);
    FoldStep(rules, [], a);
  }

  /** In particular a pair of records is merged into one exactly when the two are one company's. */
  lemma {:induction false} PairIsMergedIff(rules: TextRules, x: Record, y: Record)
    ensures Deduplicated(rules, [x, y]) == if OneCompany(rules, x, y) then [Merged(x, y)] else [x, y]
  {
    hide OneCompany, Merged, Similar, Domain, Name;
    AllSurviveIffNoTwoAreOne(rules, [x, y]);
    FoldOfTwo(rules, x, y);
    FirstOfTwo(rules, x);
    StepCases(rules, Step(rules, Pass(map[], [], [], []), x), y);
    assert [x, y][0] == x && [x, y][1] == y;
    hide Fold, Match;
  }

  /** For records that all carry a name, a second pass changes nothing exactly when survivors' domains differ. */
  lemma SecondPassIffDistinctDomains(rules: TextRules, xs: seq<Record>)
    requires NamesPresent(xs)
    ensures var once := Deduplicated(rules, xs);
            Deduplicated(rules, once) == once <==> DistinctDomains(rules, once)
  {
    var once := Deduplicated(rules, xs);
    NamesAreDissimilar(rules, xs);
    FixedPointIffUnrelated(rules, once);
    if Unrelated(rules, once) {
      forall i, j | 0 <= i < j < |once| && Domain(rules, once[i]) != ""
        ensures Domain(rules, once[i]) != Domain(rules, once[j])
      {
        assert !Related(rules, once[i], once[j]);
      }
    }
  }

  /** In particular when every input also has a domain. */
  lemma SecondPassIsIdentity(rules: TextRules, xs: seq<Record>)
    requires NamesPresent(xs) && AllHaveDomains(rules, xs)
    ensures Deduplicated(rules, Deduplicated(rules, xs)) == Deduplicated(rules, xs)
  {
    DomainsAreDistinct(rules, xs);
    SecondPassIffDistinctDomains(rules, xs);
  }

  // ----- Both premises are needed -----

  function Plain(): TextRules { TextRules(s => s, s => s) }

  function Company(name: string, domain: string): Record {
    map["company_name" := Text(name), "domain" := Text(domain)]
  }

  lemma FoldOfThree(rules: TextRules, a: Record, b: Record, c: Record)
    ensures Fold(rules, [a, b, c]) == Step(rules, Step(rules, Step(rules, Pass(map[], [], [], []), a), b), c)
  {
    hide Step;
    assert [a, b, c] == [a, b] + [c] && [a, b] == [a] + [b] && [a] == [] + [a];
    FoldStep(rules, [a, b], c);
    FoldStep(rules, [a], b);
    FoldStep(rules, [], a);
  }

  /** The three ways a step can go, by their conditions. */
  lemma StepOutcome(rules: TextRules, p: Pass, x: Record)
    requires SeenInRange(p)
    ensures var d := Domain(rules, x);
            if d != "" && d in p.seen then
              Step(rules, p, x) == p.(result := p.result[p.seen[d] := Merged(p.result[p.seen[d]], x)],
                                      homes := p.homes + [p.seen[d]])
            else if |p.result| > 0 && NamesMatch(rules, Name(x), p.result[0]) then
              Step(rules, p, x) == p.(result := p.result[0 := Merged(p.result[0], x)], homes := p.homes + [0])
            else if forall r :: r in p.result ==> !NamesMatch(rules, Name(x), r) then
              Step(rules, p, x) == Pass(if d != "" then p.seen[d := |p.result|] else p.seen, p.result + [x],
                                        p.firsts + [|p.homes|], p.homes + [|p.result|])
            else true
  {
    hide Merged, NamesMatch, Domain;
  }

  lemma PlainRecords(name: string, domain: string)
    ensures Name(Company(name, domain)) == name && Domain(Plain(), Company(name, domain)) == domain
    ensures Name(map["company_name" := Text(name)]) == name && Domain(Plain(), map["company_name" := Text(name)]) == ""
    ensures Name(map["domain" := Text(domain)]) == "" && Domain(Plain(), map["domain" := Text(domain)]) == domain
  {
  }

  lemma NamesThere(name: string, domain: string)
    ensures !Absent(map["company_name" := Text(name)], "company_name")
    ensures !Absent(Company(name, domain), "company_name")
  {
  }

  lemma GapsFill(name: string, domain: string)
    ensures Merged(map["company_name" := Text(name)], Company(name, domain)) == Company(name, domain)
    ensures Merged(map["domain" := Text(domain)], Company(name, domain)) == Company(name, domain)
  {
  }

  lemma LettersDiffer()
    ensures !Similar(Plain(), "Z", "A") && Similar(Plain(), "A", "A")
  {
    assert Bigrams("Z") == {};
  }

  /** A name merge may fill in a domain that is never indexed, so two survivors can end with one domain. */
  lemma FilledDomainIsNotIndexed()
    ensures var xs := [map["company_name" := Text("A")], Company("A", "d"), Company("Z", "d")];
            Deduplicated(Plain(), xs) == [Company("A", "d"), Company("Z", "d")]
  {
    var a: Record := map["company_name" := Text("A")];
    var b, c := Company("A", "d"), Company("Z", "d");
    PlainRecords("A", "d");
    PlainRecords("Z", "d");
    GapsFill("A", "d");
    LettersDiffer();
    FoldOfThree(Plain(), a, b, c);
    hide Step, Merged, Similar, Company, Domain, Name, Fold, Plain;
    StepOutcome(Plain(), Pass(map[], [], [], []), a);
    var p := Step(Plain(), Pass(map[], [], [], []), a);
    StepOutcome(Plain(), p, b);
    var q := Step(Plain(), p, b);
    assert q.result == [b] && q.seen == map[];
    StepOutcome(Plain(), q, c);
  }

  /** A filled domain alone does no harm: the condition of DomainsAreDistinctUnlessLate is not necessary. */
  lemma LateDomainCanBeHarmless()
    ensures var xs := [map["company_name" := Text("A")], Company("A", "d")];
            && NamesPresent(xs) && !NoLateDomains(Plain(), xs)
            && Deduplicated(Plain(), xs) == [Company("A", "d")] && DistinctDomains(Plain(), Deduplicated(Plain(), xs))
  {
    var a: Record := map["company_name" := Text("A")];
    var b := Company("A", "d");
    var xs := [a, b];
    PlainRecords("A", "d");
    GapsFill("A", "d");
    LettersDiffer();
    FoldOfTwo(Plain(), a, b);
    NamesThere("A", "d");
    hide Step, Merged, Similar, Company, Domain, Name, Fold, Plain, Absent;
    StepOutcome(Plain(), Pass(map[], [], [], []), a);
    StepOutcome(Plain(), Step(Plain(), Pass(map[], [], [], []), a), b);
    assert xs[..1] == [a] && NamesMatch(Plain(), Name(xs[1]), xs[..1][0]);
    assert !NotLate(Plain(), xs[..1], xs[1]);
  }

  /** A domain merge may fill in a name, so without names present two survivors can end with one name. */
  lemma FilledNameIsNotCompared()
    ensures var xs := [map["domain" := Text("d")], Company("A", "e"), Company("A", "d")];
            && AllHaveDomains(Plain(), xs)
            && Deduplicated(Plain(), xs) == [Company("A", "d"), Company("A", "e")]
            && !DissimilarNames(Plain(), Deduplicated(Plain(), xs))
            && Deduplicated(Plain(), Deduplicated(Plain(), xs)) != Deduplicated(Plain(), xs)
  {
    var a: Record := map["domain" := Text("d")];
    var b, c := Company("A", "e"), Company("A", "d");
    PlainRecords("A", "d");
    PlainRecords("A", "e");
    GapsFill("A", "d");
    LettersDiffer();
    FoldOfThree(Plain(), a, b, c);
    FixedPointIffUnrelated(Plain(), [c, b]);
    hide Step, Merged, Similar, Company, Domain, Name, Fold, Plain;
    StepOutcome(Plain(), Pass(map[], [], [], []), a);
    var p := Step(Plain(), Pass(map[], [], [], []), a);
    StepOutcome(Plain(), p, b);
    var q := Step(Plain(), p, b);
    assert q.result == [a, b] && q.seen == map["d" := 0, "e" := 1];
    StepOutcome(Plain(), q, c);
    var once := [c, b];
    assert NamesMatch(Plain(), Name(once[1]), once[0]);
    assert Related(Plain(), once[0], once[1]);
  }

  // ----- entity_resolver -----

  /** The node's last loop: every survivor's domain, when there is one, is rewritten to its normal form. */
  function Resolved(rules: TextRules, r: Record): Record {
    if TextOf(r, "domain") != "" then r["domain" := Text(Domain(rules, r))] else r
  }

  lemma SurvivorsHaveDomains(rules: TextRules, xs: seq<Record>)
    requires AllHaveDomains(rules, xs)
    ensures AllHaveDomains(rules, Deduplicated(rules, xs))
  {
    FoldIsSound(rules, xs);
    var p := Fold(rules, xs);
    forall i | 0 <= i < |p.result|
      ensures Domain(rules, p.result[i]) != ""
    {
      assert xs[p.firsts[i]] in xs;
    }
  }

  method ResolveAccounts(rules: TextRules, accounts: seq<Record>) returns (resolved: seq<Record>)
    ensures var once := Deduplicated(rules, accounts);
            |resolved| == |once| && forall i :: 0 <= i < |once| ==> resolved[i] == Resolved(rules, once[i])
    ensures forall i :: 0 <= i < |resolved| ==>
              TextOf(resolved[i], "domain") == Domain(rules, Deduplicated(rules, accounts)[i])
    ensures AllHaveDomains(rules, accounts) ==>
              forall i, j :: 0 <= i < j < |resolved| ==> TextOf(resolved[i], "domain") != TextOf(resolved[j], "domain")
    ensures NamesPresent(accounts) && NoLateDomains(rules, accounts) ==>
              forall i, j :: 0 <= i < j < |resolved| && TextOf(resolved[i], "domain") != "" ==>
                TextOf(resolved[i], "domain") != TextOf(resolved[j], "domain")
  {
    hide Similar, NoLateDomains, Merged;
    var once := DeduplicateAccounts(rules, accounts);
    resolved := [];
    for n := 0 to |once|
      invariant |resolved| == n && forall i :: 0 <= i < n ==> resolved[i] == Resolved(rules, once[i])
    {
      var account := once[n];
      if TextOf(account, "domain") != "" {
        account := account["domain" := Text(NormalizeDomain(rules, TextOf(account, "domain")))];
      }
      resolved := resolved + [account];
    }
    if AllHaveDomains(rules, accounts) {
      DomainsAreDistinct(rules, accounts);
      SurvivorsHaveDomains(rules, accounts);
    }
    if NamesPresent(accounts) && NoLateDomains(rules, accounts) {
      DomainsAreDistinctUnlessLate(rules, accounts);
    }
  }
}
