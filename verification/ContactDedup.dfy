/**
 Contact deduplication of src/normalization/contact_linker.py.

 `canon` stands for `email.lower().strip()`; nothing is assumed about it.
 */
module ContactDedup {
  import opened Options

  datatype Contact = Contact(
    id: string, workspaceId: string, accountId: string, email: string,
    firstName: Option<string>, lastName: Option<string>, role: Option<string>,
    linkedinUrl: Option<string>, phone: Option<string>)

  function Or(a: Option<string>, b: Option<string>): Option<string> { if a.Some? then a else b }

  /** model_copy(update=...): gaps of the existing record filled from the newer one. */
  function Merge(existing: Contact, newer: Contact): Contact {
    existing.(firstName := Or(existing.firstName, newer.firstName),
              lastName := Or(existing.lastName, newer.lastName),
              role := Or(existing.role, newer.role),
              linkedinUrl := Or(existing.linkedinUrl, newer.linkedinUrl),
              phone := Or(existing.phone, newer.phone))
  }

  // ----- The specification: group by key, take each field's first value -----

  datatype Field = FirstName | LastName | Role | LinkedinUrl | Phone

  function FieldOf(c: Contact, f: Field): Option<string> {
    match f
    case FirstName => c.firstName
    case LastName => c.lastName
    case Role => c.role
    case LinkedinUrl => c.linkedinUrl
    case Phone => c.phone
  }

  /** The distinct keys in order of first appearance. */
  function Keys(canon: string -> string, xs: seq<Contact>): seq<string> {
    if xs == [] then []
    else
      var n := |xs| - 1;
      var before := Keys(canon, xs[..n]);
      if canon(xs[n].email) in before then before else before + [canon(xs[n].email)]
  }

  function Group(canon: string -> string, xs: seq<Contact>, key: string): seq<Contact> {
    if xs == [] then []
    else
      var n := |xs| - 1;
      Group(canon, xs[..n], key) + if canon(xs[n].email) == key then [xs[n]] else []
  }

  function FirstValue(group: seq<Contact>, f: Field): Option<string> {
    if group == [] then None
    else if FieldOf(group[0], f).Some? then FieldOf(group[0], f)
    else FirstValue(group[1..], f)
  }

  /** Identity from the first record, every optional field from the first record that has it. */
  function Combined(group: seq<Contact>): Contact
    requires group != []
  {
    Contact(group[0].id, group[0].workspaceId, group[0].accountId, group[0].email,
            FirstValue(group, FirstName), FirstValue(group, LastName), FirstValue(group, Role),
            FirstValue(group, LinkedinUrl), FirstValue(group, Phone))
  }

  lemma {:induction false} GroupOfKey(canon: string -> string, xs: seq<Contact>, key: string)
    ensures Group(canon, xs, key) != [] <==> key in Keys(canon, xs)
    ensures forall c :: c in Group(canon, xs, key) ==> c in xs && canon(c.email) == key
    decreases |xs|
  {
    if xs != [] {
      GroupOfKey(canon, xs[..|xs| - 1], key);
    }
  }

  function Survivors(canon: string -> string, xs: seq<Contact>, keys: seq<string>): (s: seq<Contact>)
    requires forall k :: k in keys ==> k in Keys(canon, xs)
    ensures |s| == |keys|
  {
    if keys == [] then []
    else
      GroupOfKey(canon, xs, keys[0]);
      [Combined(Group(canon, xs, keys[0]))] + Survivors(canon, xs, keys[1..])
  }

  /** One record per distinct key, in order of first appearance. */
  function Deduplicated(canon: string -> string, xs: seq<Contact>): seq<Contact> {
    Survivors(canon, xs, Keys(canon, xs))
  }

  lemma {:induction false} SurvivorAt(canon: string -> string, xs: seq<Contact>, keys: seq<string>, i: nat)
    requires forall k :: k in keys ==> k in Keys(canon, xs)
    requires i < |keys|
    ensures Group(canon, xs, keys[i]) != []
    ensures Survivors(canon, xs, keys)[i] == Combined(Group(canon, xs, keys[i]))
    decreases i
  {
    if i == 0 {
      GroupOfKey(canon, xs, keys[0]);
    } else {
      SurvivorAt(canon, xs, keys[1..], i - 1);
    }
  }

  // ----- One step -----

  lemma {:induction false} FirstValueOfAppend(group: seq<Contact>, x: Contact, f: Field)
    ensures FirstValue(group + [x], f) == Or(FirstValue(group, f), FieldOf(x, f))
  {
    if group == [] {
      assert [] + [x] == [x];
      assert FirstValue([x][1..], f) == None;
    } else {
      assert (group + [x])[1..] == group[1..] + [x];
      FirstValueOfAppend(group[1..], x, f);
    }
  }

  /** Merging one more record is combining the longer group. */
  lemma CombinedStep(group: seq<Contact>, x: Contact)
    requires group != []
    ensures Combined(group + [x]) == Merge(Combined(group), x)
  {
    forall f: Field
      ensures FirstValue(group + [x], f) == Or(FirstValue(group, f), FieldOf(x, f))
    {
      FirstValueOfAppend(group, x, f);
    }
    hide FirstValue;
    assert FieldOf(x, FirstName) == x.firstName && FieldOf(x, LastName) == x.lastName && FieldOf(x, Role) == x.role;
  }

  lemma CombinedSingleton(x: Contact)
    ensures Combined([x]) == x
  {
    forall f: Field
      ensures FirstValue([x], f) == FieldOf(x, f)
    {
      assert FirstValue([x][1..], f) == None;
    }
    assert FirstValue([x], FirstName) == x.firstName && FirstValue([x], LastName) == x.lastName;
    assert FirstValue([x], Role) == x.role && FirstValue([x], Phone) == x.phone;
  }

  lemma StepOfAppend(canon: string -> string, xs: seq<Contact>, x: Contact, key: string)
    ensures Group(canon, xs + [x], key) == Group(canon, xs, key) + if canon(x.email) == key then [x] else []
    ensures Keys(canon, xs + [x]) ==
            if canon(x.email) in Keys(canon, xs) then Keys(canon, xs) else Keys(canon, xs) + [canon(x.email)]
  {
    assert (xs + [x])[..|xs|] == xs;
  }

  // ----- The loop -----

  /** The dictionary after some records: entry `k` is the combination of its group. */
  ghost predicate Holds(canon: string -> string, xs: seq<Contact>, seen: map<string, Contact>) {
    forall k :: k in seen ==> Group(canon, xs, k) != [] && seen[k] == Combined(Group(canon, xs, k))
  }

  lemma OthersKeepGroup(canon: string -> string, xs: seq<Contact>, x: Contact, key: string)
    requires key != canon(x.email)
    ensures Group(canon, xs + [x], key) == Group(canon, xs, key)
  {
    StepOfAppend(canon, xs, x, key);
    assert Group(canon, xs, key) + [] == Group(canon, xs, key);
  }

  /** The entry of the record's own key. */
  lemma OwnGroup(canon: string -> string, xs: seq<Contact>, x: Contact, seen: map<string, Contact>)
    requires Holds(canon, xs, seen) && seen.Keys == set k | k in Keys(canon, xs)
    ensures var k := canon(x.email);
            var group := Group(canon, xs + [x], k);
            group != [] && Combined(group) == if k in seen then Merge(seen[k], x) else x
  {
    hide Group, Combined, Keys, Merge;
    var k := canon(x.email);
    StepOfAppend(canon, xs, x, k);
    if k in seen {
      CombinedStep(Group(canon, xs, k), x);
    } else {
      GroupOfKey(canon, xs, k);
      CombinedSingleton(x);
      assert [] + [x] == [x];
    }
  }

  lemma StepHolds(canon: string -> string, xs: seq<Contact>, x: Contact, seen: map<string, Contact>)
    requires Holds(canon, xs, seen) && seen.Keys == set k | k in Keys(canon, xs)
    ensures var k := canon(x.email);
            var next := seen[k := if k in seen then Merge(seen[k], x) else x];
            Holds(canon, xs + [x], next) && next.Keys == set j | j in Keys(canon, xs + [x])
  {
    hide Group, Combined, Keys, Merge;
    var k := canon(x.email);
    OwnGroup(canon, xs, x, seen);
    StepOfAppend(canon, xs, x, k);
    forall j | j in seen && j != k
      ensures Group(canon, xs + [x], j) == Group(canon, xs, j)
    {
      OthersKeepGroup(canon, xs, x, j);
    }
  }

  lemma HeldSurvivor(canon: string -> string, contacts: seq<Contact>, seen: map<string, Contact>, n: nat)
    requires Holds(canon, contacts, seen) && seen.Keys == set k | k in Keys(canon, contacts)
    requires n < |Keys(canon, contacts)|
    ensures |Deduplicated(canon, contacts)| == |Keys(canon, contacts)|
    ensures Keys(canon, contacts)[n] in seen && seen[Keys(canon, contacts)[n]] == Deduplicated(canon, contacts)[n]
  {
    SurvivorAt(canon, contacts, Keys(canon, contacts), n);
    hide Keys, Survivors, Group, Combined;
  }

  method DeduplicateContacts(canon: string -> string, contacts: seq<Contact>) returns (result: seq<Contact>)
    ensures result == Deduplicated(canon, contacts)
  {
    var order: seq<string> := [];
    var seen: map<string, Contact> := map[];
    for n := 0 to |contacts|
      invariant order == Keys(canon, contacts[..n])
      invariant seen.Keys == set k | k in order
      invariant Holds(canon, contacts[..n], seen)
    {
      var contact := contacts[n];
      assert contacts[..n + 1] == contacts[..n] + [contact];
      StepHolds(canon, contacts[..n], contact, seen);
      StepOfAppend(canon, contacts[..n], contact, canon(contact.email));
      hide Holds, Merge, Keys;
      var email := canon(contact.email);
      if email !in seen {
        order := order + [email];
        seen := seen[email := contact];
      } else {
        var existing := seen[email];
        seen := seen[email := Merge(existing, contact)];
      }
    }
    assert contacts[..|contacts|] == contacts;
    result := [];
    for n := 0 to |order|
      invariant |result| == n && forall i :: 0 <= i < n ==> result[i] == Deduplicated(canon, contacts)[i]
    {
      hide *;
      HeldSurvivor(canon, contacts, seen, n);
      result := result + [seen[order[n]]];
    }
  }

  // ----- Laws -----

  ghost predicate DistinctKeys(canon: string -> string, xs: seq<Contact>) {
    forall i, j :: 0 <= i < j < |xs| ==> canon(xs[i].email) != canon(xs[j].email)
  }

  lemma {:induction false} KeysAreDistinct(canon: string -> string, xs: seq<Contact>)
    ensures forall i, j :: 0 <= i < j < |Keys(canon, xs)| ==> Keys(canon, xs)[i] != Keys(canon, xs)[j]
    ensures |Keys(canon, xs)| <= |xs|
    decreases |xs|
  {
    if xs != [] {
      KeysAreDistinct(canon, xs[..|xs| - 1]);
    }
  }

  lemma {:induction false} KeyOfMember(canon: string -> string, xs: seq<Contact>, x: Contact)
    requires x in xs
    ensures canon(x.email) in Keys(canon, xs)
    decreases |xs|
  {
    var n := |xs| - 1;
    if x != xs[n] {
      KeyOfMember(canon, xs[..n], x);
    }
  }

  /** Nobody is lost and nobody is invented: the result has exactly the input's keys, each once. */
  lemma ResultHasEachKeyOnce(canon: string -> string, xs: seq<Contact>)
    ensures DistinctKeys(canon, Deduplicated(canon, xs))
    ensures forall x :: x in xs ==> exists y :: y in Deduplicated(canon, xs) && canon(y.email) == canon(x.email)
  {
    var keys := Keys(canon, xs);
    var ys := Deduplicated(canon, xs);
    KeysAreDistinct(canon, xs);
    forall i | 0 <= i < |keys|
      ensures canon(ys[i].email) == keys[i]
    {
      SurvivorAt(canon, xs, keys, i);
      GroupOfKey(canon, xs, keys[i]);
      assert Group(canon, xs, keys[i])[0] in Group(canon, xs, keys[i]);
    }
    forall x | x in xs
      ensures exists y :: y in ys && canon(y.email) == canon(x.email)
    {
      KeyOfMember(canon, xs, x);
      var i :| 0 <= i < |keys| && keys[i] == canon(x.email);
      assert ys[i] in ys;
    }
  }

  lemma {:induction false} FreshKey(canon: string -> string, xs: seq<Contact>, key: string)
    requires forall c :: c in xs ==> canon(c.email) != key
    ensures key !in Keys(canon, xs)
    decreases |xs|
  {
    if xs != [] {
      FreshKey(canon, xs[..|xs| - 1], key);
    }
  }

  lemma {:induction false} DistinctListIsItsOwnGroups(canon: string -> string, xs: seq<Contact>, i: nat)
    requires DistinctKeys(canon, xs) && i < |xs|
    ensures |Keys(canon, xs)| == |xs| && Keys(canon, xs)[i] == canon(xs[i].email)
    ensures Group(canon, xs, canon(xs[i].email)) == [xs[i]]
    decreases |xs|
  {
    var n := |xs| - 1;
    var before := xs[..n];
    GroupOfKey(canon, before, canon(xs[n].email));
    if n > 0 {
      DistinctListIsItsOwnGroups(canon, before, if i < n then i else 0);
    }
    FreshKey(canon, before, canon(xs[n].email));
  }

  /** A list is left alone exactly when its keys are already distinct. */
  lemma FixedPointIffDistinct(canon: string -> string, xs: seq<Contact>)
    ensures Deduplicated(canon, xs) == xs <==> DistinctKeys(canon, xs)
  {
    ResultHasEachKeyOnce(canon, xs);
    if DistinctKeys(canon, xs) {
      if xs != [] {
        DistinctListIsItsOwnGroups(canon, xs, 0);
      }
      forall i | 0 <= i < |xs|
        ensures Deduplicated(canon, xs)[i] == xs[i]
      {
        DistinctListIsItsOwnGroups(canon, xs, i);
        SurvivorAt(canon, xs, Keys(canon, xs), i);
        CombinedSingleton(xs[i]);
      }
    }
  }

  lemma Idempotent(canon: string -> string, xs: seq<Contact>)
    ensures Deduplicated(canon, Deduplicated(canon, xs)) == Deduplicated(canon, xs)
  {
    ResultHasEachKeyOnce(canon, xs);
    FixedPointIffDistinct(canon, Deduplicated(canon, xs));
  }

  // ----- The result, from the input's own fields -----

  /** Contact number `m` is the first with this key. */
  predicate IsFirst(canon: string -> string, xs: seq<Contact>, key: string, m: int) {
    && 0 <= m < |xs| && canon(xs[m].email) == key
    && forall j :: 0 <= j < m ==> canon(xs[j].email) != key
  }

  /** `value` is what the first contact with this key that has the field has for it; None if none has. */
  ghost predicate IsFirstFilled(
    canon: string -> string, xs: seq<Contact>, key: string, get: Contact -> Option<string>, value: Option<string>)
  {
    if value.None? then forall m :: 0 <= m < |xs| && canon(xs[m].email) == key ==> get(xs[m]).None?
    else exists m :: 0 <= m < |xs| && canon(xs[m].email) == key && get(xs[m]) == value
           && forall j :: 0 <= j < m && canon(xs[j].email) == key ==> get(xs[j]).None?
  }

  lemma NothingFilled(f: Field)
    ensures FirstValue([], f) == None
  {
  }

  lemma {:induction false} FirstValueIsFirstFilled(canon: string -> string, xs: seq<Contact>, key: string, f: Field)
    ensures IsFirstFilled(canon, xs, key, (c: Contact) => FieldOf(c, f), FirstValue(Group(canon, xs, key), f))
    decreases |xs|
  {
    hide FieldOf, FirstValue;
    if xs == [] {
      NothingFilled(f);
    } else {
      var n := |xs| - 1;
      FirstValueIsFirstFilled(canon, xs[..n], key, f);
      FirstValueOfAppend(Group(canon, xs[..n], key), xs[n], f);
      assert Group(canon, xs[..n], key) + [] == Group(canon, xs[..n], key);
    }
  }

  lemma {:induction false} GroupHeadIsFirst(canon: string -> string, xs: seq<Contact>, key: string)
    requires Group(canon, xs, key) != []
    ensures exists m :: IsFirst(canon, xs, key, m) && xs[m] == Group(canon, xs, key)[0]
    decreases |xs|
  {
    var n := |xs| - 1;
    if Group(canon, xs[..n], key) != [] {
      GroupHeadIsFirst(canon, xs[..n], key);
      var m :| IsFirst(canon, xs[..n], key, m) && xs[..n][m] == Group(canon, xs[..n], key)[0];
      assert IsFirst(canon, xs, key, m);
    } else {
      forall j | 0 <= j < n
        ensures canon(xs[j].email) != key
      {
        GroupOfKey(canon, xs[..n], key);
        KeyOfMember(canon, xs[..n], xs[..n][j]);
      }
      assert IsFirst(canon, xs, key, n);
    }
  }

  /** `y` merges the contacts of its key: identity from the first, each other field from the first that has it. */
  ghost predicate MergesItsKey(canon: string -> string, xs: seq<Contact>, y: Contact) {
    var key := canon(y.email);
    && (exists m :: IsFirst(canon, xs, key, m) && xs[m].id == y.id && xs[m].workspaceId == y.workspaceId
          && xs[m].accountId == y.accountId && xs[m].email == y.email)
    && IsFirstFilled(canon, xs, key, (c: Contact) => c.firstName, y.firstName)
    && IsFirstFilled(canon, xs, key, (c: Contact) => c.lastName, y.lastName)
    && IsFirstFilled(canon, xs, key, (c: Contact) => c.role, y.role)
    && IsFirstFilled(canon, xs, key, (c: Contact) => c.linkedinUrl, y.linkedinUrl)
    && IsFirstFilled(canon, xs, key, (c: Contact) => c.phone, y.phone)
  }

  lemma SameGetter(
    canon: string -> string, xs: seq<Contact>, key: string, f: Contact -> Option<string>, g: Contact -> Option<string>,
    value: Option<string>)
    requires IsFirstFilled(canon, xs, key, f, value) && forall c :: f(c) == g(c)
    ensures IsFirstFilled(canon, xs, key, g, value)
  {
    if value.Some? {
      var m :| 0 <= m < |xs| && canon(xs[m].email) == key && f(xs[m]) == value
        && forall j :: 0 <= j < m && canon(xs[j].email) == key ==> f(xs[j]).None?;
      assert g(xs[m]) == value;
    } else {
      forall m | 0 <= m < |xs| && canon(xs[m].email) == key
        ensures g(xs[m]).None?
      {
        assert f(xs[m]).None?;
      }
    }
  }

  lemma FieldIsFirstFilled(
    canon: string -> string, xs: seq<Contact>, key: string, f: Field, g: Contact -> Option<string>)
    requires forall c :: FieldOf(c, f) == g(c)
    ensures IsFirstFilled(canon, xs, key, g, FirstValue(Group(canon, xs, key), f))
  {
    FirstValueIsFirstFilled(canon, xs, key, f);
    SameGetter(canon, xs, key, (c: Contact) => FieldOf(c, f), g, FirstValue(Group(canon, xs, key), f));
  }

  /** Key `k` first appears before key `l` does. */
  ghost predicate AppearsBefore(canon: string -> string, xs: seq<Contact>, k: string, l: string) {
    exists m, n :: m < n && IsFirst(canon, xs, k, m) && IsFirst(canon, xs, l, n)
  }

  lemma FirstInPrefix(canon: string -> string, xs: seq<Contact>, last: nat, key: string, m: int)
    requires last <= |xs| && IsFirst(canon, xs[..last], key, m)
    ensures IsFirst(canon, xs, key, m)
  {
    forall j | 0 <= j < m
      ensures canon(xs[j].email) != key
    {
      assert xs[..last][j] == xs[j];
    }
  }

  lemma {:induction false} KeysInOrder(canon: string -> string, xs: seq<Contact>, i: nat, j: nat)
    requires i < j < |Keys(canon, xs)|
    ensures AppearsBefore(canon, xs, Keys(canon, xs)[i], Keys(canon, xs)[j])
    decreases |xs|
  {
    var last := |xs| - 1;
    var before := Keys(canon, xs[..last]);
    if j < |before| {
      KeysInOrder(canon, xs[..last], i, j);
      var m, n :| m < n && IsFirst(canon, xs[..last], before[i], m) && IsFirst(canon, xs[..last], before[j], n);
      FirstInPrefix(canon, xs, last, before[i], m);
      FirstInPrefix(canon, xs, last, before[j], n);
      assert AppearsBefore(canon, xs, before[i], before[j]);
    } else {
      GroupOfKey(canon, xs[..last], before[i]);
      GroupHeadIsFirst(canon, xs[..last], before[i]);
      var m :| IsFirst(canon, xs[..last], before[i], m) && xs[..last][m] == Group(canon, xs[..last], before[i])[0];
      forall p | 0 <= p < last
        ensures canon(xs[p].email) != Keys(canon, xs)[j]
      {
        KeyOfMember(canon, xs[..last], xs[..last][p]);
      }
      FirstInPrefix(canon, xs, last, before[i], m);
      assert IsFirst(canon, xs, Keys(canon, xs)[j], last);
      assert AppearsBefore(canon, xs, Keys(canon, xs)[i], Keys(canon, xs)[j]);
    }
  }

  lemma KeyAt(canon: string -> string, xs: seq<Contact>, i: nat)
    requires i < |Deduplicated(canon, xs)|
    ensures i < |Keys(canon, xs)| && Group(canon, xs, Keys(canon, xs)[i]) != []
    ensures Deduplicated(canon, xs)[i] == Combined(Group(canon, xs, Keys(canon, xs)[i]))
    ensures canon(Deduplicated(canon, xs)[i].email) == Keys(canon, xs)[i]
  {
    var keys := Keys(canon, xs);
    SurvivorAt(canon, xs, keys, i);
    GroupOfKey(canon, xs, keys[i]);
    assert Group(canon, xs, keys[i])[0] in Group(canon, xs, keys[i]);
  }

  /**
   * The result, told from the input's own fields: every record merges the contacts of its key, and the
   * records stand in the order in which their keys first appear.
   */
  lemma {:induction false} ResultMergesEachKey(canon: string -> string, xs: seq<Contact>, i: nat)
    requires i < |Deduplicated(canon, xs)|
    ensures MergesItsKey(canon, xs, Deduplicated(canon, xs)[i])
    ensures forall j :: i < j < |Deduplicated(canon, xs)| ==>
              AppearsBefore(canon, xs, canon(Deduplicated(canon, xs)[i].email), canon(Deduplicated(canon, xs)[j].email))
  {
    hide IsFirstFilled, FirstValue, Group;
    var ys, keys := Deduplicated(canon, xs), Keys(canon, xs);
    KeyAt(canon, xs, i);
    var key := keys[i];
    GroupHeadIsFirst(canon, xs, key);
    FieldIsFirstFilled(canon, xs, key, FirstName, (c: Contact) => c.firstName);
    FieldIsFirstFilled(canon, xs, key, LastName, (c: Contact) => c.lastName);
    FieldIsFirstFilled(canon, xs, key, Role, (c: Contact) => c.role);
    FieldIsFirstFilled(canon, xs, key, LinkedinUrl, (c: Contact) => c.linkedinUrl);
    FieldIsFirstFilled(canon, xs, key, Phone, (c: Contact) => c.phone);
    forall j | i < j < |ys|
      ensures AppearsBefore(canon, xs, canon(ys[i].email), canon(ys[j].email))
    {
      KeyAt(canon, xs, j);
      KeysInOrder(canon, xs, i, j);
    }
  }
}
