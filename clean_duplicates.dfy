/**
  `clean_duplicate_records`: for every user, the history records of the same
  trip (same destination and number of days) are grouped, the newest one of
  each group is kept and the others are deleted, after a confirmation.
  The database is a sequence of rows; its queries are functions on it.
 */
module CleanDuplicates {
  import opened Seqs
  import opened Text

  /** One row of the itinerary history, reduced to the columns the cleanup reads. */
  datatype Record = Record(id: int, userId: int, destination: string, days: int, createdAt: int)

  /**
    The group key `f"{destination}_{days}"`. `str(days)` contains no `_`, so
    the string determines the pair and the pair can stand for it.
   */
  datatype GroupKey = GroupKey(destination: string, days: int)

  function KeyOf(r: Record): GroupKey
  {
    GroupKey(r.destination, r.days)
  }

  /** The primary key: no two rows share an id. */
  predicate DistinctIds(table: seq<Record>)
  {
    forall i, j :: 0 <= i < j < |table| ==> table[i].id != table[j].id
  }

  // ---------------------------------------------------------------------------
  // The queries

  function UserOf(r: Record): int
  {
    r.userId
  }

  function UserSeq(table: seq<Record>): (r: seq<int>)
    ensures |r| == |table| && forall i :: 0 <= i < |r| ==> r[i] == table[i].userId
  {
    if table == [] then [] else [table[0].userId] + UserSeq(table[1..])
  }

  /** `SELECT DISTINCT user_id`: every user with a record, once each. */
  function Users(table: seq<Record>): (r: seq<int>)
    ensures NoDup(r)
    ensures forall u :: u in r <==> exists x :: x in table && x.userId == u
  {
    var r := Dedup(UserSeq(table));
    assert forall u :: u in UserSeq(table) <==> exists x :: x in table && x.userId == u by {
      forall u ensures u in UserSeq(table) <==> exists x :: x in table && x.userId == u {
        if u in UserSeq(table) {
          var i :| 0 <= i < |table| && UserSeq(table)[i] == u;
          assert table[i] in table;
        }
        if exists x :: x in table && x.userId == u {
          var x :| x in table && x.userId == u;
          var i :| 0 <= i < |table| && table[i] == x;
          assert UserSeq(table)[i] == u;
        }
      }
    }
    r
  }

  /** Records in `created_at` descending order. */
  predicate NewestFirst(s: seq<Record>)
  {
    forall i, j :: 0 <= i < j < |s| ==> s[i].createdAt >= s[j].createdAt
  }

  /** Puts `r` in front of the first record that is not newer than it. */
  function Insert(r: Record, s: seq<Record>): seq<Record>
  {
    if s == [] || r.createdAt >= s[0].createdAt then [r] + s else [s[0]] + Insert(r, s[1..])
  }

  lemma {:induction false} InsertPermutes(r: Record, s: seq<Record>)
    ensures multiset(Insert(r, s)) == multiset(s) + multiset{r}
  {
    if s != [] && r.createdAt < s[0].createdAt {
      InsertPermutes(r, s[1..]);
      assert s == [s[0]] + s[1..];
    }
  }

  lemma {:induction false} InsertNewestFirst(r: Record, s: seq<Record>)
    requires NewestFirst(s)
    ensures NewestFirst(Insert(r, s))
  {
    if s != [] && r.createdAt < s[0].createdAt {
      var rest := Insert(r, s[1..]);
      InsertNewestFirst(r, s[1..]);
      InsertBelowHead(r, s);
      var t := [s[0]] + rest;
      forall i, j | 0 <= i < j < |t| ensures t[i].createdAt >= t[j].createdAt {
        if i == 0 {
          assert t[j] == rest[j - 1];
        } else {
          assert t[i] == rest[i - 1] && t[j] == rest[j - 1];
        }
      }
    }
  }

  /** Inserting an older record behind the head keeps everything behind the head no newer than it. */
  lemma InsertBelowHead(r: Record, s: seq<Record>)
    requires NewestFirst(s) && s != [] && r.createdAt < s[0].createdAt
    ensures forall k :: 0 <= k < |Insert(r, s[1..])| ==> Insert(r, s[1..])[k].createdAt <= s[0].createdAt
  {
    var rest := Insert(r, s[1..]);
    forall k | 0 <= k < |rest| ensures rest[k].createdAt <= s[0].createdAt {
      var x := rest[k];
      InsertPermutes(r, s[1..]);
      assert x in multiset(rest);
      if x != r {
        assert x in multiset(s[1..]);
        var m :| 0 <= m < |s[1..]| && s[1..][m] == x;
        assert s[m + 1] == x;
      }
    }
  }

  /**
    `ORDER BY created_at DESC`, stable: records created at the same time keep
    their table order.
   */
  function SortNewestFirst(s: seq<Record>): seq<Record>
  {
    if s == [] then [] else Insert(s[0], SortNewestFirst(s[1..]))
  }

  /** The sort is a permutation. */
  lemma {:induction false} SortPermutes(s: seq<Record>)
    ensures multiset(SortNewestFirst(s)) == multiset(s) && |SortNewestFirst(s)| == |s|
  {
    if s != [] {
      SortPermutes(s[1..]);
      InsertPermutes(s[0], SortNewestFirst(s[1..]));
      assert s == [s[0]] + s[1..];
    }
    assert |SortNewestFirst(s)| == |multiset(SortNewestFirst(s))|;
  }

  lemma {:induction false} SortIsNewestFirst(s: seq<Record>)
    ensures NewestFirst(SortNewestFirst(s))
  {
    if s != [] {
      SortIsNewestFirst(s[1..]);
      InsertNewestFirst(s[0], SortNewestFirst(s[1..]));
    }
  }

  /** The user's records, newest first (the per-user query). */
  function RecordsOf(table: seq<Record>, user: int): seq<Record>
  {
    SortNewestFirst(Filter(table, Matches(UserOf, user)))
  }

  // ---------------------------------------------------------------------------
  // Grouping

  /** The records of one group, in the order of `s`. */
  function Group(s: seq<Record>, k: GroupKey): seq<Record>
  {
    Filter(s, Matches(KeyOf, k))
  }

  function KeySeq(s: seq<Record>): (r: seq<GroupKey>)
    ensures |r| == |s| && forall i :: 0 <= i < |r| ==> r[i] == KeyOf(s[i])
  {
    if s == [] then [] else [KeyOf(s[0])] + KeySeq(s[1..])
  }

  /** The keys of the `groups` dict in insertion order: first occurrences in `s`. */
  function GroupKeys(s: seq<Record>): seq<GroupKey>
  {
    Dedup(KeySeq(s))
  }

  function Tail(g: seq<Record>): seq<Record>
  {
    if g == [] then [] else g[1..]
  }

  /** The records deleted from the groups `keys`: all but the first of each. */
  function Surplus(s: seq<Record>, keys: seq<GroupKey>): seq<Record>
  {
    if keys == [] then [] else Tail(Group(s, keys[0])) + Surplus(s, keys[1..])
  }

  /** The records deleted for one user. */
  function UserSurplus(table: seq<Record>, user: int): seq<Record>
  {
    var s := RecordsOf(table, user);
    Surplus(s, GroupKeys(s))
  }

  /** The records deleted for the users `users`, in that order. */
  function AllSurplus(table: seq<Record>, users: seq<int>): seq<Record>
  {
    if users == [] then [] else UserSurplus(table, users[0]) + AllSurplus(table, users[1..])
  }

  /** The records the cleanup deletes. */
  function Deleted(table: seq<Record>): seq<Record>
  {
    AllSurplus(table, Users(table))
  }

  function NotIn(deleted: seq<Record>): Record -> bool
  {
    (r: Record) => r !in deleted
  }

  lemma AllSurplusStep(table: seq<Record>, users: seq<int>, j: nat, queued: seq<Record>)
    requires j < |users|
    ensures queued + UserSurplus(table, users[j]) + AllSurplus(table, users[j + 1..])
         == queued + AllSurplus(table, users[j..])
  {
    assert AllSurplus(table, users[j..]) == UserSurplus(table, users[j]) + AllSurplus(table, users[j + 1..]) by {
      assert users[j..][0] == users[j] && users[j..][1..] == users[j + 1..];
    }
    AppendAssociative(queued, UserSurplus(table, users[j]), AllSurplus(table, users[j + 1..]));
  }

  datatype Outcome = Committed | RolledBack | NothingToDelete

  // ---------------------------------------------------------------------------
  // The imperative steps

  lemma GroupAt(records: seq<Record>, i: nat, k: GroupKey)
    requires i < |records|
    ensures Group(records[i..], k)
         == (if KeyOf(records[i]) == k then [records[i]] else []) + Group(records[i + 1..], k)
  {
    assert records[i..][0] == records[i] && records[i..][1..] == records[i + 1..];
  }

  lemma KeySeqAt(records: seq<Record>, i: nat, seen: set<GroupKey>)
    requires i < |records|
    ensures var key := KeyOf(records[i]);
      DedupBy(KeySeq(records[i..]), Identity, seen)
      == if key in seen then DedupBy(KeySeq(records[i + 1..]), Identity, seen)
         else [key] + DedupBy(KeySeq(records[i + 1..]), Identity, seen + {key})
  {
    assert records[i..][0] == records[i] && records[i..][1..] == records[i + 1..];
    assert KeySeq(records[i..])[0] == KeyOf(records[i]) && KeySeq(records[i..])[1..] == KeySeq(records[i + 1..]);
  }

  lemma SurplusAt(records: seq<Record>, keys: seq<GroupKey>, j: nat)
    requires j < |keys|
    ensures Surplus(records, keys[j..]) == Tail(Group(records, keys[j])) + Surplus(records, keys[j + 1..])
  {
    assert keys[j..][0] == keys[j] && keys[j..][1..] == keys[j + 1..];
  }

  lemma QueueStep(records: seq<Record>, keys: seq<GroupKey>, j: nat, queued: seq<Record>)
    requires j < |keys|
    ensures var group := Group(records, keys[j]);
      (if |group| > 1 then queued + group[1..] else queued) + Surplus(records, keys[j + 1..])
      == queued + Surplus(records, keys[j..])
  {
    SurplusAt(records, keys, j);
    var group := Group(records, keys[j]);
    if |group| > 1 {
      assert queued + group[1..] + Surplus(records, keys[j + 1..])
          == queued + (group[1..] + Surplus(records, keys[j + 1..]));
    }
  }

  /** One record of the grouping loop, for the dict's key order. */
  lemma KeyOrderStep(records: seq<Record>, i: nat, keys: seq<GroupKey>, seen: set<GroupKey>)
    requires i < |records|
    requires keys + DedupBy(KeySeq(records[i..]), Identity, seen) == GroupKeys(records)
    ensures var key := KeyOf(records[i]);
      (if key in seen then keys else keys + [key]) + DedupBy(KeySeq(records[i + 1..]), Identity, seen + {key})
      == GroupKeys(records)
  {
    var key := KeyOf(records[i]);
    KeySeqAt(records, i, seen);
    var rest := DedupBy(KeySeq(records[i + 1..]), Identity, seen + {key});
    if key !in seen {
      assert keys + [key] + rest == keys + ([key] + rest);
    } else {
      assert seen + {key} == seen;
    }
  }

  /** One record of the grouping loop, for the dict's lists. */
  lemma GroupStep(records: seq<Record>, i: nat, groups: map<GroupKey, seq<Record>>)
    requires i < |records|
    requires forall k :: (if k in groups then groups[k] else []) + Group(records[i..], k) == Group(records, k)
    ensures var key := KeyOf(records[i]);
      var groups' := groups[key := (if key in groups then groups[key] else []) + [records[i]]];
      forall k :: (if k in groups' then groups'[k] else []) + Group(records[i + 1..], k) == Group(records, k)
  {
    var record := records[i];
    var key := KeyOf(record);
    var prior := if key in groups then groups[key] else [];
    var groups' := groups[key := prior + [record]];
    forall k ensures (if k in groups' then groups'[k] else []) + Group(records[i + 1..], k) == Group(records, k) {
      GroupAt(records, i, k);
      if k == key {
        assert prior + [record] + Group(records[i + 1..], k) == prior + ([record] + Group(records[i + 1..], k));
      }
    }
  }

  /**
    The `groups` dict of one user's records: its keys in insertion order and
    each key's records in the order of `records`.
   */
  method GroupRecords(records: seq<Record>) returns (keys: seq<GroupKey>, groups: map<GroupKey, seq<Record>>)
    ensures keys == GroupKeys(records)
    ensures forall k :: k in groups <==> k in keys
    ensures forall k :: k in groups ==> groups[k] == Group(records, k)
  {
    keys, groups := [], map[];
    assert records[0..] == records && groups.Keys == {};
    assert GroupKeys(records) == DedupBy(KeySeq(records), Identity, {});
    for i := 0 to |records|
      invariant keys + DedupBy(KeySeq(records[i..]), Identity, groups.Keys) == GroupKeys(records)
      invariant forall k :: k in groups.Keys <==> k in keys
      invariant forall k :: (if k in groups then groups[k] else []) + Group(records[i..], k) == Group(records, k)
    {
      var record := records[i];
      var key := KeyOf(record);
      KeyOrderStep(records, i, keys, groups.Keys);
      GroupStep(records, i, groups);
      ghost var seen := groups.Keys;
      var prior := if key in groups then groups[key] else [];
      if key !in groups {
        keys := keys + [key];
      }
      groups := groups[key := prior + [record]];
      assert groups.Keys == seen + {key};
    }
    assert records[|records|..] == [];
  }

  /**
    The deletion loop over the groups: every record of a group but its first,
    group by group in key order.
   */
  method QueueSurplus(records: seq<Record>, keys: seq<GroupKey>, groups: map<GroupKey, seq<Record>>)
    returns (toDelete: seq<Record>)
    requires forall k :: k in keys ==> k in groups && groups[k] == Group(records, k)
    ensures toDelete == Surplus(records, keys)
  {
    toDelete := [];
    assert keys[0..] == keys;
    for j := 0 to |keys|
      invariant toDelete + Surplus(records, keys[j..]) == Surplus(records, keys)
    {
      var group := groups[keys[j]];
      QueueStep(records, keys, j, toDelete);
      if |group| > 1 {
        toDelete := toDelete + group[1..];
      }
    }
    assert keys[|keys|..] == [];
  }

  /** One user's pass: group the records (newest first) and queue the surplus of each group. */
  method FindSurplus(records: seq<Record>) returns (toDelete: seq<Record>)
    ensures toDelete == Surplus(records, GroupKeys(records))
  {
    var keys, groups := GroupRecords(records);
    toDelete := QueueSurplus(records, keys, groups);
  }

  /**
    `clean_duplicate_records` with the answer to the confirmation prompt as
    a parameter: returns the table afterwards, `total_deleted` and the outcome.
   */
  method CleanDuplicateRecords(table: seq<Record>, answer: string)
    returns (after: seq<Record>, deleted: seq<Record>, totalDeleted: nat, outcome: Outcome)
    ensures deleted == Deleted(table) && totalDeleted == |deleted|
    ensures outcome == (if totalDeleted == 0 then NothingToDelete
                        else if AsciiLower(answer) == "yes" then Committed else RolledBack)
    ensures after == (if outcome == Committed then Filter(table, NotIn(deleted)) else table)
  {
    var users := Users(table);
    deleted, totalDeleted := [], 0;
    assert users[0..] == users;
    for j := 0 to |users|
      invariant deleted + AllSurplus(table, users[j..]) == AllSurplus(table, users)
      invariant totalDeleted == |deleted|
    {
      AllSurplusStep(table, users, j, deleted);
      var records := RecordsOf(table, users[j]);
      var toDelete := FindSurplus(records);
      deleted, totalDeleted := deleted + toDelete, totalDeleted + |toDelete|;
    }
    assert users[|users|..] == [];
    if totalDeleted > 0 {
      if AsciiLower(answer) == "yes" {
        outcome, after := Committed, Filter(table, NotIn(deleted));
      } else {
        outcome, after := RolledBack, table;
      }
    } else {
      outcome, after := NothingToDelete, table;
    }
  }

  // ---------------------------------------------------------------------------
  // What the cleanup keeps and deletes

  lemma {:induction false} KeySeqMembers(s: seq<Record>)
    ensures forall k :: k in KeySeq(s) <==> exists x :: x in s && KeyOf(x) == k
  {
    forall k ensures k in KeySeq(s) <==> exists x :: x in s && KeyOf(x) == k {
      if k in KeySeq(s) {
        var i :| 0 <= i < |s| && KeySeq(s)[i] == k;
        assert s[i] in s;
      }
      if exists x :: x in s && KeyOf(x) == k {
        var x :| x in s && KeyOf(x) == k;
        var i :| 0 <= i < |s| && s[i] == x;
        assert KeySeq(s)[i] == k;
      }
    }
  }

  /** The dict's keys are the keys of the records, each once. */
  lemma GroupKeysMembers(s: seq<Record>)
    ensures NoDup(GroupKeys(s))
    ensures forall k :: k in GroupKeys(s) <==> exists x :: x in s && KeyOf(x) == k
  {
    KeySeqMembers(s);
  }

  lemma {:induction false} SurplusMembers(s: seq<Record>, keys: seq<GroupKey>)
    ensures forall x :: x in Surplus(s, keys) <==> KeyOf(x) in keys && x in Tail(Group(s, KeyOf(x)))
  {
    if keys != [] {
      SurplusMembers(s, keys[1..]);
      FilterMembers(s, Matches(KeyOf, keys[0]));
      var g := Group(s, keys[0]);
      assert forall x :: x in Tail(g) ==> x in g;
      assert forall x :: x in keys <==> x == keys[0] || x in keys[1..];
    }
  }

  lemma TailMembers(g: seq<Record>)
    requires NoDup(g)
    ensures forall x :: x in Tail(g) <==> x in g && x != g[0]
  {
    if g != [] {
      forall x | x in Tail(g) ensures x != g[0] {
        var i :| 0 <= i < |g[1..]| && g[1..][i] == x;
        assert g[i + 1] == x;
      }
      assert forall x :: x in g ==> x == g[0] || x in g[1..];
    }
  }

  /** The first record of the group of `s[i]` is the first record of `s` with that key. */
  lemma {:induction false} GroupHead(s: seq<Record>, i: nat)
    requires i < |s|
    ensures var g := Group(s, KeyOf(s[i]));
      g != [] && exists j :: 0 <= j <= i && g[0] == s[j]
                  && KeyOf(s[j]) == KeyOf(s[i]) && forall m :: 0 <= m < j ==> KeyOf(s[m]) != KeyOf(s[i])
  {
    var k := KeyOf(s[i]);
    if KeyOf(s[0]) == k {
      assert Group(s, k)[0] == s[0];
    } else {
      assert s[1..][i - 1] == s[i];
      GroupHead(s[1..], i - 1);
      assert Group(s, k) == Group(s[1..], k);
      var j :| 0 <= j <= i - 1 && Group(s[1..], k)[0] == s[1..][j]
               && KeyOf(s[1..][j]) == k && forall m :: 0 <= m < j ==> KeyOf(s[1..][m]) != k;
      assert Group(s, k)[0] == s[j + 1];
      forall m | 0 <= m < j + 1 ensures KeyOf(s[m]) != k {
        if m > 0 {
          assert s[m] == s[1..][m - 1];
        }
      }
    }
  }

  /** A record is surplus exactly when it is in the tail of its own group. */
  lemma SurplusIffInTail(s: seq<Record>, x: Record)
    requires x in s
    ensures x in Surplus(s, GroupKeys(s)) <==> x in Tail(Group(s, KeyOf(x)))
  {
    GroupKeysMembers(s);
    SurplusMembers(s, GroupKeys(s));
  }

  /** Without repeated records, a record is in the tail of its group exactly when it is not the group's head. */
  lemma InTailIffNotHead(s: seq<Record>, x: Record)
    requires NoDup(s) && x in s
    ensures Group(s, KeyOf(x)) != []
    ensures x in Tail(Group(s, KeyOf(x))) <==> x != Group(s, KeyOf(x))[0]
  {
    FilterMembers(s, Matches(KeyOf, KeyOf(x)));
    NoDupFilter(s, Matches(KeyOf, KeyOf(x)));
    TailMembers(Group(s, KeyOf(x)));
  }

  /**
    On one user's records, newest first: a record is deleted exactly when an
    earlier record (one no older than it) has the same destination and days.
   */
  lemma DeletedIffPreceded(s: seq<Record>, i: nat)
    requires NoDup(s) && i < |s|
    ensures s[i] in Surplus(s, GroupKeys(s)) <==> exists j :: 0 <= j < i && KeyOf(s[j]) == KeyOf(s[i])
  {
    var k := KeyOf(s[i]);
    assert s[i] in s;
    SurplusIffInTail(s, s[i]);
    InTailIffNotHead(s, s[i]);
    GroupHead(s, i);
    var j0 :| 0 <= j0 <= i && Group(s, k)[0] == s[j0] && KeyOf(s[j0]) == k && forall m :: 0 <= m < j0 ==> KeyOf(s[m]) != k;
    assert s[i] != Group(s, k)[0] <==> j0 < i;
  }

  /** The first record of a trip in `s` is not deleted. */
  lemma FirstOfTripStays(s: seq<Record>, j: nat)
    requires NoDup(s) && j < |s| && forall m :: 0 <= m < j ==> KeyOf(s[m]) != KeyOf(s[j])
    ensures s[j] !in Surplus(s, GroupKeys(s))
  {
    DeletedIffPreceded(s, j);
  }

  /** The first index of `s` whose record has the trip of `s[i]`. */
  lemma {:induction false} FirstOfTrip(s: seq<Record>, i: nat) returns (j: nat)
    requires i < |s|
    ensures j <= i && KeyOf(s[j]) == KeyOf(s[i])
    ensures forall m :: 0 <= m < j ==> KeyOf(s[m]) != KeyOf(s[i])
  {
    if i == 0 || KeyOf(s[0]) == KeyOf(s[i]) {
      j := 0;
    } else {
      assert s[1..][i - 1] == s[i];
      var j1 := FirstOfTrip(s[1..], i - 1);
      j := j1 + 1;
      forall m | 0 <= m < j ensures KeyOf(s[m]) != KeyOf(s[i]) {
        if m > 0 {
          assert s[m] == s[1..][m - 1];
        }
      }
    }
  }

  /** On one user's records: the newest record of every trip stays. */
  lemma NewestOfTripStays(s: seq<Record>, x: Record)
    requires NoDup(s) && NewestFirst(s) && x in s
    ensures exists y :: y in s && y !in Surplus(s, GroupKeys(s)) && KeyOf(y) == KeyOf(x) && y.createdAt >= x.createdAt
  {
    var i :| 0 <= i < |s| && s[i] == x;
    var j0 := FirstOfTrip(s, i);
    FirstOfTripStays(s, j0);
    assert s[j0].createdAt >= s[i].createdAt;
    assert s[j0] in s;
  }

  /** On one user's records: no two records of one trip both stay. */
  lemma OneOfTripStays(s: seq<Record>, y: Record, z: Record)
    requires NoDup(s) && y in s && z in s && y !in Surplus(s, GroupKeys(s)) && z !in Surplus(s, GroupKeys(s))
    requires KeyOf(y) == KeyOf(z)
    ensures y == z
  {
    var a :| 0 <= a < |s| && s[a] == y;
    var b :| 0 <= b < |s| && s[b] == z;
    DeletedIffPreceded(s, a);
    DeletedIffPreceded(s, b);
  }

  /** On one user's records: the only record of a trip stays. */
  lemma SingleOfTripStays(s: seq<Record>, x: Record)
    requires NoDup(s) && x in s && forall y :: y in s && KeyOf(y) == KeyOf(x) ==> y == x
    ensures x !in Surplus(s, GroupKeys(s))
  {
    var i :| 0 <= i < |s| && s[i] == x;
    DeletedIffPreceded(s, i);
    forall j | 0 <= j < i ensures KeyOf(s[j]) != KeyOf(s[i]) {
      assert s[j] in s && s[j] != s[i];
    }
  }

  lemma NoDupOfIds(table: seq<Record>)
    requires DistinctIds(table)
    ensures NoDup(table)
  {
  }

  /** A user's query returns that user's records and nothing else. */
  lemma RecordsOfMembers(table: seq<Record>, user: int)
    ensures forall x :: x in RecordsOf(table, user) <==> x in table && x.userId == user
    ensures NoDup(table) ==> NoDup(RecordsOf(table, user))
    ensures NewestFirst(RecordsOf(table, user))
  {
    var f := Filter(table, Matches(UserOf, user));
    FilterMembers(table, Matches(UserOf, user));
    SortPermutes(f);
    SortIsNewestFirst(f);
    assert forall x :: x in RecordsOf(table, user) <==> x in multiset(f);
    assert forall x :: Matches(UserOf, user)(x) == (x.userId == user);
    assert forall x :: x in f <==> x in table && x.userId == user;
    if NoDup(table) {
      NoDupFilter(table, Matches(UserOf, user));
      NoDupPermutation(f, RecordsOf(table, user));
    }
  }

  lemma {:induction false} SurplusWithin(s: seq<Record>, keys: seq<GroupKey>)
    ensures forall x :: x in Surplus(s, keys) ==> x in s
  {
    if keys != [] {
      SurplusWithin(s, keys[1..]);
      FilterMembers(s, Matches(KeyOf, keys[0]));
    }
  }

  lemma {:induction false} AllSurplusMembers(table: seq<Record>, users: seq<int>)
    ensures forall x :: x in AllSurplus(table, users) <==> x.userId in users && x in UserSurplus(table, x.userId)
  {
    if users != [] {
      AllSurplusMembers(table, users[1..]);
      forall u | u in users ensures forall x :: x in UserSurplus(table, u) ==> x.userId == u {
        RecordsOfMembers(table, u);
        SurplusWithin(RecordsOf(table, u), GroupKeys(RecordsOf(table, u)));
      }
      assert forall u :: u in users <==> u == users[0] || u in users[1..];
    }
  }

  /**
    Records of different users are never compared: a record is deleted
    exactly when its own user's pass deletes it.
   */
  lemma DeletedMembers(table: seq<Record>)
    ensures forall x :: x in Deleted(table) <==> x in table && x in UserSurplus(table, x.userId)
  {
    AllSurplusMembers(table, Users(table));
    forall x: Record | x in UserSurplus(table, x.userId) ensures x in table {
      RecordsOfMembers(table, x.userId);
      SurplusWithin(RecordsOf(table, x.userId), GroupKeys(RecordsOf(table, x.userId)));
    }
  }

  /** The rows left after a committed cleanup. */
  function Survivors(table: seq<Record>): seq<Record>
  {
    Filter(table, NotIn(Deleted(table)))
  }

  predicate SameTrip(x: Record, y: Record)
  {
    x.userId == y.userId && KeyOf(x) == KeyOf(y)
  }

  lemma SurvivorMembers(table: seq<Record>)
    ensures forall x :: x in Survivors(table) <==> x in table && x !in UserSurplus(table, x.userId)
  {
    DeletedMembers(table);
    FilterMembers(table, NotIn(Deleted(table)));
  }

  /** After a committed cleanup every trip of every user keeps a row, and it is the newest. */
  lemma KeepsTheNewest(table: seq<Record>)
    requires DistinctIds(table)
    ensures forall x :: x in table ==> exists y :: y in Survivors(table) && SameTrip(y, x) && y.createdAt >= x.createdAt
  {
    NoDupOfIds(table);
    SurvivorMembers(table);
    forall x | x in table ensures exists y :: y in Survivors(table) && SameTrip(y, x) && y.createdAt >= x.createdAt {
      RecordsOfMembers(table, x.userId);
      NewestOfTripStays(RecordsOf(table, x.userId), x);
      var y :| y in RecordsOf(table, x.userId) && y !in UserSurplus(table, x.userId)
               && KeyOf(y) == KeyOf(x) && y.createdAt >= x.createdAt;
      assert y in Survivors(table);
    }
  }

  /** After a committed cleanup no trip of any user has two rows. */
  lemma KeepsOnlyOne(table: seq<Record>)
    requires DistinctIds(table)
    ensures forall y, z :: y in Survivors(table) && z in Survivors(table) && SameTrip(y, z) ==> y == z
  {
    NoDupOfIds(table);
    SurvivorMembers(table);
    forall y, z | y in Survivors(table) && z in Survivors(table) && SameTrip(y, z) ensures y == z {
      RecordsOfMembers(table, y.userId);
      OneOfTripStays(RecordsOf(table, y.userId), y, z);
    }
  }

  /** A trip with a single row (a group of size 1) is never touched. */
  lemma SingleRowsStay(table: seq<Record>)
    requires DistinctIds(table)
    ensures forall x :: x in table && (forall y :: y in table && SameTrip(y, x) ==> y == x) ==> x in Survivors(table)
  {
    NoDupOfIds(table);
    SurvivorMembers(table);
    forall x | x in table && (forall y :: y in table && SameTrip(y, x) ==> y == x) ensures x in Survivors(table) {
      RecordsOfMembers(table, x.userId);
      SingleOfTripStays(RecordsOf(table, x.userId), x);
    }
  }

  // ---------------------------------------------------------------------------
  // How many records are deleted

  lemma {:induction false} SurplusSize(s: seq<Record>, keys: seq<GroupKey>)
    requires forall k :: k in keys ==> Group(s, k) != []
    ensures |Surplus(s, keys)| + |keys| == ClassSizes(s, KeyOf, keys)
  {
    if keys != [] {
      SurplusSize(s, keys[1..]);
    }
  }

  /** One user's pass deletes the user's records minus the number of distinct trips. */
  lemma UserSurplusSize(s: seq<Record>)
    ensures |Surplus(s, GroupKeys(s))| == |s| - |GroupKeys(s)|
  {
    var keys := GroupKeys(s);
    GroupKeysMembers(s);
    forall k | k in keys ensures Group(s, k) != [] {
      var x :| x in s && KeyOf(x) == k;
      FilterMembers(s, Matches(KeyOf, k));
      assert x in Group(s, k);
    }
    SurplusSize(s, keys);
    ClassSizesPartition(s, KeyOf, keys);
  }

  /** The number of distinct trips of each user in `users`, added up. */
  function TripCount(table: seq<Record>, users: seq<int>): nat
  {
    if users == [] then 0 else |GroupKeys(RecordsOf(table, users[0]))| + TripCount(table, users[1..])
  }

  lemma {:induction false} AllSurplusSize(table: seq<Record>, users: seq<int>)
    ensures |AllSurplus(table, users)| + TripCount(table, users) == ClassSizes(table, UserOf, users)
  {
    if users != [] {
      AllSurplusSize(table, users[1..]);
      UserSurplusSize(RecordsOf(table, users[0]));
      SortPermutes(Filter(table, Matches(UserOf, users[0])));
    }
  }

  /**
    `total_deleted` is the number of records minus the number of distinct
    (user, destination, days) trips.
   */
  lemma DeletedCount(table: seq<Record>)
    ensures |Deleted(table)| == |table| - TripCount(table, Users(table))
  {
    AllSurplusSize(table, Users(table));
    ClassSizesPartition(table, UserOf, Users(table));
  }
}
