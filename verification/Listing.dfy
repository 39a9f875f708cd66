/** Listing the in-memory store: filter, copy, sort in place by creation time, truncate.

    A Go map is ranged over in an arbitrary order, which is a parameter here.
 */
module Listing {
  import opened Entity
  import opened Storage

  /** `status` is "" for all statuses; a limit that is not positive means the default. */
  datatype ListFilter = ListFilter(status: string, limit: int)

  const DEFAULT_LIMIT: nat := 50

  function LimitOf(f: ListFilter): nat {
    if f.limit <= 0 then DEFAULT_LIMIT else f.limit
  }

  predicate Wanted(f: ListFilter, p: Snapshot) {
    f.status == "" || p.status.Text() == f.status
  }

  function IfWanted(f: ListFilter, p: Snapshot): seq<Snapshot> {
    if Wanted(f, p) then [p] else []
  }

  /** The stored payments that match, in the order given. */
  function Matches(f: ListFilter, all: seq<Snapshot>): seq<Snapshot> {
    if all == [] then [] else IfWanted(f, all[0]) + Matches(f, all[1..])
  }

  ghost predicate NewestFirst(s: seq<Snapshot>) {
    forall i, j | 0 <= i < j < |s| :: s[i].createdAt >= s[j].createdAt
  }

  /** What a listing promises: newest first, as many as fit, taken from the matching
      payments, and nothing omitted is newer than anything returned. */
  ghost predicate IsListing(f: ListFilter, stored: multiset<Snapshot>, result: seq<Snapshot>, omitted: seq<Snapshot>) {
    && NewestFirst(result)
    && stored == multiset(result) + multiset(omitted)
    && |result| == (if |stored| <= LimitOf(f) then |stored| else LimitOf(f))
    && forall i, j | 0 <= i < |result| && 0 <= j < |omitted| :: result[i].createdAt >= omitted[j].createdAt
  }

  ghost function Values(s: seq<Payment>): seq<Snapshot>
    reads s
  {
    seq(|s|, i requires 0 <= i < |s| reads s => s[i].Value())
  }

  /** `s` is `t` in another order: the same pointers, as often. */
  ghost predicate Reordered(s: seq<Payment>, t: seq<Payment>) {
    |s| == |t| && multiset(s) == multiset(t)
  }

  function Without<T>(s: seq<T>, j: nat): seq<T>
    requires j < |s|
  {
    s[..j] + s[j + 1..]
  }

  lemma TakeOut<T>(s: seq<T>, j: nat)
    requires j < |s|
    ensures multiset(s) == multiset(Without(s, j)) + multiset{s[j]}
  {
    assert s == s[..j] + [s[j]] + s[j + 1..];
  }

  lemma ValuesWithout(s: seq<Payment>, j: nat)
    requires j < |s|
    ensures Values(Without(s, j)) == Without(Values(s), j)
    ensures multiset(Values(s)) == multiset(Values(Without(s, j))) + multiset{s[j].Value()}
  {
    TakeOut(Values(s), j);
  }

  /** The same pointers in another order have the same values in another order. */
  lemma {:induction false} ReorderedValues(s: seq<Payment>, t: seq<Payment>)
    requires Reordered(s, t)
    ensures multiset(Values(s)) == multiset(Values(t))
    decreases |s|
  {
    if s == [] {
      assert Values(s) == Values(t);
    } else {
      assert s[0] in multiset(t);
      var j :| 0 <= j < |t| && t[j] == s[0];
      TakeOut(s, 0);
      TakeOut(t, j);
      assert multiset(Without(s, 0)) == multiset(s) - multiset{s[0]} == multiset(Without(t, j));
      ReorderedValues(Without(s, 0), Without(t, j));
      ValuesWithout(s, 0);
      ValuesWithout(t, j);
    }
  }

  lemma SameElements(s: seq<Payment>, t: seq<Payment>)
    requires Reordered(s, t)
    ensures forall i | 0 <= i < |s| :: s[i] in t
  {
    forall i | 0 <= i < |s|
      ensures s[i] in t
    {
      assert s[i] in multiset(s);
    }
  }

  lemma SwapReorders(s: seq<Payment>, i: int, j: int)
    requires 0 <= i < j < |s|
    ensures Reordered(s[i := s[j]][j := s[i]], s)
  {
  }

  /** The creation times of the payments pointed to. */
  ghost function Times(s: seq<Payment>): seq<int>
    reads s
  {
    seq(|s|, i requires 0 <= i < |s| reads s => s[i].createdAt)
  }

  function Exchanged<T>(s: seq<T>, i: int, j: int): seq<T>
    requires 0 <= i < j < |s|
  {
    s[i := s[j]][j := s[i]]
  }

  method Exchange(a: array<Payment>, i: int, j: int)
    requires 0 <= i < j < a.Length
    modifies a
    ensures a[..] == Exchanged(old(a[..]), i, j)
    ensures Times(a[..]) == Exchanged(old(Times(a[..])), i, j)
    ensures Reordered(a[..], old(a[..]))
  {
    SwapReorders(a[..], i, j);
    a[i], a[j] := a[j], a[i];
  }

  /** Everything before position i is newest first and no older than anything after it. */
  ghost predicate SortedUpTo(times: seq<int>, i: int) {
    forall k, l | 0 <= k < i && k < l < |times| :: times[k] >= times[l]
  }

  /** The element at i is no older than those after it, up to j. */
  ghost predicate NewestOf(times: seq<int>, i: int, j: int)
    requires 0 <= i < j <= |times|
  {
    forall l | i < l < j :: times[i] >= times[l]
  }

  /** Exchanging two elements after the sorted part keeps it sorted, and brings the newer one forward. */
  lemma ExchangeBringsNewer(times: seq<int>, i: int, j: int)
    requires 0 <= i < j < |times| && SortedUpTo(times, i) && NewestOf(times, i, j) && times[j] > times[i]
    ensures SortedUpTo(Exchanged(times, i, j), i) && NewestOf(Exchanged(times, i, j), i, j + 1)
  {
  }

  /** One step of the inner loop: put the newer of the elements at i and j at i. */
  method ExchangeIfNewer(a: array<Payment>, i: int, j: int)
    requires 0 <= i < j < a.Length
    requires SortedUpTo(Times(a[..]), i) && NewestOf(Times(a[..]), i, j)
    modifies a
    ensures Reordered(a[..], old(a[..]))
    ensures SortedUpTo(Times(a[..]), i) && NewestOf(Times(a[..]), i, j + 1)
  {
    ghost var times := Times(a[..]);
    assert times[i] == a[i].createdAt && times[j] == a[j].createdAt;
    if a[j].createdAt > a[i].createdAt {
      ExchangeBringsNewer(times, i, j);
      Exchange(a, i, j);
    }
  }

  /** The inner loop: bring the newest of the rest to position i. */
  method BringNewest(a: array<Payment>, i: int)
    requires 0 <= i < a.Length && SortedUpTo(Times(a[..]), i)
    modifies a
    ensures Reordered(a[..], old(a[..]))
    ensures SortedUpTo(Times(a[..]), i + 1)
  {
    var j := i + 1;
    while j < a.Length
      invariant i < j <= a.Length
      invariant Reordered(a[..], old(a[..]))
      invariant SortedUpTo(Times(a[..]), i) && NewestOf(Times(a[..]), i, j)
    {
      ExchangeIfNewer(a, i, j);
      j := j + 1;
    }
  }

  /** The exchange sort of the source, on pointers. */
  method SortNewestFirst(a: array<Payment>)
    modifies a
    ensures Reordered(a[..], old(a[..]))
    ensures SortedUpTo(Times(a[..]), a.Length)
  {
    var i := 0;
    while i < a.Length - 1
      invariant 0 <= i <= a.Length
      invariant Reordered(a[..], old(a[..]))
      invariant SortedUpTo(Times(a[..]), i)
    {
      BringNewest(a, i);
      i := i + 1;
    }
  }

  /** The map is visited in this order, each payment once. */
  ghost predicate Enumerates(order: seq<string>, ids: set<string>) {
    && (forall id :: id in order <==> id in ids)
    && (forall i, j | 0 <= i < j < |order| :: order[i] != order[j])
  }

  /** The stored payments in the order in which the map is visited. */
  function Visited(m: map<string, Snapshot>, order: seq<string>): (all: seq<Snapshot>)
    requires forall id | id in order :: id in m
  {
    seq(|order|, i requires 0 <= i < |order| => m[order[i]])
  }

  /** The stored pointers, in the order in which the map is visited. */
  method Ranged(repo: Repository, order: seq<string>) returns (stored: seq<Payment>)
    requires repo.Valid() && repo.inMemory && Enumerates(order, repo.payments.Keys)
    ensures |stored| == |order| && forall i | 0 <= i < |order| :: order[i] in repo.payments && stored[i] == repo.payments[order[i]]
    ensures Values(stored) == Visited(old(repo.Contents()).payments, order)
  {
    stored := [];
    var i := 0;
    while i < |order|
      invariant i <= |order| && |stored| == i
      invariant forall j | 0 <= j < i :: stored[j] == repo.payments[order[j]]
    {
      stored := stored + [repo.payments[order[i]]];
      i := i + 1;
    }
  }

  /** New copies of the stored payments that match, in map order. */
  method CopyMatches(stored: seq<Payment>, f: ListFilter) returns (copies: seq<Payment>)
    ensures forall p | p in copies :: fresh(p)
    ensures Values(copies) == Matches(f, Values(stored))
  {
    copies := [];
    ghost var values, done := Values(stored), [];
    var i := 0;
    while i < |stored|
      invariant i <= |stored| == |values|
      invariant forall p | p in copies :: fresh(p)
      invariant Values(stored) == values
      invariant Values(copies) == done
      invariant done + Matches(f, values[i..]) == Matches(f, values)
    {
      MatchesStep(f, values, i, done);
      copies := AppendIfWanted(copies, stored[i], f);
      done := done + IfWanted(f, values[i]);
      i := i + 1;
    }
    assert Matches(f, values[i..]) == [];
  }

  /** Skip the payment, or append a new copy of it. */
  method AppendIfWanted(copies: seq<Payment>, p: Payment, f: ListFilter) returns (longer: seq<Payment>)
    ensures forall q | q in longer :: q in copies || fresh(q)
    ensures Values(longer) == old(Values(copies)) + IfWanted(f, old(p.Value()))
  {
    longer := copies;
    if f.status == "" || p.status.Text() == f.status {
      var cp := new Payment(p.Value());
      longer := copies + [cp];
    }
  }

  lemma MatchesStep(f: ListFilter, values: seq<Snapshot>, i: nat, before: seq<Snapshot>)
    requires i < |values|
    ensures before + Matches(f, values[i..]) == before + IfWanted(f, values[i]) + Matches(f, values[i + 1..])
  {
    assert values[i..][1..] == values[i + 1..];
  }

  method Sorted(copies: seq<Payment>) returns (sorted: seq<Payment>)
    ensures Reordered(sorted, copies) && SortedUpTo(Times(sorted), |sorted|)
    ensures Values(copies) == old(Values(copies))
    ensures multiset(Values(sorted)) == multiset(Values(copies))
    ensures forall i | 0 <= i < |sorted| :: sorted[i] in copies
  {
    var a := new Payment[|copies|](k requires 0 <= k < |copies| => copies[k]);
    assert a[..] == copies;
    SortNewestFirst(a);
    sorted := a[..];
    ReorderedValues(sorted, copies);
    SameElements(sorted, copies);
  }

  /** Cutting values that are newest first gives a listing. */
  lemma CutLists(f: ListFilter, values: seq<Snapshot>, kept: nat)
    requires NewestFirst(values)
    requires kept == if |values| <= LimitOf(f) then |values| else LimitOf(f)
    ensures IsListing(f, multiset(values), values[..kept], values[kept..])
  {
    assert values == values[..kept] + values[kept..];
  }

  /** Cutting a sorted list gives a listing. */
  lemma TruncationLists(f: ListFilter, sorted: seq<Payment>, kept: nat)
    requires SortedUpTo(Times(sorted), |sorted|)
    requires kept == if |sorted| <= LimitOf(f) then |sorted| else LimitOf(f)
    ensures IsListing(f, multiset(Values(sorted)), Values(sorted[..kept]), Values(sorted[kept..]))
  {
    var values := Values(sorted);
    assert forall i | 0 <= i < |sorted| :: values[i].createdAt == Times(sorted)[i];
    CutLists(f, values, kept);
    assert Values(sorted[..kept]) == values[..kept] && Values(sorted[kept..]) == values[kept..];
  }

  /** The first of a sorted list, as many as the limit allows. */
  method Truncated(sorted: seq<Payment>, f: ListFilter) returns (result: seq<Payment>, ghost omitted: seq<Snapshot>)
    requires SortedUpTo(Times(sorted), |sorted|)
    ensures forall i | 0 <= i < |result| :: result[i] in sorted
    ensures IsListing(f, multiset(Values(sorted)), Values(result), omitted)
  {
    var limit := if f.limit <= 0 then DEFAULT_LIMIT else f.limit;
    var kept := if |sorted| > limit then limit else |sorted|;
    TruncationLists(f, sorted, kept);
    result, omitted := sorted[..kept], Values(sorted[kept..]);
  }

  /** Filter and copy, sort, truncate. */
  method ListStored(stored: seq<Payment>, ghost values: seq<Snapshot>, f: ListFilter)
    returns (result: seq<Payment>, ghost omitted: seq<Snapshot>)
    requires Values(stored) == values
    ensures fresh(result)
    ensures IsListing(f, multiset(Matches(f, values)), Values(result), omitted)
  {
    var copies := CopyMatches(stored, f);
    var sorted := Sorted(copies);
    result, omitted := Truncated(sorted, f);
  }

  /** ListPayments: the result is a list of new objects, none of them in the store: the newest
      of the payments asked for, as many as the limit allows. */
  method ListPayments(repo: Repository, order: seq<string>, f: ListFilter) returns (result: seq<Payment>, ghost omitted: seq<Snapshot>)
    requires repo.Valid() && repo.inMemory && Enumerates(order, repo.payments.Keys)
    ensures fresh(result)
    ensures IsListing(f, multiset(Matches(f, Visited(old(repo.Contents()).payments, order))), Values(result), omitted)
    ensures Lists(f, old(repo.Contents()).payments, Values(result))
  {
    ghost var values := Visited(repo.Contents().payments, order);
    ghost var m := repo.Contents().payments;
    FiledByID(repo);
    var stored := Ranged(repo, order);
    result, omitted := ListStored(stored, values, f);
    ListingLists(f, m, order, Values(result), omitted);
  }

  lemma FiledByID(repo: Repository)
    requires repo.Valid() && repo.inMemory
    ensures forall id | id in repo.Contents().payments :: repo.Contents().payments[id].id == id
  {
  }

  // ----- What is listed, told of the store -----

  /** The status is one asked for by this name; the empty name asks for all. */
  predicate Asked(name: string, status: Status) {
    match status
    case Pending => name == "" || name == "pending"
    case Processing => name == "" || name == "processing"
    case Completed => name == "" || name == "completed"
    case Failed => name == "" || name == "failed"
    case Cancelled => name == "" || name == "cancelled"
  }

  /** The stored payments asked for. */
  function AskedFor(m: map<string, Snapshot>, name: string): set<string> {
    set id | id in m && Asked(name, m[id].status)
  }

  /** Those among these ids. */
  function AskedAmong(m: map<string, Snapshot>, ids: set<string>, name: string): set<string>
    requires ids <= m.Keys
  {
    set id | id in ids && Asked(name, m[id].status)
  }

  /** Fifty, unless a positive limit is given. */
  function Room(limit: int): nat {
    if limit > 0 then limit else 50
  }

  /** The list holds stored payments that were asked for, each once, newest first; as many as
      there are or as there is room for; and whichever is missing is no newer than any of it. */
  ghost predicate Lists(f: ListFilter, m: map<string, Snapshot>, r: seq<Snapshot>) {
    && (forall i | 0 <= i < |r| :: r[i].id in AskedFor(m, f.status) && m[r[i].id] == r[i])
    && (forall i, j | 0 <= i < j < |r| :: r[i].id != r[j].id && r[i].createdAt >= r[j].createdAt)
    && |r| == (if |AskedFor(m, f.status)| <= Room(f.limit) then |AskedFor(m, f.status)| else Room(f.limit))
    && (forall id | id in AskedFor(m, f.status) && m[id] !in r :: forall i | 0 <= i < |r| :: r[i].createdAt >= m[id].createdAt)
  }

  lemma WantedIffAsked(f: ListFilter, p: Snapshot)
    ensures Wanted(f, p) <==> Asked(f.status, p.status)
  {
  }

  lemma AskedSplits(name: string, m: map<string, Snapshot>, ids: set<string>, first: string)
    requires ids <= m.Keys && first in ids
    ensures |AskedAmong(m, ids, name)|
            == |AskedAmong(m, ids - {first}, name)| + (if Asked(name, m[first].status) then 1 else 0)
  {
    var here := AskedAmong(m, ids, name);
    var there := AskedAmong(m, ids - {first}, name);
    assert here == if Asked(name, m[first].status) then there + {first} else there;
  }

  lemma {:induction false} MatchesNumber(f: ListFilter, m: map<string, Snapshot>, order: seq<string>, ids: set<string>)
    requires Enumerates(order, ids) && ids <= m.Keys
    ensures |Matches(f, Visited(m, order))| == |AskedAmong(m, ids, f.status)|
    decreases |order|
  {
    if order == [] {
      assert AskedAmong(m, ids, f.status) == {};
    } else {
      EnumeratesRest(order, ids);
      MatchesNumber(f, m, order[1..], ids - {order[0]});
      WantedIffAsked(f, m[order[0]]);
      AskedSplits(f.status, m, ids, order[0]);
      assert Visited(m, order)[1..] == Visited(m, order[1..]);
    }
  }

  lemma HeldOnce(m: map<string, Snapshot>, p: Snapshot)
    requires forall id | id in m :: m[id].id == id
    ensures |Holding(m, m.Keys, p)| == if p.id in m && m[p.id] == p then 1 else 0
  {
    assert Holding(m, m.Keys, p) == if p.id in m && m[p.id] == p then {p.id} else {};
  }

  /** Each stored payment that was asked for is among the matches exactly once, and nothing else is. */
  lemma MatchesOnce(f: ListFilter, m: map<string, Snapshot>, order: seq<string>, p: Snapshot)
    requires Enumerates(order, m.Keys) && forall id | id in m :: m[id].id == id
    ensures multiset(Matches(f, Visited(m, order)))[p] == if p.id in AskedFor(m, f.status) && m[p.id] == p then 1 else 0
  {
    MatchesCount(f, Visited(m, order), p);
    VisitedCount(m, order, m.Keys, p);
    WantedIffAsked(f, p);
    HeldOnce(m, p);
  }

  lemma TwiceCounts(r: seq<Snapshot>, i: nat, j: nat)
    requires i < j < |r| && r[i] == r[j]
    ensures multiset(r)[r[i]] >= 2
  {
    assert r == r[..j] + [r[j]] + r[j + 1..];
    assert r[i] in r[..j];
  }

  lemma ListedOnce(f: ListFilter, m: map<string, Snapshot>, order: seq<string>, r: seq<Snapshot>, o: seq<Snapshot>, i: nat)
    requires Enumerates(order, m.Keys) && forall id | id in m :: m[id].id == id
    requires IsListing(f, multiset(Matches(f, Visited(m, order))), r, o) && i < |r|
    ensures r[i].id in AskedFor(m, f.status) && m[r[i].id] == r[i] && multiset(r)[r[i]] == 1
  {
    MatchesOnce(f, m, order, r[i]);
    assert r[i] in multiset(r);
  }

  lemma OmittedIsOlder(f: ListFilter, m: map<string, Snapshot>, order: seq<string>, r: seq<Snapshot>, o: seq<Snapshot>, id: string)
    requires Enumerates(order, m.Keys) && forall id | id in m :: m[id].id == id
    requires IsListing(f, multiset(Matches(f, Visited(m, order))), r, o)
    requires id in AskedFor(m, f.status) && m[id] !in r
    ensures forall i | 0 <= i < |r| :: r[i].createdAt >= m[id].createdAt
  {
    MatchesOnce(f, m, order, m[id]);
    assert m[id] in multiset(o);
  }

  lemma ListedDistinct(f: ListFilter, m: map<string, Snapshot>, order: seq<string>, r: seq<Snapshot>, o: seq<Snapshot>, i: nat, j: nat)
    requires Enumerates(order, m.Keys) && forall id | id in m :: m[id].id == id
    requires IsListing(f, multiset(Matches(f, Visited(m, order))), r, o) && i < j < |r|
    ensures r[i].id != r[j].id
  {
    ListedOnce(f, m, order, r, o, i);
    ListedOnce(f, m, order, r, o, j);
    if r[i] == r[j] {
      TwiceCounts(r, i, j);
    }
  }

  lemma AskedNumber(f: ListFilter, m: map<string, Snapshot>, order: seq<string>)
    requires Enumerates(order, m.Keys)
    ensures |multiset(Matches(f, Visited(m, order)))| == |AskedFor(m, f.status)|
  {
    MatchesNumber(f, m, order, m.Keys);
    assert AskedFor(m, f.status) == AskedAmong(m, m.Keys, f.status);
  }

  lemma ListingIsDistinct(f: ListFilter, m: map<string, Snapshot>, order: seq<string>, r: seq<Snapshot>, o: seq<Snapshot>)
    requires Enumerates(order, m.Keys) && forall id | id in m :: m[id].id == id
    requires IsListing(f, multiset(Matches(f, Visited(m, order))), r, o)
    ensures forall i | 0 <= i < |r| :: r[i].id in AskedFor(m, f.status) && m[r[i].id] == r[i]
    ensures forall i, j | 0 <= i < j < |r| :: r[i].id != r[j].id
  {
    forall i | 0 <= i < |r|
      ensures r[i].id in AskedFor(m, f.status) && m[r[i].id] == r[i]
    {
      ListedOnce(f, m, order, r, o, i);
    }
    forall i, j | 0 <= i < j < |r|
      ensures r[i].id != r[j].id
    {
      ListedDistinct(f, m, order, r, o, i, j);
    }
  }

  lemma ListingLists(f: ListFilter, m: map<string, Snapshot>, order: seq<string>, r: seq<Snapshot>, o: seq<Snapshot>)
    requires Enumerates(order, m.Keys) && forall id | id in m :: m[id].id == id
    requires IsListing(f, multiset(Matches(f, Visited(m, order))), r, o)
    ensures Lists(f, m, r)
  {
    AskedNumber(f, m, order);
    ListingIsDistinct(f, m, order, r, o);
    forall id | id in AskedFor(m, f.status) && m[id] !in r
      ensures forall i | 0 <= i < |r| :: r[i].createdAt >= m[id].createdAt
    {
      OmittedIsOlder(f, m, order, r, o, id);
    }
  }

  /** By status "completed" only completed payments are listed, and so on; without a status and
      with room, every stored payment is. */
  lemma ListsByName(f: ListFilter, m: map<string, Snapshot>, r: seq<Snapshot>)
    requires Lists(f, m, r)
    ensures forall i | 0 <= i < |r| ::
              && (f.status == "pending" ==> r[i].status == Pending)
              && (f.status == "processing" ==> r[i].status == Processing)
              && (f.status == "completed" ==> r[i].status == Completed)
              && (f.status == "failed" ==> r[i].status == Failed)
              && (f.status == "cancelled" ==> r[i].status == Cancelled)
    ensures f.status == "" && |m| <= Room(f.limit) ==> forall id | id in m :: m[id] in r
  {
    forall i | 0 <= i < |r|
      ensures Asked(f.status, r[i].status)
    {
      assert r[i].id in AskedFor(m, f.status);
    }
    if f.status == "" && |m| <= Room(f.limit) {
      assert AskedFor(m, "") == m.Keys;
      var listed := set i | 0 <= i < |r| :: r[i].id;
      IDsOf(r);
      SubsetOfSameSize(listed, m.Keys);
      forall id | id in m
        ensures m[id] in r
      {
        assert id in listed;
      }
    }
  }

  lemma {:induction false} IDsOf(r: seq<Snapshot>)
    requires forall i, j | 0 <= i < j < |r| :: r[i].id != r[j].id
    ensures |set i | 0 <= i < |r| :: r[i].id| == |r|
    decreases |r|
  {
    var ids := set i | 0 <= i < |r| :: r[i].id;
    if r == [] {
      assert ids == {};
    } else {
      var last := |r| - 1;
      var before := set i | 0 <= i < |r[..last]| :: r[..last][i].id;
      IDsOf(r[..last]);
      assert ids == before + {r[last].id};
    }
  }

  lemma SubsetOfSameSize(a: set<string>, b: set<string>)
    requires a <= b && |a| == |b|
    ensures a == b
  {
    assert b == a + (b - a);
  }

  // ----- The listing is determined -----

  /** The payments created after t. */
  ghost function NewerThan(t: int, s: multiset<Snapshot>): (newer: multiset<Snapshot>)
    ensures forall p :: newer[p] == (if p.createdAt > t then s[p] else 0)
    decreases |s|
  {
    if s == multiset{} then multiset{} else
      var p :| p in s;
      var rest := NewerThan(t, s - multiset{p});
      if p.createdAt > t then rest + multiset{p} else rest
  }

  lemma SmallerMultiset(a: multiset<Snapshot>, b: multiset<Snapshot>)
    requires a <= b
    ensures |a| <= |b|
  {
    assert a + (b - a) == b;
  }

  lemma PrefixCounts(r: seq<Snapshot>, k: nat, p: Snapshot)
    requires k <= |r|
    ensures multiset(r)[p] == multiset(r[..k])[p] + multiset(r[k..])[p]
  {
    assert r == r[..k] + r[k..];
  }

  /** More than i payments are newer than t if the i-th of a listing is. */
  lemma ManyNewer(f: ListFilter, stored: multiset<Snapshot>, r: seq<Snapshot>, o: seq<Snapshot>, i: nat, t: int)
    requires IsListing(f, stored, r, o) && i < |r| && r[i].createdAt > t
    ensures |NewerThan(t, stored)| > i
  {
    var first := multiset(r[..i + 1]);
    FirstAreNewer(r, i, t);
    forall p: Snapshot
      ensures first[p] <= NewerThan(t, stored)[p]
    {
      PrefixCounts(r, i + 1, p);
      assert p.createdAt <= t ==> p !in first;
    }
    SmallerMultiset(first, NewerThan(t, stored));
  }

  lemma FirstAreNewer(r: seq<Snapshot>, i: nat, t: int)
    requires NewestFirst(r) && i < |r| && r[i].createdAt > t
    ensures forall p: Snapshot | p in multiset(r[..i + 1]) :: p.createdAt > t
  {
    forall p: Snapshot | p in multiset(r[..i + 1])
      ensures p.createdAt > t
    {
      assert p in r[..i + 1];
    }
  }

  /** At most i payments are newer than the i-th of a listing. */
  lemma FewNewer(f: ListFilter, stored: multiset<Snapshot>, r: seq<Snapshot>, o: seq<Snapshot>, i: nat)
    requires IsListing(f, stored, r, o) && i < |r|
    ensures |NewerThan(r[i].createdAt, stored)| <= i
  {
    var t, first, rest := r[i].createdAt, r[..i], r[i..];
    assert r == first + rest;
    assert stored == multiset(first) + multiset(rest) + multiset(o);
    forall p: Snapshot | p.createdAt > t
      ensures p !in multiset(rest) && p !in multiset(o)
    {
      assert p !in rest && p !in o;
    }
    assert NewerThan(t, stored) <= multiset(first);
    SmallerMultiset(NewerThan(t, stored), multiset(first));
  }

  /** Two listings of the same matches have the same creation times, position by position. */
  lemma SameMatchesSameTimes(f: ListFilter, stored: multiset<Snapshot>,
                             r: seq<Snapshot>, o: seq<Snapshot>, r': seq<Snapshot>, o': seq<Snapshot>, i: nat)
    requires IsListing(f, stored, r, o) && IsListing(f, stored, r', o') && i < |r|
    ensures |r| == |r'| && r[i].createdAt == r'[i].createdAt
  {
    FewNewer(f, stored, r, o, i);
    FewNewer(f, stored, r', o', i);
    if r[i].createdAt > r'[i].createdAt {
      ManyNewer(f, stored, r, o, i, r'[i].createdAt);
    } else if r'[i].createdAt > r[i].createdAt {
      ManyNewer(f, stored, r', o', i, r[i].createdAt);
    }
  }

  lemma OneMatchCount(f: ListFilter, q: Snapshot, p: Snapshot)
    ensures multiset(IfWanted(f, q))[p] == if Wanted(f, p) && q == p then 1 else 0
  {
  }

  lemma FirstCount(all: seq<Snapshot>, p: Snapshot)
    requires all != []
    ensures multiset(all)[p] == multiset(all[1..])[p] + (if all[0] == p then 1 else 0)
  {
    assert all == [all[0]] + all[1..];
  }

  /** How often a payment is among the matches: as often as it is visited, if it is wanted. */
  lemma {:induction false} MatchesCount(f: ListFilter, all: seq<Snapshot>, p: Snapshot)
    ensures multiset(Matches(f, all))[p] == if Wanted(f, p) then multiset(all)[p] else 0
    decreases |all|
  {
    if all == [] {
    } else {
      MatchesCount(f, all[1..], p);
      OneMatchCount(f, all[0], p);
      FirstCount(all, p);
    }
  }

  /** The ids in this set that hold this payment. */
  ghost function Holding(m: map<string, Snapshot>, ids: set<string>, p: Snapshot): set<string>
    requires ids <= m.Keys
  {
    set id | id in ids && m[id] == p
  }

  lemma EnumeratesRest(order: seq<string>, ids: set<string>)
    requires Enumerates(order, ids) && order != []
    ensures order[0] in ids && Enumerates(order[1..], ids - {order[0]})
  {
    forall id | id in ids - {order[0]}
      ensures id in order[1..]
    {
      var k :| 0 <= k < |order| && order[k] == id;
      assert order[1..][k - 1] == id;
    }
  }

  lemma HoldingSplits(m: map<string, Snapshot>, ids: set<string>, p: Snapshot, first: string)
    requires ids <= m.Keys && first in ids
    ensures |Holding(m, ids, p)| == |Holding(m, ids - {first}, p)| + (if m[first] == p then 1 else 0)
  {
    var here, there := Holding(m, ids, p), Holding(m, ids - {first}, p);
    assert here == if m[first] == p then there + {first} else there;
  }

  lemma {:induction false} VisitedCount(m: map<string, Snapshot>, order: seq<string>, ids: set<string>, p: Snapshot)
    requires Enumerates(order, ids) && ids <= m.Keys
    ensures multiset(Visited(m, order))[p] == |Holding(m, ids, p)|
    decreases |order|
  {
    if order == [] {
      assert Holding(m, ids, p) == {};
    } else {
      EnumeratesRest(order, ids);
      VisitedCount(m, order[1..], ids - {order[0]}, p);
      HoldingSplits(m, ids, p, order[0]);
      assert Visited(m, order) == [m[order[0]]] + Visited(m, order[1..]);
    }
  }

  /** The matches do not depend on the order in which the map is visited. */
  lemma MatchesAgree(f: ListFilter, m: map<string, Snapshot>, order: seq<string>, order': seq<string>)
    requires Enumerates(order, m.Keys) && Enumerates(order', m.Keys)
    ensures multiset(Matches(f, Visited(m, order))) == multiset(Matches(f, Visited(m, order')))
  {
    var a, b := multiset(Matches(f, Visited(m, order))), multiset(Matches(f, Visited(m, order')));
    forall p: Snapshot
      ensures a[p] == b[p]
    {
      VisitedCount(m, order, m.Keys, p);
      VisitedCount(m, order', m.Keys, p);
      MatchesCount(f, Visited(m, order), p);
      MatchesCount(f, Visited(m, order'), p);
    }
  }

  /** Two listings of the same store have the same creation times, position by position,
      whatever the orders in which the map was visited. */
  lemma ListingTimesAgree(f: ListFilter, m: map<string, Snapshot>, order: seq<string>, order': seq<string>,
                          r: seq<Snapshot>, o: seq<Snapshot>, r': seq<Snapshot>, o': seq<Snapshot>, i: nat)
    requires Enumerates(order, m.Keys) && Enumerates(order', m.Keys)
    requires IsListing(f, multiset(Matches(f, Visited(m, order))), r, o)
    requires IsListing(f, multiset(Matches(f, Visited(m, order'))), r', o') && i < |r|
    ensures |r| == |r'| && r[i].createdAt == r'[i].createdAt
  {
    MatchesAgree(f, m, order, order');
    SameMatchesSameTimes(f, multiset(Matches(f, Visited(m, order))), r, o, r', o', i);
  }

  /** If no two stored payments were created at the same time, the listing of the store is
      unique, whatever the orders in which the map was visited. */
  lemma ListingIsUnique(f: ListFilter, m: map<string, Snapshot>, order: seq<string>, order': seq<string>,
                        r: seq<Snapshot>, o: seq<Snapshot>, r': seq<Snapshot>, o': seq<Snapshot>)
    requires Enumerates(order, m.Keys) && Enumerates(order', m.Keys)
    requires IsListing(f, multiset(Matches(f, Visited(m, order))), r, o)
    requires IsListing(f, multiset(Matches(f, Visited(m, order'))), r', o')
    requires forall id, id' | id in m && id' in m && m[id].createdAt == m[id'].createdAt :: m[id] == m[id']
    ensures r == r'
  {
    MatchesAgree(f, m, order, order');
    forall i | 0 <= i < |r|
      ensures r[i] == r'[i]
    {
      ListingTimesAgree(f, m, order, order', r, o, r', o', i);
      ListedIsStored(f, m, order, r, o, i);
      ListedIsStored(f, m, order', r', o', i);
    }
  }

  lemma ListedIsStored(f: ListFilter, m: map<string, Snapshot>, order: seq<string>, r: seq<Snapshot>, o: seq<Snapshot>, i: nat)
    requires Enumerates(order, m.Keys) && IsListing(f, multiset(Matches(f, Visited(m, order))), r, o) && i < |r|
    ensures exists id | id in m :: m[id] == r[i]
  {
    assert r[i] in multiset(r);
    MatchesCount(f, Visited(m, order), r[i]);
    assert r[i] in Visited(m, order);
  }
}
