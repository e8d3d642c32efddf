/** The job repository: the plain map both stores answer as, and its one listing order. */
module Repository {
  import opened Wrappers
  import opened Jobs
  import opened Query

  datatype Record = Record(id: string, task: string, repoPath: string, status: Status, createdAt: int, updatedAt: int)

  datatype Reply = Stored | AlreadyExists | NotFound | Refused

  // ---- The simple specification ------------------------------------------------------

  type Index = map<string, Record>

  /** Each record is filed under its own id. */
  ghost predicate Filed(jobs: Index) {
    forall id :: id in jobs ==> jobs[id].id == id
  }

  function Created(jobs: Index, job: Record): (Index, Reply) {
    if job.id in jobs then (jobs, AlreadyExists) else (jobs[job.id := job], Stored)
  }

  function Updated(jobs: Index, job: Record): (Index, Reply) {
    if job.id in jobs then (jobs[job.id := job], Stored) else (jobs, NotFound)
  }

  function Found(jobs: Index, id: string): Option<Record> {
    if id in jobs then Some(jobs[id]) else None
  }

  // ---- Listing -------------------------------------------------------------------------

  function Compare(a: string, b: string): int {
    if a == [] then (if b == [] then 0 else -1)
    else if b == [] then 1
    else if a[0] < b[0] then -1
    else if a[0] > b[0] then 1
    else Compare(a[1..], b[1..])
  }

  /** Newest first; among equally old jobs, by id. */
  predicate Precedes(a: Record, b: Record) {
    if a.createdAt == b.createdAt then Compare(a.id, b.id) < 0 else a.createdAt > b.createdAt
  }

  predicate Sorted(list: seq<Record>) {
    forall i, j :: 0 <= i < j < |list| ==> Precedes(list[i], list[j])
  }

  /** `list` holds each job of the index once, in order. */
  ghost predicate IsListing(list: seq<Record>, jobs: Index) {
    Sorted(list) && forall r :: r in list <==> r.id in jobs && jobs[r.id] == r
  }

  lemma {:induction false} CompareIsAnOrder(a: string, b: string)
    ensures Compare(a, b) == 0 <==> a == b
    ensures Compare(a, b) < 0 <==> Compare(b, a) > 0
  {
    if a != [] && b != [] && a[0] == b[0] {
      CompareIsAnOrder(a[1..], b[1..]);
      assert a == [a[0]] + a[1..] && b == [b[0]] + b[1..];
    }
  }

  /** `b` only adds to `a`, or they part at some place where `a` has the smaller character. */
  ghost predicate ComesBefore(a: string, b: string) {
    || a < b
    || exists k :: 0 <= k < |a| && k < |b| && a[..k] == b[..k] && a[k] < b[k]
  }

  lemma {:induction false} CompareIsLexicographic(a: string, b: string)
    ensures Compare(a, b) < 0 <==> ComesBefore(a, b)
  {
    if a != [] && b != [] && a[0] == b[0] {
      CompareIsLexicographic(a[1..], b[1..]);
      if k :| 0 <= k < |a[1..]| && k < |b[1..]| && a[1..][..k] == b[1..][..k] && a[1..][k] < b[1..][k] {
        assert a[..k + 1] == [a[0]] + a[1..][..k] && b[..k + 1] == [b[0]] + b[1..][..k];
        assert a[k + 1] < b[k + 1];
      }
      if k :| 0 <= k < |a| && k < |b| && a[..k] == b[..k] && a[k] < b[k] {
        assert k > 0;
        assert a[1..][..k - 1] == a[..k][1..] && b[1..][..k - 1] == b[..k][1..];
        assert a[1..][k - 1] < b[1..][k - 1];
      }
    } else if a != [] && b != [] && a[0] < b[0] {
      assert a[..0] == b[..0];
    }
  }

  /** An older job is never listed before a newer one, and equally old ones are listed by id. */
  lemma ListingIsNewestFirst(list: seq<Record>)
    requires Sorted(list)
    ensures forall i, j :: 0 <= i < j < |list| ==>
      || list[i].createdAt > list[j].createdAt
      || (list[i].createdAt == list[j].createdAt && ComesBefore(list[i].id, list[j].id))
  {
    forall i, j | 0 <= i < j < |list|
      ensures || list[i].createdAt > list[j].createdAt
              || (list[i].createdAt == list[j].createdAt && ComesBefore(list[i].id, list[j].id))
    {
      CompareIsLexicographic(list[i].id, list[j].id);
    }
  }

  lemma {:induction false} CompareIsTransitive(a: string, b: string, c: string)
    requires Compare(a, b) < 0 && Compare(b, c) < 0
    ensures Compare(a, c) < 0
  {
    if a != [] && b != [] && c != [] && a[0] == b[0] == c[0] {
      CompareIsTransitive(a[1..], b[1..], c[1..]);
    }
  }

  lemma PrecedesIsStrict(a: Record, b: Record)
    ensures a.id != b.id ==> Precedes(a, b) || Precedes(b, a)
    ensures !(Precedes(a, b) && Precedes(b, a)) && !Precedes(a, a)
  {
    CompareIsAnOrder(a.id, b.id);
    CompareIsAnOrder(b.id, a.id);
    CompareIsAnOrder(a.id, a.id);
  }

  lemma PrecedesIsTransitive(a: Record, b: Record, c: Record)
    requires Precedes(a, b) && Precedes(b, c)
    ensures Precedes(a, c)
  {
    if a.createdAt == b.createdAt == c.createdAt {
      CompareIsTransitive(a.id, b.id, c.id);
    }
  }

  /** Whatever order the map is walked in, there is only one listing. */
  lemma {:induction false} ListingIsUnique(one: seq<Record>, other: seq<Record>)
    requires Sorted(one) && Sorted(other) && forall r :: r in one <==> r in other
    ensures one == other
    decreases |one|
  {
    HasMember(one);
    HasMember(other);
    if one != [] {
      SmallestIsFirst(one, other);
      var a, b := one[1..], other[1..];
      forall r ensures r in a <==> r in b {
        PrecedesIsStrict(one[0], one[0]);
        assert r in one <==> r == one[0] || r in a;
        assert r in other <==> r == other[0] || r in b;
        assert one[0] !in a && other[0] !in b;
      }
      ListingIsUnique(a, b);
    }
  }

  lemma HasMember(list: seq<Record>)
    ensures list != [] ==> exists r :: r in list
  {
    if list != [] {
      assert list[0] in list;
    }
  }

  lemma SmallestIsFirst(one: seq<Record>, other: seq<Record>)
    requires Sorted(one) && Sorted(other) && one != [] && other != []
    requires forall r :: r in one <==> r in other
    ensures one[0] == other[0]
  {
    assert one[0] in other && other[0] in one;
    PrecedesIsStrict(one[0], other[0]);
  }

  /** The first place whose record `r` does not follow is where it belongs. */
  lemma InsertedIsSorted(list: seq<Record>, r: Record, at: nat)
    requires Sorted(list) && at <= |list| && forall x :: x in list ==> x.id != r.id
    requires forall k :: 0 <= k < at ==> Precedes(list[k], r)
    requires at < |list| ==> !Precedes(list[at], r)
    ensures Sorted(list[..at] + [r] + list[at..])
  {
    hide Precedes;
    var longer := list[..at] + [r] + list[at..];
    forall k | at <= k < |list| ensures Precedes(r, list[k]) {
      assert list[at] in list;
      PrecedesIsStrict(list[at], r);
      if at < k {
        PrecedesIsTransitive(r, list[at], list[k]);
      }
    }
    forall i, j | 0 <= i < j < |longer| ensures Precedes(longer[i], longer[j]) {
      assert i < at ==> longer[i] == list[i];
      assert j > at ==> longer[j] == list[j - 1];
      if i != at && j != at {
        var before := if i < at then i else i - 1;
        assert longer[i] == list[before] && longer[j] == list[if j < at then j else j - 1];
      }
    }
  }

  method Insert(list: seq<Record>, r: Record) returns (longer: seq<Record>)
    requires Sorted(list) && forall x :: x in list ==> x.id != r.id
    ensures Sorted(longer) && forall x :: x in longer <==> x == r || x in list
  {
    hide Precedes, Sorted;
    var i := 0;
    while i < |list| && Precedes(list[i], r)
      invariant 0 <= i <= |list|
      invariant forall k :: 0 <= k < i ==> Precedes(list[k], r)
    {
      i := i + 1;
    }
    longer := list[..i] + [r] + list[i..];
    InsertedIsSorted(list, r, i);
    assert forall x :: x in longer <==> x in list[..i] || x == r || x in list[i..];
    assert list == list[..i] + list[i..];
  }

  class InMemoryRepository {
    var jobs: Index

    constructor ()
      ensures jobs == map[]
    {
      jobs := map[];
    }

    method Create(job: Record) returns (reply: Reply)
      modifies this
      ensures (jobs, reply) == Created(old(jobs), job)
    {
      if job.id in jobs {
        return AlreadyExists;
      }
      jobs := jobs[job.id := job];
      return Stored;
    }

    method Get(id: string) returns (job: Option<Record>)
      ensures job == Found(jobs, id)
    {
      if id !in jobs {
        return None;
      }
      return Some(jobs[id]);
    }

    method Update(job: Record) returns (reply: Reply)
      modifies this
      ensures (jobs, reply) == Updated(old(jobs), job)
    {
      if job.id !in jobs {
        return NotFound;
      }
      jobs := jobs[job.id := job];
      return Stored;
    }

    method List() returns (list: seq<Record>)
      requires Filed(jobs)
      ensures IsListing(list, jobs)
    {
      list := Listing(jobs);
    }
  }

  /** Walks the map in whatever order it comes, and sorts. */
  method Listing(jobs: Index) returns (list: seq<Record>)
    requires Filed(jobs)
    ensures IsListing(list, jobs)
  {
    list := [];
    var rest := jobs.Keys;
    while rest != {}
      invariant rest <= jobs.Keys
      invariant Sorted(list)
      invariant forall r :: r in list <==> r.id in jobs.Keys - rest && jobs[r.id] == r
      decreases rest
    {
      var id :| id in rest;
      rest := rest - {id};
      list := Insert(list, jobs[id]);
    }
  }

  // ---- Paging ----------------------------------------------------------------------------

  const DEFAULT_LIST_LIMIT: nat := 50
  const MAX_LIST_LIMIT: nat := 200

  datatype PageParams = BadRequest | Params(limit: nat, offset: nat)

  method ReadPageParams(limit: Raw, offset: Raw) returns (params: PageParams)
    ensures params.BadRequest? <==>
      || limit.Unreadable? || (limit.Number? && limit.value < 1)
      || offset.Unreadable? || (offset.Number? && offset.value < 0)
    ensures params.Params? ==>
      && 1 <= params.limit <= MAX_LIST_LIMIT
      && (limit.Absent? ==> params.limit == DEFAULT_LIST_LIMIT)
      && (limit.Number? && limit.value <= MAX_LIST_LIMIT ==> params.limit == limit.value)
      && (limit.Number? && limit.value > MAX_LIST_LIMIT ==> params.limit == MAX_LIST_LIMIT)
      && params.offset == (if offset.Number? then offset.value else 0)
  {
    var l, o := DEFAULT_LIST_LIMIT, 0;
    if !limit.Absent? {
      if limit.Unreadable? || limit.value < 1 {
        return BadRequest;
      }
      l := limit.value;
      if l > MAX_LIST_LIMIT {
        l := MAX_LIST_LIMIT;
      }
    }
    if !offset.Absent? {
      if offset.Unreadable? || offset.value < 0 {
        return BadRequest;
      }
      o := offset.value;
    }
    return Params(l, o);
  }

  function PageOf<T>(list: seq<T>, limit: nat, offset: nat): seq<T> {
    var from := if offset > |list| then |list| else offset;
    var end := if from + limit > |list| then |list| else from + limit;
    list[from..end]
  }

  /** The `limit` entries from `offset` on, or as many as there are. */
  method TakePage<T>(list: seq<T>, limit: nat, offset: nat) returns (page: seq<T>)
    ensures |page| == if offset >= |list| then 0 else Min(limit, |list| - offset)
    ensures forall k :: 0 <= k < |page| ==> page[k] == list[offset + k]
    ensures page == PageOf(list, limit, offset)
  {
    var from := offset;
    if from > |list| {
      from := |list|;
    }
    var end := from + limit;
    if end > |list| {
      end := |list|;
    }
    page := list[from..end];
  }

  /** What the server serves for a requested limit. */
  function Served(limit: nat): nat {
    if limit > MAX_LIST_LIMIT then MAX_LIST_LIMIT else limit
  }

  /** 0, L, 2L, ... */
  function Offset(limit: nat, n: nat): nat {
    if n == 0 then 0 else Offset(limit, n - 1) + limit
  }

  /** A client that asks for `limit` at a time and steps by `limit`, for `n` pages. */
  function Pages<T>(list: seq<T>, limit: nat, n: nat): seq<T> {
    if n == 0 then [] else Pages(list, limit, n - 1) + PageOf(list, Served(limit), Offset(limit, n - 1))
  }

  /** One more page: what lies between two offsets, up to the cap. */
  lemma NextPage<T>(list: seq<T>, limit: nat, offset: nat)
    ensures var page := PageOf(list, Served(limit), offset);
      && page == list[Min(offset, |list|)..Min(offset, |list|) + |page|]
      && |page| <= Min(offset + limit, |list|) - Min(offset, |list|)
      && |page| <= MAX_LIST_LIMIT
      && (limit <= MAX_LIST_LIMIT ==> |page| == Min(offset + limit, |list|) - Min(offset, |list|))
  {
  }

  lemma {:induction false} PagesArePrefix<T>(list: seq<T>, limit: nat, n: nat)
    requires limit <= MAX_LIST_LIMIT
    ensures Pages(list, limit, n) == list[..Min(Offset(limit, n), |list|)]
  {
    if n > 0 {
      PagesArePrefix(list, limit, n - 1);
      NextPage(list, limit, Offset(limit, n - 1));
    }
  }

  /** Past the cap each step of the client leaves something out, and it never catches up. */
  lemma {:induction false} CappedPages<T>(list: seq<T>, limit: nat, n: nat)
    requires limit > MAX_LIST_LIMIT && n > 0 && |list| > MAX_LIST_LIMIT
    ensures |Pages(list, limit, n)| < Min(Offset(limit, n), |list|)
  {
    NextPage(list, limit, Offset(limit, n - 1));
    if n > 1 {
      CappedPages(list, limit, n - 1);
    } else {
      assert Pages(list, limit, 0) == [];
    }
  }

  lemma {:induction false} OneCappedPage<T>(list: seq<T>, limit: nat, n: nat)
    requires limit > MAX_LIST_LIMIT && n > 0 && |list| <= MAX_LIST_LIMIT
    ensures Pages(list, limit, n) == list
  {
    NextPage(list, limit, Offset(limit, n - 1));
    if n > 1 {
      OneCappedPage(list, limit, n - 1);
    } else {
      assert Pages(list, limit, 0) == [];
    }
  }

  /**
   * Pages at offsets 0, L, 2L, ... put together are exactly the listing when L is within the cap,
   * or the whole listing fits in one capped page; otherwise the client skips jobs.
   */
  lemma PagesConcatenate<T>(list: seq<T>, limit: nat, n: nat)
    requires 1 <= limit && Offset(limit, n) >= |list| && n > 0
    ensures Pages(list, limit, n) == list <==> limit <= MAX_LIST_LIMIT || |list| <= MAX_LIST_LIMIT
  {
    if limit <= MAX_LIST_LIMIT {
      PagesArePrefix(list, limit, n);
    } else if |list| <= MAX_LIST_LIMIT {
      OneCappedPage(list, limit, n);
    } else {
      CappedPages(list, limit, n);
    }
  }
}
