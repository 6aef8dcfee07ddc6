/** The audit log reader, app/api/audit/route.ts: an admin reads every entry,
    anyone else signed in reads only the entries they caused; entries come
    newest first, a page at a time, with the page count rounded up. */
module AuditRoute {
  import opened Common
  import opened Seqs
  import opened Sorting
  import opened Store

  const AuthRequired := "Необходима авторизация"

  const DefaultPage := 1
  const DefaultLimit := 10

  datatype AuditPage = AuditPage(audits: seq<AuditEntry>, total: nat, page: int, limit: int, totalPages: int)

  /** `orderBy: { createdAt: 'desc' }`. */
  predicate NewerFirst(a: AuditEntry, b: AuditEntry) {
    a.createdAt >= b.createdAt
  }

  lemma NewerFirstPreorder()
    ensures Total(NewerFirst) && Transitive(NewerFirst)
  {
  }

  /** The `where` of both queries: everything for an admin, the caller's own
      entries otherwise. */
  function Scoped(audits: seq<AuditEntry>, s: Session): (r: seq<AuditEntry>)
    ensures s.role == Role.ADMIN ==> r == audits
    ensures s.role != Role.ADMIN ==>
      && (forall i :: 0 <= i < |r| ==> r[i] in audits && r[i].userId == s.userId)
      && (forall i :: 0 <= i < |audits| && audits[i].userId == s.userId ==> audits[i] in r)
      && Subsequence(r, audits)
  {
    if s.role == Role.ADMIN then audits
    else
      FilterIsSubsequence(audits, (e: AuditEntry) => e.userId == s.userId);
      Filter(audits, (e: AuditEntry) => e.userId == s.userId)
  }

  /** `Math.ceil(total / limit)` for a positive limit. */
  function PageCount(total: nat, limit: int): (r: nat)
    requires limit >= 1
  {
    (total + limit - 1) / limit
  }

  /** The page count is the least number of pages that hold every entry. */
  lemma PageCountBounds(total: nat, limit: int)
    requires limit >= 1
    ensures PageCount(total, limit) * limit >= total
    ensures total > 0 ==> (PageCount(total, limit) - 1) * limit < total
    ensures PageCount(total, limit) == 0 <==> total == 0
  {
    var q := PageCount(total, limit);
    var m := (total + limit - 1) % limit;
    assert total + limit - 1 == q * limit + m;
    assert 0 <= m < limit;
    assert q * limit == total + limit - 1 - m;
    assert (q - 1) * limit == q * limit - limit;
  }

  /** `skip = (page - 1) * limit`. */
  function Offset(page: int, limit: int): (r: nat)
    requires page >= 1 && limit >= 1
    ensures page == 1 ==> r == 0
  {
    var n: nat := page - 1;
    assert n * limit >= 0;
    n * limit
  }

  /** `skip`/`take` on the sorted rows; a page past the end is empty. */
  function Slice(rows: seq<AuditEntry>, skip: nat, take: nat): (r: seq<AuditEntry>)
    ensures |r| <= take
    ensures skip <= |rows| ==> |r| == if skip + take <= |rows| then take else |rows| - skip
    ensures forall i :: 0 <= i < |r| ==> skip + i < |rows| && r[i] == rows[skip + i]
  {
    if skip >= |rows| then []
    else if skip + take <= |rows| then rows[skip..skip + take]
    else rows[skip..]
  }

  /** The rows of one page: the scoped entries, newest first, from the offset. */
  function PageRows(scoped: seq<AuditEntry>, page: int, limit: int): (r: seq<AuditEntry>)
    requires page >= 1 && limit >= 1
    ensures |r| <= limit
    ensures forall i :: 0 <= i < |r| ==> r[i] in scoped
    ensures var skip := Offset(page, limit);
      var ordered := SortBy(scoped, NewerFirst);
      && (skip <= |ordered| ==> |r| == if skip + limit <= |ordered| then limit else |ordered| - skip)
      && (forall i :: 0 <= i < |r| ==> skip + i < |ordered| && r[i] == ordered[skip + i])
  {
    var ordered := SortBy(scoped, NewerFirst);
    var skip := Offset(page, limit);
    var rows := Slice(ordered, skip, limit);
    assert forall i :: 0 <= i < |rows| ==> skip + i < |ordered| && rows[i] == ordered[skip + i];
    RowsOfPermutation(scoped, ordered, rows, skip);
    rows
  }

  /** Rows cut from a reordering of `scoped` are rows of `scoped`. */
  lemma RowsOfPermutation(scoped: seq<AuditEntry>, ordered: seq<AuditEntry>, rows: seq<AuditEntry>, skip: nat)
    requires multiset(ordered) == multiset(scoped)
    requires forall i :: 0 <= i < |rows| ==> skip + i < |ordered| && rows[i] == ordered[skip + i]
    ensures forall i :: 0 <= i < |rows| ==> rows[i] in scoped
  {
    forall i | 0 <= i < |rows| ensures rows[i] in scoped {
      var row := rows[i];
      assert row == ordered[skip + i];
      assert row in multiset(ordered);
    }
  }

  /** `GET /api/audit`. `pageParam` and `limitParam` are the parsed query
      parameters, `None` when missing or empty. */
  function ListAudits(audits: seq<AuditEntry>, actor: Actor, pageParam: Option<int>, limitParam: Option<int>)
    : (r: Reply<AuditPage>)
    requires pageParam.Some? ==> pageParam.value >= 1
    requires limitParam.Some? ==> limitParam.value >= 1
    ensures r.Fail? <==> actor.None?
    ensures r.Fail? ==> r == Fail(401, AuthRequired)
    ensures r.Ok? ==>
      && r.body.page == (if pageParam.Some? then pageParam.value else DefaultPage)
      && r.body.limit == (if limitParam.Some? then limitParam.value else DefaultLimit)
      && r.body.total == |Scoped(audits, actor.value)|
      && r.body.totalPages == PageCount(r.body.total, r.body.limit)
      && r.body.audits == PageRows(Scoped(audits, actor.value), r.body.page, r.body.limit)
  {
    if actor.None? then Fail(401, AuthRequired)
    else
      var page := if pageParam.Some? then pageParam.value else DefaultPage;
      var limit := if limitParam.Some? then limitParam.value else DefaultLimit;
      var scoped := Scoped(audits, actor.value);
      Ok(AuditPage(PageRows(scoped, page, limit), |scoped|, page, limit, PageCount(|scoped|, limit)))
  }

  /** Every page is ordered newest first. */
  lemma PageNewestFirst(audits: seq<AuditEntry>, actor: Actor, pageParam: Option<int>, limitParam: Option<int>)
    requires pageParam.Some? ==> pageParam.value >= 1
    requires limitParam.Some? ==> limitParam.value >= 1
    requires actor.Some?
    ensures SortedBy(ListAudits(audits, actor, pageParam, limitParam).body.audits, NewerFirst)
  {
    var scoped := Scoped(audits, actor.value);
    NewerFirstPreorder();
    SortBySorted(scoped, NewerFirst);
  }

  /** Entry `k` falls on page `k / limit + 1`, at position `k % limit`, and
      that page is within the page count. */
  lemma PageOfEntry(total: nat, limit: int, k: nat)
    requires limit >= 1 && k < total
    ensures var page := k / limit + 1;
      && Offset(page, limit) + k % limit == k
      && 0 <= k % limit < limit
      && 1 <= page <= PageCount(total, limit)
  {
    var page := k / limit + 1;
    assert k == (k / limit) * limit + k % limit;
    assert Offset(page, limit) == (k / limit) * limit;
    PageCountBounds(total, limit);
    var q := PageCount(total, limit);
    if page > q {
      assert k / limit >= q;
      MulMonotone(q, k / limit, limit);
      assert false;
    }
  }

  lemma MulMonotone(a: nat, b: nat, c: nat)
    requires a <= b
    ensures a * c <= b * c
  {
  }

  /** The page that holds entry `k`: `k / limit + 1`. */
  function EntryPage(k: nat, limit: int): (page: int)
    requires limit >= 1
    ensures page >= 1
  {
    k / limit + 1
  }

  /** The position of entry `k` on its page: `k % limit`. */
  function EntryPosition(k: nat, limit: int): (i: nat)
    requires limit >= 1
    ensures i < limit
  {
    k % limit
  }

  /** The pages tile the scoped, ordered entries: entry `k` sits at position
      `k % limit` of page `k / limit + 1`, and that page is within the page
      count. */
  lemma PagesTileEntries(audits: seq<AuditEntry>, s: Session, limit: int, k: nat)
    requires limit >= 1
    requires k < |Scoped(audits, s)|
    ensures var r := ListAudits(audits, Some(s), Some(EntryPage(k, limit)), Some(limit));
      && EntryPage(k, limit) <= r.body.totalPages
      && EntryPosition(k, limit) < |r.body.audits|
      && r.body.audits[EntryPosition(k, limit)] == SortBy(Scoped(audits, s), NewerFirst)[k]
  {
    var scoped := Scoped(audits, s);
    var page, pos := EntryPage(k, limit), EntryPosition(k, limit);
    PageOfEntry(|scoped|, limit, k);
    var skip := Offset(page, limit);
    assert skip + pos == k;
    var ordered := SortBy(scoped, NewerFirst);
    var rows := PageRows(scoped, page, limit);
    assert |ordered| == |scoped|;
    assert pos < |rows|;
    assert rows[pos] == ordered[k];
  }

  /** Someone who is not an admin never sees another user's entry. */
  lemma NonAdminSeesOwnEntriesOnly(audits: seq<AuditEntry>, s: Session, pageParam: Option<int>, limitParam: Option<int>)
    requires pageParam.Some? ==> pageParam.value >= 1
    requires limitParam.Some? ==> limitParam.value >= 1
    requires s.role != Role.ADMIN
    ensures var p := ListAudits(audits, Some(s), pageParam, limitParam).body;
      forall i :: 0 <= i < |p.audits| ==> p.audits[i].userId == s.userId
  {
    var p := ListAudits(audits, Some(s), pageParam, limitParam).body;
    var scoped := Scoped(audits, s);
    forall i | 0 <= i < |p.audits| ensures p.audits[i].userId == s.userId {
      var e := p.audits[i];
      assert e in scoped;
      var j :| 0 <= j < |scoped| && scoped[j] == e;
    }
  }
}
