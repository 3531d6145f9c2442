/**
  Folding a listed feed into the chapters table.  A row is found by its slot
  (series, language, number), but the table also keeps external ids unique, and
  an upsert that would repeat one fails and is skipped.  Generated row ids are
  a function of the new slot, so tables are compared up to that choice.
 */
module ChapterSync {
  import opened Wrappers
  import opened ChapterFeed

  datatype Slot = Slot(series: string, language: string, number: real)

  datatype Row = Row(
    id: string, externalId: Option<string>, title: Option<string>, pageCount: int, publishedAt: Option<int>,
    isLicensed: bool, inkCost: int, deleted: bool)

  type Table = map<Slot, Row>

  /** The series being synced and the ids the database will generate. */
  datatype Job = Job(series: string, newId: Slot -> string)

  function SlotOf(job: Job, c: SourceChapter): Slot
  {
    Slot(job.series, c.language, c.chapterNumber)
  }

  predicate HeldElsewhere(t: Table, s: Slot, e: string)
  {
    exists z :: z in t && z != s && t[z].externalId == Some(e)
  }

  function Written(t: Table, job: Job, c: SourceChapter): Row
  {
    var s := SlotOf(job, c);
    if s in t then
      t[s].(externalId := Some(c.externalId), title := c.title, pageCount := c.pageCount, publishedAt := c.publishedAt)
    else
      Row(job.newId(s), Some(c.externalId), c.title, c.pageCount, c.publishedAt, false, 0, false)
  }

  function Upsert(t: Table, job: Job, c: SourceChapter): Table
  {
    if HeldElsewhere(t, SlotOf(job, c), c.externalId) then t else t[SlotOf(job, c) := Written(t, job, c)]
  }

  function Sync(t: Table, job: Job, cs: seq<SourceChapter>): Table
  {
    if cs == [] then t else Upsert(Sync(t, job, cs[..|cs| - 1]), job, cs[|cs| - 1])
  }

  datatype UpsertError = UniqueViolation

  /** The row carries the entry's id, title, page count and date. */
  ghost predicate ShowsEntry(row: Row, c: SourceChapter)
  {
    && row.externalId == Some(c.externalId) && row.title == c.title
    && row.pageCount == c.pageCount && row.publishedAt == c.publishedAt
  }

  /** What the database decides when the row is created, and no upsert changes. */
  ghost predicate SameOwn(row: Row, was: Row)
  {
    row.id == was.id && row.isLicensed == was.isLicensed && row.inkCost == was.inkCost && row.deleted == was.deleted
  }

  ghost predicate FreshRow(row: Row, id: string)
  {
    row.id == id && !row.isLicensed && row.inkCost == 0 && !row.deleted
  }

  /** One upsert: refused exactly for another row's external id, and otherwise it writes its own slot only. */
  ghost predicate UpsertRule(t: Table, t': Table, job: Job, c: SourceChapter, r: Result<Row, UpsertError>)
  {
    var s := Slot(job.series, c.language, c.chapterNumber);
    && (r.Err? <==> exists z :: z in t && z != s && t[z].externalId == Some(c.externalId))
    && (r.Err? ==> t' == t)
    && (r.Ok? ==>
          && t'.Keys == t.Keys + {s} && (forall z :: z in t && z != s ==> t'[z] == t[z])
          && t'[s] == r.value && ShowsEntry(r.value, c)
          && if s in t then SameOwn(r.value, t[s]) else FreshRow(r.value, job.newId(s)))
  }

  class ChapterService {
    var chapters: Table

    constructor (initial: Table)
      ensures chapters == initial
    {
      chapters := initial;
    }

    method UpsertChapter(job: Job, c: SourceChapter) returns (r: Result<Row, UpsertError>)
      modifies this
      ensures chapters == Upsert(old(chapters), job, c)
      ensures UpsertRule(old(chapters), chapters, job, c, r)
    {
      var s := SlotOf(job, c);
      if z :| z in chapters && z != s && chapters[z].externalId == Some(c.externalId) {
        return Err(UniqueViolation);
      }
      var row: Row;
      if s in chapters {
        row := chapters[s].(
          externalId := Some(c.externalId), title := c.title, pageCount := c.pageCount, publishedAt := c.publishedAt);
      } else {
        row := Row(job.newId(s), Some(c.externalId), c.title, c.pageCount, c.publishedAt, false, 0, false);
      }
      chapters := chapters[s := row];
      r := Ok(row);
    }

    /** A failed upsert is logged and skipped. */
    method SyncFromSource(job: Job, upstream: seq<SourceChapter>)
      modifies this
      ensures chapters == Sync(old(chapters), job, upstream)
    {
      for k := 0 to |upstream|
        invariant chapters == Sync(old(chapters), job, upstream[..k])
      {
        var c := upstream[k];
        assert upstream[..k + 1] == upstream[..k] + [c];
        var r := UpsertChapter(job, c);
      }
      assert upstream[..|upstream|] == upstream;
    }
  }

  // ----- Accepted and skipped items -----

  ghost predicate UniqueIds(t: Table)
  {
    forall s, z :: s in t && z in t && s != z && t[s].externalId.Some? ==> t[s].externalId != t[z].externalId
  }

  /** What the adapter guarantees: one entry per number; feed ids are the source's own and differ. */
  ghost predicate Distinct(cs: seq<SourceChapter>)
  {
    forall i, j :: 0 <= i < j < |cs| ==>
      cs[i].chapterNumber != cs[j].chapterNumber && cs[i].externalId != cs[j].externalId
  }

  lemma {:induction false} ListingDistinct(items: seq<FeedItem>, r: seq<SourceChapter>)
    requires SortedValues(r, Dedupe(Valid(items)))
    requires forall i, j :: 0 <= i < j < |items| ==> items[i].id != items[j].id
    ensures Distinct(r)
  {
    ListingIdsDistinct(items, r);
  }

  /** Item `k` is not skipped when its turn comes. */
  ghost predicate Accepted(t: Table, job: Job, cs: seq<SourceChapter>, k: nat)
  {
    k < |cs| && !HeldElsewhere(Sync(t, job, cs[..k]), SlotOf(job, cs[k]), cs[k].externalId)
  }

  ghost predicate WrittenBefore(t: Table, job: Job, cs: seq<SourceChapter>, k: nat, s: Slot)
  {
    exists j: nat :: j < k && Accepted(t, job, cs, j) && SlotOf(job, cs[j]) == s
  }

  /** Accepted items among the first `k` are written over the original rows. */
  ghost predicate Rewritten(t: Table, job: Job, cs: seq<SourceChapter>, k: nat, now: Table)
    requires k <= |cs|
  {
    forall j: nat :: j < k && Accepted(t, job, cs, j) ==>
      SlotOf(job, cs[j]) in now && now[SlotOf(job, cs[j])] == Written(t, job, cs[j])
  }

  /** All other rows are the original ones. */
  ghost predicate Untouched(t: Table, job: Job, cs: seq<SourceChapter>, k: nat, now: Table)
  {
    forall s :: !WrittenBefore(t, job, cs, k, s) ==> (s in now <==> s in t) && (s in t ==> now[s] == t[s])
  }

  lemma {:induction false} TableAfter(t: Table, job: Job, cs: seq<SourceChapter>, k: nat)
    requires Distinct(cs) && k <= |cs|
    ensures Rewritten(t, job, cs, k, Sync(t, job, cs[..k]))
    ensures Untouched(t, job, cs, k, Sync(t, job, cs[..k]))
    decreases k
  {
    if k > 0 {
      var e := k - 1;
      TableAfter(t, job, cs, e);
      AfterOneMore(t, job, cs, e);
      if Accepted(t, job, cs, e) {
        RewrittenStep(t, job, cs, e, Sync(t, job, cs[..e]));
      } else {
        assert forall s :: WrittenBefore(t, job, cs, e, s) ==> WrittenBefore(t, job, cs, k, s);
      }
    }
  }

  lemma {:induction false} RewrittenStep(t: Table, job: Job, cs: seq<SourceChapter>, e: nat, before: Table)
    requires Distinct(cs) && e < |cs|
    requires Rewritten(t, job, cs, e, before) && Untouched(t, job, cs, e, before)
    ensures Rewritten(t, job, cs, e + 1, before[SlotOf(job, cs[e]) := Written(before, job, cs[e])])
  {
    assert !WrittenBefore(t, job, cs, e, SlotOf(job, cs[e]));
    assert Written(before, job, cs[e]) == Written(t, job, cs[e]);
  }

  lemma {:induction false} AfterOneMore(t: Table, job: Job, cs: seq<SourceChapter>, e: nat)
    requires e < |cs|
    ensures var before, after, s := Sync(t, job, cs[..e]), Sync(t, job, cs[..e + 1]), SlotOf(job, cs[e]);
            after == if Accepted(t, job, cs, e) then before[s := Written(before, job, cs[e])] else before
  {
    assert cs[..e + 1][..e] == cs[..e] && cs[..e + 1][e] == cs[e];
  }

  /** A row that holds an item's id after `k` items was written by that item or held it from the start. */
  lemma {:induction false} HolderOrigin(t: Table, job: Job, cs: seq<SourceChapter>, k: nat, z: Slot, i: nat)
    requires Distinct(cs) && k <= |cs| && i < |cs|
    requires z in Sync(t, job, cs[..k]) && Sync(t, job, cs[..k])[z].externalId == Some(cs[i].externalId)
    ensures (i < k && Accepted(t, job, cs, i) && z == SlotOf(job, cs[i]))
            || (!WrittenBefore(t, job, cs, k, z) && z in t && t[z].externalId == Some(cs[i].externalId))
  {
    TableAfter(t, job, cs, k);
    if WrittenBefore(t, job, cs, k, z) {
      var j: nat :| j < k && Accepted(t, job, cs, j) && SlotOf(job, cs[j]) == z;
      assert j == i;
    }
  }

  lemma {:induction false} SyncKeepsUnique(t: Table, job: Job, cs: seq<SourceChapter>)
    requires UniqueIds(t)
    ensures UniqueIds(Sync(t, job, cs))
    decreases |cs|
  {
    if cs != [] {
      SyncKeepsUnique(t, job, cs[..|cs| - 1]);
    }
  }

  /** Rows outside the feed, and the id and pricing of every existing row, are untouched. */
  lemma {:induction false} SyncFrame(t: Table, job: Job, cs: seq<SourceChapter>, s: Slot)
    requires Distinct(cs)
    ensures (forall c :: c in cs ==> SlotOf(job, c) != s) ==>
              (s in Sync(t, job, cs) <==> s in t) && (s in t ==> Sync(t, job, cs)[s] == t[s])
    ensures s in t ==> s in Sync(t, job, cs) && SameOwn(Sync(t, job, cs)[s], t[s])
    ensures s !in t && s in Sync(t, job, cs) ==>
              && FreshRow(Sync(t, job, cs)[s], job.newId(s))
              && exists c :: c in cs && s == Slot(job.series, c.language, c.chapterNumber)
                             && ShowsEntry(Sync(t, job, cs)[s], c)
  {
    assert cs[..|cs|] == cs;
    TableAfter(t, job, cs, |cs|);
    if WrittenBefore(t, job, cs, |cs|, s) {
      var j: nat :| j < |cs| && Accepted(t, job, cs, j) && SlotOf(job, cs[j]) == s;
      assert cs[j] in cs;
    }
  }

  // ----- When a second sync changes nothing -----

  /**
    Acceptance from the table and the listing alone: every other row that holds
    the item's id is taken over by an earlier accepted item.
   */
  ghost predicate WillAccept(t: Table, job: Job, cs: seq<SourceChapter>, k: nat)
    requires k < |cs|
    decreases k
  {
    forall z :: z in t && z != SlotOf(job, cs[k]) && t[z].externalId == Some(cs[k].externalId) ==>
      exists j: nat :: j < k && SlotOf(job, cs[j]) == z && WillAccept(t, job, cs, j)
  }

  lemma {:induction false} AcceptedAsPredicted(t: Table, job: Job, cs: seq<SourceChapter>, k: nat)
    requires Distinct(cs) && k < |cs|
    ensures Accepted(t, job, cs, k) <==> WillAccept(t, job, cs, k)
    decreases k
  {
    forall j: nat | j < k ensures Accepted(t, job, cs, j) <==> WillAccept(t, job, cs, j) {
      AcceptedAsPredicted(t, job, cs, j);
    }
    var now, s, id := Sync(t, job, cs[..k]), SlotOf(job, cs[k]), Some(cs[k].externalId);
    TableAfter(t, job, cs, k);
    if z :| z in now && z != s && now[z].externalId == id {
      HolderOrigin(t, job, cs, k, z, k);
      assert forall j: nat :: j < k && SlotOf(job, cs[j]) == z ==> !WillAccept(t, job, cs, j);
    } else {
      forall z | z in t && z != s && t[z].externalId == id
        ensures exists j: nat :: j < k && SlotOf(job, cs[j]) == z && WillAccept(t, job, cs, j)
      {
        assert WrittenBefore(t, job, cs, k, z);
        var j: nat :| j < k && Accepted(t, job, cs, j) && SlotOf(job, cs[j]) == z;
      }
    }
  }

  /** After the sync an accepted item's slot shows the item, and a skipped item's slot is as before. */
  lemma {:induction false} SyncShows(t: Table, job: Job, cs: seq<SourceChapter>, k: nat)
    requires UniqueIds(t) && Distinct(cs) && k < |cs|
    ensures var now, s := Sync(t, job, cs), Slot(job.series, cs[k].language, cs[k].chapterNumber);
            if WillAccept(t, job, cs, k) then s in now && ShowsEntry(now[s], cs[k])
            else (s in now <==> s in t) && (s in t ==> now[s] == t[s])
  {
    assert cs[..|cs|] == cs;
    TableAfter(t, job, cs, |cs|);
    AcceptedAsPredicted(t, job, cs, k);
    if !WillAccept(t, job, cs, k) {
      assert !WrittenBefore(t, job, cs, |cs|, SlotOf(job, cs[k]));
    }
  }

  /** Item `i`'s id is held by the row that the later, accepted item `j` takes over. */
  ghost predicate TakenTooLate(t: Table, job: Job, cs: seq<SourceChapter>, i: nat, j: nat)
  {
    && i < j < |cs| && WillAccept(t, job, cs, j)
    && SlotOf(job, cs[j]) in t && t[SlotOf(job, cs[j])].externalId == Some(cs[i].externalId)
  }

  /** Item `i` is skipped because a row holds its id, and the later item `j` then takes that row over. */
  ghost predicate FreedTooLate(t: Table, job: Job, cs: seq<SourceChapter>, i: nat, j: nat)
  {
    && i < j < |cs| && Accepted(t, job, cs, j)
    && SlotOf(job, cs[j]) in t && t[SlotOf(job, cs[j])].externalId == Some(cs[i].externalId)
  }

  ghost predicate Idempotent(t: Table, job: Job, cs: seq<SourceChapter>)
  {
    Sync(Sync(t, job, cs), job, cs) == Sync(t, job, cs)
  }

  /**
    A second sync changes nothing exactly if no item's id is freed too late, which the table and the
    listing decide.
   */
  lemma {:induction false} IdempotentExactly(t: Table, job: Job, cs: seq<SourceChapter>)
    requires UniqueIds(t) && Distinct(cs)
    ensures Idempotent(t, job, cs) <==> !exists i: nat, j: nat :: TakenTooLate(t, job, cs, i, j)
  {
    IdempotentAsRun(t, job, cs);
    if i: nat, j: nat :| TakenTooLate(t, job, cs, i, j) {
      AcceptedAsPredicted(t, job, cs, j);
      assert FreedTooLate(t, job, cs, i, j);
    } else {
      forall i: nat, j: nat ensures !FreedTooLate(t, job, cs, i, j) {
        if j < |cs| { AcceptedAsPredicted(t, job, cs, j); }
        assert !TakenTooLate(t, job, cs, i, j);
      }
    }
  }

  lemma {:induction false} IdempotentAsRun(t: Table, job: Job, cs: seq<SourceChapter>)
    requires UniqueIds(t) && Distinct(cs)
    ensures Idempotent(t, job, cs) <==> !exists i: nat, j: nat :: FreedTooLate(t, job, cs, i, j)
  {
    if i: nat, j: nat :| FreedTooLate(t, job, cs, i, j) {
      FreedItemComesBack(t, job, cs, i, j);
    } else {
      var t1 := Sync(t, job, cs);
      forall i: nat | i < |cs| ensures Upsert(t1, job, cs[i]) == t1 {
        SettledItem(t, job, cs, i);
      }
      AllSettled(t1, job, cs);
    }
  }

  lemma {:induction false} AllSettled(t: Table, job: Job, cs: seq<SourceChapter>)
    requires forall i: nat :: i < |cs| ==> Upsert(t, job, cs[i]) == t
    ensures Sync(t, job, cs) == t
    decreases |cs|
  {
    if cs != [] {
      var front := cs[..|cs| - 1];
      assert forall i: nat :: i < |front| ==> front[i] == cs[i];
      AllSettled(t, job, front);
    }
  }

  lemma {:induction false} SettledItem(t: Table, job: Job, cs: seq<SourceChapter>, i: nat)
    requires UniqueIds(t) && Distinct(cs) && i < |cs|
    requires forall j: nat :: !FreedTooLate(t, job, cs, i, j)
    ensures Upsert(Sync(t, job, cs), job, cs[i]) == Sync(t, job, cs)
  {
    if Accepted(t, job, cs, i) {
      WrittenItemSettled(t, job, cs, i);
    } else {
      SkippedItemSettled(t, job, cs, i);
    }
  }

  lemma {:induction false} WrittenItemSettled(t: Table, job: Job, cs: seq<SourceChapter>, i: nat)
    requires UniqueIds(t) && Distinct(cs) && Accepted(t, job, cs, i)
    ensures Upsert(Sync(t, job, cs), job, cs[i]) == Sync(t, job, cs)
  {
    assert cs[..|cs|] == cs;
    TableAfter(t, job, cs, |cs|);
    SyncKeepsUnique(t, job, cs);
  }

  lemma {:induction false} SkippedItemSettled(t: Table, job: Job, cs: seq<SourceChapter>, i: nat)
    requires UniqueIds(t) && Distinct(cs) && i < |cs| && !Accepted(t, job, cs, i)
    requires forall j: nat :: !FreedTooLate(t, job, cs, i, j)
    ensures HeldElsewhere(Sync(t, job, cs), SlotOf(job, cs[i]), cs[i].externalId)
  {
    var now, id := Sync(t, job, cs[..i]), Some(cs[i].externalId);
    var z :| z in now && z != SlotOf(job, cs[i]) && now[z].externalId == id;
    HolderOrigin(t, job, cs, i, z, i);
    assert cs[..|cs|] == cs;
    TableAfter(t, job, cs, |cs|);
    if WrittenBefore(t, job, cs, |cs|, z) {
      var j: nat :| j < |cs| && Accepted(t, job, cs, j) && SlotOf(job, cs[j]) == z;
      assert FreedTooLate(t, job, cs, i, j);
    }
    assert Sync(t, job, cs)[z].externalId == id;
  }

  /** The freed id has no holder after the first sync, so the second writes the item. */
  lemma {:induction false} FreedItemComesBack(t: Table, job: Job, cs: seq<SourceChapter>, i: nat, j: nat)
    requires UniqueIds(t) && Distinct(cs) && FreedTooLate(t, job, cs, i, j)
    ensures !Idempotent(t, job, cs)
  {
    var t1, s := Sync(t, job, cs), SlotOf(job, cs[i]);
    assert cs[..|cs|] == cs;
    SkippedWhileHeld(t, job, cs, i, j);
    NoHolderLeft(t, job, cs, i, j);
    assert Accepted(t1, job, cs, i) by {
      if z :| z in Sync(t1, job, cs[..i]) && z != s && Sync(t1, job, cs[..i])[z].externalId == Some(cs[i].externalId) {
        HolderOrigin(t1, job, cs, i, z, i);
      }
    }
    TableAfter(t1, job, cs, |cs|);
    assert Sync(t1, job, cs)[s].externalId == Some(cs[i].externalId);
  }

  lemma {:induction false} SkippedWhileHeld(t: Table, job: Job, cs: seq<SourceChapter>, i: nat, j: nat)
    requires Distinct(cs) && FreedTooLate(t, job, cs, i, j)
    ensures !Accepted(t, job, cs, i)
  {
    TableAfter(t, job, cs, i);
    var z := SlotOf(job, cs[j]);
    assert !WrittenBefore(t, job, cs, i, z);
    assert Sync(t, job, cs[..i])[z].externalId == Some(cs[i].externalId);
  }

  lemma {:induction false} NoHolderLeft(t: Table, job: Job, cs: seq<SourceChapter>, i: nat, j: nat)
    requires UniqueIds(t) && Distinct(cs) && FreedTooLate(t, job, cs, i, j) && !Accepted(t, job, cs, i)
    ensures forall z :: z in Sync(t, job, cs) ==> Sync(t, job, cs)[z].externalId != Some(cs[i].externalId)
  {
    assert cs[..|cs|] == cs;
    forall z | z in Sync(t, job, cs) ensures Sync(t, job, cs)[z].externalId != Some(cs[i].externalId) {
      if Sync(t, job, cs)[z].externalId == Some(cs[i].externalId) {
        HolderOrigin(t, job, cs, |cs|, z, i);
        assert z == SlotOf(job, cs[j]);
        assert WrittenBefore(t, job, cs, |cs|, z);
      }
    }
  }

  // ----- When the order does not matter -----

  /** Another order of the same items. */
  ghost predicate SameItems(p: seq<SourceChapter>, cs: seq<SourceChapter>)
  {
    Distinct(p) && forall c :: c in p <==> c in cs
  }

  ghost predicate Free(t: Table, job: Job, c: SourceChapter)
  {
    !HeldElsewhere(t, SlotOf(job, c), c.externalId)
  }

  /** Item `c` is free to be written, over a row that holds the id of the other item `d`. */
  ghost predicate Releases(t: Table, job: Job, c: SourceChapter, d: SourceChapter)
  {
    && c != d && Free(t, job, c)
    && SlotOf(job, c) in t && t[SlotOf(job, c)].externalId == Some(d.externalId)
  }

  ghost predicate NoRelease(t: Table, job: Job, cs: seq<SourceChapter>)
  {
    forall c, d :: c in cs && d in cs ==> !Releases(t, job, c, d)
  }

  ghost predicate OrderIndependent(t: Table, job: Job, cs: seq<SourceChapter>)
  {
    forall p, q :: SameItems(p, cs) && SameItems(q, cs) ==> Sync(t, job, p) == Sync(t, job, q)
  }

  ghost predicate IdempotentInAnyOrder(t: Table, job: Job, cs: seq<SourceChapter>)
  {
    forall p :: SameItems(p, cs) ==> Idempotent(t, job, p)
  }

  /** Order independence, and idempotence in every order, hold exactly if nothing releases an id. */
  lemma {:induction false} AnyOrderExactly(t: Table, job: Job, cs: seq<SourceChapter>)
    requires UniqueIds(t) && Distinct(cs)
    ensures OrderIndependent(t, job, cs) <==> NoRelease(t, job, cs)
    ensures IdempotentInAnyOrder(t, job, cs) <==> NoRelease(t, job, cs)
  {
    if NoRelease(t, job, cs) {
      forall p, q | SameItems(p, cs) && SameItems(q, cs) ensures Sync(t, job, p) == Sync(t, job, q) {
        ResultByItems(t, job, p, q);
      }
      forall p | SameItems(p, cs) ensures Idempotent(t, job, p) {
        AcceptsTheFree(t, job, p, |p|);
        IdempotentAsRun(t, job, p);
        forall i: nat, j: nat ensures !FreedTooLate(t, job, p, i, j) {
          if FreedTooLate(t, job, p, i, j) {
            assert Releases(t, job, p[j], p[i]);
          }
        }
      }
    } else {
      var c, d :| c in cs && d in cs && Releases(t, job, c, d);
      ReleaseDependsOnOrder(t, job, cs, c, d);
    }
  }

  /** If nothing releases an id, exactly the free items are written. */
  lemma {:induction false} AcceptsTheFree(t: Table, job: Job, cs: seq<SourceChapter>, k: nat)
    requires UniqueIds(t) && Distinct(cs) && NoRelease(t, job, cs) && k <= |cs|
    ensures forall j: nat :: j < k ==> (Accepted(t, job, cs, j) <==> Free(t, job, cs[j]))
    decreases k
  {
    if k > 0 {
      var e := k - 1;
      AcceptsTheFree(t, job, cs, e);
      FreeStaysAccepted(t, job, cs, e);
      HeldStaysSkipped(t, job, cs, e);
    }
  }

  lemma {:induction false} FreeStaysAccepted(t: Table, job: Job, cs: seq<SourceChapter>, e: nat)
    requires Distinct(cs) && e < |cs|
    ensures Free(t, job, cs[e]) ==> Accepted(t, job, cs, e)
  {
    var now, s, id := Sync(t, job, cs[..e]), SlotOf(job, cs[e]), cs[e].externalId;
    if z :| z in now && z != s && now[z].externalId == Some(id) {
      HolderOrigin(t, job, cs, e, z, e);
    }
  }

  lemma {:induction false} HeldStaysSkipped(t: Table, job: Job, cs: seq<SourceChapter>, e: nat)
    requires Distinct(cs) && NoRelease(t, job, cs) && e < |cs|
    requires forall j: nat :: j < e ==> (Accepted(t, job, cs, j) <==> Free(t, job, cs[j]))
    ensures !Free(t, job, cs[e]) ==> !Accepted(t, job, cs, e)
  {
    var id := cs[e].externalId;
    if z :| z in t && z != SlotOf(job, cs[e]) && t[z].externalId == Some(id) {
      TableAfter(t, job, cs, e);
      if WrittenBefore(t, job, cs, e, z) {
        var j: nat :| j < e && Accepted(t, job, cs, j) && SlotOf(job, cs[j]) == z;
        assert Releases(t, job, cs[j], cs[e]);
      }
      assert Sync(t, job, cs[..e])[z].externalId == Some(id);
    }
  }

  lemma {:induction false} ResultByItems(t: Table, job: Job, p: seq<SourceChapter>, q: seq<SourceChapter>)
    requires UniqueIds(t) && Distinct(p) && Distinct(q) && NoRelease(t, job, p)
    requires forall c :: c in p <==> c in q
    ensures Sync(t, job, p) == Sync(t, job, q)
  {
    var a, b := Sync(t, job, p), Sync(t, job, q);
    forall s ensures (s in a <==> s in b) && (s in a ==> a[s] == b[s]) {
      ResultAt(t, job, p, s);
      ResultAt(t, job, q, s);
    }
  }

  lemma {:induction false} ResultAt(t: Table, job: Job, p: seq<SourceChapter>, s: Slot)
    requires UniqueIds(t) && Distinct(p) && NoRelease(t, job, p)
    ensures forall c :: c in p && Free(t, job, c) && SlotOf(job, c) == s ==>
              s in Sync(t, job, p) && Sync(t, job, p)[s] == Written(t, job, c)
    ensures (forall c :: c in p && Free(t, job, c) ==> SlotOf(job, c) != s) ==>
              (s in Sync(t, job, p) <==> s in t) && (s in t ==> Sync(t, job, p)[s] == t[s])
  {
    assert p[..|p|] == p;
    TableAfter(t, job, p, |p|);
    AcceptsTheFree(t, job, p, |p|);
    if WrittenBefore(t, job, p, |p|, s) {
      var j: nat :| j < |p| && Accepted(t, job, p, j) && SlotOf(job, p[j]) == s;
      assert p[j] in p;
    }
  }

  /** The items other than `c` and `d`. */
  ghost function Others(cs: seq<SourceChapter>, c: SourceChapter, d: SourceChapter): seq<SourceChapter>
  {
    if cs == [] then []
    else
      var last := cs[|cs| - 1];
      Others(cs[..|cs| - 1], c, d) + if last == c || last == d then [] else [last]
  }

  lemma {:induction false} OthersExactly(cs: seq<SourceChapter>, c: SourceChapter, d: SourceChapter)
    requires Distinct(cs)
    ensures forall x :: x in Others(cs, c, d) <==> x in cs && x != c && x != d
    ensures Distinct(Others(cs, c, d))
    decreases |cs|
  {
    if cs != [] {
      var front, last := cs[..|cs| - 1], cs[|cs| - 1];
      OthersExactly(front, c, d);
      assert cs == front + [last];
      assert last !in front;
      forall x | x in front ensures x.chapterNumber != last.chapterNumber && x.externalId != last.externalId {
        var i :| 0 <= i < |front| && front[i] == x;
        assert cs[i] == x;
      }
    }
  }

  lemma {:induction false} PairFirst(cs: seq<SourceChapter>, c: SourceChapter, d: SourceChapter)
    requires Distinct(cs) && c in cs && d in cs && c != d
    ensures SameItems([c, d] + Others(cs, c, d), cs)
  {
    var rest := Others(cs, c, d);
    var p := [c, d] + rest;
    OthersExactly(cs, c, d);
    forall i, j | 0 <= i < j < |p| ensures p[i].chapterNumber != p[j].chapterNumber
        && p[i].externalId != p[j].externalId {
      if i < 2 {
        if j >= 2 { assert p[j] in rest; }
        assert p[i] in cs && p[j] in cs && p[i] != p[j];
        var a :| 0 <= a < |cs| && cs[a] == p[i];
        var b :| 0 <= b < |cs| && cs[b] == p[j];
        assert a < b || b < a;
      } else {
        assert p[i] == rest[i - 2] && p[j] == rest[j - 2];
      }
    }
  }

  /** Writing `c` before or after `d` decides whether `d` is written at all. */
  lemma {:induction false} ReleaseDependsOnOrder(t: Table, job: Job, cs: seq<SourceChapter>, c: SourceChapter,
      d: SourceChapter)
    requires UniqueIds(t) && Distinct(cs) && c in cs && d in cs && Releases(t, job, c, d)
    ensures !OrderIndependent(t, job, cs)
    ensures !IdempotentInAnyOrder(t, job, cs)
  {
    var early, late := [c, d] + Others(cs, c, d), [d, c] + Others(cs, d, c);
    PairFirst(cs, c, d);
    PairFirst(cs, d, c);
    assert late[0] == d && late[1] == c && early[0] == c && early[1] == d;
    assert late[..0] == [] && late[..1] == [d] && early[..0] == [] && early[..1] == [c];
    assert SlotOf(job, c) != SlotOf(job, d);
    assert HeldElsewhere(t, SlotOf(job, d), d.externalId);
    assert [d][..0] == [];
    assert Sync(t, job, [d]) == t;
    assert FreedTooLate(t, job, late, 0, 1);
    IdempotentAsRun(t, job, late);
    SkippedWhileHeld(t, job, late, 0, 1);
    NoHolderLeft(t, job, late, 0, 1);
    assert late[..|late|] == late && early[..|early|] == early;
    WrittenSecond(t, job, early, d);
    assert Sync(t, job, early) != Sync(t, job, late);
  }

  lemma {:induction false} WrittenSecond(t: Table, job: Job, early: seq<SourceChapter>, d: SourceChapter)
    requires UniqueIds(t) && Distinct(early) && |early| >= 2 && early[1] == d && Releases(t, job, early[0], d)
    ensures SlotOf(job, d) in Sync(t, job, early)
    ensures Sync(t, job, early)[SlotOf(job, d)].externalId == Some(d.externalId)
  {
    assert early[..0] == [] && early[..|early|] == early;
    assert Accepted(t, job, early, 0);
    assert Accepted(t, job, early, 1) by {
      var now := Sync(t, job, early[..1]);
      if z :| z in now && z != SlotOf(job, d) && now[z].externalId == Some(d.externalId) {
        HolderOrigin(t, job, early, 1, z, 1);
        assert WrittenBefore(t, job, early, 1, SlotOf(job, early[0]));
      }
    }
    TableAfter(t, job, early, |early|);
  }

  // ----- A table and a listing for which the stated idempotence fails -----

  function Entry(id: string, n: real): SourceChapter
  {
    SourceChapter(id, n, None, "en", 10, None)
  }

  /** Chapter 2's row holds "A"; upstream now lists "A" as chapter 1 and "B" as chapter 2. */
  lemma {:induction false} SyncTwiceDiffers(newId: Slot -> string)
    returns (t: Table, job: Job, cs: seq<SourceChapter>)
    ensures UniqueIds(t) && Distinct(cs) && Increasing(cs)
    ensures Slot("s", "en", 1.0) !in Sync(t, job, cs)
    ensures Slot("s", "en", 1.0) in Sync(Sync(t, job, cs), job, cs)
  {
    job := Job("s", newId);
    var s1, s2 := Slot("s", "en", 1.0), Slot("s", "en", 2.0);
    t := map[s2 := Row("r2", Some("A"), None, 10, None, false, 0, false)];
    cs := [Entry("A", 1.0), Entry("B", 2.0)];
    assert cs[..0] == [] && cs[..1] == [cs[0]] && cs[..2] == cs && [cs[0]][..0] == [];
    assert SlotOf(job, cs[0]) == s1 && SlotOf(job, cs[1]) == s2;
    assert t[s2].externalId == Some("A");
    assert Sync(t, job, cs[..1]) == t;
    assert Accepted(t, job, cs, 1);
    assert FreedTooLate(t, job, cs, 0, 1);
    SkippedWhileHeld(t, job, cs, 0, 1);
    TableAfter(t, job, cs, 2);
    assert !WrittenBefore(t, job, cs, 2, s1);
    var t1 := Sync(t, job, cs);
    NoHolderLeft(t, job, cs, 0, 1);
    assert Sync(t1, job, cs[..0]) == t1;
    assert Accepted(t1, job, cs, 0);
    TableAfter(t1, job, cs, 2);
  }
}
