/**
  Listing a series' chapters from a paginated external feed: fetch all pages,
  drop entries without a chapter number, keep one entry per number, sort.
  Chapter numbers are exact (reals); parsing them is left to the feed.
 */
module ChapterFeed {
  import opened Wrappers

  /** The `chapter` attribute after `Number(...)`. */
  datatype ChapterLabel = Missing | NotFinite | Finite(value: real)

  datatype FeedItem = FeedItem(
    id: string, chapter: ChapterLabel, title: Option<string>, language: string, pages: int, publishAt: Option<int>)

  datatype SourceChapter = SourceChapter(
    externalId: string, chapterNumber: real, title: Option<string>, language: string, pageCount: int,
        publishedAt: Option<int>)

  /** A fixed feed; requests at the offsets in `down` fail. */
  datatype Feed = Feed(items: seq<FeedItem>, down: set<nat>)

  datatype Page = Page(data: seq<FeedItem>, total: nat)

  datatype Error = FeedUnavailable(offset: nat)

  const PAGE_CAP: nat := 100

  function Min(a: nat, b: nat): nat { if a <= b then a else b }

  /** One HTTP request. */
  function Fetch(feed: Feed, offset: nat, limit: nat): Result<Page, Error>
  {
    if offset in feed.down then Err(FeedUnavailable(offset))
    else
      var lo := Min(offset, |feed.items|);
      Ok(Page(feed.items[lo..Min(lo + limit, |feed.items|)], |feed.items|))
  }

  function ToChapter(c: FeedItem): SourceChapter
    requires c.chapter.Finite?
  {
    SourceChapter(c.id, c.chapter.value, c.title, c.language, c.pages, c.publishAt)
  }

  /** The entries with a chapter number, in feed order. */
  function Valid(items: seq<FeedItem>): seq<SourceChapter>
  {
    if items == [] then []
    else
      var last := items[|items| - 1];
      Valid(items[..|items| - 1]) + if last.chapter.Finite? then [ToChapter(last)] else []
  }

  // ----- One entry per number -----

  /** Both entries are dated and the new one is earlier. */
  predicate Earlier(c: SourceChapter, existing: SourceChapter)
  {
    c.publishedAt.Some? && existing.publishedAt.Some? && c.publishedAt.value < existing.publishedAt.value
  }

  function Keep(byNumber: map<real, SourceChapter>, c: SourceChapter): map<real, SourceChapter>
  {
    if c.chapterNumber !in byNumber || Earlier(c, byNumber[c.chapterNumber]) then byNumber[c.chapterNumber := c]
    else byNumber
  }

  function Dedupe(cs: seq<SourceChapter>): map<real, SourceChapter>
  {
    if cs == [] then map[] else Keep(Dedupe(cs[..|cs| - 1]), cs[|cs| - 1])
  }

  ghost predicate IsFirst(cs: seq<SourceChapter>, n: real, f: nat)
  {
    && f < |cs| && cs[f].chapterNumber == n
    && forall j :: 0 <= j < f ==> cs[j].chapterNumber != n
  }

  /**
    With `f` the first entry numbered `n`, entry `i` is the one to keep: `f`
    itself if undated, else the earliest dated, first among ties.
   */
  ghost predicate IsKept(cs: seq<SourceChapter>, n: real, f: nat, i: nat)
  {
    && IsFirst(cs, n, f)
    && i < |cs| && cs[i].chapterNumber == n
    && (cs[f].publishedAt.None? ==> i == f)
    && (cs[f].publishedAt.Some? ==> cs[i].publishedAt.Some? && IsEarliest(cs, n, i, cs[i].publishedAt.value))
  }

  ghost predicate IsEarliest(cs: seq<SourceChapter>, n: real, i: nat, date: int)
  {
    forall j :: 0 <= j < |cs| && cs[j].chapterNumber == n && cs[j].publishedAt.Some? ==>
      date <= cs[j].publishedAt.value && (j < i ==> date < cs[j].publishedAt.value)
  }

  /** The rule determines one entry. */
  lemma {:induction false} KeptUnique(cs: seq<SourceChapter>, n: real, f: nat, i: nat, g: nat, j: nat)
    requires IsKept(cs, n, f, i) && IsKept(cs, n, g, j)
    ensures f == g && i == j
  {
    assert f == g;
  }

  lemma {:induction false} KeptElsewhere(cs: seq<SourceChapter>, c: SourceChapter, n: real, f: nat, i: nat)
    requires IsKept(cs, n, f, i) && c.chapterNumber != n
    ensures IsKept(cs + [c], n, f, i)
  {
    assert forall j :: 0 <= j < |cs| ==> (cs + [c])[j] == cs[j];
  }

  predicate Occurs(cs: seq<SourceChapter>, n: real)
  {
    exists j :: 0 <= j < |cs| && cs[j].chapterNumber == n
  }

  lemma {:induction false} OccursStep(cs: seq<SourceChapter>, c: SourceChapter, n: real)
    ensures Occurs(cs + [c], n) <==> Occurs(cs, n) || c.chapterNumber == n
  {
    var all := cs + [c];
    assert all[|cs|] == c;
    assert forall j :: 0 <= j < |cs| ==> all[j] == cs[j];
  }

  /** The map holds exactly the feed's numbers, each with the entry the rule keeps. */
  lemma {:induction false} DedupeKeeps(cs: seq<SourceChapter>, n: real) returns (f: nat, i: nat)
    ensures n in Dedupe(cs) <==> Occurs(cs, n)
    ensures n in Dedupe(cs) ==> IsKept(cs, n, f, i) && Dedupe(cs)[n] == cs[i]
    decreases |cs|
  {
    f, i := 0, 0;
    if cs != [] {
      var before, c := cs[..|cs| - 1], cs[|cs| - 1];
      assert cs == before + [c];
      f, i := DedupeKeeps(before, n);
      OccursStep(before, c, n);
      if n in Dedupe(before) {
        if c.chapterNumber != n {
          KeptElsewhere(before, c, n, f, i);
        } else {
          i := if Earlier(c, before[i]) then |before| else i;
        }
      } else if c.chapterNumber == n {
        f, i := |before|, |before|;
        assert forall j :: 0 <= j < |before| ==> cs[j] == before[j];
      }
    }
  }

  // ----- Sorting -----

  ghost predicate Increasing(r: seq<SourceChapter>)
  {
    forall i, j :: 0 <= i < j < |r| ==> r[i].chapterNumber < r[j].chapterNumber
  }

  /** The values of the map, in increasing order of number. */
  ghost predicate SortedValues(r: seq<SourceChapter>, byNumber: map<real, SourceChapter>)
  {
    && Increasing(r)
    && (forall c :: c in r ==> c.chapterNumber in byNumber && byNumber[c.chapterNumber] == c)
    && (forall n :: n in byNumber ==> exists i :: 0 <= i < |r| && r[i].chapterNumber == n)
  }

  lemma {:induction false} FirstValue(r: seq<SourceChapter>, byNumber: map<real, SourceChapter>)
    requires SortedValues(r, byNumber)
    ensures r != [] ==> r[0].chapterNumber in byNumber
  {
    if r != [] {
      assert r[0] in r;
    }
  }

  /** Whatever sort is used, there is only one such list. */
  lemma {:induction false} SortedValuesUnique(r: seq<SourceChapter>, q: seq<SourceChapter>, byNumber: map<real,
      SourceChapter>)
    requires SortedValues(r, byNumber) && SortedValues(q, byNumber)
    ensures r == q
  {
    SamePrefix(r, q, byNumber, |r|);
    SamePrefix(q, r, byNumber, |q|);
    assert r[..|r|] == r && q[..|q|] == q;
  }

  lemma {:induction false} SamePrefix(r: seq<SourceChapter>, q: seq<SourceChapter>, byNumber: map<real,
      SourceChapter>, k: nat)
    requires SortedValues(r, byNumber) && SortedValues(q, byNumber) && k <= |r|
    ensures k <= |q| && r[..k] == q[..k]
  {
    if k > 0 {
      var e := k - 1;
      SamePrefix(r, q, byNumber, e);
      SameNext(r, q, byNumber, e);
      assert r[..k] == r[..e] + [r[e]] && q[..k] == q[..e] + [q[e]];
    }
  }

  lemma {:induction false} SameNext(r: seq<SourceChapter>, q: seq<SourceChapter>, byNumber: map<real,
      SourceChapter>, e: nat)
    requires SortedValues(r, byNumber) && SortedValues(q, byNumber)
    requires e < |r| && e <= |q| && r[..e] == q[..e]
    ensures e < |q| && r[e] == q[e]
  {
    var b := Position(q, r, byNumber, e);
    var a := Position(r, q, byNumber, e);
    assert q[e].chapterNumber <= q[b].chapterNumber == r[e].chapterNumber;
    assert r[e].chapterNumber <= r[a].chapterNumber == q[e].chapterNumber;
    assert r[e] in r && q[e] in q;
  }

  lemma {:induction false} Position(q: seq<SourceChapter>, r: seq<SourceChapter>, byNumber: map<real,
      SourceChapter>, e: nat)
    returns (b: nat)
    requires SortedValues(r, byNumber) && SortedValues(q, byNumber) && e < |r|
    ensures b < |q| && q[b].chapterNumber == r[e].chapterNumber
  {
    assert r[e] in r;
    b :| b < |q| && q[b].chapterNumber == r[e].chapterNumber;
  }

  lemma {:induction false} AnElement<T>(s: set<T>) returns (x: T)
    requires s != {}
    ensures x in s
  {
    x :| x in s;
  }

  lemma {:induction false} LeastExists(s: set<real>, x: real) returns (m: real)
    requires x in s
    ensures m in s && forall n :: n in s ==> m <= n
    decreases s
  {
    m := x;
    var rest := s - {x};
    assert s == rest + {x};
    if y :| y in rest {
      var k := LeastExists(rest, y);
      m := if k < x then k else x;
    }
  }

  lemma {:induction false} AppendLarger(r: seq<SourceChapter>, c: SourceChapter)
    requires Increasing(r) && forall d :: d in r ==> d.chapterNumber < c.chapterNumber
    ensures Increasing(r + [c])
  {
    assert forall i :: 0 <= i < |r| ==> r[i] in r;
  }

  /** Appending the least number still to come keeps the list sorted. */
  lemma {:induction false} AppendLeast(r: seq<SourceChapter>, byNumber: map<real, SourceChapter>,
      left: set<real>, n: real)
    requires left <= byNumber.Keys && n in left && forall k :: k in left ==> n <= k
    requires byNumber[n].chapterNumber == n
    requires SortedValues(r, byNumber - left)
    requires forall c, k :: c in r && k in left ==> c.chapterNumber < k
    ensures SortedValues(r + [byNumber[n]], byNumber - (left - {n}))
    ensures forall c, k :: c in r + [byNumber[n]] && k in left - {n} ==> c.chapterNumber < k
  {
    var all, done := r + [byNumber[n]], byNumber - (left - {n});
    AppendLarger(r, byNumber[n]);
    forall k | k in done ensures exists i :: 0 <= i < |all| && all[i].chapterNumber == k {
      if k == n {
        assert all[|r|].chapterNumber == k;
      } else {
        assert k in byNumber - left;
        var i :| 0 <= i < |r| && r[i].chapterNumber == k;
        assert all[i] == r[i];
      }
    }
  }

  method SortByNumber(byNumber: map<real, SourceChapter>) returns (r: seq<SourceChapter>)
    requires forall n :: n in byNumber ==> byNumber[n].chapterNumber == n
    ensures SortedValues(r, byNumber)
  {
    r := [];
    var left := byNumber.Keys;
    while left != {}
      invariant left <= byNumber.Keys
      invariant SortedValues(r, byNumber - left)
      invariant forall c, n :: c in r && n in left ==> c.chapterNumber < n
      decreases left
    {
      ghost var some := AnElement(left);
      ghost var least := LeastExists(left, some);
      var n :| n in left && forall k :: k in left ==> n <= k;
      AppendLeast(r, byNumber, left, n);
      r := r + [byNumber[n]];
      left := left - {n};
    }
    assert byNumber - left == byNumber;
  }

  // ----- The listing -----

  function PageStart(k: nat, size: nat): nat { k * size }

  /** Offsets the page loop asks for: 0, and every later page start inside the feed. */
  ghost predicate Visited(feed: Feed, limit: nat, offset: nat)
  {
    exists k: nat :: IsPage(feed, limit, offset, k)
  }

  ghost predicate IsPage(feed: Feed, limit: nat, offset: nat, k: nat)
  {
    var size := if limit < 100 then limit else 100;
    offset == PageStart(k, size) && (k == 0 || (size > 0 && offset < |feed.items|))
  }

  lemma {:induction false} DedupeNumbers(cs: seq<SourceChapter>)
    ensures forall n :: n in Dedupe(cs) ==> Dedupe(cs)[n].chapterNumber == n
  {
    forall n | n in Dedupe(cs) ensures Dedupe(cs)[n].chapterNumber == n {
      var f, i := DedupeKeeps(cs, n);
    }
  }

  /** No page before the `k`-th failed. */
  ghost predicate PagesUp(feed: Feed, size: nat, k: nat)
  {
    forall j: nat :: j < k ==> PageStart(j, size) !in feed.down
  }

  lemma {:induction false} AllPagesUp(feed: Feed, limit: nat, k: nat)
    requires k > 0 && PagesUp(feed, Min(limit, PAGE_CAP), k)
    requires limit > 0 ==> |feed.items| <= PageStart(k, Min(limit, PAGE_CAP))
    ensures forall o :: o in feed.down ==> !Visited(feed, limit, o)
  {
    forall o | o in feed.down && Visited(feed, limit, o) ensures false {
      var j: nat :| IsPage(feed, limit, o, j);
    }
  }

  /**
    The page loop ends, and unless a request it makes fails it collects the
    whole feed once.
   */
  method FetchAll(feed: Feed, limit: nat) returns (r: Result<seq<SourceChapter>, Error>)
    ensures r.Err? <==> exists o :: o in feed.down && Visited(feed, limit, o)
    ensures r.Ok? ==> r.value == if limit > 0 then Valid(feed.items) else []
  {
    var size := Min(limit, PAGE_CAP);
    var out: seq<SourceChapter> := [];
    var offset := 0;
    var total: Option<nat> := None;
    ghost var pages: nat := 0;
    while total.None? || offset < total.value
      invariant total.Some? ==> total.value == |feed.items| && pages > 0
      invariant offset == Min(PageStart(pages, size), |feed.items|)
      invariant total.None? ==> pages == 0
      invariant pages > 0 ==> size > 0
      invariant out == Valid(feed.items[..offset])
      invariant PagesUp(feed, size, pages)
      decreases total.None?, |feed.items| - offset
    {
      var res := Fetch(feed, offset, size);
      if res.Err? {
        assert IsPage(feed, limit, offset, pages);
        return Err(res.error);
      }
      total := Some(res.value.total);
      var data := res.value.data;
      out := Collect(feed.items, offset, data, out);
      offset := offset + |data|;
      pages := pages + 1;
      assert PageStart(pages, size) == PageStart(pages - 1, size) + size;
      if |data| == 0 {
        break;
      }
    }
    AllPagesUp(feed, limit, pages);
    if limit > 0 {
      assert feed.items[..offset] == feed.items;
    }
    r := Ok(out);
  }

  /** The listing is the deduplicated, sorted feed. */
  method ListChapters(feed: Feed, limit: nat) returns (r: Result<seq<SourceChapter>, Error>)
    ensures r.Err? <==> exists o :: o in feed.down && Visited(feed, limit, o)
    ensures r.Ok? ==> SortedValues(r.value, Dedupe(if limit > 0 then Valid(feed.items) else []))
    ensures r.Ok? && limit > 0 ==> ListingOf(feed.items, r.value)
    ensures r.Ok? && limit == 0 ==> r.value == []
  {
    var all := FetchAll(feed, limit);
    if all.Err? {
      return Err(all.error);
    }
    var byNumber := KeepOnePerNumber(all.value);
    DedupeNumbers(all.value);
    var sorted := SortByNumber(byNumber);
    if limit > 0 {
      SortedIsListing(feed.items, sorted);
    } else {
      FirstValue(sorted, byNumber);
    }
    r := Ok(sorted);
  }

  /** The inner loop: append a page's numbered entries. */
  method Collect(ghost items: seq<FeedItem>, ghost offset: nat, data: seq<FeedItem>, sofar: seq<SourceChapter>)
    returns (out: seq<SourceChapter>)
    requires offset + |data| <= |items| && data == items[offset..offset + |data|]
    requires sofar == Valid(items[..offset])
    ensures out == Valid(items[..offset + |data|])
  {
    out := sofar;
    for k := 0 to |data|
      invariant out == Valid(items[..offset + k])
    {
      var c := data[k];
      assert items[..offset + k + 1] == items[..offset + k] + [c];
      if c.chapter.Finite? {
        out := out + [ToChapter(c)];
      }
    }
  }

  method KeepOnePerNumber(out: seq<SourceChapter>) returns (byNumber: map<real, SourceChapter>)
    ensures byNumber == Dedupe(out)
  {
    byNumber := map[];
    for k := 0 to |out|
      invariant byNumber == Dedupe(out[..k])
    {
      var c := out[k];
      assert out[..k + 1] == out[..k] + [c];
      if c.chapterNumber !in byNumber || Earlier(c, byNumber[c.chapterNumber]) {
        byNumber := byNumber[c.chapterNumber := c];
      }
    }
    assert out[..|out|] == out;
  }

  // ----- What the listing means for the feed -----

  lemma {:induction false} ValidExactly(items: seq<FeedItem>, c: SourceChapter)
    ensures c in Valid(items) <==> exists i :: 0 <= i < |items| && items[i].chapter.Finite? && ToChapter(items[i]) == c
    decreases |items|
  {
    if items != [] {
      var m := |items| - 1;
      ValidExactly(items[..m], c);
      assert forall i :: 0 <= i < m ==> items[..m][i] == items[i];
    }
  }

  /**
    A listing is strictly increasing, has exactly the feed's valid numbers, and
    shows for each the entry the rule keeps.
   */
  lemma {:induction false} ListingMatchesFeed(items: seq<FeedItem>, r: seq<SourceChapter>, n: real)
    requires SortedValues(r, Dedupe(Valid(items)))
    ensures Increasing(r)
    ensures Occurs(r, n) <==> exists i :: 0 <= i < |items| && items[i].chapter == Finite(n)
    ensures forall j :: 0 <= j < |r| && r[j].chapterNumber == n ==>
              exists f: nat, i: nat :: IsKept(Valid(items), n, f, i) && r[j] == Valid(items)[i]
  {
    var cs := Valid(items);
    var f, i := DedupeKeeps(cs, n);
    forall j | 0 <= j < |r| && r[j].chapterNumber == n
      ensures exists f: nat, i: nat :: IsKept(cs, n, f, i) && r[j] == cs[i]
    {
      assert r[j] in r;
      assert IsKept(cs, n, f, i) && r[j] == cs[i];
    }
    ValidNumbers(items, n);
    assert Occurs(r, n) <==> n in Dedupe(cs) by {
      if Occurs(r, n) {
        var j :| 0 <= j < |r| && r[j].chapterNumber == n;
        assert r[j] in r;
      }
    }
  }

  lemma {:induction false} ValidNumbers(items: seq<FeedItem>, n: real)
    ensures Occurs(Valid(items), n) <==> exists i :: 0 <= i < |items| && items[i].chapter == Finite(n)
  {
    var cs := Valid(items);
    if Occurs(cs, n) {
      var j :| 0 <= j < |cs| && cs[j].chapterNumber == n;
      ValidExactly(items, cs[j]);
    }
    if k :| 0 <= k < |items| && items[k].chapter == Finite(n) {
      ValidExactly(items, ToChapter(items[k]));
      var j :| 0 <= j < |cs| && cs[j] == ToChapter(items[k]);
      assert cs[j].chapterNumber == n;
    }
  }

  /** Distinct feed ids stay distinct in the listing. */
  lemma {:induction false} ListingIdsDistinct(items: seq<FeedItem>, r: seq<SourceChapter>)
    requires SortedValues(r, Dedupe(Valid(items)))
    requires forall i, j :: 0 <= i < j < |items| ==> items[i].id != items[j].id
    ensures forall i, j :: 0 <= i < j < |r| ==> r[i].externalId != r[j].externalId
  {
    forall i, j | 0 <= i < j < |r| ensures r[i].externalId != r[j].externalId {
      var k := FromFeed(items, r, i);
      var l := FromFeed(items, r, j);
    }
  }

  lemma {:induction false} FromFeed(items: seq<FeedItem>, r: seq<SourceChapter>, i: nat) returns (k: nat)
    requires SortedValues(r, Dedupe(Valid(items))) && i < |r|
    ensures k < |items| && items[k].chapter.Finite? && ToChapter(items[k]) == r[i]
  {
    assert r[i] in r;
    var f, j := DedupeKeeps(Valid(items), r[i].chapterNumber);
    assert Valid(items)[j] in Valid(items);
    ValidExactly(items, r[i]);
    k :| 0 <= k < |items| && items[k].chapter.Finite? && ToChapter(items[k]) == r[i];
  }

  // ----- What the listing means for the feed's own items -----

  /** The listed chapter carries the item's own data. */
  ghost predicate SameEntry(c: SourceChapter, item: FeedItem)
  {
    && c.externalId == item.id && item.chapter == Finite(c.chapterNumber) && c.title == item.title
    && c.language == item.language && c.pageCount == item.pages && c.publishedAt == item.publishAt
  }

  ghost predicate FirstItem(items: seq<FeedItem>, n: real, f: nat)
  {
    && f < |items| && items[f].chapter == Finite(n)
    && forall k :: 0 <= k < f ==> items[k].chapter != Finite(n)
  }

  /** Item `i` is to be listed for `n`: the first item if that is undated, else the earliest dated, first among ties. */
  ghost predicate ListedItem(items: seq<FeedItem>, n: real, f: nat, i: nat)
  {
    && FirstItem(items, n, f) && i < |items| && items[i].chapter == Finite(n)
    && (items[f].publishAt.None? ==> i == f)
    && (items[f].publishAt.Some? ==>
          && items[i].publishAt.Some?
          && forall k :: 0 <= k < |items| && items[k].chapter == Finite(n) && items[k].publishAt.Some? ==>
               items[i].publishAt.value <= items[k].publishAt.value
               && (k < i ==> items[i].publishAt.value < items[k].publishAt.value))
  }

  ghost predicate ListsItem(items: seq<FeedItem>, c: SourceChapter)
  {
    exists f: nat, i: nat :: ListedItem(items, c.chapterNumber, f, i) && SameEntry(c, items[i])
  }

  ghost predicate HasNumber(items: seq<FeedItem>, n: real)
  {
    exists i :: 0 <= i < |items| && items[i].chapter == Finite(n)
  }

  /** The listing of a feed: increasing, exactly the feed's numbers, each shown by the item the rule picks. */
  ghost predicate ListingOf(items: seq<FeedItem>, r: seq<SourceChapter>)
  {
    && Increasing(r)
    && (forall n: real :: HasNumber(items, n) <==> Occurs(r, n))
    && forall j :: 0 <= j < |r| ==> ListsItem(items, r[j])
  }

  /** The feed positions of the numbered items, in order. */
  ghost function Origins(items: seq<FeedItem>): seq<nat>
  {
    if items == [] then []
    else
      var m := |items| - 1;
      Origins(items[..m]) + if items[m].chapter.Finite? then [m] else []
  }

  ghost predicate Placed(items: seq<FeedItem>, cs: seq<SourceChapter>, at: seq<nat>)
  {
    && |at| == |cs|
    && (forall k :: 0 <= k < |at| ==> at[k] < |items| && SameEntry(cs[k], items[at[k]]))
    && (forall k, l :: 0 <= k < l < |at| ==> at[k] < at[l])
    && (forall i :: 0 <= i < |items| && items[i].chapter.Finite? ==> i in at)
  }

  ghost predicate OriginsOk(items: seq<FeedItem>, at: seq<nat>)
  {
    Placed(items, Valid(items), at)
  }

  lemma {:induction false} OriginsFit(items: seq<FeedItem>)
    ensures OriginsOk(items, Origins(items))
    decreases |items|
  {
    if items != [] {
      var m := |items| - 1;
      OriginsFit(items[..m]);
    }
  }

  lemma {:induction false} OriginAt(items: seq<FeedItem>, at: seq<nat>, i: nat) returns (k: nat)
    requires OriginsOk(items, at) && i < |items| && items[i].chapter.Finite?
    ensures k < |at| && at[k] == i
  {
    assert i in at;
    k :| k < |at| && at[k] == i;
  }

  /** The entry kept among the numbered entries comes from the item the rule picks. */
  lemma {:induction false} KeptIsListed(items: seq<FeedItem>, at: seq<nat>, n: real, f: nat, i: nat)
    requires OriginsOk(items, at) && IsKept(Valid(items), n, f, i)
    ensures ListedItem(items, n, at[f], at[i])
  {
    var cs := Valid(items);
    forall k | 0 <= k < |items| && items[k].chapter == Finite(n) ensures at[f] <= k {
      var l := OriginAt(items, at, k);
      assert SameEntry(cs[l], items[k]);
    }
    if items[at[f]].publishAt.Some? {
      forall k | 0 <= k < |items| && items[k].chapter == Finite(n) && items[k].publishAt.Some?
        ensures items[at[i]].publishAt.value <= items[k].publishAt.value
        ensures k < at[i] ==> items[at[i]].publishAt.value < items[k].publishAt.value
      {
        var l := OriginAt(items, at, k);
        assert SameEntry(cs[l], items[k]) && SameEntry(cs[i], items[at[i]]);
        assert k < at[i] ==> l < i;
      }
    }
  }

  lemma {:induction false} SortedIsListing(items: seq<FeedItem>, r: seq<SourceChapter>)
    requires SortedValues(r, Dedupe(Valid(items)))
    ensures ListingOf(items, r)
  {
    var cs, at := Valid(items), Origins(items);
    OriginsFit(items);
    forall n: real ensures HasNumber(items, n) <==> Occurs(r, n) {
      ListingMatchesFeed(items, r, n);
    }
    forall j | 0 <= j < |r| ensures ListsItem(items, r[j]) {
      var n := r[j].chapterNumber;
      ListingMatchesFeed(items, r, n);
      var f: nat, i: nat :| IsKept(cs, n, f, i) && r[j] == cs[i];
      KeptIsListed(items, at, n, f, i);
      assert SameEntry(r[j], items[at[i]]);
    }
  }

  /** A feed has one listing. */
  lemma {:induction false} OneListing(items: seq<FeedItem>, r: seq<SourceChapter>, q: seq<SourceChapter>)
    requires ListingOf(items, r) && ListingOf(items, q)
    ensures r == q
  {
    ListingPrefix(items, r, q, |r|);
    ListingPrefix(items, q, r, |q|);
    assert r[..|r|] == r && q[..|q|] == q;
  }

  lemma {:induction false} ListingPrefix(items: seq<FeedItem>, r: seq<SourceChapter>, q: seq<SourceChapter>, k: nat)
    requires ListingOf(items, r) && ListingOf(items, q) && k <= |r|
    ensures k <= |q| && r[..k] == q[..k]
    decreases k
  {
    if k > 0 {
      var e := k - 1;
      ListingPrefix(items, r, q, e);
      ListingNext(items, r, q, e);
      assert r[..k] == r[..e] + [r[e]] && q[..k] == q[..e] + [q[e]];
    }
  }

  lemma {:induction false} ListingPosition(items: seq<FeedItem>, q: seq<SourceChapter>, r: seq<SourceChapter>, e: nat)
    returns (b: nat)
    requires ListingOf(items, r) && ListingOf(items, q) && e < |r|
    ensures b < |q| && q[b].chapterNumber == r[e].chapterNumber
  {
    assert Occurs(r, r[e].chapterNumber);
    assert Occurs(q, r[e].chapterNumber);
    b :| b < |q| && q[b].chapterNumber == r[e].chapterNumber;
  }

  lemma {:induction false} ListingNext(items: seq<FeedItem>, r: seq<SourceChapter>, q: seq<SourceChapter>, e: nat)
    requires ListingOf(items, r) && ListingOf(items, q)
    requires e < |r| && e <= |q| && r[..e] == q[..e]
    ensures e < |q| && r[e] == q[e]
  {
    var b := ListingPosition(items, q, r, e);
    var a := ListingPosition(items, r, q, e);
    assert q[e].chapterNumber <= q[b].chapterNumber == r[e].chapterNumber;
    assert r[e].chapterNumber <= r[a].chapterNumber == q[e].chapterNumber;
  }

}
