/**
  Idempotency keys of the INK rewards.  The services write them as strings
  (`ink:{userId}:...`); the chain registry and the ledger compare those strings.
  `InkKey` is the structured form, and `RenderInjective` says that comparing
  structured keys is the same as comparing the strings.
 */
module Keys {

  type UserId = string
  type SeriesId = string
  type SubmissionId = string

  /** Values of the on-chain trigger enum. */
  datatype Trigger = ChapterRead | SeriesComplete | SubmissionApproved

  /** INK minted for each trigger. */
  function Amount(t: Trigger): nat
  {
    match t
    case ChapterRead => 10
    case SeriesComplete => 100
    case SubmissionApproved => 50
  }

  datatype InkKey =
    | FirstChapter(user: UserId, series: SeriesId)
    | Milestone(user: UserId, series: SeriesId, mark: nat)
    | Completion(user: UserId, series: SeriesId)
    | Approval(user: UserId, submission: SubmissionId)
  {
    function Trigger(): Trigger
    {
      match this
      case FirstChapter(_, _) => ChapterRead
      case Milestone(_, _, _) => ChapterRead
      case Completion(_, _) => SeriesComplete
      case Approval(_, _) => SubmissionApproved
    }

    /** The string the services build for this key. */
    function Render(): string { "ink:" + (user + ":" + Suffix(this)) }

    /** Database ids are UUIDs, so they contain no ':'. */
    predicate PlainIds()
    {
      && ':' !in user
      && match this
         case FirstChapter(_, s) => ':' !in s
         case Milestone(_, s, _) => ':' !in s
         case Completion(_, s) => ':' !in s
         case Approval(_, x) => ':' !in x
    }
  }

  /** What follows `ink:{userId}:` in a rendered key. */
  function Suffix(k: InkKey): string
  {
    match k
    case FirstChapter(_, s) => "chapter_read:" + (s + ":" + "chapter1")
    case Milestone(_, s, m) => "chapter_read:" + (s + ":" + ("milestone" + Decimal(m)))
    case Completion(_, s) => "series_complete:" + s
    case Approval(_, x) => "submission_approved:" + x
  }

  const DIGITS := "0123456789"

  function Decimal(n: nat): (s: string)
    ensures |s| > 0
  {
    if n < 10 then [DIGITS[n]] else Decimal(n / 10) + [DIGITS[n % 10]]
  }

  function DigitValue(c: char): nat
  {
    if '0' <= c <= '9' then (c - '0') as nat else 0
  }

  function ParseDecimal(s: string): nat
  {
    if |s| == 0 then 0 else 10 * ParseDecimal(s[..|s| - 1]) + DigitValue(s[|s| - 1])
  }

  lemma {:induction false} DecimalRoundTrip(n: nat)
    ensures ParseDecimal(Decimal(n)) == n
  {
    assert forall d: nat :: d < 10 ==> DigitValue(DIGITS[d]) == d;
    if n < 10 {
      assert Decimal(n)[..0] == "";
    } else {
      DecimalRoundTrip(n / 10);
      var s := Decimal(n);
      assert s[..|s| - 1] == Decimal(n / 10);
    }
  }

  lemma {:induction false} FirstColon(a: string, x: string)
    requires ':' !in a
    ensures (a + ":" + x)[|a|] == ':'
    ensures forall i :: 0 <= i < |a| ==> (a + ":" + x)[i] != ':'
  {
    assert forall i :: 0 <= i < |a| ==> (a + ":" + x)[i] == a[i];
  }

  /** A ':'-free prefix up to the first ':' is determined by the whole string. */
  lemma {:induction false} SplitAtColon(a: string, x: string, b: string, y: string)
    requires ':' !in a && ':' !in b
    requires a + ":" + x == b + ":" + y
    ensures a == b && x == y
  {
    var l, r := a + ":" + x, b + ":" + y;
    FirstColon(a, x);
    FirstColon(b, y);
    assert |a| == |b|;
    assert a == l[..|a|] == r[..|b|] == b;
    assert x == l[|a| + 1..] == r[|b| + 1..] == y;
  }

  lemma {:induction false} DropPrefix(p: string, x: string, y: string)
    requires p + x == p + y
    ensures x == y
  {
    assert x == (p + x)[|p|..] == (p + y)[|p|..] == y;
  }

  lemma {:induction false} SuffixInjective(j: InkKey, k: InkKey)
    requires j.PlainIds() && k.PlainIds() && j.user == k.user
    requires Suffix(j) == Suffix(k)
    ensures j == k
  {
    assert Suffix(j)[0] == Suffix(k)[0] && Suffix(j)[1] == Suffix(k)[1];
    if j.Completion? && k.Completion? {
      DropPrefix("series_complete:", j.series, k.series);
    } else if j.Approval? && k.Approval? {
      DropPrefix("submission_approved:", j.submission, k.submission);
    } else if (j.FirstChapter? || j.Milestone?) && (k.FirstChapter? || k.Milestone?) {
      ReadSuffixInjective(j, k);
    }
  }

  lemma {:induction false} ReadSuffixInjective(j: InkKey, k: InkKey)
    requires (j.FirstChapter? || j.Milestone?) && (k.FirstChapter? || k.Milestone?)
    requires j.PlainIds() && k.PlainIds() && j.user == k.user
    requires Suffix(j) == Suffix(k)
    ensures j == k
  {
    var tj := if j.FirstChapter? then "chapter1" else "milestone" + Decimal(j.mark);
    var tk := if k.FirstChapter? then "chapter1" else "milestone" + Decimal(k.mark);
    DropPrefix("chapter_read:", j.series + ":" + tj, k.series + ":" + tk);
    SplitAtColon(j.series, tj, k.series, tk);
    assert tj[0] == tk[0];
    if j.Milestone? {
      DropPrefix("milestone", Decimal(j.mark), Decimal(k.mark));
      DecimalRoundTrip(j.mark);
      DecimalRoundTrip(k.mark);
    }
  }

  /** Two reward keys are written as the same string only if they are the same key. */
  lemma {:induction false} RenderInjective(j: InkKey, k: InkKey)
    requires j.PlainIds() && k.PlainIds()
    ensures j.Render() == k.Render() <==> j == k
  {
    if j.Render() == k.Render() {
      DropPrefix("ink:", j.user + ":" + Suffix(j), k.user + ":" + Suffix(k));
      SplitAtColon(j.user, Suffix(j), k.user, Suffix(k));
      SuffixInjective(j, k);
    }
  }

  lemma {:induction false} JoinLabel(u: string, tag: string, rest: string)
    ensures "ink:" + (u + ":" + (tag + rest)) == "ink:" + (u + ((":" + tag) + rest))
  {
    assert u + ":" + (tag + rest) == u + ((":" + tag) + rest);
  }

  /** The strings themselves. */
  lemma {:induction false} RenderedKeys(u: UserId, s: SeriesId, x: SubmissionId, mark: nat)
    ensures FirstChapter(u, s).Render() == "ink:" + (u + (":chapter_read:" + (s + ":chapter1")))
    ensures Milestone(u, s, mark).Render() == "ink:" + (u + (":chapter_read:" + (s + (":milestone" + Decimal(mark)))))
    ensures Completion(u, s).Render() == "ink:" + (u + (":series_complete:" + s))
    ensures Approval(u, x).Render() == "ink:" + (u + (":submission_approved:" + x))
  {
    RenderedRead(u, s, "chapter1");
    RenderedRead(u, s, "milestone" + Decimal(mark));
    assert ":" + "chapter1" == ":chapter1";
    assert ":" + ("milestone" + Decimal(mark)) == ":milestone" + Decimal(mark);
    JoinLabel(u, "series_complete:", s);
    assert ":" + "series_complete:" == ":series_complete:";
    JoinLabel(u, "submission_approved:", x);
    assert ":" + "submission_approved:" == ":submission_approved:";
  }

  lemma {:induction false} RenderedRead(u: UserId, s: SeriesId, tail: string)
    ensures "ink:" + (u + ":" + ("chapter_read:" + (s + ":" + tail)))
            == "ink:" + (u + (":chapter_read:" + (s + (":" + tail))))
  {
    JoinLabel(u, "chapter_read:", s + ":" + tail);
    assert ":" + "chapter_read:" == ":chapter_read:";
    assert s + ":" + tail == s + (":" + tail);
  }
}
