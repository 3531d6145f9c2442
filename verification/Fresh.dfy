/** Ids that are not in use yet. */
module Fresh {

  lemma {:induction false} LongerThanAll(used: set<string>) returns (n: nat)
    ensures forall s :: s in used ==> |s| < n
    decreases used
  {
    n := 0;
    if s :| s in used {
      n := LongerThanAll(used - {s});
      if n <= |s| { n := |s| + 1; }
    }
  }

  lemma {:induction false} FreshString(used: set<string>) returns (s: string)
    ensures s !in used
  {
    var n := LongerThanAll(used);
    s := seq(n, _ => 'x');
  }

  lemma {:induction false} AboveAll(used: set<nat>) returns (n: nat)
    ensures forall k :: k in used ==> k < n
    decreases used
  {
    n := 0;
    if used != {} {
      var k: nat :| k in used;
      n := AboveAll(used - {k});
      if n <= k { n := k + 1; }
      assert used == used - {k} + {k};
    }
  }
}
