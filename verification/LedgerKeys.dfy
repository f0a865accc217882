/** The idempotency ledger's key for one attempt (engine/core/src/envelope.cpp). */
module LedgerKeys {
  import opened Ids
  import opened Decimals

  datatype Attempt = Attempt(node: NodeId, number: nat)

  function LedgerKey(run: string, a: Attempt): string {
    "result:" + run + ":" + a.node + ":" + Decimal(a.number)
  }

  /** The last colon splits a key unambiguously: numbers contain none. */
  lemma SplitAtLastColon(p: string, m: string, q: string, n: string)
    requires AllDigits(m) && AllDigits(n)
    requires p + ":" + m == q + ":" + n
    ensures p == q && m == n
  {
    var s, t := p + ":" + m, q + ":" + n;
    assert forall k :: |p| < k < |s| ==> s[k] == m[k - |p| - 1];
    assert forall k :: |q| < k < |t| ==> t[k] == n[k - |q| - 1];
    assert s[|p|] == ':' && t[|q|] == ':';
    assert |p| == |q|;
    assert p == s[..|p|] && m == s[|p| + 1..];
    assert q == t[..|q|] && n == t[|q| + 1..];
  }

  /** Two attempts share a key exactly when their numbers agree and their run
    and node ids run together the same way. */
  lemma SameKey(run: string, a: Attempt, run': string, b: Attempt)
    ensures LedgerKey(run, a) == LedgerKey(run', b) <==>
            a.number == b.number && run + ":" + a.node == run' + ":" + b.node
  {
    var p, q := "result:" + run + ":" + a.node, "result:" + run' + ":" + b.node;
    var u, v := run + ":" + a.node, run' + ":" + b.node;
    assert p == "result:" + u && q == "result:" + v;
    assert u == p[7..] && v == q[7..];
    if LedgerKey(run, a) == LedgerKey(run', b) {
      SplitAtLastColon(p, Decimal(a.number), q, Decimal(b.number));
      DecimalInjective(a.number, b.number);
    }
  }

  /** Within one run the key identifies the attempt, whatever the ids contain. */
  lemma KeyInjectiveInRun(run: string, a: Attempt, b: Attempt)
    requires LedgerKey(run, a) == LedgerKey(run, b)
    ensures a == b
  {
    SameKey(run, a, run, b);
    var prefix := run + ":";
    assert a.node == (prefix + a.node)[|prefix|..];
    assert b.node == (prefix + b.node)[|prefix|..];
  }

  ghost predicate KeysDistinguish(runs: set<string>) {
    forall r, r', a, b :: r in runs && r' in runs && LedgerKey(r, a) == LedgerKey(r', b) ==> r == r' && a == b
  }

  /** One run id is another one followed by a colon. */
  ghost predicate Nested(r: string, r': string) {
    r + ":" <= r'
  }

  /** The ledger keeps the attempts of several runs apart exactly when no run
    id continues another one with a colon. */
  lemma KeysDistinguishIff(runs: set<string>)
    ensures KeysDistinguish(runs) <==> forall r, r' :: r in runs && r' in runs ==> !Nested(r, r')
  {
    if KeysDistinguish(runs) {
      forall r, r' | r in runs && r' in runs ensures !Nested(r, r') {
        if Nested(r, r') {
          var middle := r'[|r| + 1..];
          assert r' == r + ":" + middle;
          var a, b := Attempt(middle + ":" + "n", 1), Attempt("n", 1);
          assert r + ":" + a.node == r' + ":" + b.node;
          SameKey(r, a, r', b);
        }
      }
    } else {
      var r, r', a, b :| r in runs && r' in runs && LedgerKey(r, a) == LedgerKey(r', b) && !(r == r' && a == b);
      SameKey(r, a, r', b);
      if r == r' {
        KeyInjectiveInRun(r, a, b);
      } else {
        CollisionNests(r, a.node, r', b.node);
      }
    }
  }

  lemma CollisionNests(r: string, n: string, r': string, n': string)
    requires r + ":" + n == r' + ":" + n' && r != r'
    ensures Nested(r, r') || Nested(r', r)
  {
    var s := r + ":" + n;
    assert r == s[..|r|];
    assert r' == (r' + ":" + n')[..|r'|];
    if |r| < |r'| {
      assert s[..|r| + 1] == r + ":";
    } else if |r'| < |r| {
      assert s[..|r'| + 1] == r' + ":";
    }
  }

  lemma NestedHasColon(r: string, r': string)
    requires Nested(r, r')
    ensures ':' in r'
  {
    assert r'[|r|] == (r + ":")[|r|];
  }

  /** Run ids without a colon are always kept apart. */
  lemma ColonFreeRunsDistinguish(runs: set<string>)
    requires forall r :: r in runs ==> ':' !in r
    ensures KeysDistinguish(runs)
  {
    forall r, r' | r in runs && r' in runs ensures !Nested(r, r') {
      if Nested(r, r') {
        NestedHasColon(r, r');
      }
    }
    KeysDistinguishIff(runs);
  }

  /** Two runs, two nodes, one key. */
  lemma CollisionExample()
    ensures LedgerKey("a", Attempt("b:c", 1)) == LedgerKey("a:b", Attempt("c", 1))
  {
    assert "a" + ":" + "b:c" == "a:b" + ":" + "c";
    SameKey("a", Attempt("b:c", 1), "a:b", Attempt("c", 1));
  }
}
