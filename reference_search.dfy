/** The search box of the transaction list and the pending-approvals page:
    a row stays when its reference contains the query, ignoring case. */
module ReferenceSearch {
  import opened Domain
  import Text

  /** `t.reference.toLowerCase().includes(query.toLowerCase())`. */
  predicate Matches(t: Transaction, query: string) {
    Text.Contains(Text.Lower(t.reference), Text.Lower(query))
  }

  /** `transactions.filter(...)`: the matching rows, in their original order. */
  function Filter(ts: seq<Transaction>, query: string): (r: seq<Transaction>)
    ensures |r| <= |ts|
    ensures forall t :: t in r <==> t in ts && Matches(t, query)
  {
    if ts == [] then []
    else if Matches(ts[0], query) then [ts[0]] + Filter(ts[1..], query)
    else Filter(ts[1..], query)
  }

  /** Filtering distributes over concatenation, so the kept rows keep their
      relative order. */
  lemma {:induction false} FilterAppend(a: seq<Transaction>, b: seq<Transaction>, query: string)
    ensures Filter(a + b, query) == Filter(a, query) + Filter(b, query)
  {
    if a == [] {
      assert a + b == b;
    } else {
      assert (a + b)[0] == a[0];
      assert (a + b)[1..] == a[1..] + b;
      FilterAppend(a[1..], b, query);
    }
  }

  /** The empty query keeps every row. */
  lemma {:induction false} EmptyQueryKeepsAll(ts: seq<Transaction>)
    ensures Filter(ts, "") == ts
  {
    if ts != [] {
      Text.EmptyContained(Text.Lower(ts[0].reference));
      EmptyQueryKeepsAll(ts[1..]);
    }
  }

  /** Searching the result again with the same query changes nothing. */
  lemma {:induction false} FilterIdempotent(ts: seq<Transaction>, query: string)
    ensures Filter(Filter(ts, query), query) == Filter(ts, query)
  {
    if ts != [] {
      FilterIdempotent(ts[1..], query);
      if Matches(ts[0], query) {
        assert ([ts[0]] + Filter(ts[1..], query))[1..] == Filter(ts[1..], query);
      }
    }
  }

  /** Lower-casing is idempotent, so the case of the query does not matter. */
  lemma LowerIdempotent(s: string)
    ensures Text.Lower(Text.Lower(s)) == Text.Lower(s)
  {
  }

  /** A query and its lower-cased form select the same rows. */
  lemma {:induction false} QueryCaseIgnored(ts: seq<Transaction>, query: string)
    ensures Filter(ts, Text.Lower(query)) == Filter(ts, query)
  {
    LowerIdempotent(query);
    if ts != [] {
      QueryCaseIgnored(ts[1..], query);
    }
  }
}
