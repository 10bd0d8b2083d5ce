/** When a list of entries is sure to be recorded. */
module Postings {
  import opened MapSums
  import opened Journal
  import opened Selection
  import Contracts

  lemma {:induction false} ValueJoin(a: Entries, b: Entries, account: Account)
    ensures Value(a + b, account) == Value(a, account) + Value(b, account)
    ensures Total(a + b) == Total(a) + Total(b)
    decreases |b|
  {
    if b == [] {
      assert a + b == a;
    } else {
      ValueJoin(a, b[..|b| - 1], account);
      assert (a + b)[..|a + b| - 1] == a + b[..|b| - 1];
    }
  }

  lemma {:induction false} OneLine(a: Account, value: int, other: Account)
    ensures Total([(a, value)]) == value
    ensures Value([(a, value)], other) == (if other == a then value else 0)
  {
    var line := [(a, value)];
    assert line[..0] == [];
  }

  lemma {:induction false} TwoMoved(entries: Entries, a: Account, b: Account)
    requires a != b && Value(entries, a) != 0 && Value(entries, b) != 0
    ensures 2 <= |Moved(entries)|
  {
    MovedIsValue(entries, a);
    MovedIsValue(entries, b);
    assert |{a, b}| == 2;
    SubsetSize({a, b}, Moved(entries));
  }

  /** A transfer out of an account that can afford it, under a new key, is always recorded. */
  lemma {:induction false} AccountPays(books: Books, key: Key, entries: Entries, from: Account, amount: int, payee: Account)
    requires BooksOk(books) && key !in books.journal
    requires 0 < amount <= Contracts.MAX_AMOUNT && amount <= books.Balance(from) && from in books.accounts
    requires Total(entries) == 0 && Value(entries, from) == -amount
    requires payee != from && 0 < Value(entries, payee)
    requires forall a :: a != from ==> 0 <= Value(entries, a) <= amount
    requires forall a :: a != from && Value(entries, a) != 0 ==> a in books.accounts
    ensures var (after, verdict) := Posting(books, key, entries);
            && verdict == Posted && BooksOk(after)
            && after.Balance(from) == books.Balance(from) - amount
            && after.journal.Keys == books.journal.Keys + {key}
            && after.accounts.Keys == books.accounts.Keys
  {
    hide Sum, Value, Total, Posting, Moved, LinesOk;
    TwoMoved(entries, from, payee);
    forall a | a in Moved(entries)
      ensures -Contracts.MAX_AMOUNT <= Value(entries, a) <= Contracts.MAX_AMOUNT
      ensures a in books.accounts && (books.accounts[a].issuer || 0 <= books.accounts[a].balance + Value(entries, a))
    {
      MovedIsValue(entries, a);
    }
    PostedExactlyWhen(books, key, entries);
    PostMovesExactly(books, key, entries, from);
    PostKeeps(books, key, entries);
  }

  /** Credits only: every account gains at least nothing and at most the total, and somebody gains when the total is positive. */
  lemma {:induction false} CreditsAreBounded(entries: Entries, a: Account)
    requires forall i :: 0 <= i < |entries| ==> 0 <= entries[i].1
    ensures 0 <= Value(entries, a) <= Total(entries)
  {
    if entries != [] {
      CreditsAreBounded(entries[..|entries| - 1], a);
    }
  }

  lemma {:induction false} SomebodyGains(entries: Entries) returns (a: Account)
    requires forall i :: 0 <= i < |entries| ==> 0 <= entries[i].1
    requires 0 < Total(entries)
    ensures 0 < Value(entries, a)
  {
    var n := |entries| - 1;
    if entries[n].1 > 0 {
      a := entries[n].0;
    } else {
      a := SomebodyGains(entries[..n]);
    }
    CreditsAreBounded(entries[..n], a);
  }

  lemma {:induction false} GainersAppear(entries: Entries, a: Account)
    requires Value(entries, a) != 0
    ensures exists i :: 0 <= i < |entries| && entries[i].0 == a
  {
    var n := |entries| - 1;
    if entries[n].0 != a {
      GainersAppear(entries[..n], a);
    }
  }

  /** Taking an amount from one account and giving it all to others always succeeds when the account has it. */
  lemma {:induction false} DistributionPosts(books: Books, key: Key, from: Account, amount: int, credits: Entries)
    requires BooksOk(books) && key !in books.journal && from in books.accounts
    requires 0 < amount <= Contracts.MAX_AMOUNT && amount <= books.Balance(from)
    requires Total(credits) == amount
    requires forall i :: 0 <= i < |credits| ==>
               0 <= credits[i].1 && credits[i].0 != from && credits[i].0 in books.accounts
    ensures var (after, verdict) := Posting(books, key, [(from, -amount)] + credits);
            && verdict == Posted && BooksOk(after)
            && after.Balance(from) == books.Balance(from) - amount
            && after.journal.Keys == books.journal.Keys + {key}
            && after.accounts.Keys == books.accounts.Keys
  {
    hide Posting, Value, Total, BooksOk;
    var lines := [(from, -amount)] + credits;
    forall a ensures Value(lines, a) == (if a == from then -amount else Value(credits, a)) && Total(lines) == 0 {
      OneLine(from, -amount, a);
      ValueJoin([(from, -amount)], credits, a);
      if a == from && Value(credits, from) != 0 { GainersAppear(credits, from); }
    }
    forall a | a != from
      ensures 0 <= Value(lines, a) <= amount
      ensures Value(lines, a) != 0 ==> a in books.accounts
    {
      CreditsAreBounded(credits, a);
      if Value(credits, a) != 0 { GainersAppear(credits, a); }
    }
    var payee := SomebodyGains(credits);
    assert Value(lines, from) == -amount && Total(lines) == 0;
    assert payee != from by { if payee == from { GainersAppear(credits, from); } }
    AccountPays(books, key, lines, from, amount, payee);
  }
}
