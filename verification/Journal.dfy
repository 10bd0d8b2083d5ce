/** The double-entry journal (apps/control-api/src/ledger.ts). */
module Journal {
  import opened MapSums
  import Contracts

  /** Account names: a user's two accounts, a lease's escrow, the laboratory and the cooperative pools. */
  datatype Account =
    | Available(user: nat)
    | HeldBy(user: nat)
    | Escrow(lease: nat)
    | LabWorking
    | LabIssuer
    | PoolWorking(pool: nat)
    | PoolReserve(pool: nat)
    | PoolBurn(pool: nat)

  /** Business keys, each naming one economic event. */
  datatype Key =
    | HoldKey(session: nat)
    | SettleKey(session: nat)
    | FundKey(lease: nat)
    | PayKey(lease: nat, paid: int)
    | RefundKey(lease: nat)
    | OtherKey(name: string)

  datatype Row = Row(balance: int, issuer: bool)
  type Lines = map<Account, int>
  type Entries = seq<(Account, int)>

  datatype Books = Books(accounts: map<Account, Row>, journal: map<Key, Lines>) {
    function Balance(a: Account): int { if a in accounts then accounts[a].balance else 0 }
  }

  /** What a posting did: nothing new, a new journal row, or one of the three refusals. */
  datatype Verdict = Replayed | Posted | Invalid | Overflow | Unpayable

  function At(lines: Lines, a: Account): int { if a in lines then lines[a] else 0 }

  function RowBalance(r: Row): int { r.balance }
  function LineOf(a: Account): Lines -> int { (lines: Lines) => At(lines, a) }

  /** One sum per account, in whatever order and however often the accounts appear. */
  function Combine(entries: Entries): Lines
  {
    if entries == [] then map[]
    else
      var rest := Combine(entries[..|entries| - 1]);
      var (a, value) := entries[|entries| - 1];
      rest[a := At(rest, a) + value]
  }

  function NonZero(lines: Lines): Lines { map a | a in lines && lines[a] != 0 :: lines[a] }

  predicate Fits(lines: Lines) { forall a :: a in lines ==> -Contracts.MAX_AMOUNT <= lines[a] <= Contracts.MAX_AMOUNT }

  predicate Payable(b: Books, lines: Lines)
  {
    forall a :: a in lines ==> a in b.accounts && (b.accounts[a].issuer || 0 <= b.accounts[a].balance + lines[a])
  }

  /** What the database adds to each balance when the lines are inserted. */
  function Shift(accounts: map<Account, Row>, lines: Lines): map<Account, Row>
  {
    map a | a in accounts :: accounts[a].(balance := accounts[a].balance + At(lines, a))
  }

  function Record(b: Books, key: Key, lines: Lines): Books
  {
    Books(Shift(b.accounts, lines), b.journal[key := lines])
  }

  ghost function Posting(b: Books, key: Key, entries: Entries): (Books, Verdict)
  {
    var lines := NonZero(Combine(entries));
    if key in b.journal then (b, Replayed)
    else if |lines| < 2 || Sum(lines, Itself) != 0 then (b, Invalid)
    else if !Fits(lines) then (b, Overflow)
    else if !Payable(b, lines) then (b, Unpayable)
    else (Record(b, key, lines), Posted)
  }

  /** A new account starts at zero; an existing one is left alone. */
  function Open(b: Books, a: Account): Books
  {
    if a in b.accounts then b else b.(accounts := b.accounts[a := Row(0, false)])
  }

  // ---------------------------------------------------------------------------------------------
  // What every posting keeps

  ghost predicate LinesOk(b: Books, lines: Lines)
  {
    |lines| >= 2 && Sum(lines, Itself) == 0 && (forall a :: a in lines ==> lines[a] != 0 && a in b.accounts)
  }

  ghost predicate BooksOk(b: Books)
  {
    && (forall k :: k in b.journal ==> LinesOk(b, b.journal[k]))
    && (forall a :: a in b.accounts ==> b.accounts[a].balance == Sum(b.journal, LineOf(a)))
    && (forall a :: a in b.accounts && !b.accounts[a].issuer ==> 0 <= b.accounts[a].balance)
    && Sum(b.accounts, RowBalance) == 0
  }

  lemma {:induction false} RecordShifts(accounts: map<Account, Row>, lines: Lines)
    requires forall a :: a in lines ==> a in accounts
    ensures Sum(Shift(accounts, lines), RowBalance)
         == Sum(accounts, RowBalance) + Sum(lines, Itself)
    decreases |accounts|
  {
    hide Sum;
    var after := Shift(accounts, lines);
    if accounts == map[] {
      assert lines == map[] && after == map[];
      Nothing<Account, Row>(RowBalance);
      Nothing<Account, int>(Itself);
    } else {
      var k :| k in accounts;
      var rest := accounts - {k};
      RecordShifts(rest, lines - {k});
      Split(accounts, RowBalance, k);
      Split(after, RowBalance, k);
      Without(lines, Itself, k);
      assert after - {k} == Shift(rest, lines - {k});
    }
  }

  lemma RecordKeepsLines(b: Books, key: Key, lines: Lines)
    requires BooksOk(b) && LinesOk(b, lines)
    ensures forall k :: k in Record(b, key, lines).journal ==> LinesOk(Record(b, key, lines), Record(b, key, lines).journal[k])
  {
    hide Sum;
    var after := Record(b, key, lines);
    forall k | k in after.journal ensures LinesOk(after, after.journal[k]) {
      assert LinesOk(b, after.journal[k]);
    }
  }

  lemma RecordKeepsBalances(b: Books, key: Key, lines: Lines, a: Account)
    requires BooksOk(b) && key !in b.journal && a in b.accounts
    ensures var after := Record(b, key, lines); after.accounts[a].balance == Sum(after.journal, LineOf(a))
  {
    hide Sum, LinesOk;
    With(b.journal, LineOf(a), key, lines);
  }

  lemma PostKeeps(b: Books, key: Key, entries: Entries)
    requires BooksOk(b)
    ensures BooksOk(Posting(b, key, entries).0)
  {
    hide Sum, Combine, NonZero, Fits, LineOf;
    var lines := NonZero(Combine(entries));
    var (after, verdict) := Posting(b, key, entries);
    if verdict == Posted {
      NonZeroIsNonZero(Combine(entries));
      RecordKeepsLines(b, key, lines);
      RecordShifts(b.accounts, lines);
      forall a | a in after.accounts ensures after.accounts[a].balance == Sum(after.journal, LineOf(a)) {
        RecordKeepsBalances(b, key, lines, a);
      }
    }
  }

  lemma NonZeroIsNonZero(lines: Lines)
    ensures forall a :: a in NonZero(lines) ==> NonZero(lines)[a] != 0
  {
  }

  lemma {:induction false} Untouched(journal: map<Key, Lines>, a: Account)
    requires forall k :: k in journal ==> a !in journal[k]
    ensures Sum(journal, LineOf(a)) == 0
    decreases |journal|
  {
    hide Sum;
    if journal == map[] {
      Nothing<Key, Lines>(LineOf(a));
    } else {
      var k :| k in journal;
      Split(journal, LineOf(a), k);
      Untouched(journal - {k}, a);
    }
  }

  lemma OpenKeeps(b: Books, a: Account)
    requires BooksOk(b)
    ensures BooksOk(Open(b, a))
  {
    hide Sum;
    if a !in b.accounts {
      Untouched(b.journal, a);
      With(b.accounts, RowBalance, a, Row(0, false));
    }
  }

  /** The sum of the entries of one account. */
  function Value(entries: Entries, a: Account): int
  {
    if entries == [] then 0
    else Value(entries[..|entries| - 1], a) + (if entries[|entries| - 1].0 == a then entries[|entries| - 1].1 else 0)
  }

  function Total(entries: Entries): int
  {
    if entries == [] then 0 else Total(entries[..|entries| - 1]) + entries[|entries| - 1].1
  }

  lemma {:induction false} CombineSums(entries: Entries, a: Account)
    ensures At(Combine(entries), a) == Value(entries, a)
  {
    if entries != [] {
      CombineSums(entries[..|entries| - 1], a);
    }
  }

  lemma {:induction false} CombineTotals(entries: Entries)
    ensures Sum(Combine(entries), Itself) == Total(entries)
  {
    hide Sum;
    if entries == [] {
      Nothing<Account, int>(Itself);
    } else {
      var rest := Combine(entries[..|entries| - 1]);
      var (a, value) := entries[|entries| - 1];
      CombineTotals(entries[..|entries| - 1]);
      With(rest, Itself, a, At(rest, a) + value);
    }
  }

  lemma {:induction false} NonZeroTotals(lines: Lines)
    ensures Sum(NonZero(lines), Itself) == Sum(lines, Itself)
    decreases |lines|
  {
    hide Sum;
    if lines == map[] {
      assert NonZero(lines) == map[];
    } else {
      var k :| k in lines;
      NonZeroTotals(lines - {k});
      Split(lines, Itself, k);
      Without(NonZero(lines), Itself, k);
      assert NonZero(lines) - {k} == NonZero(lines - {k});
    }
  }

  /** The accounts an entry list moves. */
  ghost function Moved(entries: Entries): set<Account> { NonZero(Combine(entries)).Keys }

  lemma {:induction false} MovedIsValue(entries: Entries, a: Account)
    ensures a in Moved(entries) <==> Value(entries, a) != 0
  {
    CombineSums(entries, a);
  }

  /**
   A posting succeeds exactly when its key is new, its entries add up to zero over at least two accounts, and each
   account could pay its net amount: an account may appear several times and be overdrawn on the way.
   */
  lemma {:induction false} PostedExactlyWhen(b: Books, key: Key, entries: Entries)
    ensures Posting(b, key, entries).1 == Posted <==>
            && key !in b.journal && 2 <= |Moved(entries)| && Total(entries) == 0
            && (forall a :: a in Moved(entries) ==> -Contracts.MAX_AMOUNT <= Value(entries, a) <= Contracts.MAX_AMOUNT)
            && (forall a :: a in Moved(entries) ==>
                  a in b.accounts && (b.accounts[a].issuer || 0 <= b.accounts[a].balance + Value(entries, a)))
  {
    hide Sum, Combine;
    CombineTotals(entries);
    NonZeroTotals(Combine(entries));
    var lines := NonZero(Combine(entries));
    assert |lines| == |lines.Keys|;
    forall a ensures At(Combine(entries), a) == Value(entries, a) { CombineSums(entries, a); }
    assert forall a :: a in lines ==> lines[a] == Value(entries, a);
  }

  /** Which answer a posting gets: the first of the checks that it does not pass. */
  lemma {:induction false} VerdictIs(b: Books, key: Key, entries: Entries)
    ensures var verdict := Posting(b, key, entries).1; var moved := Moved(entries);
            && (verdict == Replayed <==> key in b.journal)
            && (verdict == Invalid <==> key !in b.journal && (|moved| < 2 || Total(entries) != 0))
            && (verdict == Overflow <==>
                  && key !in b.journal && 2 <= |moved| && Total(entries) == 0
                  && exists a :: a in moved && !(-9223372036854775807 <= Value(entries, a) <= 9223372036854775807))
            && (verdict == Unpayable <==>
                  && key !in b.journal && 2 <= |moved| && Total(entries) == 0
                  && (forall a :: a in moved ==> -9223372036854775807 <= Value(entries, a) <= 9223372036854775807)
                  && exists a :: a in moved && (a in b.accounts ==>
                                                  !b.accounts[a].issuer && b.accounts[a].balance + Value(entries, a) < 0))
  {
    hide Sum, Combine;
    CombineTotals(entries);
    NonZeroTotals(Combine(entries));
    var lines := NonZero(Combine(entries));
    assert |lines| == |lines.Keys|;
    forall a ensures At(Combine(entries), a) == Value(entries, a) { CombineSums(entries, a); }
    assert forall a :: a in lines ==> lines[a] == Value(entries, a);
  }

  /** Each balance changes by the sum of its entries, or nothing changes at all. */
  lemma {:induction false} PostMovesExactly(b: Books, key: Key, entries: Entries, a: Account)
    ensures var (after, verdict) := Posting(b, key, entries);
            && (verdict == Posted ==> after.Balance(a) == b.Balance(a) + Value(entries, a)
                                      && after.journal.Keys == b.journal.Keys + {key}
                                      && after.accounts.Keys == b.accounts.Keys)
            && (verdict != Posted ==> after == b)
  {
    hide Sum, Combine;
    CombineSums(entries, a);
    var lines := NonZero(Combine(entries));
    assert a in lines ==> lines[a] == Value(entries, a);
  }

  /** What a posting writes is the sum of its entries, account by account. */
  lemma Written(b: Books, key: Key, entries: Entries, a: Account)
    requires Posting(b, key, entries).1 == Posted
    ensures var after := Posting(b, key, entries).0;
            && key !in b.journal && key in after.journal && At(after.journal[key], a) == Value(entries, a)
            && after.journal == b.journal[key := after.journal[key]]
  {
    hide Combine, Sum;
    CombineSums(entries, a);
  }

  lemma RefusedIsUnchanged(books: Books, key: Key, entries: Entries)
    ensures Posting(books, key, entries).1 != Posted ==> Posting(books, key, entries).0 == books
  {
  }

  /** Replaying a business key, with whatever entries, changes nothing. */
  lemma ReplayChangesNothing(b: Books, key: Key, entries: Entries, others: Entries)
    requires Posting(b, key, entries).1 == Posted
    ensures var after := Posting(b, key, entries).0; Posting(after, key, others) == (after, Replayed)
  {
  }

  lemma ShiftNothing(accounts: map<Account, Row>)
    ensures Shift(accounts, map[]) == accounts
  {
  }

  lemma ShiftOne(accounts: map<Account, Row>, lines: Lines, a: Account, value: int)
    requires a in accounts && a !in lines
    ensures a in Shift(accounts, lines)
    ensures Shift(accounts, lines[a := value])
         == var before := Shift(accounts, lines); before[a := before[a].(balance := before[a].balance + value)]
    ensures Shift(accounts, lines).Keys == accounts.Keys
  {
  }

  /** New books: any accounts, all empty, and nothing written yet. */
  lemma {:induction false} EmptyBooks(accounts: map<Account, Row>)
    requires forall a :: a in accounts ==> accounts[a].balance == 0
    ensures BooksOk(Books(accounts, map[])) && forall a :: Books(accounts, map[]).Balance(a) == 0
    decreases |accounts|
  {
    hide Sum;
    forall a { Nothing<Key, Lines>(LineOf(a)); }
    if accounts == map[] {
      Nothing<Account, Row>(RowBalance);
    } else {
      var a :| a in accounts;
      EmptyBooks(accounts - {a});
      Split(accounts, RowBalance, a);
    }
  }

  // ---------------------------------------------------------------------------------------------
  // The journal itself

  class Ledger {
    var accounts: map<Account, Row>
    var journal: map<Key, Lines>

    function View(): Books
      reads this
    {
      Books(accounts, journal)
    }

    method Post(key: Key, entries: Entries) returns (verdict: Verdict)
      modifies this
      ensures View() == Posting(old(View()), key, entries).0 && verdict == Posting(old(View()), key, entries).1
    {
      hide Sum, Combine, NonZero, Fits, Record;
      if key in journal {
        return Replayed;
      }
      var combined := CombineAll(entries);
      var lines := NonZero(combined);
      var total := AddUp(lines, Itself);
      if |lines| < 2 || total != 0 {
        return Invalid;
      }
      if !Fits(lines) {
        return Overflow;
      }
      if !Payable(View(), lines) {
        return Unpayable;
      }
      Insert(key, lines);
      verdict := Posted;
    }

    method Insert(key: Key, lines: Lines)
      requires forall a :: a in lines ==> a in accounts
      modifies this
      ensures View() == Record(old(View()), key, lines)
    {
      hide Shift;
      journal := journal[key := lines];
      accounts := Credit(accounts, lines);
    }

    static method Credit(accounts: map<Account, Row>, lines: Lines) returns (r: map<Account, Row>)
      requires forall a :: a in lines ==> a in accounts
      ensures r == Shift(accounts, lines)
    {
      hide Shift;
      r := accounts;
      var left := lines.Keys;
      ghost var done: Lines := map[];
      ShiftNothing(accounts);
      while left != {}
        invariant left <= lines.Keys && r == Shift(accounts, done)
        invariant forall a :: a in done <==> a in lines && a !in left
        invariant forall a :: a in done ==> done[a] == lines[a]
        decreases |left|
      {
        var a :| a in left;
        ShiftOne(accounts, done, a, lines[a]);
        r := r[a := r[a].(balance := r[a].balance + lines[a])];
        done := done[a := lines[a]];
        left := left - {a};
      }
      assert done == lines;
    }

    static method CombineAll(entries: Entries) returns (combined: Lines)
      ensures combined == Combine(entries)
    {
      combined := map[];
      for i := 0 to |entries|
        invariant combined == Combine(entries[..i])
      {
        assert entries[..i + 1][..i] == entries[..i];
        combined := combined[entries[i].0 := At(combined, entries[i].0) + entries[i].1];
      }
      assert entries[..|entries|] == entries;
    }
  }
}
