/** The double-entry ledger: the chart of accounts, journal transactions and their
    entries, and the invoice arithmetic.  Accounts live in a `Ledger` arena keyed by
    id, because entries refer to accounts by id; the parent/child hierarchy is the
    loaded `Tree<Account>`. */
module Accounting {
  import opened Wrappers
  import opened Text
  import opened Trees

  datatype AccountType = Asset | Liability | Equity | Revenue | Expense

  datatype Account = Account(
    id: Id,
    number: string,
    name: string,
    accountType: AccountType,
    isSystem: bool,
    isActive: bool,
    isDeleted: bool,
    balance: real)

  /** `is_debit_account`: assets and expenses grow with debits. */
  predicate IsDebitAccount(t: AccountType) {
    t == Asset || t == Expense
  }

  /** `is_credit_account`: liabilities, equity and revenue grow with credits. */
  predicate IsCreditAccount(t: AccountType) {
    t == Liability || t == Equity || t == Revenue
  }

  /** Every account type has exactly one normal side. */
  lemma NormalSide(t: AccountType)
    ensures IsDebitAccount(t) <==> !IsCreditAccount(t)
  {
  }

  /** The change `update_balance(amount, is_debit)` makes to an account of type `t`. */
  function BalanceEffect(t: AccountType, amount: real, isDebit: bool): (d: real)
    ensures d == amount || d == -amount
    ensures amount > 0.0 ==> (d > 0.0 <==> (isDebit <==> IsDebitAccount(t)))
  {
    if IsDebitAccount(t) then (if isDebit then amount else -amount)
    else (if isDebit then -amount else amount)
  }

  /** A debit and a credit of the same amount cancel on every account type. */
  lemma DebitCreditCancel(t: AccountType, amount: real)
    ensures BalanceEffect(t, amount, true) + BalanceEffect(t, amount, false) == 0.0
  {
  }

  /** An account with `update_balance` applied to it. */
  function Updated(accounts: map<Id, Account>, id: Id, amount: real, isDebit: bool): (r: map<Id, Account>)
    requires id in accounts
    ensures r.Keys == accounts.Keys
  {
    var a := accounts[id];
    accounts[id := a.(balance := a.balance + BalanceEffect(a.accountType, amount, isDebit))]
  }

  /** The chart of accounts of one tenant, by id. */
  class Ledger {
    var accounts: map<Id, Account>

    constructor (accounts: map<Id, Account>)
      ensures this.accounts == accounts
    {
      this.accounts := accounts;
    }

    /** `Account.update_balance`: moves the balance by the normal-balance effect. */
    method UpdateBalance(id: Id, amount: real, isDebit: bool)
      requires id in accounts
      modifies this
      ensures accounts == Updated(old(accounts), id, amount, isDebit)
      ensures accounts[id].balance == old(accounts[id].balance) + BalanceEffect(accounts[id].accountType, amount, isDebit)
    {
      accounts := Updated(accounts, id, amount, isDebit);
    }
  }

  // ---------------------------------------------------------------------------
  // Journal entries

  datatype Entry = Entry(
    accountId: Id,
    debit: real,
    credit: real,
    description: string,
    isReconciled: bool,
    reconciledAt: Option<Timestamp>,
    reconciledBy: Option<Id>)

  /** `TransactionEntry.amount`: the debit when it is positive, else the credit. */
  function Amount(e: Entry): (r: real)
    ensures r == e.debit || r == e.credit
    ensures IsDebit(e) ==> r > 0.0
    ensures !IsDebit(e) && IsCredit(e) ==> r > 0.0
  {
    if e.debit > 0.0 then e.debit else e.credit
  }

  predicate IsDebit(e: Entry) { e.debit > 0.0 }
  predicate IsCredit(e: Entry) { e.credit > 0.0 }

  /** Reversing a line turns a debit into a credit and a credit into a debit. */
  lemma ReversalSwapsSides(e: Entry)
    ensures IsDebit(ReversalEntry(e)) <==> IsCredit(e)
    ensures IsCredit(ReversalEntry(e)) <==> IsDebit(e)
  {
  }

  /** `reconcile`: marks the entry reconciled by `user` at `at`. */
  function Reconcile(e: Entry, user: Option<Id>, at: Timestamp): (r: Entry)
    ensures r.isReconciled && r.reconciledAt == Some(at) && r.reconciledBy == user
    ensures r.(isReconciled := e.isReconciled, reconciledAt := e.reconciledAt, reconciledBy := e.reconciledBy) == e
  {
    e.(isReconciled := true, reconciledAt := Some(at), reconciledBy := user)
  }

  /** `unreconcile`: clears the flag, the time and the user. */
  function Unreconcile(e: Entry): (r: Entry)
    ensures !r.isReconciled && r.reconciledAt.None? && r.reconciledBy.None?
    ensures r.(isReconciled := e.isReconciled, reconciledAt := e.reconciledAt, reconciledBy := e.reconciledBy) == e
  {
    e.(isReconciled := false, reconciledAt := None, reconciledBy := None)
  }

  /** Unreconciling undoes a reconcile of an entry that was never reconciled. */
  lemma UnreconcileUndoesReconcile(e: Entry, user: Option<Id>, at: Timestamp)
    requires !e.isReconciled && e.reconciledAt.None? && e.reconciledBy.None?
    ensures Unreconcile(Reconcile(e, user, at)) == e
  {
  }

  /** Sum of the debit column. */
  function SumDebits(es: seq<Entry>): real
    decreases |es|
  {
    if es == [] then 0.0 else SumDebits(es[..|es| - 1]) + es[|es| - 1].debit
  }

  /** Sum of the credit column. */
  function SumCredits(es: seq<Entry>): real
    decreases |es|
  {
    if es == [] then 0.0 else SumCredits(es[..|es| - 1]) + es[|es| - 1].credit
  }

  /** `is_balanced`: totals within one cent of each other. */
  predicate IsBalanced(totalDebit: real, totalCredit: real) {
    -0.01 < totalDebit - totalCredit < 0.01
  }

  /** Swapping the totals, as a reversal does, keeps a transaction balanced. */
  lemma BalancedSymmetric(totalDebit: real, totalCredit: real)
    ensures IsBalanced(totalDebit, totalCredit) <==> IsBalanced(totalCredit, totalDebit)
  {
  }

  /** Equal totals are balanced. */
  lemma EqualTotalsBalanced(total: real)
    ensures IsBalanced(total, total)
  {
  }

  /** For amounts in whole cents, as the two-decimal columns hold, the tolerance
      accepts exactly the equal totals. */
  lemma BalancedCentsExact(debitCents: int, creditCents: int)
    ensures IsBalanced(debitCents as real / 100.0, creditCents as real / 100.0) <==> debitCents == creditCents
  {
    var diff := debitCents as real / 100.0 - creditCents as real / 100.0;
    assert diff == (debitCents - creditCents) as real / 100.0;
  }

  /** The tolerance lets through totals that differ by less than a cent. */
  lemma HalfCentAccepted()
    ensures IsBalanced(0.005, 0.0)
  {
  }

  /** The entry `reverse` adds for `e`: same account, debit and credit swapped. */
  function ReversalEntry(e: Entry): (r: Entry)
    ensures r.accountId == e.accountId && r.debit == e.credit && r.credit == e.debit
    ensures !r.isReconciled
  {
    Entry(e.accountId, e.credit, e.debit, "Reversal: " + e.description, false, None, None)
  }

  /** The entries of the reversal of `es`, in the same order. */
  function ReversalEntries(es: seq<Entry>): (r: seq<Entry>)
    ensures |r| == |es|
    decreases |es|
  {
    if es == [] then []
    else ReversalEntries(es[..|es| - 1]) + [ReversalEntry(es[|es| - 1])]
  }

  lemma {:induction false} ReversalEntriesAt(es: seq<Entry>, i: nat)
    requires i < |es|
    ensures ReversalEntries(es)[i] == ReversalEntry(es[i])
    decreases |es|
  {
    if i < |es| - 1 {
      ReversalEntriesAt(es[..|es| - 1], i);
    }
  }

  /** The reversal's debit column is the original's credit column and vice versa. */
  lemma {:induction false} ReversalSwapsTotals(es: seq<Entry>)
    ensures SumDebits(ReversalEntries(es)) == SumCredits(es)
    ensures SumCredits(ReversalEntries(es)) == SumDebits(es)
    decreases |es|
  {
    if es != [] {
      var r := ReversalEntries(es);
      assert r[..|r| - 1] == ReversalEntries(es[..|es| - 1]);
      ReversalSwapsTotals(es[..|es| - 1]);
    }
  }

  // ---------------------------------------------------------------------------
  // Posting entries to accounts

  /** Every entry refers to an account of the ledger (the foreign key holds). */
  predicate Refers(accounts: map<Id, Account>, es: seq<Entry>) {
    forall i :: 0 <= i < |es| ==> es[i].accountId in accounts
  }

  /** What `post` does for one entry: its positive debit, then its positive credit. */
  function ApplyEntry(accounts: map<Id, Account>, e: Entry): (r: map<Id, Account>)
    requires e.accountId in accounts
    ensures r.Keys == accounts.Keys
  {
    var a := if e.debit > 0.0 then Updated(accounts, e.accountId, e.debit, true) else accounts;
    if e.credit > 0.0 then Updated(a, e.accountId, e.credit, false) else a
  }

  /** The accounts after posting `es` in order. */
  function ApplyEntries(accounts: map<Id, Account>, es: seq<Entry>): (r: map<Id, Account>)
    requires Refers(accounts, es)
    ensures r.Keys == accounts.Keys
    decreases |es|
  {
    if es == [] then accounts
    else ApplyEntry(ApplyEntries(accounts, es[..|es| - 1]), es[|es| - 1])
  }

  /** The balance change one entry makes to account `id` of type `t`. */
  function EntryEffect(t: AccountType, id: Id, e: Entry): real {
    if e.accountId != id then 0.0
    else
      (if e.debit > 0.0 then BalanceEffect(t, e.debit, true) else 0.0)
      + (if e.credit > 0.0 then BalanceEffect(t, e.credit, false) else 0.0)
  }

  /** The balance change a list of entries makes to account `id` of type `t`. */
  function NetEffect(t: AccountType, id: Id, es: seq<Entry>): real
    decreases |es|
  {
    if es == [] then 0.0 else NetEffect(t, id, es[..|es| - 1]) + EntryEffect(t, id, es[|es| - 1])
  }

  lemma ApplyEntryEffect(accounts: map<Id, Account>, e: Entry, id: Id)
    requires e.accountId in accounts && id in accounts
    ensures ApplyEntry(accounts, e)[id]
         == accounts[id].(balance := accounts[id].balance + EntryEffect(accounts[id].accountType, id, e))
  {
  }

  /** Posting changes each account only in its balance, and by exactly the effects of
      the positive debit and credit columns of the entries that name it. */
  lemma {:induction false} PostingEffect(accounts: map<Id, Account>, es: seq<Entry>, id: Id)
    requires Refers(accounts, es) && id in accounts
    ensures ApplyEntries(accounts, es)[id]
         == accounts[id].(balance := accounts[id].balance + NetEffect(accounts[id].accountType, id, es))
    decreases |es|
  {
    if es != [] {
      var p := es[..|es| - 1];
      PostingEffect(accounts, p, id);
      ApplyEntryEffect(ApplyEntries(accounts, p), es[|es| - 1], id);
    }
  }

  /** An account no entry names keeps its balance. */
  lemma {:induction false} UntouchedAccount(t: AccountType, id: Id, es: seq<Entry>)
    requires forall i :: 0 <= i < |es| ==> es[i].accountId != id
    ensures NetEffect(t, id, es) == 0.0
    decreases |es|
  {
    if es != [] {
      UntouchedAccount(t, id, es[..|es| - 1]);
    }
  }

  lemma {:induction false} ReversalNegates(t: AccountType, id: Id, es: seq<Entry>)
    ensures NetEffect(t, id, ReversalEntries(es)) == -NetEffect(t, id, es)
    decreases |es|
  {
    if es != [] {
      var r := ReversalEntries(es);
      assert r[..|r| - 1] == ReversalEntries(es[..|es| - 1]);
      ReversalNegates(t, id, es[..|es| - 1]);
    }
  }

  /** Posting a transaction and then its reversal leaves every account as it was. */
  lemma ReversalRestores(accounts: map<Id, Account>, es: seq<Entry>)
    requires Refers(accounts, es)
    ensures Refers(ApplyEntries(accounts, es), ReversalEntries(es))
    ensures ApplyEntries(ApplyEntries(accounts, es), ReversalEntries(es)) == accounts
  {
    var mid := ApplyEntries(accounts, es);
    var rs := ReversalEntries(es);
    forall i | 0 <= i < |rs|
      ensures rs[i].accountId in mid
    {
      ReversalEntriesAt(es, i);
    }
    var after := ApplyEntries(mid, rs);
    forall id | id in accounts
      ensures after[id] == accounts[id]
    {
      PostingEffect(accounts, es, id);
      PostingEffect(mid, rs, id);
      ReversalNegates(accounts[id].accountType, id, es);
    }
  }

  // ---------------------------------------------------------------------------
  // Transactions

  datatype TransactionType =
    Sale | Purchase | Payment | Receipt | JournalEntry | Adjustment | OpeningBalance | ClosingEntry

  /** The stored status strings "draft", "posted", "reversed". */
  datatype TxStatus = Draft | Posted | Reversed

  datatype TxError = NotDraft | Unbalanced | CannotReverse

  class Transaction {
    var id: Option<Id>          // assigned when the row is first flushed
    var number: Option<string>
    var txType: TransactionType
    var date: Timestamp
    var referenceType: Option<string>
    var referenceId: Option<int>
    var referenceNumber: Option<string>
    var description: string
    var notes: Option<string>
    var status: TxStatus
    var isReconciled: bool
    var totalDebit: real
    var totalCredit: real
    var postedBy: Option<Id>
    var postedAt: Timestamp
    var reversedBy: Option<Id>
    var reversalReason: Option<string>
    var entries: seq<Entry>

    /** A new, unsaved transaction; a status left unspecified takes the column
        default, "posted". */
    constructor (number: Option<string>, txType: TransactionType, date: Timestamp,
                 referenceType: Option<string>, referenceId: Option<int>, referenceNumber: Option<string>,
                 description: string, notes: Option<string>, status: Option<TxStatus>,
                 postedBy: Option<Id>, at: Timestamp)
      ensures this.id.None? && this.number == number && this.txType == txType && this.date == date
      ensures this.referenceType == referenceType && this.referenceId == referenceId
      ensures this.referenceNumber == referenceNumber
      ensures this.description == description && this.notes == notes
      ensures this.status == status.GetOr(Posted)
      ensures !isReconciled && totalDebit == 0.0 && totalCredit == 0.0
      ensures this.postedBy == postedBy && postedAt == at
      ensures reversedBy.None? && reversalReason.None? && entries == []
    {
      this.id := None;
      this.number := number;
      this.txType := txType;
      this.date := date;
      this.referenceType := referenceType;
      this.referenceId := referenceId;
      this.referenceNumber := referenceNumber;
      this.description := description;
      this.notes := notes;
      this.status := status.GetOr(Posted);
      isReconciled := false;
      totalDebit := 0.0;
      totalCredit := 0.0;
      this.postedBy := postedBy;
      postedAt := at;
      reversedBy := None;
      reversalReason := None;
      entries := [];
    }

    /** The stored totals agree with the entry columns. */
    ghost predicate Valid()
      reads this
    {
      totalDebit == SumDebits(entries) && totalCredit == SumCredits(entries)
    }

    /** `can_be_reversed` */
    predicate CanBeReversed()
      reads this
    {
      status == Posted && reversedBy.None? && !isReconciled
    }

    /** `calculate_totals` */
    method CalculateTotals()
      modifies this`totalDebit, this`totalCredit
      ensures totalDebit == SumDebits(entries) && totalCredit == SumCredits(entries)
    {
      totalDebit := SumDebits(entries);
      totalCredit := SumCredits(entries);
    }

    /** `add_entry`: appends one line (falling back to the transaction's description)
        and recomputes both totals from all lines. */
    method AddEntry(accountId: Id, debit: real, credit: real, entryDescription: Option<string>)
        returns (e: Entry)
      modifies this`entries, this`totalDebit, this`totalCredit
      ensures entries == old(entries) + [e]
      ensures e.accountId == accountId && e.debit == debit && e.credit == credit
      ensures e.description == (if entryDescription.Some? && entryDescription.value != ""
                                then entryDescription.value else description)
      ensures !e.isReconciled && e.reconciledAt.None? && e.reconciledBy.None?
      ensures Valid()
      ensures totalDebit == SumDebits(old(entries)) + debit
      ensures totalCredit == SumCredits(old(entries)) + credit
    {
      var text := if entryDescription.Some? && entryDescription.value != "" then entryDescription.value else description;
      e := Entry(accountId, debit, credit, text, false, None, None);
      entries := entries + [e];
      assert entries[..|entries| - 1] == old(entries);
      CalculateTotals();
    }

    /** `post`: only a balanced draft can be posted; every positive debit and credit
        is pushed into its account, then the transaction is marked posted. */
    method Post(ledger: Ledger, user: Option<Id>, at: Timestamp) returns (r: Outcome<TxError>)
      requires Refers(ledger.accounts, entries)
      modifies this`status, this`postedBy, this`postedAt, ledger
      ensures old(status) != Draft ==> r == Fail(NotDraft)
      ensures old(status) == Draft && !IsBalanced(totalDebit, totalCredit) ==> r == Fail(Unbalanced)
      ensures r.Fail? ==> ledger.accounts == old(ledger.accounts) && status == old(status)
                          && postedBy == old(postedBy) && postedAt == old(postedAt)
      ensures r.Pass? <==> old(status) == Draft && IsBalanced(totalDebit, totalCredit)
      ensures r.Pass? ==> status == Posted && postedBy == user && postedAt == at
                          && ledger.accounts == ApplyEntries(old(ledger.accounts), old(entries))
    {
      if status != Draft {
        return Fail(NotDraft);
      }
      if !IsBalanced(totalDebit, totalCredit) {
        return Fail(Unbalanced);
      }
      var es := entries;
      var i := 0;
      while i < |es|
        invariant 0 <= i <= |es|
        invariant ledger.accounts.Keys == old(ledger.accounts).Keys
        invariant ledger.accounts == ApplyEntries(old(ledger.accounts), es[..i])
        invariant entries == es == old(entries) && status == Draft
      {
        var e := es[i];
        assert es[..i + 1][..i] == es[..i];
        if e.debit > 0.0 {
          ledger.UpdateBalance(e.accountId, e.debit, true);
        }
        if e.credit > 0.0 {
          ledger.UpdateBalance(e.accountId, e.credit, false);
        }
        i := i + 1;
      }
      assert es[..i] == es;
      status := Posted;
      postedBy := user;
      postedAt := at;
      return Pass;
    }

    /** The reversal transaction `reverse` builds, with its lines added. */
    method BuildReversal(reason: string, user: Option<Id>, at: Timestamp) returns (reversal: Transaction)
      ensures fresh(reversal)
      ensures reversal.id.None? && reversal.number.None? && reversal.status == Posted
      ensures reversal.txType == txType && reversal.date == at
      ensures reversal.referenceType == referenceType && reversal.referenceId == referenceId
      ensures reversal.referenceNumber == Some("REV-" + Show(referenceNumber))
      ensures reversal.description == "Reversal of " + Show(number) + ": " + reason
      ensures reversal.notes == Some("Reversal of transaction " + Show(number))
      ensures reversal.postedBy == user && reversal.reversedBy.None? && !reversal.isReconciled
      ensures reversal.entries == ReversalEntries(entries)
      ensures reversal.Valid()
      ensures reversal.totalDebit == SumCredits(entries) && reversal.totalCredit == SumDebits(entries)
    {
      var refNumber := "REV-" + Show(referenceNumber);
      var text := "Reversal of " + Show(number) + ": " + reason;
      var note := "Reversal of transaction " + Show(number);
      reversal := new Transaction(None, txType, at, referenceType, referenceId, Some(refNumber),
                                  text, Some(note), None, user, at);
      reversal.AddReversedEntries(entries);
    }

    /** The loop of `reverse` over the original lines: each is added with its debit
        and credit swapped, to a transaction that has no lines yet. */
    method AddReversedEntries(es: seq<Entry>)
      requires entries == [] && Valid()
      modifies this`entries, this`totalDebit, this`totalCredit
      ensures entries == ReversalEntries(es) && Valid()
      ensures totalDebit == SumCredits(es) && totalCredit == SumDebits(es)
    {
      var i := 0;
      while i < |es|
        invariant 0 <= i <= |es|
        invariant entries == ReversalEntries(es[..i]) && Valid()
      {
        var e := es[i];
        var added := AddEntry(e.accountId, e.credit, e.debit, Some("Reversal: " + e.description));
        assert es[..i + 1][..i] == es[..i];
        i := i + 1;
      }
      assert es[..i] == es;
      ReversalSwapsTotals(es);
    }

    /** `reverse` as written: the original is linked to `reversal.id`, which is still
        unset for the unsaved reversal, so the original stays reversible. */
    method ReverseAsWritten(reason: string, user: Option<Id>, at: Timestamp)
        returns (r: Result<Transaction, TxError>)
      modifies this`reversedBy, this`reversalReason
      ensures !old(CanBeReversed()) ==> r == Err(CannotReverse) && reversalReason == old(reversalReason)
      ensures old(CanBeReversed()) ==> r.Ok? && fresh(r.value)
                                       && r.value.entries == ReversalEntries(entries)
                                       && reversalReason == Some(reason)
      ensures reversedBy == old(reversedBy) && CanBeReversed() == old(CanBeReversed())
    {
      if !CanBeReversed() {
        return Err(CannotReverse);
      }
      var reversal := BuildReversal(reason, user, at);
      reversedBy := reversal.id;
      reversalReason := Some(reason);
      return Ok(reversal);
    }

    /** `reverse`, linking the original to the id `reversalId` the reversal is saved
        under, so that a transaction is reversed at most once. */
    method Reverse(reason: string, user: Option<Id>, at: Timestamp, reversalId: Id)
        returns (r: Result<Transaction, TxError>)
      modifies this`reversedBy, this`reversalReason
      ensures !old(CanBeReversed()) ==> r == Err(CannotReverse) && reversedBy == old(reversedBy)
                                        && reversalReason == old(reversalReason)
      ensures old(CanBeReversed()) ==> r.Ok? && fresh(r.value)
                                       && r.value.entries == ReversalEntries(entries)
                                       && r.value.totalDebit == SumCredits(entries)
                                       && r.value.totalCredit == SumDebits(entries)
                                       && reversedBy == Some(reversalId) && reversalReason == Some(reason)
      ensures r.Ok? ==> !CanBeReversed()
    {
      if !CanBeReversed() {
        return Err(CannotReverse);
      }
      var reversal := BuildReversal(reason, user, at);
      reversedBy := Some(reversalId);
      reversalReason := Some(reason);
      return Ok(reversal);
    }
  }

  /** A default-constructed transaction is already "posted", so `post` refuses it. */
  method DefaultTransactionNotPostable(ledger: Ledger) returns (r: Outcome<TxError>)
    modifies ledger
    ensures r == Fail(NotDraft)
  {
    var t := new Transaction(Some("T-1"), JournalEntry, 0, None, None, None, "opening", None, None, None, 0);
    r := t.Post(ledger, None, 0);
  }

  /** With `reverse` as written, one posted transaction is reversed twice. */
  method DoubleReversalAsWritten() returns (first: bool, second: bool)
    ensures first && second
  {
    var t := new Transaction(Some("T-1"), JournalEntry, 0, None, None, None, "rent", None, Some(Posted), None, 0);
    var e := t.AddEntry(1, 100.0, 0.0, None);
    var r1 := t.ReverseAsWritten("wrong amount", None, 1);
    var r2 := t.ReverseAsWritten("wrong amount", None, 2);
    first := r1.Ok?;
    second := r2.Ok?;
  }

  /** With the corrected `reverse`, a second reversal of the same transaction fails. */
  method SingleReversal(t: Transaction, reversalId: Id, otherId: Id) returns (first: bool, second: bool)
    requires t.CanBeReversed()
    modifies t
    ensures first && !second
  {
    var r1 := t.Reverse("wrong amount", None, 1, reversalId);
    var r2 := t.Reverse("wrong amount", None, 2, otherId);
    first := r1.Ok?;
    second := r2.Ok?;
  }

  // ---------------------------------------------------------------------------
  // The account hierarchy

  predicate Live(a: Account) {
    a.isActive && !a.isDeleted
  }

  /** What `get_children_recursive` collects from the first `n` children: each active,
      non-deleted child followed by its own collected descendants; an inactive or
      deleted child contributes nothing, not even its subtree. */
  function LiveUpTo(t: Tree<Account>, n: nat): seq<Account>
    requires n <= |t.children|
    decreases t, n
  {
    if n == 0 then []
    else
      var c := t.children[n - 1];
      LiveUpTo(t, n - 1) + (if Live(c.value) then [c.value] + LiveUpTo(c, |c.children|) else [])
  }

  function LiveDescendants(t: Tree<Account>): seq<Account> {
    LiveUpTo(t, |t.children|)
  }

  /** `a` is reached from the root through a chain of active, non-deleted accounts. */
  ghost predicate LiveBelow(t: Tree<Account>, a: Account)
    decreases t
  {
    exists i :: 0 <= i < |t.children| && Live(t.children[i].value)
             && (t.children[i].value == a || LiveBelow(t.children[i], a))
  }

  /** `get_children_recursive` */
  method GetChildrenRecursive(t: Tree<Account>) returns (children: seq<Account>)
    ensures children == LiveDescendants(t)
    decreases t
  {
    children := [];
    var i := 0;
    while i < |t.children|
      invariant 0 <= i <= |t.children|
      invariant children == LiveUpTo(t, i)
    {
      var child := t.children[i];
      if Live(child.value) {
        children := children + [child.value];
        var below := GetChildrenRecursive(child);
        children := children + below;
      }
      i := i + 1;
    }
  }

  /** The collected accounts are exactly those reached through live accounts only. */
  lemma {:induction false} LiveDescendantsMembers(t: Tree<Account>, a: Account)
    ensures a in LiveDescendants(t) <==> LiveBelow(t, a)
    decreases t
  {
    LiveUpToMembers(t, a, |t.children|);
  }

  lemma {:induction false} LiveUpToMembers(t: Tree<Account>, a: Account, n: nat)
    requires n <= |t.children|
    ensures a in LiveUpTo(t, n) <==>
            exists i :: 0 <= i < n && Live(t.children[i].value)
                      && (t.children[i].value == a || LiveBelow(t.children[i], a))
    decreases t, n
  {
    if n > 0 {
      var c := t.children[n - 1];
      LiveUpToMembers(t, a, n - 1);
      LiveDescendantsMembers(c, a);
      var here := Live(c.value) && (c.value == a || LiveBelow(c, a));
      assert a in LiveUpTo(t, n) <==> a in LiveUpTo(t, n - 1) || here;
      if a in LiveUpTo(t, n - 1) {
        var i :| 0 <= i < n - 1 && Live(t.children[i].value)
                 && (t.children[i].value == a || LiveBelow(t.children[i], a));
        assert 0 <= i < n;
      } else if here {
        assert Live(t.children[n - 1].value)
               && (t.children[n - 1].value == a || LiveBelow(t.children[n - 1], a));
      }
    }
  }

  /** Every collected account is active and not deleted. */
  lemma {:induction false} LiveDescendantsAreLive(t: Tree<Account>, n: nat)
    requires n <= |t.children|
    ensures forall k :: 0 <= k < |LiveUpTo(t, n)| ==> Live(LiveUpTo(t, n)[k])
    decreases t, n
  {
    if n > 0 {
      var c := t.children[n - 1];
      LiveDescendantsAreLive(t, n - 1);
      LiveDescendantsAreLive(c, |c.children|);
    }
  }

  /** Every node of the tree is active and not deleted. */
  predicate AllLive(t: Tree<Account>)
    decreases t
  {
    forall i :: 0 <= i < |t.children| ==> Live(t.children[i].value) && AllLive(t.children[i])
  }

  /** In a tree with nothing inactive the walk lists every descendant in pre-order. */
  lemma {:induction false} AllLiveWalk(t: Tree<Account>, n: nat)
    requires n <= |t.children| && AllLive(t)
    ensures LiveUpTo(t, n) == DescendantsUpTo(t, n)
    decreases t, n
  {
    if n > 0 {
      var c := t.children[n - 1];
      AllLiveWalk(t, n - 1);
      AllLiveWalk(c, |c.children|);
    }
  }

  /** `can_be_deleted`: not a system account, no journal entry names it, no children. */
  function CanBeDeleted(t: Tree<Account>, journal: seq<Entry>): (r: bool)
    ensures r <==> !t.value.isSystem
                   && (forall i :: 0 <= i < |journal| ==> journal[i].accountId != t.value.id)
                   && t.children == []
  {
    if t.value.isSystem then false
    else if EntryCount(journal, t.value.id) > 0 then false
    else if |t.children| > 0 then false
    else true
  }

  /** The number of entries that name account `id`. */
  function EntryCount(journal: seq<Entry>, id: Id): (n: nat)
    ensures n == 0 <==> forall i :: 0 <= i < |journal| ==> journal[i].accountId != id
    decreases |journal|
  {
    if journal == [] then 0
    else EntryCount(journal[..|journal| - 1], id) + (if journal[|journal| - 1].accountId == id then 1 else 0)
  }

  function AccountName(a: Account): string { a.name }

  /** `full_name`: the parent's full name, " > ", then the account's own name. */
  function FullName(chart: Tree<Account>, path: seq<nat>): (r: string)
    requires ValidPath(chart, path)
    ensures r == Join(Lineage(chart, path, AccountName), " > ")
    ensures path == [] ==> r == chart.value.name
  {
    FullPathIsJoinedLineage(chart, path, AccountName);
    FullPath(chart, path, AccountName)
  }

  // ---------------------------------------------------------------------------
  // Invoices

  datatype LineAmounts = LineAmounts(taxAmount: real, lineTotal: real)

  /** `InvoiceItem.calculate_line_total`: quantity times price, plus tax at the
      item's rate when that rate is set and non-zero. */
  function InvoiceLineTotal(quantity: real, unitPrice: real, taxRate: Option<real>): (r: LineAmounts)
    ensures r.lineTotal == quantity * unitPrice + r.taxAmount
    ensures r.taxAmount == (if Truthy(taxRate) then quantity * unitPrice * taxRate.value else 0.0)
  {
    var base := quantity * unitPrice;
    if Truthy(taxRate) then LineAmounts(base * taxRate.value, base + base * taxRate.value)
    else LineAmounts(0.0, base)
  }

  /** The line total is the base amount scaled by one plus the rate. */
  lemma InvoiceLineScales(quantity: real, unitPrice: real, rate: real)
    ensures InvoiceLineTotal(quantity, unitPrice, Some(rate)).lineTotal == quantity * unitPrice * (1.0 + rate)
  {
  }

  /** `Invoice.is_paid` */
  predicate InvoiceIsPaid(balanceDue: real) {
    balanceDue <= 0.0
  }

  /** With the balance due kept as the total less what was paid, an invoice is paid
      exactly when the payments cover the total, and paying more keeps it paid. */
  lemma InvoicePaidWhenCovered(total: real, paid: real, more: real)
    requires more >= 0.0
    ensures InvoiceIsPaid(total - paid) <==> paid >= total
    ensures InvoiceIsPaid(total - paid) ==> InvoiceIsPaid(total - (paid + more))
  {
  }
}
