/** The wallet status indicator: the store's recent transactions sorted newest first,
    split into pending and confirmed hash lists, and the choice of what to display. */
module Web3Status {
  import opened Wrappers
  import opened Transactions

  /** `newTransactionsFirst`: negative when `a` was added after `b`, so `a` sorts first. */
  function NewTransactionsFirst(a: TransactionDetails, b: TransactionDetails): int {
    b.addedTime - a.addedTime
  }

  /** No later transaction follows an earlier one. */
  ghost predicate NewestFirst(s: seq<TransactionDetails>) {
    forall i, j :: 0 <= i < j < |s| ==> s[i].addedTime >= s[j].addedTime
  }

  /** Places `x` before the first entry that is not newer than it. */
  function Insert(x: TransactionDetails, s: seq<TransactionDetails>): (r: seq<TransactionDetails>)
    ensures multiset(r) == multiset(s) + multiset{x}
    decreases |s|
  {
    if s == [] || NewTransactionsFirst(x, s[0]) <= 0 then [x] + s
    else
      assert s == [s[0]] + s[1..];
      [s[0]] + Insert(x, s[1..])
  }

  /** The comparator sort, as an insertion sort: the result is ordered newest first
      and is a permutation of the input. */
  function SortNewestFirst(s: seq<TransactionDetails>): (r: seq<TransactionDetails>)
    ensures multiset(r) == multiset(s)
    decreases |s|
  {
    if s == [] then []
    else
      assert s == [s[0]] + s[1..];
      Insert(s[0], SortNewestFirst(s[1..]))
  }

  lemma {:induction false} InsertNewestFirst(x: TransactionDetails, s: seq<TransactionDetails>)
    requires NewestFirst(s)
    ensures NewestFirst(Insert(x, s))
    decreases |s|
  {
    if s == [] || NewTransactionsFirst(x, s[0]) <= 0 {
    } else {
      InsertNewestFirst(x, s[1..]);
      var t := Insert(x, s[1..]);
      assert multiset(t) == multiset(s[1..]) + multiset{x};
      forall k | 0 <= k < |t|
        ensures s[0].addedTime >= t[k].addedTime
      {
        assert t[k] in multiset(t);
        if t[k] != x {
          assert t[k] in multiset(s[1..]);
          var m :| 0 <= m < |s[1..]| && s[1..][m] == t[k];
          assert s[m + 1] == t[k];
        }
      }
    }
  }

  /** The comparator orders transactions by `addedTime`, newest first, and the sort
      returns the same transactions (as a multiset) in that order. */
  lemma {:induction false} SortIsNewestFirst(s: seq<TransactionDetails>)
    ensures NewestFirst(SortNewestFirst(s))
    ensures multiset(SortNewestFirst(s)) == multiset(s)
    ensures forall a, b :: NewTransactionsFirst(a, b) < 0 <==> a.addedTime > b.addedTime
    decreases |s|
  {
    if s != [] {
      SortIsNewestFirst(s[1..]);
      InsertNewestFirst(s[0], SortNewestFirst(s[1..]));
    }
  }

  /** `txs.filter(p)`. */
  function Filter(s: seq<TransactionDetails>, p: TransactionDetails -> bool): (r: seq<TransactionDetails>)
    ensures |r| <= |s|
    decreases |s|
  {
    if s == [] then [] else (if p(s[0]) then [s[0]] else []) + Filter(s[1..], p)
  }

  /** `txs.map(tx => tx.hash)`. */
  function Hashes(s: seq<TransactionDetails>): (r: seq<string>)
    ensures |r| == |s|
    ensures forall i :: 0 <= i < |s| ==> r[i] == s[i].hash
    decreases |s|
  {
    if s == [] then [] else [s[0].hash] + Hashes(s[1..])
  }

  function HasReceipt(tx: TransactionDetails): bool { tx.receipt.Some? }
  function NoReceipt(tx: TransactionDetails): bool { tx.receipt.None? }

  /** `sortedRecentTransactions`: the recent transactions of the store, newest first.
      What counts as recent is the store's `isTransactionRecent`, a parameter here. */
  function SortedRecent(txs: seq<TransactionDetails>, isRecent: TransactionDetails -> bool): seq<TransactionDetails> {
    SortNewestFirst(Filter(txs, isRecent))
  }

  /** The recent transactions still waiting for a receipt, newest first. */
  function PendingTxs(txs: seq<TransactionDetails>, isRecent: TransactionDetails -> bool): seq<TransactionDetails> {
    Filter(SortedRecent(txs, isRecent), NoReceipt)
  }

  function Pending(txs: seq<TransactionDetails>, isRecent: TransactionDetails -> bool): seq<string> {
    Hashes(PendingTxs(txs, isRecent))
  }

  function Confirmed(txs: seq<TransactionDetails>, isRecent: TransactionDetails -> bool): seq<string> {
    Hashes(Filter(SortedRecent(txs, isRecent), HasReceipt))
  }

  lemma {:induction false} FilterMember(s: seq<TransactionDetails>, p: TransactionDetails -> bool, x: TransactionDetails)
    ensures x in Filter(s, p) <==> x in s && p(x)
    decreases |s|
  {
    if s != [] {
      FilterMember(s[1..], p, x);
      assert x in s <==> x == s[0] || x in s[1..];
    }
  }

  lemma {:induction false} FilterKeepsNewestFirst(s: seq<TransactionDetails>, p: TransactionDetails -> bool)
    requires NewestFirst(s)
    ensures NewestFirst(Filter(s, p))
    decreases |s|
  {
    if s != [] {
      FilterKeepsNewestFirst(s[1..], p);
      var t := Filter(s[1..], p);
      forall k | 0 <= k < |t|
        ensures s[0].addedTime >= t[k].addedTime
      {
        FilterMember(s[1..], p, t[k]);
        var m :| 0 <= m < |s[1..]| && s[1..][m] == t[k];
        assert s[m + 1] == t[k];
      }
    }
  }

  /** Splitting a list by "has a receipt" loses and invents nothing. */
  lemma {:induction false} SplitByReceipt(s: seq<TransactionDetails>)
    ensures multiset(Hashes(Filter(s, NoReceipt))) + multiset(Hashes(Filter(s, HasReceipt))) == multiset(Hashes(s))
    decreases |s|
  {
    if s != [] {
      SplitByReceipt(s[1..]);
      assert Hashes(s) == [s[0].hash] + Hashes(s[1..]);
      if NoReceipt(s[0]) {
        assert Filter(s, NoReceipt) == [s[0]] + Filter(s[1..], NoReceipt);
        assert Filter(s, HasReceipt) == Filter(s[1..], HasReceipt);
        assert Hashes(Filter(s, NoReceipt)) == [s[0].hash] + Hashes(Filter(s[1..], NoReceipt));
      } else {
        assert Filter(s, HasReceipt) == [s[0]] + Filter(s[1..], HasReceipt);
        assert Filter(s, NoReceipt) == Filter(s[1..], NoReceipt);
        assert Hashes(Filter(s, HasReceipt)) == [s[0].hash] + Hashes(Filter(s[1..], HasReceipt));
      }
    }
  }

  lemma {:induction false} HashesMember(s: seq<TransactionDetails>, h: string)
    ensures h in Hashes(s) <==> exists tx :: tx in s && tx.hash == h
    decreases |s|
  {
    if s != [] {
      HashesMember(s[1..], h);
      assert Hashes(s) == [s[0].hash] + Hashes(s[1..]);
      assert forall tx :: tx in s <==> tx == s[0] || tx in s[1..];
    }
  }

  /** The store is keyed by hash: no two entries share one. */
  ghost predicate UniqueHashes(txs: seq<TransactionDetails>) {
    forall i, j :: 0 <= i < |txs| && 0 <= j < |txs| && txs[i].hash == txs[j].hash ==> i == j
  }

  /** A hash is pending exactly when it is the hash of a recent transaction without a
      receipt, and confirmed exactly when it is the hash of a recent one with a receipt. */
  lemma MembershipIff(txs: seq<TransactionDetails>, isRecent: TransactionDetails -> bool, h: string)
    ensures h in Pending(txs, isRecent) <==> exists tx :: tx in txs && tx.hash == h && isRecent(tx) && NoReceipt(tx)
    ensures h in Confirmed(txs, isRecent) <==> exists tx :: tx in txs && tx.hash == h && isRecent(tx) && HasReceipt(tx)
  {
    var recent := Filter(txs, isRecent);
    var sorted := SortedRecent(txs, isRecent);
    SortIsNewestFirst(recent);
    HashesMember(Filter(sorted, NoReceipt), h);
    HashesMember(Filter(sorted, HasReceipt), h);
    forall tx
      ensures tx in Filter(sorted, NoReceipt) <==> tx in txs && isRecent(tx) && NoReceipt(tx)
      ensures tx in Filter(sorted, HasReceipt) <==> tx in txs && isRecent(tx) && HasReceipt(tx)
    {
      FilterMember(sorted, NoReceipt, tx);
      FilterMember(sorted, HasReceipt, tx);
      FilterMember(txs, isRecent, tx);
      assert tx in sorted <==> tx in multiset(sorted);
      assert tx in recent <==> tx in multiset(recent);
    }
  }

  /** What the status indicator lists: the pending hashes in newest-first order;
      pending and confirmed together are exactly the recent transactions' hashes
      (no more, no fewer, each as often); with hashes unique in the store they share
      no hash, and no transaction that is not recent shows up in either. */
  lemma PendingConfirmedPartition(txs: seq<TransactionDetails>, isRecent: TransactionDetails -> bool)
    ensures Pending(txs, isRecent) == Hashes(PendingTxs(txs, isRecent)) && NewestFirst(PendingTxs(txs, isRecent))
    ensures multiset(Pending(txs, isRecent)) + multiset(Confirmed(txs, isRecent)) == multiset(Hashes(Filter(txs, isRecent)))
    ensures UniqueHashes(txs) ==> forall h :: h in Pending(txs, isRecent) ==> h !in Confirmed(txs, isRecent)
    ensures UniqueHashes(txs) ==> forall tx :: tx in txs && !isRecent(tx) ==>
              tx.hash !in Pending(txs, isRecent) && tx.hash !in Confirmed(txs, isRecent)
  {
    var recent := Filter(txs, isRecent);
    var sorted := SortedRecent(txs, isRecent);
    SortIsNewestFirst(recent);
    FilterKeepsNewestFirst(sorted, NoReceipt);
    SplitByReceipt(sorted);
    SortKeepsHashes(recent);
    if UniqueHashes(txs) {
      forall h | h in Pending(txs, isRecent)
        ensures h !in Confirmed(txs, isRecent)
      {
        MembershipIff(txs, isRecent, h);
        var a :| a in txs && a.hash == h && isRecent(a) && NoReceipt(a);
        forall b | b in txs && b.hash == h
          ensures b == a
        {
          SameHashSameEntry(txs, a, b);
        }
      }
      forall tx | tx in txs && !isRecent(tx)
        ensures tx.hash !in Pending(txs, isRecent) && tx.hash !in Confirmed(txs, isRecent)
      {
        MembershipIff(txs, isRecent, tx.hash);
        forall a | a in txs && a.hash == tx.hash
          ensures a == tx
        {
          SameHashSameEntry(txs, a, tx);
        }
      }
    }
  }

  lemma SameHashSameEntry(txs: seq<TransactionDetails>, a: TransactionDetails, b: TransactionDetails)
    requires UniqueHashes(txs) && a in txs && b in txs && a.hash == b.hash
    ensures a == b
  {
    var i :| 0 <= i < |txs| && txs[i] == a;
    var j :| 0 <= j < |txs| && txs[j] == b;
    assert i == j;
  }

  /** Sorting keeps the hashes, each as often. */
  lemma {:induction false} SortKeepsHashes(s: seq<TransactionDetails>)
    ensures multiset(Hashes(SortNewestFirst(s))) == multiset(Hashes(s))
    decreases |s|
  {
    if s != [] {
      SortKeepsHashes(s[1..]);
      InsertKeepsHashes(s[0], SortNewestFirst(s[1..]));
      assert Hashes(s) == [s[0].hash] + Hashes(s[1..]);
    }
  }

  lemma {:induction false} InsertKeepsHashes(x: TransactionDetails, s: seq<TransactionDetails>)
    ensures multiset(Hashes(Insert(x, s))) == multiset(Hashes(s)) + multiset{x.hash}
    decreases |s|
  {
    if s == [] || NewTransactionsFirst(x, s[0]) <= 0 {
      HashesCons(x, s);
    } else {
      var rest := Insert(x, s[1..]);
      InsertKeepsHashes(x, s[1..]);
      HashesCons(s[0], s[1..]);
      assert [s[0]] + s[1..] == s;
      HashesCons(s[0], rest);
      assert Insert(x, s) == [s[0]] + rest;
    }
  }

  /** The hash list of a list with a first element. */
  lemma HashesCons(a: TransactionDetails, t: seq<TransactionDetails>)
    ensures Hashes([a] + t) == [a.hash] + Hashes(t)
  {
    assert ([a] + t)[1..] == t;
  }

  /** What the indicator shows. */
  datatype StatusDisplay =
    | ConnectButton
    | PendingCount(count: nat)
    | EnsName(name: string)
    | ShortAddress(account: string)   // the account as the address shortener renders it

  /** With an account: the pending count if anything is pending, else the ENS name,
      else the shortened address; without an account, the connect button. An empty
      account or name counts as absent, as in the source's truthiness tests. */
  function Display(account: Option<string>, ensName: Option<string>, pendingCount: nat): StatusDisplay {
    if account.None? || account.value == "" then ConnectButton
    else if pendingCount > 0 then PendingCount(pendingCount)
    else if ensName.Some? && ensName.value != "" then EnsName(ensName.value)
    else ShortAddress(account.value)
  }

  /** The pending count is shown exactly when there is an account and a pending
      transaction, and it is the number of pending hashes; the name appears only
      when nothing is pending. */
  lemma DisplayChoice(account: Option<string>, ensName: Option<string>,
                      txs: seq<TransactionDetails>, isRecent: TransactionDetails -> bool)
    ensures var d := Display(account, ensName, |Pending(txs, isRecent)|);
            && (d.PendingCount? <==> account.Some? && account.value != "" && Pending(txs, isRecent) != [])
            && (d.PendingCount? ==> d.count == |Pending(txs, isRecent)|)
            && (d.ConnectButton? <==> account.None? || account.value == "")
            && (d.EnsName? || d.ShortAddress? ==> Pending(txs, isRecent) == [])
            && (d.ShortAddress? ==> d.account == account.value && (ensName.None? || ensName.value == ""))
  {
  }
}
