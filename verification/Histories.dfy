/** Concrete histories, built one transaction at a time. */
module Histories {
  import opened Records
  import opened Kernel
  import opened Attempts

  /** Transactions can lead from one store to the other, bare cancel receipts not among them. */
  ghost predicate Leads(s: Store, s': Store) {
    exists txs :: NoReceipts(txs) && Execute(s, txs) == s'
  }

  lemma LeadsOn(s: Store, s': Store, tx: Tx)
    requires Leads(s, s') && !tx.RecordCancelReceipt?
    ensures Leads(s, Apply(s', tx))
  {
    hide Apply;
    var txs :| NoReceipts(txs) && Execute(s, txs) == s';
    var more := txs + [tx];
    assert more[..|more| - 1] == txs;
    assert NoReceipts(more);
  }

  lemma LeadsNowhere(s: Store)
    ensures Leads(s, s)
  {
    assert NoReceipts([]) && Execute(s, []) == s;
  }

  /** One more transaction of a history from the empty store. */
  lemma Go(s: Store, tx: Tx) returns (s': Store)
    requires Leads(EMPTY_STORE, s) && !tx.RecordCancelReceipt?
    ensures s' == Apply(s, tx) && Leads(EMPTY_STORE, s')
  {
    hide Apply;
    s' := Apply(s, tx);
    LeadsOn(EMPTY_STORE, s, tx);
  }
}
