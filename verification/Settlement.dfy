/** What every bill, payment and transfer reference keeps, and when a payment's commit keeps it. */
module Settlement {
  import opened Sums
  import opened Records
  import opened Billing

  // ---- bills agree with their payments -----------------------------------

  function PaidOn(bill: Id): Payment -> int { (p: Payment) => if p.bill == bill then p.amount else 0 }

  function SettledOn(payments: seq<Payment>, bill: Id): int { Sum(payments, PaidOn(bill)) }

  ghost predicate BillAgrees(bill: Bill, settled: int)
  {
    && bill.version >= 1
    && bill.total >= 0
    && bill.amountPaid == settled
    && match bill.status {
         case Generated => bill.amountPaid == 0
         case PaymentPending => 0 < bill.amountPaid < bill.total
         case FullyPaid => 0 < bill.amountPaid == bill.total
         case Archived => 0 < bill.amountPaid == bill.total
       }
  }

  ghost predicate PaymentPlaced(p: Payment, bills: seq<Bill>)
  {
    && p.bill < |bills|
    && p.amount > 0
    && p.branch == bills[p.bill].branch
    && p.date == bills[p.bill].date
  }

  ghost predicate BillsAgree(bills: seq<Bill>, payments: seq<Payment>)
  {
    && (forall b | 0 <= b < |bills| :: BillAgrees(bills[b], SettledOn(payments, b)))
    && (forall i | 0 <= i < |payments| :: PaymentPlaced(payments[i], bills))
  }

  lemma NothingSettledYet(payments: seq<Payment>, bill: Id)
    requires forall p | p in payments :: p.bill != bill
    ensures SettledOn(payments, bill) == 0
  {
    SumZero(payments, PaidOn(bill));
  }

  lemma NewBillAgrees(bills: seq<Bill>, payments: seq<Payment>, row: Bill)
    requires BillsAgree(bills, payments)
    requires row.status == Generated && row.total >= 0 && row.amountPaid == 0 && row.version == 1
    ensures BillsAgree(bills + [row], payments)
  {
    NothingSettledYet(payments, |bills|);
  }

  // ---- the snapshot a payment was loaded with ----------------------------

  /** What stays true of a loaded bill while other requests run. */
  ghost predicate SnapshotOf(snapshot: Bill, bill: Bill)
  {
    && Payable(snapshot.status)
    && snapshot.total == bill.total && snapshot.session == bill.session
    && snapshot.branch == bill.branch && snapshot.date == bill.date
    && snapshot.version <= bill.version
    && (snapshot.version == bill.version ==> snapshot == bill)
    && (snapshot.version < bill.version ==> snapshot.amountPaid < bill.amountPaid)
  }

  ghost predicate AmountFits(body: PayBody, snapshot: Bill)
  {
    0 < body.amount <= snapshot.total - snapshot.amountPaid
  }

  /**
   A payment that commits keeps every bill equal to its settled payments exactly when the version the
   client sent is no higher than the version that was loaded.
   */
  lemma CommitAgreesIff(db: Db, r: PayRequest, snapshot: Bill, now: int)
    requires BillsAgree(db.billing.bills, db.billing.payments)
    requires r.body.bill < |db.billing.bills|
    requires SnapshotOf(snapshot, db.billing.bills[r.body.bill]) && AmountFits(r.body, snapshot)
    requires r.context.branch == snapshot.branch
    requires CommitPayment(db, r, snapshot, now).1.Done?
    ensures var after := CommitPayment(db, r, snapshot, now).0.billing;
      BillsAgree(after.bills, after.payments) <==> r.body.expected <= snapshot.version
  {
    var b := r.body.bill;
    var bills, payments := db.billing.bills, db.billing.payments;
    var after := CommitPayment(db, r, snapshot, now).0.billing;
    var row := PaymentRow(r, snapshot);
    assert after.payments == payments + [row] && r.body.expected == bills[b].version;
    forall k | 0 <= k < |bills|
      ensures SettledOn(after.payments, k) == SettledOn(payments, k) + (if k == b then r.body.amount else 0)
    {
      SumAppend(payments, row, PaidOn(k));
    }
    assert forall k | 0 <= k < |bills| && k != b :: after.bills[k] == bills[k];
    assert BillAgrees(bills[b], SettledOn(payments, b));
    assert forall i | 0 <= i < |payments| :: PaymentPlaced(payments[i], bills) && after.payments[i] == payments[i];
    assert PaymentPlaced(row, after.bills);
    if r.body.expected <= snapshot.version {
      assert snapshot == bills[b];
    } else {
      assert after.bills[b].amountPaid < SettledOn(after.payments, b);
      assert !BillAgrees(after.bills[b], SettledOn(after.payments, b));
    }
  }

  /** The bill a snapshot belongs to can only have moved on through further payments. */
  lemma SnapshotSurvives(snapshot: Bill, before: Bill, after: Bill)
    requires SnapshotOf(snapshot, before)
    requires after == before
             || (after.version == before.version + 1
                 && after.total == before.total && after.session == before.session
                 && after.branch == before.branch && after.date == before.date
                 && after.amountPaid >= before.amountPaid
                 && (Payable(before.status) ==> after.amountPaid > before.amountPaid))
    ensures SnapshotOf(snapshot, after)
  {
  }

  // ---- references name one bill ------------------------------------------

  ghost predicate ReferencesAgree(references: map<(Id, string), Id>)
  {
    forall j, k | j in references && k in references && j.1 == k.1 :: references[j] == references[k]
  }

  ghost predicate Covered(audit: TransferAudit, references: map<(Id, string), Id>)
  {
    exists k :: k in references && k.1 == audit.reference && references[k] == audit.bill
  }

  ghost predicate AuditsCovered(audits: seq<TransferAudit>, references: map<(Id, string), Id>)
  {
    forall i | 0 <= i < |audits| :: Covered(audits[i], references)
  }

  ghost predicate NamesOnly(references: map<(Id, string), Id>, reference: string, bill: Id)
  {
    forall k | k in references && k.1 == reference :: references[k] == bill
  }

  /** A commit keeps one bill per reference exactly when no row gives its reference to another bill. */
  lemma StoreReferenceIff(billing: BillTables, user: Id, reference: string, bill: Id, payment: Id)
    requires ReferencesAgree(billing.references) && AuditsCovered(billing.audits, billing.references)
    ensures var references := StoreReference(billing.references, user, Some(reference), bill);
      var audits := StoreAudit(billing.audits, payment, bill, Some(reference));
      ReferencesAgree(references) && AuditsCovered(audits, references)
      <==> NamesOnly(billing.references, reference, bill)
  {
    var references := StoreReference(billing.references, user, Some(reference), bill);
    var audits := StoreAudit(billing.audits, payment, bill, Some(reference));
    assert (user, reference) in references;
    assert forall k | k in billing.references :: k in references && references[k] == billing.references[k];
    assert audits[|billing.audits|] == TransferAudit(payment, bill, reference);
    if NamesOnly(billing.references, reference, bill) {
      forall i | 0 <= i < |audits|
        ensures Covered(audits[i], references)
      {
        if i == |billing.audits| {
          assert references[(user, reference)] == bill;
        } else {
          assert Covered(billing.audits[i], billing.references);
          var k :| k in billing.references && k.1 == billing.audits[i].reference
                   && billing.references[k] == billing.audits[i].bill;
          assert k in references && references[k] == audits[i].bill;
        }
      }
    }
  }

  /** Run without interference, the one row the lookup returns decides for all of them. */
  lemma LookupDecides(references: map<(Id, string), Id>, reference: string, bill: Id)
    requires ReferencesAgree(references)
    ensures NamesOnly(references, reference, bill)
            <==> (ReferenceKnown(references, reference) ==> FindReference(references, reference) == bill)
  {
    if ReferenceKnown(references, reference) {
      var k :| k in references && k.1 == reference && references[k] == FindReference(references, reference);
    }
  }

  // ---- a payment run without interference --------------------------------

  ghost predicate BillingAgrees(billing: BillTables)
  {
    && BillsAgree(billing.bills, billing.payments)
    && ReferencesAgree(billing.references)
    && AuditsCovered(billing.audits, billing.references)
  }

  lemma LoadedFits(db: Db, r: PayRequest)
    requires LoadPayment(db, r).Proceed?
    ensures r.body.bill < |db.billing.bills|
    ensures LoadPayment(db, r).bill == db.billing.bills[r.body.bill]
    ensures SnapshotOf(LoadPayment(db, r).bill, db.billing.bills[r.body.bill])
    ensures AmountFits(r.body, LoadPayment(db, r).bill)
    ensures r.context.branch == LoadPayment(db, r).bill.branch
    ensures !DayLocked(db.closes, r.context.branch, LoadPayment(db, r).bill.date)
  {
  }

  lemma PayKeepsBilling(db: Db, r: PayRequest, now: int)
    requires BillingAgrees(db.billing)
    ensures BillingAgrees(Pay(db, r, now).0.billing)
  {
    if LoadPayment(db, r).Proceed? && Pay(db, r, now).1.Done? {
      LoadedFits(db, r);
      var bill := LoadPayment(db, r).bill;
      CommitAgreesIff(db, r, bill, now);
      if ReferenceOf(r).Some? {
        LookupDecides(db.billing.references, ReferenceOf(r).value, r.body.bill);
        StoreReferenceIff(db.billing, r.context.user, ReferenceOf(r).value, r.body.bill, |db.billing.payments|);
      }
    }
  }
}
