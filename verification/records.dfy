/** The documents and identities the application handles. */
module Records {
  import opened Common

  /** A ledger document: id, name and category (`personal` or `business`).
      Timestamps are left out. */
  datatype Ledger = Ledger(id: string, name: string, category: string)

  /** A transaction document. `kind` is the stored `type` field; the form only
      writes `credit` or `debit` with a positive amount, but a stored document
      may hold anything, and the aggregations handle other values too. */
  datatype Transaction = Transaction(id: string, amount: real, kind: string, note: string)

  /** The form's rule for a transaction it writes. */
  predicate WellFormedTransaction(t: Transaction) {
    (t.kind == "credit" || t.kind == "debit") && t.amount > 0.0
  }

  /** An authenticated identity. The empty string stands for a missing
      uid or email. */
  datatype User = User(uid: string, email: string, displayName: Option<string>)
}
