/** The two handler tests of the service, replayed on the model. */
module StoreExamples {
  import opened Receipts
  import opened Points
  import opened PointsExamples
  import opened Store

  /**
   * Processing the test receipt answers with an id; asking for that id answers 200
   * with 107 points.
   */
  method TestProcessThenGetPoints(store: ReceiptStore, r: Receipt)
    returns (created: ProcessReply, fetched: PointsReply)
    requires store.Valid()
    requires Has(r, "Target", "2022-01-01", "15:01", "20.00", [Item("Pepsi", "2.00"), Item("Chips", "3.00")])
    modifies store
    ensures created.Created?
    ensures fetched == Awarded(107)
  {
    created, fetched := ProcessThenFetch(store, r);
    TestHandlerReceipt(r);
  }

  /** A fresh service knows no id at all. */
  method TestUnknownId(id: string) returns (reply: PointsReply)
    ensures reply == NotFound
  {
    var store := new ReceiptStore();
    reply := store.GetPoints(id);
  }
}
