/**
 * The link table between the shop's order id and the gateway's order id
 * (`payneteasy_payments`). Rows are written with replace-on-conflict after a
 * sale request and read by the status query. The table is taken to be keyed
 * by the shop order id, so it holds at most one row per shop order.
 */
module OrderLinks {
  import opened Php

  class OrderLinkStore {
    /** shop (merchant) order id -> gateway (paynet) order id */
    var rows: map<string, string>

    constructor ()
      ensures rows == map[]
    {
      rows := map[];
    }

    /** `REPLACE INTO`: inserts the row, or replaces the row already held for that order. */
    method Upsert(merchantOrderId: string, paynetOrderId: string)
      modifies this
      ensures rows == old(rows)[merchantOrderId := paynetOrderId]
      ensures |rows| == |old(rows)| + (if merchantOrderId in old(rows) then 0 else 1)
    {
      rows := rows[merchantOrderId := paynetOrderId];
    }

    /**
     * The write after a sale request: only when the gateway's response carries
     * `paynet-order-id` (and the `merchant-order-id` the row is keyed by).
     */
    method RecordSaleResponse(response: map<string, string>) returns (stored: bool)
      modifies this
      ensures stored <==> "paynet-order-id" in response && "merchant-order-id" in response
      ensures rows == if stored then old(rows)[response["merchant-order-id"] := response["paynet-order-id"]]
                      else old(rows)
    {
      stored := false;
      if "paynet-order-id" in response {
        var paynetOrderId := response["paynet-order-id"];
        if "merchant-order-id" in response {
          Upsert(response["merchant-order-id"], paynetOrderId);
          stored := true;
        }
      }
    }

    /** `SELECT paynet_order_id ... WHERE merchant_order_id = ...`, first row: the gateway id or null. */
    method Lookup(merchantOrderId: string) returns (paynetOrderId: Option<string>)
      ensures paynetOrderId.Some? <==> merchantOrderId in rows
      ensures paynetOrderId.Some? ==> paynetOrderId.value == rows[merchantOrderId]
    {
      if merchantOrderId in rows {
        paynetOrderId := Some(rows[merchantOrderId]);
      } else {
        paynetOrderId := None;
      }
    }
  }

  /**
   * Upserting the same order twice leaves a single row holding the latest
   * gateway id, and other orders' rows untouched (the map update changes
   * only that order's entry).
   */
  method UpsertTwiceKeepsLatest(store: OrderLinkStore, merchantOrderId: string, first: string, second: string)
    modifies store
    ensures store.rows == old(store.rows)[merchantOrderId := second]
    ensures |store.rows| == |old(store.rows)| + (if merchantOrderId in old(store.rows) then 0 else 1)
  {
    store.Upsert(merchantOrderId, first);
    store.Upsert(merchantOrderId, second);
    assert old(store.rows)[merchantOrderId := first][merchantOrderId := second] == old(store.rows)[merchantOrderId := second];
  }
}
