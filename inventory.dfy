/** Stock keeping (backend/app/routers/inventory.py): adding an item to the
    caller's workspace and listing the workspace's items. */
module Inventory {
  import opened Common
  import opened Models
  import opened Database

  /** The item form (`InventoryItemCreate`); `threshold` is left out as None. */
  datatype ItemInput = ItemInput(name: string, quantity: int, threshold: Option<int>)

  /** `low_stock_threshold: int = 5` */
  const DEFAULT_THRESHOLD := 5

  /** create_inventory_item: one item in the caller's workspace with the form's
      name and quantity and its threshold, 5 when omitted. Nothing else changes. */
  function CreateItemSpec(db: Db, caller: User, input: ItemInput): (r: Transition<InventoryItem>)
    ensures r.queued == []
    ensures r.response.Ok?
    ensures var item := r.response.value;
            && r.db == db.(items := db.items + [item], nextId := r.db.nextId)
            && item == InventoryItem(item.id, caller.workspaceId, input.name, input.quantity, input.threshold.GetOr(DEFAULT_THRESHOLD))
            && (input.threshold.None? ==> item.lowStockThreshold == 5)
            && (db.Valid() ==> forall x | x in db.items :: x.id != item.id)
    ensures db.Valid() ==> r.db.Valid()
  {
    var item := InventoryItem(db.nextId, caller.workspaceId, input.name, input.quantity, input.threshold.GetOr(DEFAULT_THRESHOLD));
    Transition(db.(items := db.items + [item], nextId := db.nextId + 1), Ok(item), [])
  }

  /** create_inventory_item on a store. */
  method CreateItem(store: Store, caller: User, input: ItemInput) returns (r: Response<InventoryItem>)
    modifies store
    ensures Transition(store.Snapshot(), r, []) == CreateItemSpec(old(store.Snapshot()), caller, input)
    ensures old(store.Valid()) ==> store.Valid()
  {
    var id := store.NewId();
    var item := InventoryItem(id, caller.workspaceId, input.name, input.quantity, input.threshold.GetOr(DEFAULT_THRESHOLD));
    store.items := store.items + [item];
    r := Ok(item);
  }

  /** list_inventory: exactly the items of the caller's workspace. */
  function ListInventory(items: seq<InventoryItem>, caller: User): (r: seq<InventoryItem>)
    ensures forall i | i in r :: i in items && i.workspaceId == caller.workspaceId
    ensures forall i | i in items && i.workspaceId == caller.workspaceId :: i in r
  {
    ItemsOf(items, caller.workspaceId)
  }
}
