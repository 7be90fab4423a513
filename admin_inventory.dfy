/** The administrator's inventory page (admin-frontend/src/pages/AdminInventory.jsx):
    choice of a distributor, loading of its inventory into a product-id to
    stock map, per-product edits, and the save request. */
module AdminInventory {
  import opened Wrappers
  import opened Text
  import opened Seqs
  import opened Records

  /** One entry of the inventory list the server sends and receives. */
  datatype InventoryItem = InventoryItem(productId: int, stock: int)

  function IsDistributor(u: User): bool {
    u.role == DistributorRole
  }

  /** `users.filter((user) => user.role === "distributor")` */
  function Distributors(users: seq<User>): (r: seq<User>)
    ensures IsSubsequence(r, users)
    ensures forall i :: 0 <= i < |r| ==> r[i].role == DistributorRole
    ensures forall i :: 0 <= i < |users| && users[i].role == DistributorRole ==> users[i] in r
    ensures forall u :: multiset(r)[u] == if u.role == DistributorRole then multiset(users)[u] else 0
  {
    FilterIsSubsequence(users, IsDistributor);
    FilterMultiset(users, IsDistributor);
    Filter(users, IsDistributor)
  }

  /** `inventoryList.reduce((acc, item) => { acc[item.product_id] = item.stock; return acc; }, {})`:
      every listed id becomes a key, and nothing else does. */
  function Fold(items: seq<InventoryItem>): (m: Inventory)
    ensures forall i :: 0 <= i < |items| ==> items[i].productId in m
    ensures forall k :: k in m ==> exists i :: 0 <= i < |items| && items[i].productId == k
  {
    if items == [] then map[]
    else Fold(items[..|items| - 1])[items[|items| - 1].productId := items[|items| - 1].stock]
  }

  function ProductIdOf(item: InventoryItem): int { item.productId }
  function StockOf(item: InventoryItem): int { item.stock }

  /** The fold is the keyed `reduce` of `Seqs`, keyed by product id. */
  lemma {:induction false} FoldIsIndexBy(items: seq<InventoryItem>)
    ensures Fold(items) == IndexBy(items, ProductIdOf, StockOf)
  {
    if items != [] {
      FoldIsIndexBy(items[..|items| - 1]);
    }
  }

  /** The stock kept for an id is that of its last entry. */
  lemma FoldLastWins(items: seq<InventoryItem>, i: int)
    requires 0 <= i < |items|
    requires forall j :: i < j < |items| ==> items[j].productId != items[i].productId
    ensures Fold(items)[items[i].productId] == items[i].stock
  {
    assert IsLastWithKey(items, ProductIdOf, i);
    IndexByLastWins(items, ProductIdOf, StockOf, i);
    FoldIsIndexBy(items);
  }

  /** Folding one more entry sets the stock of its id and nothing else. */
  lemma FoldSnoc(items: seq<InventoryItem>, x: InventoryItem)
    ensures Fold(items + [x]) == Fold(items)[x.productId := x.stock]
  {
    assert (items + [x])[..|items|] == items;
  }

  /** A set of ids that is not empty has an element. */
  lemma SomeKey(keys: set<int>)
    requires keys != {}
    ensures exists k :: k in keys
  {
    if forall k :: k !in keys {
      assert false;
    }
  }

  /** The part of `inventory` whose keys lie in `keys`. */
  function Restrict(inventory: Inventory, keys: set<int>): (r: Inventory)
    ensures r.Keys == inventory.Keys * keys
  {
    map k | k in inventory && k in keys :: inventory[k]
  }

  /** The entries built so far list each key of `done` once, with its stock, and nothing else. */
  predicate EntriesCover(inventory: Inventory, items: seq<InventoryItem>, done: set<int>) {
    |items| == |done|
    && (forall i :: 0 <= i < |items| ==> items[i].productId in done)
    && (forall i, j :: 0 <= i < j < |items| ==> items[i].productId != items[j].productId)
    && Fold(items) == Restrict(inventory, done)
  }

  /** Taking one more key out of `remaining` and appending its entry keeps
      the entries covering exactly the keys no longer remaining. */
  lemma EntriesStep(inventory: Inventory, items: seq<InventoryItem>, remaining: set<int>, k: int)
    requires remaining <= inventory.Keys && k in remaining
    requires EntriesCover(inventory, items, inventory.Keys - remaining)
    ensures remaining - {k} <= inventory.Keys
    ensures EntriesCover(inventory, items + [InventoryItem(k, inventory[k])], inventory.Keys - (remaining - {k}))
  {
    var done := inventory.Keys - remaining;
    var items' := items + [InventoryItem(k, inventory[k])];
    assert done + {k} == inventory.Keys - (remaining - {k});
    FoldSnoc(items, InventoryItem(k, inventory[k]));
    assert Restrict(inventory, done)[k := inventory[k]] == Restrict(inventory, done + {k});
    assert |done + {k}| == |done| + 1;
    assert forall i :: 0 <= i < |items| ==> items'[i] == items[i];
  }

  /** Entries that cover every key of the inventory list it exactly. */
  lemma EntriesComplete(inventory: Inventory, items: seq<InventoryItem>, remaining: set<int>)
    requires remaining == {} && EntriesCover(inventory, items, inventory.Keys - remaining)
    ensures |items| == |inventory|
    ensures forall i :: 0 <= i < |items| ==> items[i].productId in inventory && items[i].stock == inventory[items[i].productId]
    ensures forall i, j :: 0 <= i < j < |items| ==> items[i].productId != items[j].productId
    ensures Fold(items) == inventory
  {
    assert inventory.Keys - remaining == inventory.Keys;
    assert Restrict(inventory, inventory.Keys) == inventory;
    forall i | 0 <= i < |items|
      ensures items[i].stock == inventory[items[i].productId]
    {
      FoldLastWins(items, i);
    }
  }

  /** `Object.entries(inventory).map(([productId, stock]) => ({ … }))`: one
      entry per key, in an order the model leaves open. Folding the entries
      back gives the inventory again. */
  method Entries(inventory: Inventory) returns (items: seq<InventoryItem>)
    ensures |items| == |inventory|
    ensures forall i :: 0 <= i < |items| ==> items[i].productId in inventory && items[i].stock == inventory[items[i].productId]
    ensures forall i, j :: 0 <= i < j < |items| ==> items[i].productId != items[j].productId
    ensures Fold(items) == inventory
  {
    items := [];
    var remaining := inventory.Keys;
    assert inventory.Keys - remaining == {};
    while remaining != {}
      invariant remaining <= inventory.Keys
      invariant EntriesCover(inventory, items, inventory.Keys - remaining)
      decreases |remaining|
    {
      SomeKey(remaining);
      var k :| k in remaining;
      EntriesStep(inventory, items, remaining, k);
      items := items + [InventoryItem(k, inventory[k])];
      remaining := remaining - {k};
    }
    EntriesComplete(inventory, items, remaining);
  }

  const SelectFirst := "请先选择分销商"
  const NoCode := "无法获取分销商编码"
  const LoadFailed := "库存加载失败，请稍后重试"
  const Saved := "库存已保存到数据库"
  const SaveFailed := "库存保存失败，请稍后重试"

  /** What the loading of an inventory came to: the summary request failed,
      or it answered with a code ("" when it has none) and, for a code, the
      inventory request answered with a list or failed. */
  datatype InventoryLoad = SummaryFailed | SummaryLoaded(code: string, list: Option<seq<InventoryItem>>)

  /** The request `handleSaveInventory` sends: the code in the path and the items. */
  datatype SaveRequest = SaveRequest(code: string, items: seq<InventoryItem>)

  /** The state of the page. */
  class InventoryPage {
    var distributors: seq<User>
    var selectedDistributorId: string
    var selectedDistributorCode: string
    var inventory: Inventory
    var inventoryMessage: string
    var inventoryError: string

    constructor()
      ensures distributors == [] && selectedDistributorId == "" && selectedDistributorCode == ""
      ensures inventory == map[] && inventoryMessage == "" && inventoryError == ""
    {
      distributors := [];
      selectedDistributorId := "";
      selectedDistributorCode := "";
      inventory := map[];
      inventoryMessage := "";
      inventoryError := "";
    }

    /** The first effect, with the user list given (`None` when the request
        failed): the distributors among the users are listed and the first
        of them is selected. */
    method LoadBaseData(users: Option<seq<User>>)
      modifies this
      ensures users.Some? ==> distributors == Distributors(users.value)
      ensures users.Some? && distributors != [] ==> selectedDistributorId == IntToString(distributors[0].id)
      ensures users.Some? && distributors == [] ==> selectedDistributorId == old(selectedDistributorId)
      ensures users.None? ==> distributors == [] && selectedDistributorId == ""
      ensures selectedDistributorCode == old(selectedDistributorCode) && inventory == old(inventory)
      ensures inventoryMessage == old(inventoryMessage) && inventoryError == old(inventoryError)
    {
      match users {
        case Some(list) =>
          distributors := Distributors(list);
          if |distributors| > 0 {
            selectedDistributorId := IntToString(distributors[0].id);
          }
        case None =>
          distributors := [];
          selectedDistributorId := "";
      }
    }

    /** A choice in the distributor select. */
    method Select(id: string)
      modifies this`selectedDistributorId
      ensures selectedDistributorId == id
    {
      selectedDistributorId := id;
    }

    /** The second effect, run when the selection changes, with what the
        requests answered. No selection resets the inventory and the code. */
    method LoadInventory(load: InventoryLoad)
      modifies this
      ensures selectedDistributorId == "" ==>
        inventory == map[] && selectedDistributorCode == ""
        && inventoryError == old(inventoryError) && inventoryMessage == old(inventoryMessage)
      ensures selectedDistributorId != "" && load.SummaryFailed? ==>
        inventory == map[] && inventoryError == LoadFailed && selectedDistributorCode == old(selectedDistributorCode)
        && inventoryMessage == old(inventoryMessage)
      ensures selectedDistributorId != "" && load.SummaryLoaded? ==> selectedDistributorCode == load.code
      ensures selectedDistributorId != "" && load.SummaryLoaded? && load.code == "" ==>
        inventory == map[] && inventoryError == NoCode && inventoryMessage == old(inventoryMessage)
      ensures selectedDistributorId != "" && load.SummaryLoaded? && load.code != "" && load.list.None? ==>
        inventory == map[] && inventoryError == LoadFailed && inventoryMessage == old(inventoryMessage)
      ensures selectedDistributorId != "" && load.SummaryLoaded? && load.code != "" && load.list.Some? ==>
        inventory == Fold(load.list.value) && inventoryError == "" && inventoryMessage == ""
      ensures selectedDistributorId == old(selectedDistributorId) && distributors == old(distributors)
    {
      if selectedDistributorId == "" {
        inventory := map[];
        selectedDistributorCode := "";
        return;
      }
      match load {
        case SummaryFailed =>
          inventory := map[];
          inventoryError := LoadFailed;
        case SummaryLoaded(code, list) =>
          selectedDistributorCode := code;
          if code == "" {
            inventory := map[];
            inventoryError := NoCode;
            return;
          }
          match list {
            case None =>
              inventory := map[];
              inventoryError := LoadFailed;
            case Some(items) =>
              inventory := Fold(items);
              inventoryMessage := "";
              inventoryError := "";
          }
      }
    }

    /** `handleInventoryChange(productId, value)`: exactly one key changes
        and both messages are cleared. */
    method HandleInventoryChange(productId: int, value: int)
      modifies this
      ensures productId in inventory && inventory[productId] == value
      ensures forall k :: k != productId ==> (k in inventory <==> k in old(inventory))
      ensures forall k :: k != productId && k in old(inventory) ==> inventory[k] == old(inventory)[k]
      ensures inventoryMessage == "" && inventoryError == ""
      ensures selectedDistributorId == old(selectedDistributorId) && selectedDistributorCode == old(selectedDistributorCode)
      ensures distributors == old(distributors)
    {
      inventory := inventory[productId := value];
      inventoryMessage := "";
      inventoryError := "";
    }

    /** `handleSaveInventory`, with the outcome of the request given: the
        selection is checked first, then the code, and only then is a
        request sent, with one item per inventory key. */
    method HandleSaveInventory(succeeded: bool) returns (sent: Option<SaveRequest>)
      modifies this`inventoryMessage, this`inventoryError
      ensures selectedDistributorId == "" ==> sent.None? && inventoryError == SelectFirst
      ensures selectedDistributorId != "" && selectedDistributorCode == "" ==> sent.None? && inventoryError == NoCode
      ensures sent.None? ==> inventoryMessage == old(inventoryMessage)
      ensures sent.Some? <==> selectedDistributorId != "" && selectedDistributorCode != ""
      ensures sent.Some? ==>
        sent.value.code == selectedDistributorCode && Fold(sent.value.items) == inventory
        && |sent.value.items| == |inventory|
        && (succeeded ==> inventoryMessage == Saved && inventoryError == "")
        && (!succeeded ==> inventoryMessage == "" && inventoryError == SaveFailed)
    {
      if selectedDistributorId == "" {
        inventoryError := SelectFirst;
        return None;
      }
      if selectedDistributorCode == "" {
        inventoryError := NoCode;
        return None;
      }
      var items := Entries(inventory);
      sent := Some(SaveRequest(selectedDistributorCode, items));
      if succeeded {
        inventoryMessage := Saved;
        inventoryError := "";
      } else {
        inventoryError := SaveFailed;
        inventoryMessage := "";
      }
    }
  }
}
