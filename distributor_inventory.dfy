/** The distributor's own inventory page
    (admin-frontend/src/pages/DistributorInventory.jsx): the inventory is
    kept in local storage under a key built from the distributor's code,
    with a legacy key built from its user id. */
module DistributorInventory {
  import opened Wrappers
  import opened Text
  import opened Records
  import opened BrowserStorage

  const KeyPrefix := "distributorInventory:"

  /** `distributorInventory:${x}` */
  function StorageKey(x: string): (key: string)
    ensures |key| == |KeyPrefix| + |x| && key[|KeyPrefix|..] == x
  {
    KeyPrefix + x
  }

  /** Two keys are equal exactly when what they were built from is. */
  lemma StorageKeyInjective(a: string, b: string)
    ensures StorageKey(a) == StorageKey(b) <==> a == b
  {
    if StorageKey(a) == StorageKey(b) {
      assert a == StorageKey(a)[|KeyPrefix|..] == StorageKey(b)[|KeyPrefix|..] == b;
    }
  }

  /** The legacy key of a user id. */
  function LegacyKey(userId: int): (key: string)
    ensures |KeyPrefix| <= |key| && key[..|KeyPrefix|] == KeyPrefix && key[|KeyPrefix|..] == IntToString(userId)
  {
    StorageKey(IntToString(userId))
  }

  /** Different user ids have different legacy keys. */
  lemma LegacyKeyInjective(a: int, b: int)
    ensures LegacyKey(a) == LegacyKey(b) <==> a == b
  {
    StorageKeyInjective(IntToString(a), IntToString(b));
    if IntToString(a) == IntToString(b) {
      IntToStringInjective(a, b);
    }
  }

  /** What the page reads of the distributor summary: its id and its code
      (`None` when the distributor has no account). */
  datatype SummaryView = SummaryView(distributorId: int, code: Option<string>)

  /** `summary.code ? `distributorInventory:${summary.code}` : null` */
  function CodeKey(s: SummaryView): (r: Option<string>)
    ensures r.Some? <==> s.code.Some? && s.code.value != ""
    ensures r.Some? ==> r.value == StorageKey(s.code.value)
  {
    if s.code.Some? && s.code.value != "" then Some(StorageKey(s.code.value)) else None
  }

  /** `(codeKey && localStorage.getItem(codeKey)) || localStorage.getItem(legacyKey)`,
      parsed, or `{}` when neither is stored. A stored entry is the text of
      a JSON object, which is never empty, so being stored is being chosen. */
  function SavedInventory(store: map<string, Inventory>, codeKey: Option<string>, legacyKey: string): (r: Inventory)
    ensures codeKey.Some? && codeKey.value in store ==> r == store[codeKey.value]
    ensures (codeKey.None? || codeKey.value !in store) && legacyKey in store ==> r == store[legacyKey]
    ensures (codeKey.None? || codeKey.value !in store) && legacyKey !in store ==> r == map[]
  {
    if codeKey.Some? && codeKey.value in store then store[codeKey.value]
    else if legacyKey in store then store[legacyKey]
    else map[]
  }

  /** The store after `handleSaveInventory` has written `inventory` under the
      legacy key of the summary's id and then, when there is a code, under
      the code key. */
  function SavedStore(store: map<string, Inventory>, s: SummaryView, inventory: Inventory): (r: map<string, Inventory>)
    ensures LegacyKey(s.distributorId) in r && r[LegacyKey(s.distributorId)] == inventory
    ensures CodeKey(s).Some? ==> CodeKey(s).value in r && r[CodeKey(s).value] == inventory
    ensures forall k :: k != LegacyKey(s.distributorId) && Some(k) != CodeKey(s) ==>
      (k in r <==> k in store) && (k in store ==> r[k] == store[k])
  {
    var written := store[LegacyKey(s.distributorId) := inventory];
    match CodeKey(s)
    case None => written
    case Some(key) => written[key := inventory]
  }

  /** Loading for the user whose summary was saved gives back exactly what
      was saved, whatever the store held before. */
  lemma LoadAfterSave(store: map<string, Inventory>, s: SummaryView, inventory: Inventory, userId: int)
    requires s.distributorId == userId
    ensures SavedInventory(SavedStore(store, s, inventory), CodeKey(s), LegacyKey(userId)) == inventory
  {
  }

  /** A save for one distributor leaves the legacy entry of every other
      distributor alone, unless the saved code spells that entry's key. */
  lemma SaveLeavesOthers(store: map<string, Inventory>, s: SummaryView, inventory: Inventory, other: int)
    requires other != s.distributorId && CodeKey(s) != Some(LegacyKey(other))
    ensures LegacyKey(other) in SavedStore(store, s, inventory) <==> LegacyKey(other) in store
    ensures LegacyKey(other) in store ==> SavedStore(store, s, inventory)[LegacyKey(other)] == store[LegacyKey(other)]
  {
    LegacyKeyInjective(other, s.distributorId);
  }

  /** A code entry that is stored hides the legacy entry, even when the
      latter is the more recent save. */
  lemma CodeEntryWins(store: map<string, Inventory>, s: SummaryView, userId: int)
    requires CodeKey(s).Some? && CodeKey(s).value in store
    ensures SavedInventory(store, CodeKey(s), LegacyKey(userId)) == store[StorageKey(s.code.value)]
  {
  }

  const NoDistributor := "无法获取分销商信息"
  const SavedLocally := "库存已保存到本地"

  /** The state of the page. */
  class InventoryPage {
    var summary: Option<SummaryView>
    var inventory: Inventory
    var inventoryMessage: string
    var inventoryError: string

    constructor()
      ensures summary == None && inventory == map[] && inventoryMessage == "" && inventoryError == ""
    {
      summary := None;
      inventory := map[];
      inventoryMessage := "";
      inventoryError := "";
    }

    /** The effect run on mount, with the summary request's answer given
        (`None` when a request failed). Without a stored login or a user id
        nothing happens; otherwise the summary is kept and the inventory is
        read from the store, the code key first. */
    method Load(storage: LocalStorage, answer: Option<SummaryView>)
      modifies this`summary, this`inventory
      ensures storage.auth.None? || !HasUserId(storage.auth.value) ==>
        summary == old(summary) && inventory == old(inventory)
      ensures storage.auth.Some? && HasUserId(storage.auth.value) ==>
        summary == answer
        && (answer.None? ==> inventory == old(inventory))
        && (answer.Some? ==>
              inventory == SavedInventory(storage.inventories, CodeKey(answer.value),
                                          LegacyKey(storage.auth.value.userId.value)))
    {
      if storage.auth.None? || !HasUserId(storage.auth.value) {
        return;
      }
      var userId := storage.auth.value.userId.value;
      match answer {
        case None =>
          summary := None;
        case Some(s) =>
          summary := Some(s);
          inventory := SavedInventory(storage.inventories, CodeKey(s), LegacyKey(userId));
      }
    }

    /** `handleInventoryChange(productId, value)`: exactly one key changes
        and both messages are cleared. */
    method HandleInventoryChange(productId: int, value: int)
      modifies this`inventory, this`inventoryMessage, this`inventoryError
      ensures productId in inventory && inventory[productId] == value
      ensures forall k :: k != productId ==> (k in inventory <==> k in old(inventory))
      ensures forall k :: k != productId && k in old(inventory) ==> inventory[k] == old(inventory)[k]
      ensures inventoryMessage == "" && inventoryError == ""
    {
      inventory := inventory[productId := value];
      inventoryMessage := "";
      inventoryError := "";
    }

    /** `handleSaveInventory`: without a summary or with a distributor id of
        0 it records an error and writes nothing; otherwise it writes the
        inventory under the legacy key, then under the code key. */
    method HandleSaveInventory(storage: LocalStorage)
      modifies this`inventoryMessage, this`inventoryError, storage`inventories
      ensures summary.None? || summary.value.distributorId == 0 ==>
        inventoryError == NoDistributor && inventoryMessage == old(inventoryMessage)
        && storage.inventories == old(storage.inventories)
      ensures summary.Some? && summary.value.distributorId != 0 ==>
        storage.inventories == SavedStore(old(storage.inventories), summary.value, inventory)
        && inventoryMessage == SavedLocally && inventoryError == ""
    {
      if summary.None? || summary.value.distributorId == 0 {
        inventoryError := NoDistributor;
        return;
      }
      var s := summary.value;
      storage.SetInventory(LegacyKey(s.distributorId), inventory);
      match CodeKey(s) {
        case None =>
        case Some(key) => storage.SetInventory(key, inventory);
      }
      inventoryMessage := SavedLocally;
      inventoryError := "";
    }
  }
}
