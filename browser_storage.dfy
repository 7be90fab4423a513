/** The browser's `localStorage` as the admin front end uses it: the login
    record under "adminAuth" and the inventories a distributor saves
    locally. Values are kept already parsed: `JSON.stringify` followed by
    `JSON.parse` gives back the same record. */
module BrowserStorage {
  import opened Wrappers
  import opened Records

  /** The record the login page stores under "adminAuth": the account's role
      and its user id (`None` for a missing or null `user_id`). */
  datatype Auth = Auth(role: string, userId: Option<int>)

  /** `auth?.user_id` is truthy: present and not 0. */
  predicate HasUserId(auth: Auth) {
    auth.userId.Some? && auth.userId.value != 0
  }

  class LocalStorage {
    /** The entry "adminAuth", `None` when it is absent. */
    var auth: Option<Auth>
    /** The entries holding inventories, by key. */
    var inventories: map<string, Inventory>

    constructor(auth: Option<Auth>, inventories: map<string, Inventory>)
      ensures this.auth == auth && this.inventories == inventories
    {
      this.auth := auth;
      this.inventories := inventories;
    }

    /** `localStorage.setItem(key, JSON.stringify(inventory))`: the one entry
        changes and no other. */
    method SetInventory(key: string, inventory: Inventory)
      modifies this`inventories
      ensures inventories == old(inventories)[key := inventory]
    {
      inventories := inventories[key := inventory];
    }
  }
}
