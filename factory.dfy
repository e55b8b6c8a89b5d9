/**
 * The process-wide database slot: empty until `initialize_database` fills
 * it with a connected FirestoreAdapter, emptied again by `close_database`.
 * Every adapter the slot holds talks to the same Firestore collection.
 */
module Factory {
  import opened Wrappers
  import opened Config
  import opened Firestore

  const FIRESTORE: string := "firestore"

  /** RuntimeError from an empty slot, ValueError for an unknown database type. */
  datatype FactoryError = SlotEmpty | UnknownDatabaseType(databaseType: string)

  /** What a handler meets when it asks for the adapter and uses it. */
  datatype Backend = Unset | Disconnected | Ready

  /** `project_id=settings.google_cloud_project or None`. */
  function ProjectId(googleCloudProject: string): (r: Option<string>)
    ensures r.None? <==> googleCloudProject == ""
    ensures r.Some? ==> r.value == googleCloudProject
  {
    if googleCloudProject == "" then None else Some(googleCloudProject)
  }

  class DatabaseSlot {
    /** The Firestore collection behind every adapter of this process. */
    const remote: Collection
    /** `_db_adapter`. */
    var adapter: FirestoreAdapter?

    ghost predicate Valid()
      reads this, adapter
    {
      adapter != null ==> adapter.remote == remote
    }

    constructor(remote: Collection)
      ensures Valid() && this.remote == remote && adapter == null
    {
      this.remote := remote;
      adapter := null;
    }

    /** `get_database_adapter()`. */
    method Get() returns (r: Result<FirestoreAdapter, FactoryError>)
      ensures r.Err? <==> adapter == null
      ensures r.Err? ==> r.error == SlotEmpty
      ensures r.Ok? ==> r.value == adapter
    {
      if adapter == null {
        return Err(SlotEmpty);
      }
      r := Ok(adapter);
    }

    /**
     * `initialize_database()`: for "firestore", a new adapter for the
     * configured project fills the slot and is initialized; any other type
     * raises before the slot is touched.
     */
    method Initialize(settings: Settings) returns (r: Result<FirestoreAdapter, FactoryError>)
      requires Valid()
      modifies this
      ensures Valid()
      ensures settings.databaseType == FIRESTORE ==>
        && r.Ok? && fresh(r.value) && adapter == r.value
        && r.value.connected && r.value.remote == remote
        && r.value.projectId == ProjectId(settings.googleCloudProject)
      ensures settings.databaseType != FIRESTORE ==>
        r == Err(UnknownDatabaseType(settings.databaseType)) && adapter == old(adapter)
    {
      if settings.databaseType != FIRESTORE {
        return Err(UnknownDatabaseType(settings.databaseType));
      }
      var created := new FirestoreAdapter(ProjectId(settings.googleCloudProject), remote);
      adapter := created;
      created.Initialize();
      r := Ok(created);
    }

    /** `close_database()`: closes the adapter, if any, and empties the slot. */
    method Close()
      requires Valid()
      modifies this
      ensures Valid() && adapter == null
    {
      if adapter != null {
        adapter.Close();
        adapter := null;
      }
    }
  }

  /**
   * The state a handler finds the slot in. No method of `DatabaseSlot` leaves
   * it `Disconnected`: `Initialize` stores a connected adapter and `Close`
   * empties the slot. That state arises only when a caller puts an adapter into
   * `slot.adapter` that it never initialized.
   */
  function BackendOf(slot: DatabaseSlot): (b: Backend)
    reads slot, slot.adapter
    ensures b == Unset <==> slot.adapter == null
    ensures b == Ready <==> slot.adapter != null && slot.adapter.connected
  {
    if slot.adapter == null then Unset
    else if !slot.adapter.connected then Disconnected
    else Ready
  }
}
