// The connection to one leader cluster: a name-addressed store of the
// ResourceExports in the leader namespace, with get, create, update and delete.

module CommonArea {
  import opened MulticlusterApi

  class RemoteCommonArea {
    /** The leader cluster this area connects to. */
    const clusterID: string
    /** The ID of the member cluster that uses this area. */
    const localClusterID: string
    /** The leader namespace; every object of the store lives here. */
    const namespace: string
    var store: map<string, ResourceExport>
    /** Every successful mutation, in order. */
    var log: seq<Write>

    ghost predicate Valid()
      reads this
    {
      WellKeyed(store, namespace)
    }

    constructor (clusterID: string, localClusterID: string, namespace: string, objects: map<string, ResourceExport>)
      requires WellKeyed(objects, namespace)
      ensures Valid()
      ensures this.clusterID == clusterID && this.localClusterID == localClusterID
      ensures this.namespace == namespace
      ensures store == objects && log == []
    {
      this.clusterID := clusterID;
      this.localClusterID := localClusterID;
      this.namespace := namespace;
      store := objects;
      log := [];
    }

    /** Reads the object named `name`; None stands for a NotFound read. */
    method Get(name: string) returns (r: Option<ResourceExport>)
      ensures r.Some? <==> name in store
      ensures r.Some? ==> r.value == store[name]
    {
      if name in store {
        r := Some(store[name]);
      } else {
        r := None;
      }
    }

    method Create(obj: ResourceExport) returns (err: Option<ApiError>)
      requires Valid() && obj.namespace == namespace
      modifies this
      ensures Valid()
      ensures obj.name in old(store) ==>
        err == Some(AlreadyExists(obj.name)) && store == old(store) && log == old(log)
      ensures obj.name !in old(store) ==>
        err == None && store == old(store)[obj.name := obj] && log == old(log) + [Created(obj.name)]
    {
      if obj.name in store {
        err := Some(AlreadyExists(obj.name));
      } else {
        store := store[obj.name := obj];
        log := log + [Created(obj.name)];
        err := None;
      }
    }

    method Update(obj: ResourceExport) returns (err: Option<ApiError>)
      requires Valid() && obj.namespace == namespace
      modifies this
      ensures Valid()
      ensures obj.name !in old(store) ==>
        err == Some(NotFound(obj.name)) && store == old(store) && log == old(log)
      ensures obj.name in old(store) ==>
        err == None && store == old(store)[obj.name := obj] && log == old(log) + [Updated(obj.name)]
    {
      if obj.name !in store {
        err := Some(NotFound(obj.name));
      } else {
        store := store[obj.name := obj];
        log := log + [Updated(obj.name)];
        err := None;
      }
    }

    method Delete(name: string) returns (err: Option<ApiError>)
      requires Valid()
      modifies this
      ensures Valid()
      ensures name !in old(store) ==>
        err == Some(NotFound(name)) && store == old(store) && log == old(log)
      ensures name in old(store) ==>
        err == None && store == old(store) - {name} && log == old(log) + [Deleted(name)]
    {
      if name !in store {
        err := Some(NotFound(name));
      } else {
        store := store - {name};
        log := log + [Deleted(name)];
        err := None;
      }
    }
  }
}
