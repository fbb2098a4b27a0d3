/** The API server as the controller sees it: an atomic store in which any call may fail, before or
    after it took effect. */
module Cluster {
  import opened Api
  import opened Status
  import opened Conditions
  import opened Convergence

  datatype Fault = NoFault | FailBefore | FailAfter

  const API_ERROR := "api call failed"
  const ZERO_STATUS := LwsStatus(0, 0)

  datatype GetResult = Found(obj: Obj, status: LwsStatus) | NotFound | GetFailed
  datatype ListResult = Listed(keys: seq<Key>) | ListFailed
  datatype DeleteResult = Deleted | DeleteNotFound | DeleteFailed

  /** A stored InferenceService with its status subresource. */
  datatype StoredService = StoredService(svc: InferenceService, status: ServiceStatus)

  datatype ServiceResult = ServiceFound(value: StoredService) | ServiceNotFound | ServiceFailed

  /** What a get of k sees. */
  function Peek(store: Store, statuses: map<Key, LwsStatus>, k: Key): GetResult {
    if k in store then Found(store[k], if k in statuses then statuses[k] else ZERO_STATUS) else NotFound
  }

  class ApiServer {
    var store: Store
    /** Written by another controller between passes; an object without an entry has zero status. */
    var lwsStatus: map<Key, LwsStatus>
    var services: map<(string, string), StoredService>
    /** The fate of the n-th call, for any n. */
    const faults: nat -> Fault
    var calls: nat
    /** The calls on owned objects since the log was last cleared. */
    ghost var log: seq<Entry>

    constructor (faults: nat -> Fault)
      ensures this.faults == faults && store == map[] && services == map[] && calls == 0 && log == []
    {
      this.faults := faults;
      store, lwsStatus, services, calls, log := map[], map[], map[], 0, [];
    }

    method Get(k: Key) returns (r: GetResult)
      modifies this`calls, this`log
      ensures calls == old(calls) + 1
      ensures r == if faults(old(calls)).NoFault? then Peek(store, lwsStatus, k) else GetFailed
      ensures log == old(log) + [Entry(false, !r.GetFailed?, store)]
    {
      var fault := faults(calls);
      calls := calls + 1;
      r := if fault.NoFault? then Peek(store, lwsStatus, k) else GetFailed;
      log := log + [Entry(false, !r.GetFailed?, store)];
    }

    method Create(k: Key, o: Obj) returns (err: Option<string>)
      modifies this`store, this`lwsStatus, this`calls, this`log
      ensures calls == old(calls) + 1
      ensures store == if k !in old(store) && !faults(old(calls)).FailBefore? then old(store)[k := o] else old(store)
      ensures err.None? <==> k !in old(store) && faults(old(calls)).NoFault?
      ensures log == old(log) + [Entry(true, err.None?, store)]
    {
      var fault := faults(calls);
      calls := calls + 1;
      if k in store {
        err := Some("already exists");
      } else {
        err := if fault.NoFault? then None else Some(API_ERROR);
        if !fault.FailBefore? {
          store, lwsStatus := store[k := o], lwsStatus[k := ZERO_STATUS];
        }
      }
      log := log + [Entry(true, err.None?, store)];
    }

    method Update(k: Key, o: Obj) returns (err: Option<string>)
      modifies this`store, this`calls, this`log
      ensures calls == old(calls) + 1
      ensures store == if k in old(store) && !faults(old(calls)).FailBefore? then old(store)[k := o] else old(store)
      ensures err.None? <==> k in old(store) && faults(old(calls)).NoFault?
      ensures log == old(log) + [Entry(true, err.None?, store)]
    {
      var fault := faults(calls);
      calls := calls + 1;
      if k !in store {
        err := Some("not found");
      } else {
        err := if fault.NoFault? then None else Some(API_ERROR);
        if !fault.FailBefore? {
          store := store[k := o];
        }
      }
      log := log + [Entry(true, err.None?, store)];
    }

    method Delete(k: Key) returns (r: DeleteResult)
      modifies this`store, this`lwsStatus, this`calls, this`log
      ensures calls == old(calls) + 1
      ensures store == if !faults(old(calls)).FailBefore? then old(store) - {k} else old(store)
      ensures r == if !faults(old(calls)).NoFault? then DeleteFailed else if k in old(store) then Deleted else DeleteNotFound
      ensures log == old(log) + [Entry(true, r.Deleted?, store)]
    {
      var fault := faults(calls);
      calls := calls + 1;
      r := if !fault.NoFault? then DeleteFailed else if k in store then Deleted else DeleteNotFound;
      if !fault.FailBefore? {
        store, lwsStatus := store - {k}, lwsStatus - {k};
      }
      log := log + [Entry(true, r.Deleted?, store)];
    }

    /** All LeaderWorkerSets with the given labels, each once, in any order. */
    method ListLws(ns: string, service: string, roleName: string) returns (r: ListResult)
      modifies this`calls, this`log
      ensures calls == old(calls) + 1
      ensures r.ListFailed? <==> !faults(old(calls)).NoFault?
      ensures r.Listed? ==> (forall k :: k in r.keys <==> MatchesLabels(store, k, ns, service, roleName))
      ensures r.Listed? ==> forall i, j | 0 <= i < j < |r.keys| :: r.keys[i] != r.keys[j]
      ensures log == old(log) + [Entry(false, r.Listed?, store)]
    {
      var fault := faults(calls);
      calls := calls + 1;
      if fault.NoFault? {
        var keys: seq<Key> := [];
        var todo := set k | k in store && MatchesLabels(store, k, ns, service, roleName);
        while todo != {}
          invariant forall k :: k in keys || k in todo <==> MatchesLabels(store, k, ns, service, roleName)
          invariant forall k | k in keys :: k !in todo
          invariant forall i, j | 0 <= i < j < |keys| :: keys[i] != keys[j]
          decreases todo
        {
          var k :| k in todo;
          todo, keys := todo - {k}, keys + [k];
        }
        r := Listed(keys);
      } else {
        r := ListFailed;
      }
      log := log + [Entry(false, r.Listed?, store)];
    }

    method GetService(ns: string, name: string) returns (r: ServiceResult)
      modifies this`calls
      ensures calls == old(calls) + 1
      ensures r == if !faults(old(calls)).NoFault? then ServiceFailed
                   else if (ns, name) in services then ServiceFound(services[(ns, name)]) else ServiceNotFound
    {
      var fault := faults(calls);
      calls := calls + 1;
      r := if !fault.NoFault? then ServiceFailed
           else if (ns, name) in services then ServiceFound(services[(ns, name)]) else ServiceNotFound;
    }

    method UpdateServiceStatus(ns: string, name: string, status: ServiceStatus) returns (err: Option<string>)
      modifies this`services, this`calls
      ensures calls == old(calls) + 1
      ensures services == if (ns, name) in old(services) && !faults(old(calls)).FailBefore?
                          then old(services)[(ns, name) := old(services)[(ns, name)].(status := status)] else old(services)
      ensures err.None? <==> (ns, name) in old(services) && faults(old(calls)).NoFault?
    {
      var fault := faults(calls);
      calls := calls + 1;
      if (ns, name) !in services {
        err := Some("not found");
      } else {
        err := if fault.NoFault? then None else Some(API_ERROR);
        if !fault.FailBefore? {
          services := services[(ns, name) := services[(ns, name)].(status := status)];
        }
      }
    }
  }
}
