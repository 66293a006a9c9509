/** haltDatabase: eight kinds of objects are deleted by label, kind after kind, services one by
    one; claims and secrets are never touched, and an error leaves a prefix done. */
module Halt {
  datatype Kind =
    | AppBinding | PodDisruptionBudget | StatefulSet | Deployment
    | RoleBinding | Role | ServiceAccount | Service
    | PersistentVolumeClaim | Secret | Other

  /** An object of the namespace; `offshoot` says whether it carries the database's labels. */
  datatype Object = Object(kind: Kind, name: string, offshoot: bool)

  /** The order in which a halt goes through the kinds. */
  function Order(kind: Kind): nat {
    match kind
    case AppBinding => 0
    case PodDisruptionBudget => 1
    case StatefulSet => 2
    case Deployment => 3
    case RoleBinding => 4
    case Role => 5
    case ServiceAccount => 6
    case Service => 7
    case _ => 8
  }

  predicate Doomed(o: Object) {
    o.offshoot && Order(o.kind) < 8
  }

  /** Which deletions fail: whole collections, the listing of the services, single services. */
  datatype Faults = Faults(kinds: set<Kind>, services: set<string>)

  class Namespace {
    var objects: set<Object>

    constructor (objects: set<Object>)
      ensures this.objects == objects
    {
      this.objects := objects;
    }

    method DeleteCollection(kind: Kind, f: Faults) returns (ok: bool)
      modifies this
      ensures ok <==> kind !in f.kinds
      ensures objects == if ok then set o | o in old(objects) && !(o.kind == kind && o.offshoot) else old(objects)
    {
      ok := kind !in f.kinds;
      if ok {
        objects := set o | o in objects && !(o.kind == kind && o.offshoot);
      }
    }

    /** Everything before the services. */
    method DeleteCollections(f: Faults) returns (ok: bool, ghost next: nat)
      modifies this
      ensures next <= 7 && (ok <==> next == 7)
      ensures objects == set o | o in old(objects) && !(o.offshoot && Order(o.kind) < next)
      ensures forall k | Order(k) < next :: k !in f.kinds
      ensures next == 0 ==> AppBinding in f.kinds
      ensures next == 1 ==> PodDisruptionBudget in f.kinds
      ensures next == 2 ==> StatefulSet in f.kinds
      ensures next == 3 ==> Deployment in f.kinds
      ensures next == 4 ==> RoleBinding in f.kinds
      ensures next == 5 ==> Role in f.kinds
      ensures next == 6 ==> ServiceAccount in f.kinds
    {
      next := 0;
      ok := DeleteCollection(AppBinding, f);
      if !ok {
        return;
      }
      next := 1;
      ok := DeleteCollection(PodDisruptionBudget, f);
      if !ok {
        return;
      }
      next := 2;
      ok := DeleteCollection(StatefulSet, f);
      if !ok {
        return;
      }
      next := 3;
      ok := DeleteCollection(Deployment, f);
      if !ok {
        return;
      }
      next := 4;
      ok := DeleteCollection(RoleBinding, f);
      if !ok {
        return;
      }
      next := 5;
      ok := DeleteCollection(Role, f);
      if !ok {
        return;
      }
      next := 6;
      ok := DeleteCollection(ServiceAccount, f);
      if !ok {
        return;
      }
      next := 7;
    }

    /** List the services by label, delete them one by one; the first error ends it. */
    method DeleteServices(f: Faults) returns (ok: bool)
      modifies this
      ensures objects <= old(objects)
      ensures forall o <- old(objects) | !(o.kind == Service && o.offshoot) :: o in objects
      ensures ok <==> Service !in f.kinds && forall o <- old(objects) | o.kind == Service && o.offshoot :: o.name !in f.services
      ensures ok ==> forall o <- objects :: !(o.kind == Service && o.offshoot)
    {
      if Service in f.kinds {
        return false;
      }
      var svcs := set o | o in objects && o.kind == Service && o.offshoot;
      ghost var all := svcs;
      while svcs != {}
        invariant svcs <= all && objects == old(objects) - (all - svcs)
        invariant forall o <- all - svcs :: o.name !in f.services
        decreases |svcs|
      {
        var svc :| svc in svcs;
        if svc.name in f.services {
          return false;
        }
        objects := objects - {svc};
        svcs := svcs - {svc};
      }
      ok := true;
    }

    /** A successful halt leaves exactly what is not doomed; a failed one has removed nothing that
        is not doomed either, so claims and secrets survive every attempt. */
    method HaltDatabase(f: Faults) returns (ok: bool)
      modifies this
      ensures ok ==> objects == set o | o in old(objects) && !Doomed(o)
      ensures ok ==> forall o <- objects | o.offshoot :: o.kind == PersistentVolumeClaim || o.kind == Secret || o.kind == Other
      ensures objects <= old(objects)
      ensures forall o <- old(objects) | !Doomed(o) :: o in objects
      ensures forall o <- old(objects) | o.kind == PersistentVolumeClaim || o.kind == Secret :: o in objects
      ensures ok <==> (forall k <- f.kinds :: k == PersistentVolumeClaim || k == Secret || k == Other) &&
                      (forall o <- old(objects) | o.kind == Service && o.offshoot :: o.name !in f.services)
    {
      ghost var next;
      ok, next := DeleteCollections(f);
      if !ok {
        return;
      }
      ghost var left := objects;
      ok := DeleteServices(f);
      assert forall k | Order(k) < 8 :: Order(k) < 7 || k == Service;
      assert Order(Service) == 7;
      if ok {
        assert objects == set o | o in old(objects) && !Doomed(o);
      }
    }
  }
}
