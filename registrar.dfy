/**
 * `bitronix.tm.resource.ResourceRegistrar`: the table of initialized resource
 * producers, keyed by unique name, that every resource must be registered in
 * before the transaction manager can use it. The Java class keeps the table in
 * a static `HashMap` guarded by a read/write lock; here it is one service
 * object whose operations run one at a time.
 */
module Registrar {
  import opened Wrappers
  import opened RegistrarSpec

  class ResourceRegistrar {
    /** The `resources` map, from unique name to producer. */
    var resources: Table
    /**
     * Every incremental recovery run, oldest first: the producer it was run on
     * and the table as it stood while recovery ran.
     */
    ghost var recovered: seq<(Producer, Table)>

    /** Producers are stored under their own unique names. */
    ghost predicate Valid()
      reads this
    {
      Keyed(resources)
    }

    constructor ()
      ensures Valid() && resources == map[] && recovered == []
    {
      resources := map[];
      recovered := [];
    }

    /** `get`: the producer registered under `uniqueName`, or `None`. */
    method Get(uniqueName: Option<Name>) returns (producer: Option<Producer>)
      requires Valid()
      ensures producer.Some? <==> uniqueName.Some? && uniqueName.value in resources
      ensures producer.Some? ==> producer.value == resources[uniqueName.value]
      ensures producer.Some? ==> producer.value.uniqueName == uniqueName
    {
      producer := Lookup(resources, uniqueName);
    }

    /**
     * `getResourcesUniqueNames`: a copy of the registered names. The set is a
     * value, so later calls that change the table leave it as it was.
     */
    method GetResourcesUniqueNames() returns (names: set<Name>)
      ensures forall n :: n in names <==> n in resources
    {
      names := Names(resources);
    }

    /**
     * `register`. `running` is whether the transaction manager has started;
     * `recovery` is what incremental recovery of `producer` reports if run.
     */
    method Register(producer: Producer, running: bool, recovery: RecoveryOutcome)
      returns (outcome: Outcome<RegistrarError>)
      requires Valid()
      modifies this
      ensures Valid()
      ensures outcome == RegistrarSpec.Register(old(resources), producer, running, recovery).outcome
      ensures resources == RegistrarSpec.Register(old(resources), producer, running, recovery).table
      ensures recovered == old(recovered) +
                (if RegistrarSpec.Register(old(resources), producer, running, recovery).recoveryRun
                 then [(producer, old(resources))] else [])
      // recovery runs before the put: the table it sees does not hold the producer's name
      ensures |recovered| > |old(recovered)| ==>
                producer.uniqueName.Some? && producer.uniqueName.value !in recovered[|recovered| - 1].1
    {
      if producer.uniqueName.None? {
        return Fail(NullUniqueName);
      }
      var uniqueName := producer.uniqueName.value;
      if uniqueName in resources {
        return Fail(AlreadyRegistered(uniqueName));
      }
      if running {
        recovered := recovered + [(producer, resources)];
        if recovery.RecoveryError? {
          return Fail(RecoveryFailed(uniqueName));
        }
      }
      resources := resources[uniqueName := producer];
      outcome := Pass;
    }

    /** `unregister`: removes whatever is registered under the producer's name. */
    method Unregister(producer: Producer) returns (outcome: Outcome<RegistrarError>)
      requires Valid()
      modifies this
      ensures Valid() && recovered == old(recovered)
      ensures outcome == RegistrarSpec.Unregister(old(resources), producer).outcome
      ensures resources == RegistrarSpec.Unregister(old(resources), producer).table
    {
      if producer.uniqueName.None? {
        return Fail(NullUniqueName);
      }
      var uniqueName := producer.uniqueName.value;
      if uniqueName !in resources {
        return Pass;
      }
      resources := resources - {uniqueName};
      outcome := Pass;
    }

    /**
     * `findXAResourceHolder`: asks each registered producer, through
     * `ownerOf`, whether the live resource `xaResource` is one of its own, and
     * returns the first answer that is not null. The map's iteration order is
     * unspecified, so which answering producer comes first is left open.
     */
    method FindXAResourceHolder<R, H>(xaResource: R, ownerOf: (Producer, R) -> Option<H>)
      returns (holder: Option<H>)
      ensures holder.Some? <==> Claimed(resources, xaResource, ownerOf)
      ensures holder.Some? ==> AnswerOf(resources, xaResource, ownerOf, holder.value)
    {
      var unvisited := resources.Keys;
      while unvisited != {}
        invariant unvisited <= resources.Keys
        invariant forall n :: n in resources && n !in unvisited ==> ownerOf(resources[n], xaResource).None?
        decreases unvisited
      {
        var n :| n in unvisited;
        var answer := ownerOf(resources[n], xaResource);
        if answer.Some? {
          return answer;
        }
        unvisited := unvisited - {n};
      }
      holder := None;
    }

    /** `clear`: forgets every registered producer. */
    method Clear()
      modifies this
      ensures Valid() && resources == map[] && recovered == old(recovered)
    {
      resources := map[];
    }
  }

  /**
   * A client of the contracts: a name set obtained before `register`,
   * `unregister` and `clear` still holds the names of that moment. This
   * follows from `GetResourcesUniqueNames` alone, because a Dafny `set` is a
   * value; it illustrates one call sequence and adds nothing about the copy
   * the Java code makes beyond what the type already gives.
   */
  method SnapshotOutlivesChanges(registrar: ResourceRegistrar, producer: Producer, running: bool)
    returns (snapshot: set<Name>)
    requires registrar.Valid()
    modifies registrar
    ensures snapshot == old(registrar.resources.Keys)
    ensures registrar.resources == map[]
  {
    snapshot := registrar.GetResourcesUniqueNames();
    var _ := registrar.Register(producer, running, Recovered);
    var _ := registrar.Unregister(producer);
    registrar.Clear();
  }

  /**
   * Once cleared, the registrar knows no producer and can place no live
   * resource with any of them.
   */
  method ClearedRegistrarIsEmpty<R, H>(registrar: ResourceRegistrar, name: Name, xaResource: R,
                                       ownerOf: (Producer, R) -> Option<H>)
    returns (producer: Option<Producer>, holder: Option<H>)
    requires registrar.Valid()
    modifies registrar
    ensures producer == None && holder == None
  {
    registrar.Clear();
    producer := registrar.Get(Some(name));
    holder := registrar.FindXAResourceHolder(xaResource, ownerOf);
  }
}
