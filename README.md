# Resource registrar of the Bitronix Transaction Manager

This project models `bitronix.tm.resource.ResourceRegistrar`, the process-wide
table in which every initialized `XAResourceProducer` must be registered under
its unique name before the transaction manager can use it. The registrar looks
producers up by name, hands out a snapshot of the registered names, registers
a producer (running incremental recovery on it first when the transaction
manager is already running), unregisters one, finds which producer a live
`XAResource` belongs to, and can be cleared.

Files:

- `wrappers.dfy` — `Option` (a possibly-null reference) and `Outcome` (a
  `void` method that returns or throws).
- `registrar_spec.dfy` — module `RegistrarSpec`: the table as a
  `map<Name, Producer>` value, the effect of `register` and `unregister` on
  it as functions with their contracts, the round trips between the two, and
  lemmas over arbitrary histories of calls (`Run`).
- `registrar.dfy` — module `Registrar`: class `ResourceRegistrar`, whose
  `resources` field is reassigned by `Register`, `Unregister` and `Clear`
  (the first two proved against the functions of `RegistrarSpec`, `Clear`
  stated against the empty map); read-only `Get`,
  `GetResourcesUniqueNames` and `FindXAResourceHolder` (a loop over the
  registered names with an early return); two client methods stating
  snapshot and clear behaviour from the contracts alone.

The Java class keeps its table in a static field; here it is an ordinary
object, so a program holds one registrar and passes it around. The
transaction manager's "running" flag and the outcome incremental recovery
would report are parameters of `Register`; a ghost field `recovered` records
each incremental recovery run together with the table as it stood when
recovery ran. That is how the model states that recovery is never run when
the manager is not running, that it runs before the producer enters the
table (the table it saw lacks the producer's name), and that a failed
recovery leaves the producer out of the table. A producer's own
`findXAResourceHolder` is the function parameter `ownerOf`.

## Model

| member | source | states |
|---|---|---|
| `RegistrarSpec.Lookup` | btm/src/main/java/bitronix/tm/resource/ResourceRegistrar.java:62-69 | finds a producer exactly when the name is non-null and registered, and then the one stored under it; in a keyed table that producer's own name is the one looked up |
| `RegistrarSpec.Names` | btm/src/main/java/bitronix/tm/resource/ResourceRegistrar.java:75-82 | a name is in the snapshot exactly when looking it up finds a producer |
| `RegistrarSpec.Register` | btm/src/main/java/bitronix/tm/resource/ResourceRegistrar.java:90-108 | a null name fails with `NullUniqueName`, a taken name with `AlreadyRegistered` and keeps the stored producer; recovery runs exactly when the name is fresh and the manager is running; a failed recovery fails with `RecoveryFailed`; every failure leaves the table unchanged; success holds exactly when the name is fresh and recovery (if run) succeeded, adds exactly that one key bound to the producer and changes no other lookup; producers stay stored under their own names |
| `RegistrarSpec.Unregister` | btm/src/main/java/bitronix/tm/resource/ResourceRegistrar.java:114-129 | fails with `NullUniqueName` exactly for a null name and then changes nothing; otherwise removes that name (a no-op when it is absent) whatever producer is stored under it; surviving entries keep their producers; never runs recovery |
| `RegistrarSpec.RegisterThenUnregister` | btm/src/main/java/bitronix/tm/resource/ResourceRegistrar.java:90-129 | unregistering a just-registered producer restores the previous table |
| `RegistrarSpec.UnregisterThenRegister` | btm/src/main/java/bitronix/tm/resource/ResourceRegistrar.java:90-129 | unregistering a registered producer and registering it again (recovery succeeding or not run) restores the table |
| `RegistrarSpec.ClearEmpties` | btm/src/main/java/bitronix/tm/resource/ResourceRegistrar.java:155-162 | `clear` at the end of a history leaves the table empty and every lookup finding nothing, whatever came before |
| `RegistrarSpec.RunKeepsKeyed` | btm/src/main/java/bitronix/tm/resource/ResourceRegistrar.java:91-104 | over any history of calls, every producer stays stored under its own unique name |
| `RegistrarSpec.FirstRegistrationWins` | btm/src/main/java/bitronix/tm/resource/ResourceRegistrar.java:97-98 | until a name is unregistered or the table cleared, no later `register` replaces the producer stored under it |
| `RegistrarSpec.OnlyRegisterAddsNames` | btm/src/main/java/bitronix/tm/resource/ResourceRegistrar.java:104 | every name in the table after a history was there at the start or was the name of a producer passed to `register` in that history |
| `Registrar.ResourceRegistrar.constructor` | btm/src/main/java/bitronix/tm/resource/ResourceRegistrar.java:55 | a new registrar has an empty table and has run no recovery |
| `Registrar.ResourceRegistrar.Get` | btm/src/main/java/bitronix/tm/resource/ResourceRegistrar.java:62-69 | returns a producer exactly when the name is non-null and registered, and then the one stored under it, whose own name is that name |
| `Registrar.ResourceRegistrar.GetResourcesUniqueNames` | btm/src/main/java/bitronix/tm/resource/ResourceRegistrar.java:75-82 | returns exactly the registered names, as a set value of its own |
| `Registrar.ResourceRegistrar.Register` | btm/src/main/java/bitronix/tm/resource/ResourceRegistrar.java:90-108 | outcome and new table are those of `RegistrarSpec.Register`; the producer and the table before the put are appended to the recovery log exactly when recovery was run, and that logged table lacks the producer's name (recovery precedes insertion); the table invariant is kept |
| `Registrar.ResourceRegistrar.Unregister` | btm/src/main/java/bitronix/tm/resource/ResourceRegistrar.java:114-129 | outcome and new table are those of `RegistrarSpec.Unregister`; no recovery runs; the table invariant is kept |
| `Registrar.ResourceRegistrar.FindXAResourceHolder` | btm/src/main/java/bitronix/tm/resource/ResourceRegistrar.java:136-153 | returns a holder exactly when some registered producer claims the resource, and the holder returned is one such producer's answer |
| `Registrar.ResourceRegistrar.Clear` | btm/src/main/java/bitronix/tm/resource/ResourceRegistrar.java:155-162 | empties the table and changes nothing else |
| `Registrar.SnapshotOutlivesChanges` | btm/src/main/java/bitronix/tm/resource/ResourceRegistrar.java:75-82 | for one call sequence, a name set taken before `register`, `unregister` and `clear` still holds the names of that moment (a consequence of sets being values) |
| `Registrar.ClearedRegistrarIsEmpty` | btm/src/main/java/bitronix/tm/resource/ResourceRegistrar.java:155-162 | after `clear`, `get` returns nothing for every name and `findXAResourceHolder` finds no holder |

## Left out

- The read/write lock (ResourceRegistrar.java:52-54 and the lock/unlock pairs): it only makes the operations safe to call from several threads; the model runs them one at a time.
- Debug logging: it has no effect on the table or on results.
- `IncrementalRecoverer.recover`: its source is not part of this model; it is the success or failure passed as `recovery`, and the ghost log `recovered` records when it is invoked.
- `TransactionManagerServices.isTransactionManagerRunning`: not part of this model; it is the `running` parameter.
- `XAResourceProducer.findXAResourceHolder`: not part of this model; it is the uninterpreted function parameter `ownerOf`.
- `Registrar.ResourceRegistrar.FindXAResourceHolder`: does not say which claiming producer answers when several do, because it depends on `HashMap` iteration order, which Java leaves unspecified.
- A null `producer` argument (a `NullPointerException` in Java) is not modelled: a `Producer` is always a value.
- A producer's unique name is read once per call and never changes afterwards; the Java producer is a mutable bean whose name could change after registration, which would break the "stored under its own name" invariant.
