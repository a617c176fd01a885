# KTableRepartitionMap in Dafny

This project models the repartition-map operator that Kafka Streams uses for
keyed KTable aggregations (`KTableRepartitionMap`). For each table update — a
key and a `Change` that holds the new value and, optionally, the old value it
replaces — the operator's processor maps both sides through the user's
`KeyValueMapper` and forwards the results downstream:

1. the mapped new value, as a change with no old value;
2. then, only when an old value exists, the mapped old value, as a change with
   no new value.

The mapping goes through `computeValue`. It returns null without calling the
mapper when the key and the value are both null. A null mapped pair makes
`process` fail with a `NullPointerException` when it reads the pair's key. The
operator's value getter applies the same `computeValue` to the parent table's
current value. Switching on "send old values" always raises a `KafkaException`,
because this operator always needs old values.

Files:

- `Wrappers.dfy` — `Option`, standing for Java's nullable references.
- `RepartitionMap.dfy` — the datatypes (`KeyValue`, `Change`, forwarded
  `Record`, mapper `Application`, `Exception`), the pure specification of one
  `process` call (`ProcessEffect`, and `ProcessChange` for a non-null change)
  and of a run of successive calls (`ProcessAll`), and the classes: `ProcessorContext` (the downstream that
  `forward` appends to), `MapProcessor`, `ParentValueGetter`, `MapValueGetter`
  and `KTableRepartitionMap`.

Modelling choices:

- Java `null` is `None`. The mapper is a total Dafny function. A `None` result
  means the mapper returned null.
- An exception is returned as a value (`Option<Exception>`). A
  `NullPointerException` records which null reference was dereferenced: the
  change argument (line 79), the new pair (line 81) or the old pair (line 85). Records forwarded before the exception
  stay forwarded. So when only the old pair is null, the first record has
  already gone downstream.
- `context().forward` appends one `Record` to `ProcessorContext.forwarded`.
- The parent getter is a fixed key-to-optional-value function. Its `init`
  records the context it was given.
- `ProcessAll` and its lemmas model the caller's side: the stream thread
  calling `process` once per input on the same processor. The source has no
  such loop. `ProcessAllAppend` together with the contract of
  `MapProcessor.Process` says that each further call appends exactly what
  `ProcessAll` appends.

## Model

| member | source | states |
|---|---|---|
| `RepartitionMap.ComputeValue` | streams/src/main/java/org/apache/kafka/streams/kstream/internals/KTableRepartitionMap.java:66-73 | null when key and value are both null; otherwise exactly what the mapper returns for that key and value |
| `RepartitionMap.Applications` | streams/src/main/java/org/apache/kafka/streams/kstream/internals/KTableRepartitionMap.java:69-70 | computeValue applies the mapper at most once, with its own arguments, and skips it exactly when key and value are both null |
| `RepartitionMap.ComputeValueFollowsApplications` | streams/src/main/java/org/apache/kafka/streams/kstream/internals/KTableRepartitionMap.java:66-73 | computeValue's result is determined by its applications: null when it makes none, otherwise the mapper's result for the arguments of its one application |
| `RepartitionMap.ProcessEffect` | streams/src/main/java/org/apache/kafka/streams/kstream/internals/KTableRepartitionMap.java:78-79 | a null change fails with a NullPointerException when its new value is read, before any mapper application and before anything is forwarded, and that failure happens only for a null change; a non-null change is processed as `ProcessChange` states; only NullPointerExceptions are raised |
| `RepartitionMap.ProcessChange` | streams/src/main/java/org/apache/kafka/streams/kstream/internals/KTableRepartitionMap.java:78-87 | for a non-null change, one process call forwards at most two records and never more than it makes mapper applications; the new value is mapped first and forwarded as `(newPair.key, Change(newPair.value, null))`; a second record `(oldPair.key, Change(null, oldPair.value))` follows only if an old value exists and the mapper was applied to it second; with no exception, exactly one record plus one per old value; a null new pair (key and new value null, or mapper returns null) fails before anything is forwarded; a null old pair fails after the first record; no other exception is raised |
| `RepartitionMap.MapProcessor.Process` | streams/src/main/java/org/apache/kafka/streams/kstream/internals/KTableRepartitionMap.java:78-87 | the context's forwarded records grow by exactly the records of `ProcessEffect`, in order, and the call raises exactly its exception |
| `RepartitionMap.ProcessAllAtMostTwoPerInput` | streams/src/main/java/org/apache/kafka/streams/kstream/internals/KTableRepartitionMap.java:30 | over any sequence of inputs, successive process calls forward at most two records per input, and no more records than mapper applications |
| `RepartitionMap.ProcessAllRecordCount` | streams/src/main/java/org/apache/kafka/streams/kstream/internals/KTableRepartitionMap.java:78-87 | a run that raises nothing forwards one record per input plus one per input that has an old value |
| `RepartitionMap.ProcessAllAppend` | streams/src/main/java/org/apache/kafka/streams/kstream/internals/KTableRepartitionMap.java:78-87 | feeding one more input appends that input's records and mapper applications after all earlier ones; a processor that has failed forwards nothing more |
| `RepartitionMap.MapValueGetter.Init` | streams/src/main/java/org/apache/kafka/streams/kstream/internals/KTableRepartitionMap.java:99-101 | initialising the view only initialises the parent getter with the same context |
| `RepartitionMap.MapValueGetter.Get` | streams/src/main/java/org/apache/kafka/streams/kstream/internals/KTableRepartitionMap.java:104-106 | null when the key and the parent's current value are both null; otherwise the mapper's result for the key and the parent's value |
| `RepartitionMap.ViewAgreesWithProcess` | streams/src/main/java/org/apache/kafka/streams/kstream/internals/KTableRepartitionMap.java:103-106 | when the parent holds a change's new value, the view's value is null exactly when process forwards nothing, and otherwise it is the first record process forwards |
| `RepartitionMap.KTableRepartitionMap.EnableSendingOldValues` | streams/src/main/java/org/apache/kafka/streams/kstream/internals/KTableRepartitionMap.java:61-64 | always raises a KafkaException with the source's message, and changes no state |

## Left out

- The supplier wiring of `get()` (lines 43-45) and `view()` (lines 48-58). These only construct a `MapProcessor` and a `MapValueGetter`; the model builds those with their constructors.
- `ProcessorContext`, `AbstractProcessor`, `KTableImpl`, `KTableValueGetter` and `KeyValueMapper`. Their sources are not part of this model. They appear only as a record sequence, a fixed lookup function with an init log, and a mapper function.
- MapProcessor.Process: the mapper applications are stated in the pure `ProcessEffect` (`applications`), and the method itself does not log them.
- `Effect` keeps the forwarded records and the mapper applications in two separate sequences. So the interleaving at lines 79-85 (map the new value, forward it, map the old value, forward it) is not recorded. With a pure mapper and a `forward` that cannot fail, this order cannot be observed.
- A mapper that throws, or whose result depends on anything but its arguments, is not modelled; the mapper is a total, pure function.
- The parent table's contents do not change while the model runs; updates to the parent's store are not modelled.
- `ProcessAll` ends a run at the first exception, because an exception propagates out of `process`; how the stream thread then recovers is not modelled.
- Java generics and type erasure: the type parameters are Dafny type parameters.
- The plugin class loader exercised by connect/runtime/src/test/java/org/apache/kafka/connect/runtime/isolation/DelegatingClassLoaderTest.java: its implementation is not part of this model.
