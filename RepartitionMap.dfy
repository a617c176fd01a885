/**
 * The repartition-map operator of Kafka Streams' keyed KTable aggregations.
 *
 * For every table update (a key and a change holding the new value and,
 * optionally, the value it replaces) the operator applies the user's
 * key-value mapper to each side and forwards the results downstream: first
 * the mapped new value, then, if there was an old value, the mapped old value.
 * A value getter offers the same mapping over the parent table's current
 * contents.
 */
module RepartitionMap {
  import opened Wrappers

  /** A mapper result: a key and a value, each of which may be null. */
  datatype KeyValue<K, V> = KeyValue(key: Option<K>, value: Option<V>)

  /** A table update: the new value and the value it replaces; either may be null. */
  datatype Change<V> = Change(newValue: Option<V>, oldValue: Option<V>)

  /** One record forwarded downstream by `context().forward(key, change)`. */
  datatype Record<K, V> = Record(key: Option<K>, change: Change<V>)

  /** One application of the user's mapper, with the arguments it received. */
  datatype Application<K, V> = Application(key: Option<K>, value: Option<V>)

  /** Which null reference `process` dereferences when it fails: the change argument, the new pair or the old pair. */
  datatype NullSite = ChangeArg | NewPairKey | OldPairKey

  /** The exceptions the operator can raise. */
  datatype Exception =
    | NullPointerException(site: NullSite)
    | KafkaException(message: string)

  /** The message of the exception raised when sending old values is switched on. */
  const OldValuesMessage: string := "KTableRepartitionMap should always require sending old values."

  /** The user's mapper; a `None` result is a mapper that returned null. */
  type Mapper<!K1, !V1, K2, V2> = (Option<K1>, Option<V1>) -> Option<KeyValue<K2, V2>>

  /** One input to the processor: a key and the change to its value, which may itself be null. */
  datatype Input<K, V> = Input(key: Option<K>, change: Option<Change<V>>)

  /**
   * The observable effect of processing: the records forwarded, in order; the
   * mapper applications made, in order; and the exception that ended the
   * processing, if any.
   */
  datatype Effect<K1, V1, K2, V2> = Effect(
    records: seq<Record<K2, V2>>,
    applications: seq<Application<K1, V1>>,
    thrown: Option<Exception>)

  /**
   * computeValue: the mapper is consulted unless the key and the value are
   * both null, in which case the result is null.
   */
  function ComputeValue<K1, V1, K2, V2>(mapper: Mapper<K1, V1, K2, V2>, key: Option<K1>, value: Option<V1>)
    : (r: Option<KeyValue<K2, V2>>)
    ensures key.None? && value.None? ==> r.None?
    ensures key.Some? || value.Some? ==> r == mapper(key, value)
  {
    if key.Some? || value.Some? then mapper(key, value) else None
  }

  /** The mapper applications that one call of computeValue makes: none or one. */
  function Applications<K1, V1>(key: Option<K1>, value: Option<V1>): (a: seq<Application<K1, V1>>)
    ensures |a| <= 1
    ensures a == [] <==> key.None? && value.None?
    ensures forall i :: 0 <= i < |a| ==> a[i] == Application(key, value)
  {
    if key.Some? || value.Some? then [Application(key, value)] else []
  }

  /**
   * computeValue's result is determined by the applications it makes: null
   * when it makes none, otherwise the mapper's result for the one application.
   */
  lemma ComputeValueFollowsApplications<K1, V1, K2, V2>(mapper: Mapper<K1, V1, K2, V2>, key: Option<K1>, value: Option<V1>)
    ensures var a := Applications(key, value);
      ComputeValue(mapper, key, value) == if a == [] then None else mapper(a[0].key, a[0].value)
  {
  }

  /**
   * What one call of `process(key, change)` does with a non-null change: map
   * the new value and forward it with no old value; then, only if there is an
   * old value, map it and forward it with no new value. Dereferencing a null
   * mapped pair raises a NullPointerException, after whatever was already
   * forwarded.
   */
  function ProcessChange<K1, V1, K2, V2>(mapper: Mapper<K1, V1, K2, V2>, key: Option<K1>, change: Change<V1>)
    : (e: Effect<K1, V1, K2, V2>)
    // at most two records per input
    ensures |e.records| <= 2
    // every forwarded record comes from a mapper application
    ensures |e.records| <= |e.applications| <= 2
    // the new value is mapped first, and the mapper is skipped only when key and new value are null
    ensures e.applications == [] <==> key.None? && change.newValue.None?
    ensures e.applications != [] ==> e.applications[0] == Application(key, change.newValue)
    // the old value is mapped second, and only if it exists and the new pair was not null
    ensures |e.applications| == 2 <==>
      change.oldValue.Some? && (key.Some? || change.newValue.Some?) && mapper(key, change.newValue).Some?
    ensures |e.applications| == 2 ==> e.applications[1] == Application(key, change.oldValue)
    // the first record is the mapped new value, with no old value
    ensures e.records != [] <==> (key.Some? || change.newValue.Some?) && mapper(key, change.newValue).Some?
    ensures e.records != [] ==>
      var newPair := mapper(key, change.newValue).value;
      e.records[0] == Record(newPair.key, Change(newPair.value, None))
    // the second record is the mapped old value, with no new value, and exists only if there is an old value
    ensures |e.records| == 2 ==> change.oldValue.Some? && mapper(key, change.oldValue).Some?
    ensures |e.records| == 2 ==>
      mapper(key, change.oldValue).Some? &&
      var oldPair := mapper(key, change.oldValue).value;
      e.records[1] == Record(oldPair.key, Change(None, oldPair.value))
    // a run that raises nothing forwards one record, plus one if there is an old value
    ensures e.thrown.None? <==> |e.records| == (if change.oldValue.Some? then 2 else 1)
    // the failures: a null new pair before anything is forwarded, a null old pair after the first record
    ensures e.thrown == Some(NullPointerException(NewPairKey)) <==>
      (key.None? && change.newValue.None?) || mapper(key, change.newValue).None?
    ensures e.thrown == Some(NullPointerException(NewPairKey)) ==> e.records == []
    ensures e.thrown == Some(NullPointerException(OldPairKey)) <==>
      e.records != [] && change.oldValue.Some? && mapper(key, change.oldValue).None?
    ensures e.thrown.None? || e.thrown == Some(NullPointerException(NewPairKey)) ||
      e.thrown == Some(NullPointerException(OldPairKey))
  {
    var newPair := ComputeValue(mapper, key, change.newValue);
    var newApplications := Applications(key, change.newValue);
    if newPair.None? then
      Effect([], newApplications, Some(NullPointerException(NewPairKey)))
    else
      var first := Record(newPair.value.key, Change(newPair.value.value, None));
      if change.oldValue.None? then
        Effect([first], newApplications, None)
      else
        var oldPair := ComputeValue(mapper, key, change.oldValue);
        var applications := newApplications + Applications(key, change.oldValue);
        if oldPair.None? then
          Effect([first], applications, Some(NullPointerException(OldPairKey)))
        else
          var second := Record(oldPair.value.key, Change(None, oldPair.value.value));
          Effect([first, second], applications, None)
  }

  /**
   * What one call of `process(key, change)` does: a null change is
   * dereferenced (reading its new value) before the mapper runs and before
   * anything is forwarded; a non-null change is processed as `ProcessChange` says.
   */
  function ProcessEffect<K1, V1, K2, V2>(mapper: Mapper<K1, V1, K2, V2>, key: Option<K1>, change: Option<Change<V1>>)
    : (e: Effect<K1, V1, K2, V2>)
    ensures change.None? ==>
      e.records == [] && e.applications == [] && e.thrown == Some(NullPointerException(ChangeArg))
    ensures change.Some? ==> e == ProcessChange(mapper, key, change.value)
    ensures |e.records| <= 2
    ensures e.thrown == Some(NullPointerException(ChangeArg)) <==> change.None?
    ensures e.thrown.None? || e.thrown.value.NullPointerException?
  {
    if change.None? then Effect([], [], Some(NullPointerException(ChangeArg)))
    else ProcessChange(mapper, key, change.value)
  }

  /**
   * Successive `process` calls of one processor over a sequence of inputs;
   * an exception propagates out of the processor and ends the sequence.
   */
  function ProcessAll<K1, V1, K2, V2>(mapper: Mapper<K1, V1, K2, V2>, inputs: seq<Input<K1, V1>>)
    : Effect<K1, V1, K2, V2>
    decreases |inputs|
  {
    if inputs == [] then Effect([], [], None)
    else
      var first := ProcessEffect(mapper, inputs[0].key, inputs[0].change);
      if first.thrown.Some? then first
      else
        var rest := ProcessAll(mapper, inputs[1..]);
        Effect(first.records + rest.records, first.applications + rest.applications, rest.thrown)
  }

  /** The number of inputs that carry an old value. */
  function OldValueCount<K, V>(inputs: seq<Input<K, V>>): nat
    decreases |inputs|
  {
    if inputs == [] then 0
    else
      var oldCount := if inputs[0].change.Some? && inputs[0].change.value.oldValue.Some? then 1 else 0;
      oldCount + OldValueCount(inputs[1..])
  }

  /** Over any sequence of inputs, the processor forwards at most two records per input. */
  lemma {:induction false} ProcessAllAtMostTwoPerInput<K1, V1, K2, V2>(
    mapper: Mapper<K1, V1, K2, V2>, inputs: seq<Input<K1, V1>>)
    ensures |ProcessAll(mapper, inputs).records| <= 2 * |inputs|
    ensures |ProcessAll(mapper, inputs).records| <= |ProcessAll(mapper, inputs).applications|
    decreases |inputs|
  {
    if inputs != [] {
      ProcessAllAtMostTwoPerInput(mapper, inputs[1..]);
    }
  }

  /**
   * When no exception is raised, the processor forwards exactly one record per
   * input plus one per input that carries an old value.
   */
  lemma {:induction false} ProcessAllRecordCount<K1, V1, K2, V2>(
    mapper: Mapper<K1, V1, K2, V2>, inputs: seq<Input<K1, V1>>)
    ensures ProcessAll(mapper, inputs).thrown.None? ==>
      |ProcessAll(mapper, inputs).records| == |inputs| + OldValueCount(inputs)
    decreases |inputs|
  {
    if inputs != [] {
      ProcessAllRecordCount(mapper, inputs[1..]);
    }
  }

  /**
   * Feeding one more input to a processor that has not failed appends that
   * input's records and mapper applications after everything before it; a
   * processor that has failed is not fed again.
   */
  lemma {:induction false} ProcessAllAppend<K1, V1, K2, V2>(
    mapper: Mapper<K1, V1, K2, V2>, inputs: seq<Input<K1, V1>>, input: Input<K1, V1>)
    ensures var prior := ProcessAll(mapper, inputs);
      var next := ProcessEffect(mapper, input.key, input.change);
      ProcessAll(mapper, inputs + [input]) ==
        if prior.thrown.Some? then prior
        else Effect(prior.records + next.records, prior.applications + next.applications, next.thrown)
    decreases |inputs|
  {
    if inputs == [] {
      assert [input][1..] == [];
    } else {
      assert (inputs + [input])[0] == inputs[0];
      assert (inputs + [input])[1..] == inputs[1..] + [input];
      ProcessAllAppend(mapper, inputs[1..], input);
    }
  }

  /** The downstream side of `context().forward`: the records forwarded so far, in order. */
  class ProcessorContext<K, V> {
    var forwarded: seq<Record<K, V>>

    constructor ()
      ensures forwarded == []
    {
      forwarded := [];
    }

    method Forward(key: Option<K>, change: Change<V>)
      modifies this
      ensures forwarded == old(forwarded) + [Record(key, change)]
    {
      forwarded := forwarded + [Record(key, change)];
    }
  }

  /** The processor that KTableRepartitionMap supplies for its input table. */
  class MapProcessor<K1, V1, K2, V2> {
    const mapper: Mapper<K1, V1, K2, V2>
    const context: ProcessorContext<K2, V2>

    constructor (mapper: Mapper<K1, V1, K2, V2>, context: ProcessorContext<K2, V2>)
      ensures this.mapper == mapper && this.context == context
    {
      this.mapper := mapper;
      this.context := context;
    }

    /**
     * Forwards the mapped new value and then, if there is one, the mapped old
     * value; returns the exception the call raises, if any.
     */
    method Process(key: Option<K1>, change: Option<Change<V1>>) returns (thrown: Option<Exception>)
      modifies context
      ensures context.forwarded == old(context.forwarded) + ProcessEffect(mapper, key, change).records
      ensures thrown == ProcessEffect(mapper, key, change).thrown
    {
      if change.None? {
        return Some(NullPointerException(ChangeArg));
      }
      var newPair := ComputeValue(mapper, key, change.value.newValue);
      if newPair.None? {
        return Some(NullPointerException(NewPairKey));
      }
      context.Forward(newPair.value.key, Change(newPair.value.value, None));
      if change.value.oldValue.Some? {
        var oldPair := ComputeValue(mapper, key, change.value.oldValue);
        if oldPair.None? {
          return Some(NullPointerException(OldPairKey));
        }
        context.Forward(oldPair.value.key, Change(None, oldPair.value.value));
      }
      return None;
    }
  }

  /** The parent table's value getter: current values by key, and the contexts it was initialised with. */
  class ParentValueGetter<K, V> {
    const lookup: Option<K> -> Option<V>
    var initContexts: seq<object>

    constructor (lookup: Option<K> -> Option<V>)
      ensures this.lookup == lookup && initContexts == []
    {
      this.lookup := lookup;
      initContexts := [];
    }

    method Init(context: object)
      modifies this
      ensures initContexts == old(initContexts) + [context]
    {
      initContexts := initContexts + [context];
    }

    function Get(key: Option<K>): Option<V>
    {
      lookup(key)
    }
  }

  /** The value getter of the mapped view: the parent's current value, mapped as `process` maps it. */
  class MapValueGetter<K1, V1, K2, V2> {
    const mapper: Mapper<K1, V1, K2, V2>
    const parentGetter: ParentValueGetter<K1, V1>

    constructor (mapper: Mapper<K1, V1, K2, V2>, parentGetter: ParentValueGetter<K1, V1>)
      ensures this.mapper == mapper && this.parentGetter == parentGetter
    {
      this.mapper := mapper;
      this.parentGetter := parentGetter;
    }

    /** Initialising the view initialises the parent getter and does nothing else. */
    method Init(context: object)
      modifies parentGetter
      ensures parentGetter.initContexts == old(parentGetter.initContexts) + [context]
    {
      parentGetter.Init(context);
    }

    /** The parent's value for `key`, passed through computeValue. */
    function Get(key: Option<K1>): (r: Option<KeyValue<K2, V2>>)
      ensures key.None? && parentGetter.Get(key).None? ==> r.None?
      ensures key.Some? || parentGetter.Get(key).Some? ==> r == mapper(key, parentGetter.Get(key))
    {
      ComputeValue(mapper, key, parentGetter.Get(key))
    }
  }

  /**
   * The view agrees with the processor: when the parent currently holds the
   * new value of a change, the view's value for the key is null exactly when
   * `process` forwards nothing, and otherwise it is the first record `process`
   * forwards.
   */
  lemma ViewAgreesWithProcess<K1, V1, K2, V2>(getter: MapValueGetter<K1, V1, K2, V2>, key: Option<K1>, change: Change<V1>)
    requires getter.parentGetter.Get(key) == change.newValue
    ensures var e := ProcessEffect(getter.mapper, key, Some(change));
      (e.records == [] <==> getter.Get(key).None?) &&
      (e.records != [] ==>
        e.records[0] == Record(getter.Get(key).value.key, Change(getter.Get(key).value.value, None)))
  {
  }

  /** The operator as a whole: its mapper, and its refusal to send old values on request. */
  class KTableRepartitionMap<K1, V1, K2, V2> {
    const mapper: Mapper<K1, V1, K2, V2>

    constructor (mapper: Mapper<K1, V1, K2, V2>)
      ensures this.mapper == mapper
    {
      this.mapper := mapper;
    }

    /** Always raises a KafkaException and changes nothing: the operator always sends old values. */
    method EnableSendingOldValues() returns (thrown: Exception)
      ensures thrown.KafkaException? && thrown.message == OldValuesMessage
    {
      thrown := KafkaException(OldValuesMessage);
    }
  }
}
