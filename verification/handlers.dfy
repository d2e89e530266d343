/**
 The watcher handlers of Program.cs (`OnChange`, `OnRename`, `OnError`) and
 the wiring that routes each notification kind to one of them. A handler is
 modelled by the ordered list of effects it has: counter updates, a write
 to the diagnostic channel, and the trace write. Which paths name existing
 directories and whether the diagnostic channel is enabled are inputs.
 */
module Handlers {

  import opened Notifications
  import opened Classifier
  import opened OperationCounters
  import Subscriber

  datatype Effect =
    | ActiveIncrement                                      // ActiveFolderOperationCounter.Increment()
    | TotalIncrement                                       // IncrementOperationsCount()
    | DiagnosticWrite(name: string, args: RawNotification)
    | TraceWrite(record: TraceRecord)
  {
    predicate IsCounterUpdate()
    {
      ActiveIncrement? || TotalIncrement?
    }
  }

  /** The state of the counters after the effects, in order. */
  function Apply(s: EventSource, effects: seq<Effect>): EventSource
    decreases |effects|
  {
    if |effects| == 0 then s
    else
      var s' := match effects[0]
        case ActiveIncrement => IncrementActive(s)
        case TotalIncrement => IncrementOperationsCount(s)
        case _ => s;
      Apply(s', effects[1..])
  }

  /** The records written to the trace channel, in order. */
  function Traces(effects: seq<Effect>): seq<TraceRecord>
    decreases |effects|
  {
    if |effects| == 0 then []
    else
      var head := if effects[0].TraceWrite? then [effects[0].record] else [];
      head + Traces(effects[1..])
  }

  /** The names and values written to the diagnostic channel, in order. */
  function Diagnostics(effects: seq<Effect>): seq<(string, RawNotification)>
    decreases |effects|
  {
    if |effects| == 0 then []
    else
      var head := if effects[0].DiagnosticWrite? then [(effects[0].name, effects[0].args)] else [];
      head + Diagnostics(effects[1..])
  }

  /** Every counter update comes before every write. */
  predicate CountersFirst(effects: seq<Effect>)
  {
    forall i, j :: 0 <= i < j < |effects| && effects[j].IsCounterUpdate() ==> effects[i].IsCounterUpdate()
  }

  /** Every diagnostic write is a value the console subscriber can print. */
  predicate DiagnosticsPrintable(effects: seq<Effect>)
  {
    forall i :: 0 <= i < |effects| && effects[i].DiagnosticWrite? ==>
      Subscriber.Printable(effects[i].name, effects[i].args)
  }

  lemma {:induction false} ApplyAppend(s: EventSource, a: seq<Effect>, b: seq<Effect>)
    ensures Apply(s, a + b) == Apply(Apply(s, a), b)
    decreases |a|
  {
    if |a| > 0 {
      assert (a + b)[1..] == a[1..] + b;
      var first := a[..1];
      assert first[1..] == [] && first[0] == a[0] && (a + b)[0] == a[0];
      assert Apply(s, a + b) == Apply(Apply(s, first), a[1..] + b);
      assert Apply(s, a) == Apply(Apply(s, first), a[1..]);
      ApplyAppend(Apply(s, first), a[1..], b);
    } else {
      assert a + b == b;
    }
  }

  lemma {:induction false} TracesAppend(a: seq<Effect>, b: seq<Effect>)
    ensures Traces(a + b) == Traces(a) + Traces(b)
    decreases |a|
  {
    if |a| > 0 {
      assert (a + b)[1..] == a[1..] + b;
      TracesAppend(a[1..], b);
    } else {
      assert a + b == b;
    }
  }

  lemma {:induction false} DiagnosticsAppend(a: seq<Effect>, b: seq<Effect>)
    ensures Diagnostics(a + b) == Diagnostics(a) + Diagnostics(b)
    decreases |a|
  {
    if |a| > 0 {
      assert (a + b)[1..] == a[1..] + b;
      DiagnosticsAppend(a[1..], b);
    } else {
      assert a + b == b;
    }
  }

  /** Both counters, raised before anything is written. */
  const CounterUpdates: seq<Effect> := [ActiveIncrement, TotalIncrement]

  /** The diagnostic write under the change-type name, made only when the channel is enabled. */
  function Diagnostic(raw: RawNotification, diagEnabled: bool): seq<Effect>
    requires !raw.Error?
  {
    if diagEnabled then [DiagnosticWrite(ChangeTypeName(raw), raw)] else []
  }

  /** The two counter updates raise each counter by one. */
  lemma ApplyCounterUpdates(s: EventSource)
    ensures Apply(s, CounterUpdates) == IncrementOperationsCount(IncrementActive(s))
  {
  }

  /** Writes leave the counters as they were. */
  lemma {:induction false} ApplyWritesOnly(s: EventSource, writes: seq<Effect>)
    requires forall i :: 0 <= i < |writes| ==> !writes[i].IsCounterUpdate()
    ensures Apply(s, writes) == s
    decreases |writes|
  {
    if |writes| > 0 {
      ApplyWritesOnly(s, writes[1..]);
    }
  }

  /** The effects of a counted handler: counters first, then the optional diagnostic write, then the trace write. */
  lemma {:induction false} CountedHandlerEffects(raw: RawNotification, diagEnabled: bool, record: TraceRecord)
    requires !raw.Error?
    ensures var effects := CounterUpdates + Diagnostic(raw, diagEnabled) + [TraceWrite(record)];
      && CountersFirst(effects)
      && (forall s :: Apply(s, effects).active == s.active + 1 && Apply(s, effects).total == Increment(s.total))
      && Diagnostics(effects) == (if diagEnabled then [(ChangeTypeName(raw), raw)] else [])
      && Traces(effects) == [record]
      && DiagnosticsPrintable(effects)
  {
    var diag := Diagnostic(raw, diagEnabled);
    var writes := diag + [TraceWrite(record)];
    var effects := CounterUpdates + diag + [TraceWrite(record)];
    assert effects == CounterUpdates + writes;
    assert forall i :: 0 <= i < |writes| ==> !writes[i].IsCounterUpdate();
    forall s ensures Apply(s, effects).active == s.active + 1 && Apply(s, effects).total == Increment(s.total) {
      ApplyAppend(s, CounterUpdates, writes);
      ApplyCounterUpdates(s);
      ApplyWritesOnly(Apply(s, CounterUpdates), writes);
    }
    TracesAppend(CounterUpdates, writes);
    TracesAppend(diag, [TraceWrite(record)]);
    DiagnosticsAppend(CounterUpdates, writes);
    DiagnosticsAppend(diag, [TraceWrite(record)]);
  }

  /**
   `OnChange`, for creations, changes and deletions: both counters are raised
   by one before anything is written, the diagnostic write under the
   change-type name happens exactly when the channel is enabled, and one
   trace record is written whatever the channel's state.
   */
  function OnChange(raw: RawNotification, directoryExists: string -> bool, diagEnabled: bool): (effects: seq<Effect>)
    requires raw.IsChange()
    ensures CountersFirst(effects)
    ensures forall s :: Apply(s, effects).active == s.active + 1 && Apply(s, effects).total == Increment(s.total)
    ensures Diagnostics(effects) == if diagEnabled then [(ChangeTypeName(raw), raw)] else []
    ensures Traces(effects) == [Classify(raw, directoryExists)]
    ensures DiagnosticsPrintable(effects)
  {
    CountedHandlerEffects(raw, diagEnabled, ClassifyChange(raw, directoryExists));
    CounterUpdates + Diagnostic(raw, diagEnabled) + [TraceWrite(ClassifyChange(raw, directoryExists))]
  }

  /** `OnRename`: the same order of effects as `OnChange`, with the rename record. */
  function OnRename(raw: RawNotification, directoryExists: string -> bool, diagEnabled: bool): (effects: seq<Effect>)
    requires raw.Renamed?
    ensures CountersFirst(effects)
    ensures forall s :: Apply(s, effects).active == s.active + 1 && Apply(s, effects).total == Increment(s.total)
    ensures Diagnostics(effects) == if diagEnabled then [("Renamed", raw)] else []
    ensures Traces(effects) == [Classify(raw, directoryExists)]
    ensures DiagnosticsPrintable(effects)
  {
    CountedHandlerEffects(raw, diagEnabled, ClassifyRename(raw, directoryExists));
    CounterUpdates + Diagnostic(raw, diagEnabled) + [TraceWrite(ClassifyRename(raw, directoryExists))]
  }

  /** `OnError`: one trace record and nothing else; neither counter moves and nothing goes to the diagnostic channel. */
  function OnError(raw: RawNotification): (effects: seq<Effect>)
    requires raw.Error?
    ensures forall s :: Apply(s, effects) == s
    ensures Diagnostics(effects) == []
    ensures forall directoryExists: string -> bool :: Traces(effects) == [Classify(raw, directoryExists)]
  {
    [TraceWrite(ClassifyError(raw))]
  }

  /** One notification together with what the environment answered while it was handled. */
  datatype Observation = Observation(raw: RawNotification, directoryExists: string -> bool, diagEnabled: bool)

  /** The diagnostic write a notification calls for: under its change-type name, only when the channel is enabled, never for an error. */
  function DiagnosticOf(o: Observation): seq<(string, RawNotification)>
  {
    if o.diagEnabled && !o.raw.Error? then [(ChangeTypeName(o.raw), o.raw)] else []
  }

  /** The handler each notification kind is wired to. */
  function Handle(o: Observation): (effects: seq<Effect>)
    ensures CountersFirst(effects)
    ensures Traces(effects) == [Classify(o.raw, o.directoryExists)]
    ensures DiagnosticsPrintable(effects)
    ensures o.raw.Error? ==> forall s :: Apply(s, effects) == s
    ensures !o.raw.Error? ==>
      forall s :: Apply(s, effects).active == s.active + 1 && Apply(s, effects).total == Increment(s.total)
    ensures Diagnostics(effects) == DiagnosticOf(o)
  {
    match o.raw
    case Created(_, _) => OnChange(o.raw, o.directoryExists, o.diagEnabled)
    case Changed(_, _) => OnChange(o.raw, o.directoryExists, o.diagEnabled)
    case Deleted(_, _) => OnChange(o.raw, o.directoryExists, o.diagEnabled)
    case Renamed(_, _, _, _) => OnRename(o.raw, o.directoryExists, o.diagEnabled)
    case Error(_, _) => OnError(o.raw)
  }

  /**
   Within one counted notification the writes keep the handlers' order: the
   two counter updates, then the diagnostic write when the channel is
   enabled, then the trace record, last.
   */
  lemma WritesInHandlerOrder(o: Observation)
    requires !o.raw.Error?
    ensures var effects := Handle(o);
      && |effects| >= 3
      && effects[|effects| - 1] == TraceWrite(Classify(o.raw, o.directoryExists))
      && (o.diagEnabled ==> effects[2] == DiagnosticWrite(ChangeTypeName(o.raw), o.raw))
  {
  }

  /** The effects of handling the notifications one after another, in arrival order. */
  function Run(obs: seq<Observation>): seq<Effect>
    decreases |obs|
  {
    if |obs| == 0 then [] else Handle(obs[0]) + Run(obs[1..])
  }

  /** The number of notifications that are operations (everything but errors). */
  function Operations(obs: seq<Observation>): nat
    decreases |obs|
  {
    if |obs| == 0 then 0 else (if obs[0].raw.Error? then 0 else 1) + Operations(obs[1..])
  }

  /**
   The trace channel sees the records in arrival order: it receives exactly
   one record per notification, the i-th being the classification of the
   i-th notification.
   */
  lemma {:induction false} RunPreservesOrder(obs: seq<Observation>)
    ensures |Traces(Run(obs))| == |obs|
    ensures forall i :: 0 <= i < |obs| ==> Traces(Run(obs))[i] == Classify(obs[i].raw, obs[i].directoryExists)
    decreases |obs|
  {
    if |obs| > 0 {
      TracesAppend(Handle(obs[0]), Run(obs[1..]));
      RunPreservesOrder(obs[1..]);
      forall i | 1 <= i < |obs|
        ensures Traces(Run(obs))[i] == Classify(obs[i].raw, obs[i].directoryExists)
      {
        assert obs[1..][i - 1] == obs[i];
      }
    }
  }

  /**
   Below the wrap-around bound, handling the notifications raises each
   counter by the number of operations among them; errors count for nothing.
   */
  lemma {:induction false} RunCounts(s: EventSource, obs: seq<Observation>)
    requires s.total as int + Operations(obs) <= MaxLong
    ensures Apply(s, Run(obs)).active == s.active + Operations(obs)
    ensures Apply(s, Run(obs)).total as int == s.total as int + Operations(obs)
    decreases |obs|
  {
    if |obs| > 0 {
      ApplyAppend(s, Handle(obs[0]), Run(obs[1..]));
      RunCounts(Apply(s, Handle(obs[0])), obs[1..]);
    }
  }

  /** From the start of the process, the total is the number of operations handled so far. */
  lemma RunFromStart(obs: seq<Observation>)
    requires Operations(obs) <= MaxLong
    ensures Apply(Fresh(), Run(obs)).total as int == Operations(obs)
    ensures Apply(Fresh(), Run(obs)).active == Operations(obs)
  {
    RunCounts(Fresh(), obs);
  }

  /** Handling more notifications never lowers the total, below the wrap-around bound. */
  lemma RunIsMonotone(s: EventSource, obs: seq<Observation>, k: nat)
    requires k <= |obs|
    requires s.total as int + Operations(obs) <= MaxLong
    ensures Apply(s, Run(obs[..k])).total <= Apply(s, Run(obs)).total
  {
    OperationsAppend(obs[..k], obs[k..]);
    assert obs[..k] + obs[k..] == obs;
    RunCounts(s, obs[..k]);
    RunCounts(s, obs);
  }

  lemma {:induction false} OperationsAppend(a: seq<Observation>, b: seq<Observation>)
    ensures Operations(a + b) == Operations(a) + Operations(b)
    decreases |a|
  {
    if |a| > 0 {
      assert (a + b)[1..] == a[1..] + b;
      OperationsAppend(a[1..], b);
    } else {
      assert a + b == b;
    }
  }

  /** The diagnostic writes called for by each notification, joined in arrival order. */
  function DiagnosticsOf(obs: seq<Observation>): seq<(string, RawNotification)>
    decreases |obs|
  {
    if |obs| == 0 then [] else DiagnosticOf(obs[0]) + DiagnosticsOf(obs[1..])
  }

  /**
   The diagnostic channel, and with it the console subscriber, also sees the
   notifications in arrival order: one write per enabled non-error
   notification, under its change-type name.
   */
  lemma {:induction false} RunDiagnosticsInOrder(obs: seq<Observation>)
    ensures Diagnostics(Run(obs)) == DiagnosticsOf(obs)
    decreases |obs|
  {
    if |obs| > 0 {
      DiagnosticsAppend(Handle(obs[0]), Run(obs[1..]));
      RunDiagnosticsInOrder(obs[1..]);
    }
  }
}
