/**
 * A native run from end to end (Run of wrapper/wrapper.go): what callbacks queue and the
 * runtime streams reaches the translator through TypedQueue, and the translator runs the
 * closures of TurnEvents on it.
 */
module NativeRun {
  import opened Lists
  import opened Options
  import E = TurnEvents
  import Q = TypedQueue

  /** What the queued functions emit, and what the stream events are. */
  datatype Script = Script(emits: nat -> Emit, streams: nat -> FromStream)

  datatype Emit = Typed(ev: E.ProviderEvent) | AskPermission

  datatype FromStream = UsageEvent(report: Option<E.Report>) | Translatable(ev: E.StreamEvent, finding: bool)

  /** What the translator does with one thing it takes up. */
  function InputOf(script: Script, act: Q.Act): E.Input {
    match act
    case RanEmit(e) => (match script.emits(e)
                        case Typed(ev) => E.Provider(ev)
                        case AskPermission => E.Permission)
    case Translated(ev) => (match script.streams(ev)
                            case UsageEvent(report) => E.Usage(report)
                            case Translatable(event, finding) => E.Stream(event, finding))
  }

  function Inputs(script: Script, acts: seq<Q.Act>): seq<E.Input> {
    if acts == [] then [] else Inputs(script, Front(acts)) + [InputOf(script, Last(acts))]
  }

  /** A step of the translator only adds to what was emitted. */
  lemma StepAppends(s: E.State, i: E.Input)
    ensures s.events <= E.Step(s, i).events
  {
  }

  lemma {:induction false} RunGrows(script: Script, acts: seq<Q.Act>, produced: seq<Q.Act>)
    requires acts <= produced
    ensures E.Run(Inputs(script, acts)).events <= E.Run(Inputs(script, produced)).events
    decreases |produced|
  {
    if acts != produced {
      RunGrows(script, acts, Front(produced));
      var inputs := Inputs(script, produced);
      assert Front(inputs) == Inputs(script, Front(produced));
      StepAppends(E.Run(Front(inputs)), Last(inputs));
    }
  }

  /** However callbacks, the runtime and the closer interleave: when the translator is done,
      every accepted callback's event was emitted, in the order accepted, and what the run
      emitted is whole turns, all closed before process.exited. */
  lemma EveryRunIsWholeTurns(run: seq<Q.System>, i: nat, script: Script) returns (pieces: seq<E.Piece>)
    requires Q.Run(run) && i < |run| && run[i].translator.Over?
    ensures var inputs := Inputs(script, run[i].acts);
      && E.WholeRun(inputs) == E.Flat(pieces) + [E.Plain(E.ProcessExited, None)]
      && E.WholeTurns(pieces, E.Run(inputs).minted)
      && Q.Emitted(run[i].acts) == run[i].accepted
  {
    Q.NothingLeft(run, i);
    pieces := E.RunsAreWholeTurns(Inputs(script, run[i].acts));
  }

  /** With one producer it is what was produced that makes the turns: at any time the events
      emitted are the first of those that what was produced so far will give, and in the end
      they are all of them, as whole turns, with every usage report that was not dropped on
      the way in one terminal event or left to the flush. */
  lemma ProducedRunsAreWholeTurns(run: seq<Q.System>, i: nat, script: Script) returns (pieces: seq<E.Piece>)
    requires Q.SoloRun(run) && i < |run|
    ensures var (done, all) := (Inputs(script, run[i].acts), Inputs(script, run[i].produced));
      && E.Run(done).events <= E.Run(all).events
      && (run[i].translator.Over? ==>
            && E.WholeRun(done) == E.WholeRun(all) == E.Flat(pieces) + [E.Plain(E.ProcessExited, None)]
            && E.WholeTurns(pieces, E.Run(all).minted)
            && E.Plus(E.Sum(E.Riding(E.WholeRun(done))), E.Sum(E.Dropped(E.Run(all).open.Some?, E.Since(all)))) == E.Sum(E.Reports(all)))
  {
    Q.ProductionOrder(run, i);
    RunGrows(script, run[i].acts, run[i].produced);
    var all := Inputs(script, run[i].produced);
    pieces := E.RunsAreWholeTurns(all);
    E.UsageIsConserved(all);
  }
}
