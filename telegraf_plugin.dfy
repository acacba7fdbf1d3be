/**
 * The Telegraf execd driver: each line on stdin pulls one item from the point
 * source and writes its points to stdout as lines, followed by a flush.
 */
module TelegrafPlugin {
  import opened Wrappers
  import opened Points
  import StdinLines

  /** What the point source yields: a single point or an iterable of points. */
  datatype Item = Single(point: Point) | Batch(points: seq<Point>)

  /** Whether the process still runs, or the exit status it ended with. */
  datatype Status = Running | Exited(code: int)

  const TtyNotice := "stderr is a tty, logging just a single query result:"
  const StoppedNotice := "The generator function stopped unexpectedly"

  /** A single point becomes a one-element batch; a batch is used unchanged. */
  function AsBatch(item: Item): seq<Point>
  {
    match item
    case Single(p) => [p]
    case Batch(ps) => ps
  }

  /** The lines `_emit_points` prints for a batch: one per point, in order. */
  function BatchLines(batch: seq<Point>): (lines: seq<string>)
    ensures |lines| == |batch|
    ensures forall k :: 0 <= k < |batch| ==> lines[k] == LineProtocol(batch[k])
  {
    if batch == [] then [] else [LineProtocol(batch[0])] + BatchLines(batch[1..])
  }

  lemma BatchLinesSnoc(batch: seq<Point>, i: nat)
    requires i < |batch|
    ensures BatchLines(batch[..i + 1]) == BatchLines(batch[..i]) + [LineProtocol(batch[i])]
  {
  }

  /** A yielded point writes exactly its own line; a yielded iterable writes one line per point. */
  lemma OneItemLines(item: Item)
    ensures item.Single? ==> Emitted([item]) == [LineProtocol(item.point)]
    ensures item.Batch? ==> Emitted([item]) == BatchLines(item.points)
  {
    assert [item][1..] == [];
    assert Emitted([item]) == BatchLines(AsBatch(item)) + [];
  }

  /** All lines written for a sequence of pulled items, batch after batch. */
  function Emitted(items: seq<Item>): seq<string>
  {
    if items == [] then [] else BatchLines(AsBatch(items[0])) + Emitted(items[1..])
  }

  /** The sum of the batch sizes. */
  function TotalSize(items: seq<Item>): nat
  {
    if items == [] then 0 else |AsBatch(items[0])| + TotalSize(items[1..])
  }

  /** The text printed to stderr for the sample: the point, or the batch's points. */
  function Describe(item: Item): string
  {
    match item
    case Single(p) => LineProtocol(p)
    case Batch(ps) => "[" + JoinComma(BatchLines(ps)) + "]"
  }

  /** The output is as many lines as the batches hold points in all. */
  lemma {:induction false} EmittedLength(items: seq<Item>)
    ensures |Emitted(items)| == TotalSize(items)
  {
    if items != [] {
      EmittedLength(items[1..]);
    }
  }

  /** Emitting two runs of items writes the first run's lines, then the second's. */
  lemma {:induction false} EmittedAppend(a: seq<Item>, b: seq<Item>)
    ensures Emitted(a + b) == Emitted(a) + Emitted(b)
  {
    if a == [] {
      assert a + b == b;
    } else {
      assert (a + b)[1..] == a[1..] + b;
      EmittedAppend(a[1..], b);
    }
  }

  lemma EmittedSnoc(items: seq<Item>, k: nat)
    requires k < |items|
    ensures Emitted(items[..k + 1]) == Emitted(items[..k]) + BatchLines(AsBatch(items[k]))
  {
    assert items[..k + 1] == items[..k] + [items[k]];
    EmittedAppend(items[..k], [items[k]]);
  }

  /** Lines written for earlier items stay as they are whatever comes later. */
  lemma EarlierBatchesKept(items: seq<Item>, k: nat)
    requires k <= |items|
    ensures Emitted(items[..k]) <= Emitted(items)
  {
    assert items == items[..k] + items[k..];
    EmittedAppend(items[..k], items[k..]);
  }

  /**
   * One run of the driver over a point source. `source` is everything the
   * source yields before it stops (a well-behaved source never stops, so it
   * is at least as long as the triggers it serves).
   */
  class Plugin {
    const source: seq<Item>
    var pulls: nat       // `__anext__` calls made on the source
    var triggers: nat    // trigger lines read from stdin
    var stdout: seq<string>
    var flushed: nat     // how much of stdout has been flushed
    var stderr: seq<string>
    var status: Status

    ghost predicate Initial()
      reads this
    {
      pulls == 0 && triggers == 0 && stdout == [] && flushed == 0 && stderr == [] && status == Running
    }

    constructor (source: seq<Item>)
      ensures this.source == source && Initial()
    {
      this.source := source;
      pulls, triggers := 0, 0;
      stdout, flushed, stderr := [], 0, [];
      status := Running;
    }

    /** `__anext__`: the next item, or None once the source has stopped. */
    method Pull() returns (item: Option<Item>)
      modifies this`pulls
      ensures pulls == old(pulls) + 1
      ensures item == if old(pulls) < |source| then Some(source[old(pulls)]) else None
    {
      item := if pulls < |source| then Some(source[pulls]) else None;
      pulls := pulls + 1;
    }

    /** `_emit_points`: one line per point in order, then a flush that adds no text. */
    method EmitPoints(batch: seq<Point>)
      modifies this`stdout, this`flushed
      ensures stdout == old(stdout) + BatchLines(batch)
      ensures flushed == |stdout|
    {
      ghost var before := stdout;
      for i := 0 to |batch|
        invariant stdout == before + BatchLines(batch[..i])
      {
        BatchLinesSnoc(batch, i);
        stdout := stdout + [LineProtocol(batch[i])];
      }
      assert batch[..|batch|] == batch;
      flushed := |stdout|;
    }

    /**
     * With a terminal on stderr: the sample loop's first pull. When the source
     * yields an item it is described on stderr and the run ends with 0; when
     * it yields nothing the loop body never runs, so nothing is written and
     * the run goes on to the trigger loop with the source already exhausted.
     */
    method LogSample()
      requires Initial()
      modifies this
      ensures pulls == 1 && triggers == 0 && stdout == [] && flushed == 0
      ensures |source| > 0 ==> status == Exited(0) && stderr == [TtyNotice, Describe(source[0])]
      ensures |source| == 0 ==> status == Running && stderr == []
    {
      var item := Pull();
      if item.Some? {
        stderr := stderr + [TtyNotice, Describe(item.value)];
        status := Exited(0);
      }
    }

    /**
     * Waiting for a trigger after serving `k` of them, everything so far
     * emitted and flushed. One pull per trigger, plus at most one pull of the
     * sample loop, which can only have happened when it found the source empty.
     */
    ghost predicate Waiting(k: nat)
      reads this
    {
      && triggers == k
      && k <= |source|
      && (pulls == k || (pulls == k + 1 && k == |source|))
      && stdout == Emitted(source[..k])
      && flushed == |stdout|
      && stderr == []
      && status == Running
    }

    /** Exited with 1 once the source stopped, after emitting everything it had yielded. */
    ghost predicate Stopped()
      reads this
    {
      && triggers == |source| + 1
      && stdout == Emitted(source)
      && flushed == |stdout|
      && stderr == [StoppedNotice]
      && status == Exited(1)
    }

    /** One trigger line: one pull, then its batch emitted, or exit 1 when the source has stopped. */
    method Trigger()
      requires Waiting(triggers)
      modifies this
      ensures triggers == old(triggers) + 1 && pulls == old(pulls) + 1
      ensures old(triggers) < |source| ==> Waiting(triggers)
      ensures old(triggers) == |source| ==> Stopped()
    {
      ghost var k := triggers;
      triggers := triggers + 1;
      var item := Pull();
      if item.None? {
        assert source[..k] == source;
        stderr := [StoppedNotice];
        status := Exited(1);
      } else {
        EmittedSnoc(source, k);
        EmitPoints(AsBatch(item.value));
      }
    }

    /**
     * The trigger loop: each line read causes exactly one pull, whose batch is
     * written and flushed before the next line is read. End of input exits
     * with 0; a source that stops exits with 1 after logging, and everything
     * emitted before stays in place.
     */
    method Serve(stdin: seq<string>)
      requires Waiting(0)
      modifies this
      ensures pulls == old(pulls) + triggers && flushed == |stdout|
      ensures |StdinLines.Lines(stdin)| <= |source| ==>
        && status == Exited(0)
        && triggers == |StdinLines.Lines(stdin)|
        && stdout == Emitted(source[..triggers])
        && stderr == []
      ensures |StdinLines.Lines(stdin)| > |source| ==> Stopped()
    {
      ghost var lines := |StdinLines.Lines(stdin)|;
      var k := 0;
      while k < |stdin| && stdin[k] != ""
        invariant k <= lines && Waiting(k) && pulls == old(pulls) + k
      {
        StdinLines.NextLineIsTrigger(stdin, k);
        Trigger();
        if status != Running {
          return;
        }
        k := k + 1;
      }
      StdinLines.EndOfTriggers(stdin, k);
      status := Exited(0);
    }

    /**
     * `_async_main`: with a terminal on stderr, the one-shot sample, which
     * falls through to the trigger loop when the source yields nothing;
     * otherwise the trigger loop. In a clean run the output holds as many
     * lines as the pulled batches hold points.
     */
    method Run(stderrIsTty: bool, stdin: seq<string>)
      requires Initial()
      modifies this
      ensures flushed == |stdout|
      ensures stderrIsTty && |source| > 0 ==>
        && pulls == 1 && triggers == 0 && stdout == [] && status == Exited(0)
        && stderr == [TtyNotice, Describe(source[0])]
      ensures stderrIsTty && |source| == 0 ==>
        && stdout == []
        && pulls == triggers + 1
        && (if StdinLines.Lines(stdin) == [] then triggers == 0 && status == Exited(0) && stderr == []
            else triggers == 1 && status == Exited(1) && stderr == [StoppedNotice])
      ensures !stderrIsTty ==> pulls == triggers
      ensures !stderrIsTty && |StdinLines.Lines(stdin)| <= |source| ==>
        && status == Exited(0)
        && triggers == |StdinLines.Lines(stdin)|
        && stdout == Emitted(source[..triggers])
        && |stdout| == TotalSize(source[..triggers])
        && stderr == []
      ensures !stderrIsTty && |StdinLines.Lines(stdin)| > |source| ==>
        && status == Exited(1)
        && triggers == |source| + 1
        && stdout == Emitted(source)
        && stderr == [StoppedNotice]
    {
      if stderrIsTty {
        LogSample();
        if status == Running {
          Serve(stdin);
        }
      } else {
        Serve(stdin);
        if |StdinLines.Lines(stdin)| <= |source| {
          EmittedLength(source[..triggers]);
        }
      }
    }

    /**
     * The evidently intended `_async_main`: with a terminal on stderr the run
     * ends after the sample whether or not the source yielded one, and never
     * reads stdin.
     */
    method RunSampleOnly(stderrIsTty: bool, stdin: seq<string>)
      requires Initial()
      modifies this
      ensures flushed == |stdout|
      ensures stderrIsTty ==> pulls == 1 && triggers == 0 && stdout == [] && status == Exited(0)
      ensures stderrIsTty ==> stderr == if |source| > 0 then [TtyNotice, Describe(source[0])] else []
      ensures !stderrIsTty ==> pulls == triggers
      ensures !stderrIsTty && |StdinLines.Lines(stdin)| <= |source| ==>
        && status == Exited(0)
        && triggers == |StdinLines.Lines(stdin)|
        && stdout == Emitted(source[..triggers])
        && stderr == []
      ensures !stderrIsTty && |StdinLines.Lines(stdin)| > |source| ==> Stopped()
    {
      if stderrIsTty {
        LogSample();
        status := Exited(0);
      } else {
        Serve(stdin);
      }
    }
  }

  /**
   * The driver as written, with a terminal on stderr and a source that
   * yields nothing: one trigger line makes it log the stop and exit with 1.
   */
  method EmptySourceOnTerminal() returns (code: Status, errors: seq<string>, pulls: nat)
    ensures code == Exited(1) && errors == [StoppedNotice] && pulls == 2
  {
    var plugin := new Plugin([]);
    plugin.Run(true, ["\n", ""]);
    assert StdinLines.Lines(["\n", ""]) == ["\n"];
    code, errors, pulls := plugin.status, plugin.stderr, plugin.pulls;
  }

  /** The intended driver in the same situation: exit 0, nothing logged, one pull. */
  method EmptySourceOnTerminalIntended() returns (code: Status, errors: seq<string>, pulls: nat)
    ensures code == Exited(0) && errors == [] && pulls == 1
  {
    var plugin := new Plugin([]);
    plugin.RunSampleOnly(true, ["\n", ""]);
    code, errors, pulls := plugin.status, plugin.stderr, plugin.pulls;
  }

  /** Three trigger lines, then end of input, against a source of three points. */
  method ThreeTriggersScenario(p1: Point, p2: Point, p3: Point)
  {
    var plugin := new Plugin([Single(p1), Single(p2), Single(p3)]);
    plugin.Run(false, ["\n", "\n", "\n", ""]);
    assert StdinLines.Lines(["\n", "\n", "\n", ""]) == ["\n", "\n", "\n"];
    assert plugin.source[..3] == plugin.source;
    var items := [Single(p1), Single(p2), Single(p3)];
    assert items[1..][1..] == [Single(p3)];
    assert Emitted([Single(p3)]) == [LineProtocol(p3)];
    assert Emitted(items[1..]) == [LineProtocol(p2), LineProtocol(p3)];
    assert plugin.stdout == [LineProtocol(p1), LineProtocol(p2), LineProtocol(p3)];
    assert plugin.status == Exited(0);
  }

  /** A source that stops on its second pull: the first line stays, the run exits with 1. */
  method StoppedSourceScenario(p1: Point)
  {
    var plugin := new Plugin([Single(p1)]);
    plugin.Run(false, ["\n", "\n", ""]);
    assert StdinLines.Lines(["\n", "\n", ""]) == ["\n", "\n"];
    assert plugin.stdout == [LineProtocol(p1)];
    assert plugin.status == Exited(1) && plugin.pulls == 2;
  }
}
