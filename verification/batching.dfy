/** The import loop's shape, whatever a line does: the first line is the
    header and is skipped, the other lines run one after another in file order,
    each on the tables with the earlier lines' inserts, and the first failing
    line stops the batch. Step is what one line does (Processing.LineStep for
    the source's BUY/SELL switch). */
module Batching {
  import opened Schema
  import opened Processing
  import opened Seqs

  type Step = (Tables, string) -> Result<seq<CashRow>>

  /** How running a sequence of lines ends: with the rows appended, or stopped
      at the position of the first line that failed. */
  datatype RunResult = Done(rows: seq<CashRow>) | Stopped(index: nat, error: Error)

  /** The next line after a run that ended prev: a failure stands; otherwise
      the line runs on the tables with the rows appended so far, and a failure
      of its own is reported at its position. */
  function Extend(prev: RunResult, t: Tables, position: nat, line: string, step: Step): (r: RunResult)
    ensures prev.Stopped? ==> r == prev
    ensures prev.Done? && r.Stopped? ==> r.index == position
    ensures r.Done? ==> prev.Done? && |prev.rows| <= |r.rows| && r.rows[..|prev.rows|] == prev.rows
  {
    match prev
    case Stopped(_, _) => prev
    case Done(rows) =>
      match step(t.WithCash(rows), line)
      case Err(e) => Stopped(position, e)
      case Ok(more) => Done(rows + more)
  }

  /** The lines run in order, each seeing the rows appended by the lines
      before it, stopping at the first failure. */
  function Run(t: Tables, lines: seq<string>, step: Step): (r: RunResult)
    ensures r.Stopped? ==> r.index < |lines|
    decreases |lines|
  {
    if lines == [] then Done([])
    else Extend(Run(t, lines[..|lines| - 1], step), t, |lines| - 1, lines[|lines| - 1], step)
  }

  /** The whole file: the first line is the header and is never run. A stopped
      batch reports the failing line's position in the file. */
  function Batch(t: Tables, lines: seq<string>, step: Step): (r: RunResult)
    ensures r.Stopped? ==> 1 <= r.index < |lines|
  {
    if lines == [] then Done([])
    else match Run(t, lines[1..], step)
      case Stopped(k, e) => Stopped(k + 1, e)
      case Done(rows) => Done(rows)
  }

  /** The header line is never run: its contents do not matter. */
  lemma HeaderIgnored(t: Tables, h1: string, h2: string, rest: seq<string>, step: Step)
    ensures Batch(t, [h1] + rest, step) == Batch(t, [h2] + rest, step)
  {
    ConsTail(h1, rest);
    ConsTail(h2, rest);
  }

  /** A file holding only the header appends nothing and does not fail. */
  lemma HeaderOnlyAppendsNothing(t: Tables, h: string, step: Step)
    ensures Batch(t, [h], step) == Done([])
  {
    ConsTail(h, []);
  }

  /** One more line at the end runs after all the others. */
  lemma RunSnoc(t: Tables, lines: seq<string>, x: string, step: Step)
    ensures Run(t, lines + [x], step) == Extend(Run(t, lines, step), t, |lines|, x, step)
  {
    SnocParts(lines, x);
  }

  /** A run of later lines seen from the whole file: positions move up by
      offset and the rows follow the rows appended before. */
  function Shift(r: RunResult, before: seq<CashRow>, offset: nat): RunResult
  {
    match r
    case Stopped(k, e) => Stopped(offset + k, e)
    case Done(rows) => Done(before + rows)
  }

  /** How running b after a run that ended first goes on: a failure stands;
      otherwise b runs on the tables with first's rows appended. */
  function AndThen(first: RunResult, t: Tables, offset: nat, b: seq<string>, step: Step): RunResult
  {
    match first
    case Stopped(_, _) => first
    case Done(ra) => Shift(Run(t.WithCash(ra), b, step), ra, offset)
  }

  /** Running a line after earlier rows is running it on the tables with those
      rows already appended. */
  lemma ExtendShift(prev: RunResult, before: seq<CashRow>, t: Tables, offset: nat, q: nat,
                    x: string, step: Step)
    ensures Extend(Shift(prev, before, offset), t, offset + q, x, step) ==
            Shift(Extend(prev, t.WithCash(before), q, x, step), before, offset)
  {
    match prev
    case Stopped(_, _) =>
    case Done(rows) =>
      AppendAssoc(t.cash, before, rows);
      assert t.WithCash(before).WithCash(rows) == t.WithCash(before + rows);
      match step(t.WithCash(before + rows), x)
      case Err(_) =>
      case Ok(more) => AppendAssoc(before, rows, more);
  }

  /** Running a + b is running a, then b on the tables a left behind, with
      b's positions after a's. This is file order and read-your-writes in one
      statement. */
  lemma {:induction false} RunConcat(t: Tables, a: seq<string>, b: seq<string>, step: Step)
    ensures Run(t, a + b, step) == AndThen(Run(t, a, step), t, |a|, b, step)
    decreases |b|
  {
    if b == [] {
      AppendEmpty(a);
      match Run(t, a, step)
      case Stopped(_, _) =>
      case Done(ra) => AppendEmpty(ra);
    } else {
      var b' := b[..|b| - 1];
      var x := b[|b| - 1];
      DropLast(b);
      SnocAssoc(a, b', x);
      RunConcat(t, a, b', step);
      RunSnoc(t, a + b', x, step);
      match Run(t, a, step)
      case Stopped(_, _) =>
      case Done(ra) =>
        var u := t.WithCash(ra);
        RunSnoc(u, b', x, step);
        ExtendShift(Run(u, b', step), ra, t, |a|, |b'|, x, step);
    }
  }

  /** Once lines 1 .. j - 1 of a file have stopped, the whole file stops there
      too: the lines after a failure are never run. */
  lemma StoppedPrefixStopsBatch(t: Tables, lines: seq<string>, j: nat, k: nat, e: Error, step: Step)
    requires 1 <= j <= |lines|
    requires Run(t, lines[1..j], step) == Stopped(k, e)
    ensures Batch(t, lines, step) == Stopped(k + 1, e)
  {
    RunConcat(t, lines[1..j], lines[j..], step);
    SliceSplit(lines, 1, j);
  }

  /** A run that stops at position k ran every line before k successfully and
      stopped because line k failed with the reported error. */
  lemma {:induction false} RunStopsAtFirstFailure(t: Tables, lines: seq<string>, step: Step)
    requires Run(t, lines, step).Stopped?
    ensures var r := Run(t, lines, step);
      var before := Run(t, lines[..r.index], step);
      before.Done? && step(t.WithCash(before.rows), lines[r.index]) == Err(r.error)
    decreases |lines|
  {
    var prefix := lines[..|lines| - 1];
    var r := Run(t, lines, step);
    if Run(t, prefix, step).Stopped? {
      RunStopsAtFirstFailure(t, prefix, step);
      PrefixOfPrefix(lines, |lines| - 1, r.index);
    }
  }

  /** The same for a file: the batch stopped at line k because line k failed,
      and the lines 1 .. k - 1 after the header all ran successfully. */
  lemma BatchStopsAtFirstFailure(t: Tables, lines: seq<string>, step: Step)
    requires Batch(t, lines, step).Stopped?
    ensures var r := Batch(t, lines, step);
      var before := Run(t, lines[1..r.index], step);
      before.Done? && step(t.WithCash(before.rows), lines[r.index]) == Err(r.error)
  {
    var body := lines[1..];
    var inner := Run(t, body, step);
    RunStopsAtFirstFailure(t, body, step);
    PrefixOfSlice(lines, 1, inner.index);
  }

  /** A line that fails on whatever rows the earlier lines appended stops the
      batch at that line or at an earlier one. */
  lemma AlwaysFailingLineStopsBatch(t: Tables, lines: seq<string>, k: nat, step: Step)
    requires 1 <= k < |lines|
    requires forall rows :: step(t.WithCash(rows), lines[k]).Err?
    ensures Batch(t, lines, step).Stopped?
    ensures Batch(t, lines, step).index <= k
  {
    var done := lines[1..k];
    SliceSnoc(lines, 1, k);
    RunSnoc(t, done, lines[k], step);
    match Run(t, done, step)
    case Stopped(j, e) =>
      StoppedPrefixStopsBatch(t, lines, k + 1, j, e, step);
    case Done(rows) =>
      var e := step(t.WithCash(rows), lines[k]).error;
      StoppedPrefixStopsBatch(t, lines, k + 1, k - 1, e, step);
  }

  /** The loop's step at line i of the file (the header is at 0) after lines
      1 .. i - 1 succeeded: a failure stops the whole file at i. */
  lemma FileStepFails(t: Tables, lines: seq<string>, i: nat, before: seq<CashRow>, e: Error, step: Step)
    requires 1 <= i < |lines|
    requires Run(t, lines[1..i], step) == Done(before)
    requires step(t.WithCash(before), lines[i]) == Err(e)
    ensures Batch(t, lines, step) == Stopped(i, e)
  {
    SliceSnoc(lines, 1, i);
    RunSnoc(t, lines[1..i], lines[i], step);
    StoppedPrefixStopsBatch(t, lines, i + 1, i - 1, e, step);
  }

  /** The same step when the line succeeds: the run grows by the line's rows. */
  lemma FileStepSucceeds(t: Tables, lines: seq<string>, i: nat, before: seq<CashRow>,
                         rows: seq<CashRow>, step: Step)
    requires 1 <= i < |lines|
    requires Run(t, lines[1..i], step) == Done(before)
    requires step(t.WithCash(before), lines[i]) == Ok(rows)
    ensures Run(t, lines[1..i + 1], step) == Done(before + rows)
  {
    SliceSnoc(lines, 1, i);
    RunSnoc(t, lines[1..i], lines[i], step);
  }

  /** When every line after the header succeeded, the file's rows are the run's. */
  lemma FileDone(t: Tables, lines: seq<string>, rows: seq<CashRow>, step: Step)
    requires |lines| == 0 ==> rows == []
    requires |lines| > 0 ==> Run(t, lines[1..|lines|], step) == Done(rows)
    ensures Batch(t, lines, step) == Done(rows)
  {
    if |lines| > 0 {
      SliceWhole(lines, 1);
    }
  }
}
