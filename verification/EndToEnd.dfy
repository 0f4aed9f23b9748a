/** From the finished run to the number of bytes the evaluation script reports. */
module EndToEnd {
  import opened Wrappers
  import Decimal
  import Telemetry
  import Output
  import Evaluation
  import opened RunModel
  import opened RunResults

  /** The script's view of a printed line: each stream's byte text read as a number. */
  ghost predicate ReadFrom(entry: seq<Evaluation.Stream>, elements: seq<Telemetry.DataResult>) {
    && |entry| == |elements|
    && forall i :: 0 <= i < |entry| ==> Decimal.Atoi(elements[i].receivedBytes) == Some(entry[i].bytes)
  }

  lemma {:induction false} AddedIsSumParsed(entry: seq<Evaluation.Stream>, numbers: seq<Option<int>>)
    requires |numbers| == |entry| && forall i :: 0 <= i < |entry| ==> numbers[i] == Some(entry[i].bytes)
    ensures SumParsed(numbers) == Some(Evaluation.Added(Evaluation.Column(entry)))
  {
    if entry != [] {
      var n := |entry| - 1;
      AddedIsSumParsed(entry[..n], numbers[..n]);
      assert Evaluation.Column(entry) == Evaluation.Column(entry[..n]) + [entry[n].bytes];
      Evaluation.AddedAppend(Evaluation.Column(entry[..n]), entry[n].bytes);
    }
  }

  /** The script's count is the total of the line it has read last. */
  lemma CountedAsRead(db: seq<seq<Evaluation.Stream>>, elements: seq<Telemetry.DataResult>)
    requires db != [] && ReadFrom(db[|db| - 1], elements)
    ensures LineTotal(elements) == Some(Evaluation.Fold(db).bytesRx)
  {
    AddedIsSumParsed(db[|db| - 1], Numbers(elements));
    Evaluation.FinalBytesAdded(db);
  }

  /**
   * End to end: when the script has read the lines of a finished run, the last of them being the stop reply's,
   * it reports at least the bytes that were asked for, and fewer than `workers` bytes more.
   */
  lemma ScriptReportsTotal(c: Config, s: State, firsts: seq<string>, lasts: seq<string>,
                           db: seq<seq<Evaluation.Stream>>)
    requires Configured(c) && !c.transport.Quic?
    requires Reachable(c, s) && s.k.mgr.phase.Done? && s.k.mgr.verdict.Finished?
    requires |firsts| == |lasts| == |s.k.mgr.phase.reply|
    requires forall i :: 0 <= i < |firsts| ==> Output.Plain(firsts[i]) && Output.Plain(lasts[i])
    requires var line := Output.EntryOf(Output.Line(Elements(s.k.mgr.phase.reply, firsts, lasts)));
      db != [] && line.Some? && ReadFrom(db[|db| - 1], line.value)
    ensures c.total <= Evaluation.Fold(db).bytesRx < c.total + c.workers
  {
    FinalLineSound(c, s, firsts, lasts);
    CountedAsRead(db, Output.EntryOf(Output.Line(Elements(s.k.mgr.phase.reply, firsts, lasts))).value);
  }
}
