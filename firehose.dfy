/** The Firehose transformation loop that both transform handlers share:
    every input record is decoded into lines, every line is run through a
    handler-specific step that may consult (and update) the warm process's
    state, and the record becomes one output record: `Ok` with the enriched
    entries, or `Dropped` echoing its original data. An exception anywhere
    in the loop ends it, and only the outputs built so far are returned. */
module Firehose {
  import opened Wrappers
  import opened Json

  /** One element of `event["records"]`; either key may be missing. */
  datatype InputRecord = InputRecord(recordId: Option<string>, data: Option<string>)

  /** The `result` and `data` of an output record. The encoding of `Ok` data
      (JSON lines, base64) is kept abstract: the entries themselves. */
  datatype Outcome = Ok(entries: seq<Object>) | Dropped(data: string)

  datatype OutputRecord = OutputRecord(recordId: string, result: Outcome)

  /** Decoding of a record's `data` (base64, possibly gzip, split into
      lines): `None` when decoding raises, otherwise one element per line,
      `None` for a line on which `json.loads` raises. */
  type Decoder = string -> Option<seq<Option<Json>>>

  /** What one decoded line contributes, and the process state after it;
      `raised` when an exception escaped the handler's work on the line (the
      state then still holds whatever that work had cached). */
  datatype Step<S> = Step(entries: seq<Object>, state: S, raised: bool)

  /** The handler-specific work on one decoded line. */
  type LineStep<!S> = (Json, S) -> Step<S>

  datatype Lines<S> = Lines(entries: seq<Object>, state: S, raised: bool)

  /** The inner loop over one record's lines; stops at the first exception. */
  function ProcessLines<S>(lines: seq<Option<Json>>, step: LineStep<S>, s: S): (l: Lines<S>)
    decreases |lines|
  {
    if lines == [] then Lines([], s, false)
    else
      var before := ProcessLines(lines[..|lines| - 1], step, s);
      if before.raised then before
      else match lines[|lines| - 1]
        case None => before.(raised := true)
        case Some(v) =>
          var st := step(v, before.state);
          if st.raised then Lines(before.entries, st.state, true)
          else Lines(before.entries + st.entries, st.state, false)
  }

  datatype Handled<S> = Handled(output: Option<OutputRecord>, state: S)

  /** One iteration of the outer loop; `output` is `None` when it raised
      (missing `data`, undecodable data, a failing line, missing
      `recordId`). */
  function ProcessRecord<S>(r: InputRecord, decode: Decoder, step: LineStep<S>, s: S): (h: Handled<S>)
  {
    if r.data.None? then Handled(None, s)
    else match decode(r.data.value)
      case None => Handled(None, s)
      case Some(lines) =>
        var l := ProcessLines(lines, step, s);
        if l.raised || r.recordId.None? then Handled(None, l.state)
        else
          var result := if l.entries != [] then Ok(l.entries) else Dropped(r.data.value);
          Handled(Some(OutputRecord(r.recordId.value, result)), l.state)
  }

  datatype Batch<S> = Batch(outputs: seq<OutputRecord>, state: S, raised: bool)

  /** The outer loop over the records; stops at the first exception. */
  function ProcessBatch<S>(records: seq<InputRecord>, decode: Decoder, step: LineStep<S>, s: S): (b: Batch<S>)
    decreases |records|
  {
    if records == [] then Batch([], s, false)
    else
      var before := ProcessBatch(records[..|records| - 1], decode, step, s);
      if before.raised then before
      else
        var h := ProcessRecord(records[|records| - 1], decode, step, before.state);
        match h.output
        case None => Batch(before.outputs, h.state, true)
        case Some(o) => Batch(before.outputs + [o], h.state, false)
  }

  /** `for record in event["records"]` inside the handler's `try`: a missing
      `records` key raises before any output. */
  function Transform<S>(records: Option<seq<InputRecord>>, decode: Decoder, step: LineStep<S>, s: S): (b: Batch<S>)
  {
    match records
    case None => Batch([], s, true)
    case Some(rs) => ProcessBatch(rs, decode, step, s)
  }

  /** Once a line has raised, the remaining lines change nothing. */
  lemma {:induction false} LinesRaisedSticks<S>(lines: seq<Option<Json>>, k: nat, step: LineStep<S>, s: S)
    requires k <= |lines| && ProcessLines(lines[..k], step, s).raised
    ensures ProcessLines(lines, step, s) == ProcessLines(lines[..k], step, s)
    decreases |lines|
  {
    if k < |lines| {
      assert lines[..|lines| - 1][..k] == lines[..k];
      LinesRaisedSticks(lines[..|lines| - 1], k, step, s);
    } else {
      assert lines[..k] == lines;
    }
  }

  /** Once a record has raised, the remaining records change nothing. */
  lemma {:induction false} BatchRaisedSticks<S>(records: seq<InputRecord>, k: nat, decode: Decoder, step: LineStep<S>, s: S)
    requires k <= |records| && ProcessBatch(records[..k], decode, step, s).raised
    ensures ProcessBatch(records, decode, step, s) == ProcessBatch(records[..k], decode, step, s)
    decreases |records|
  {
    if k < |records| {
      assert records[..|records| - 1][..k] == records[..k];
      BatchRaisedSticks(records[..|records| - 1], k, decode, step, s);
    } else {
      assert records[..k] == records;
    }
  }

  /** A record's lines that ran without an exception have entries exactly
      when one of its lines contributed some, in the state the lines before
      it left behind. */
  lemma {:induction false} LinesEntriesFromSteps<S>(lines: seq<Option<Json>>, step: LineStep<S>, s: S)
    ensures var l := ProcessLines(lines, step, s);
      !l.raised ==>
        (l.entries != [] <==>
           exists j :: 0 <= j < |lines| && lines[j].Some? &&
             step(lines[j].value, ProcessLines(lines[..j], step, s).state).entries != [])
    decreases |lines|
  {
    if lines != [] {
      var n := |lines| - 1;
      var init := lines[..n];
      LinesEntriesFromSteps(init, step, s);
      assert lines[..n] == init;
      var before := ProcessLines(init, step, s);
      var l := ProcessLines(lines, step, s);
      if !l.raised {
        assert !before.raised && lines[n].Some?;
        var last := step(lines[n].value, before.state);
        assert l.entries == before.entries + last.entries;
        if l.entries != [] && last.entries == [] {
          var j :| 0 <= j < n && init[j].Some? &&
                   step(init[j].value, ProcessLines(init[..j], step, s).state).entries != [];
          assert init[j] == lines[j] && init[..j] == lines[..j];
        }
        if before.entries == [] && last.entries == [] {
          forall j | 0 <= j < |lines| && lines[j].Some?
            ensures step(lines[j].value, ProcessLines(lines[..j], step, s).state).entries == []
          {
            if j < n {
              assert init[j] == lines[j] && init[..j] == lines[..j];
            }
          }
        }
      }
    }
  }

  /** The process state before record `i` is handled. */
  function StateBefore<S>(records: seq<InputRecord>, i: nat, decode: Decoder, step: LineStep<S>, s: S): S
    requires i <= |records|
  {
    ProcessBatch(records[..i], decode, step, s).state
  }

  /** Output `i` is what input record `i` yields in the state the records
      before it left behind. There is one output per input record unless an
      exception stopped the loop, and then the record after the last output
      is the one that raised. */
  lemma {:induction false} BatchAligned<S>(records: seq<InputRecord>, decode: Decoder, step: LineStep<S>, s: S)
    ensures var b := ProcessBatch(records, decode, step, s);
      && |b.outputs| <= |records|
      && (!b.raised <==> |b.outputs| == |records|)
      && (b.raised ==>
            ProcessRecord(records[|b.outputs|], decode, step,
                          StateBefore(records, |b.outputs|, decode, step, s)).output.None?)
      && forall i :: 0 <= i < |b.outputs| ==>
           ProcessRecord(records[i], decode, step, StateBefore(records, i, decode, step, s)).output
             == Some(b.outputs[i])
    decreases |records|
  {
    if records != [] {
      var n := |records| - 1;
      var init := records[..n];
      BatchAligned(init, decode, step, s);
      var before := ProcessBatch(init, decode, step, s);
      forall i | 0 <= i <= |before.outputs| && i <= n
        ensures StateBefore(records, i, decode, step, s) == StateBefore(init, i, decode, step, s)
      {
        assert records[..i] == init[..i];
      }
      if !before.raised {
        assert records[..n] == init;
      }
    }
  }

  /** An entry property that every step guarantees holds of every entry of
      every `Ok` output. */
  ghost predicate StepsEnsure<S(!new)>(step: LineStep<S>, p: Object -> bool) {
    forall v, st :: !step(v, st).raised ==>
      forall e :: e in step(v, st).entries ==> p(e)
  }

  lemma {:induction false} LinesEnsure<S(!new)>(lines: seq<Option<Json>>, step: LineStep<S>, s: S, p: Object -> bool)
    requires StepsEnsure(step, p)
    ensures forall e :: e in ProcessLines(lines, step, s).entries ==> p(e)
    decreases |lines|
  {
    if lines != [] {
      LinesEnsure(lines[..|lines| - 1], step, s, p);
    }
  }

  /** Every entry of every `Ok` output satisfies `p`. */
  ghost predicate EntriesSatisfy(outputs: seq<OutputRecord>, p: Object -> bool) {
    forall o, e :: o in outputs && o.result.Ok? && e in o.result.entries ==> p(e)
  }

  /** Whatever every step guarantees of its entries holds of every entry
      the handler emits. */
  lemma {:induction false} BatchEnsures<S(!new)>(records: seq<InputRecord>, decode: Decoder, step: LineStep<S>, s: S, p: Object -> bool)
    requires StepsEnsure(step, p)
    ensures EntriesSatisfy(ProcessBatch(records, decode, step, s).outputs, p)
    decreases |records|
  {
    if records != [] {
      var init := records[..|records| - 1];
      BatchEnsures(init, decode, step, s, p);
      var before := ProcessBatch(init, decode, step, s);
      if !before.raised {
        var r := records[|records| - 1];
        if r.data.Some? && decode(r.data.value).Some? {
          LinesEnsure(decode(r.data.value).value, step, before.state, p);
        }
      }
    }
  }

  /** On every state satisfying `inv`, `step` yields what the stateless
      `plain` yields, and leaves a state satisfying `inv`. */
  ghost predicate Simulates<S(!new)>(step: LineStep<S>, inv: S -> bool, plain: LineStep<()>) {
    forall v, st :: inv(st) ==>
      && inv(step(v, st).state)
      && step(v, st).entries == plain(v, ()).entries
      && step(v, st).raised == plain(v, ()).raised
  }

  lemma {:induction false} LinesSimulate<S(!new)>(lines: seq<Option<Json>>, step: LineStep<S>, inv: S -> bool,
                                                 plain: LineStep<()>, s: S)
    requires Simulates(step, inv, plain) && inv(s)
    ensures var a, b := ProcessLines(lines, step, s), ProcessLines(lines, plain, ());
      a.entries == b.entries && a.raised == b.raised && inv(a.state)
    decreases |lines|
  {
    if lines != [] {
      var init := lines[..|lines| - 1];
      LinesSimulate(init, step, inv, plain, s);
      var a, b := ProcessLines(init, step, s), ProcessLines(init, plain, ());
      assert b.state == ();
      if !a.raised && lines[|lines| - 1].Some? {
        var v := lines[|lines| - 1].value;
        assert inv(a.state);
        assert step(v, a.state).entries == plain(v, ()).entries;
        assert step(v, a.state).raised == plain(v, ()).raised;
      }
    }
  }

  /** A handler whose state only ever serves `inv`-preserving lookups
      returns exactly what the stateless handler returns. */
  lemma {:induction false} BatchSimulate<S(!new)>(records: seq<InputRecord>, decode: Decoder, step: LineStep<S>,
                                                 inv: S -> bool, plain: LineStep<()>, s: S)
    requires Simulates(step, inv, plain) && inv(s)
    ensures var a, b := ProcessBatch(records, decode, step, s), ProcessBatch(records, decode, plain, ());
      a.outputs == b.outputs && a.raised == b.raised && inv(a.state)
    decreases |records|
  {
    if records != [] {
      var init, r := records[..|records| - 1], records[|records| - 1];
      BatchSimulate(init, decode, step, inv, plain, s);
      var before := ProcessBatch(init, decode, step, s);
      var plainBefore := ProcessBatch(init, decode, plain, ());
      assert plainBefore.state == ();
      if !before.raised && r.data.Some? && decode(r.data.value).Some? {
        LinesSimulate(decode(r.data.value).value, step, inv, plain, before.state);
        assert ProcessRecord(r, decode, step, before.state).output
            == ProcessRecord(r, decode, plain, plainBefore.state).output;
      }
    }
  }
}
