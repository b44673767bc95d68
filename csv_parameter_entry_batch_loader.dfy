/** Loading parameter entries from CSV in batches. The loader is open until
    its reader runs out during a batch and is then closed; each batch reads
    up to the requested number of lines, in reader order, and turns each
    line into an entry whose levels are the line's values.

    The CSV reader itself is not part of this model: it is CsvLineReader,
    the lines it has still to deliver, with two optional failures: reading
    past the last line raises an I/O error instead of answering null, and
    closing raises one. */
module CsvEntryLoading {
  import opened Wrappers
  import opened SerializationException

  /** One CSV line: its values in column order. */
  type Line = seq<string>

  datatype ParameterEntry = ParameterEntry(levels: seq<string>)

  datatype ReadResult = LineRead(line: Line) | EndOfInput | ReadError

  class CsvLineReader {
    var lines: seq<Line>
    const readFails: bool
    const closeFails: bool
    var closed: bool

    constructor (lines: seq<Line>, readFails: bool, closeFails: bool)
      ensures this.lines == lines && this.readFails == readFails && this.closeFails == closeFails && !closed
    {
      this.lines := lines;
      this.readFails := readFails;
      this.closeFails := closeFails;
      closed := false;
    }

    /** The next line, or the end of the input (Java's null), or an I/O error. */
    method Read() returns (r: ReadResult)
      modifies this
      ensures old(lines) != [] ==> r == LineRead(old(lines)[0]) && lines == old(lines)[1..]
      ensures old(lines) == [] ==> lines == [] && r == if readFails then ReadError else EndOfInput
      ensures closed == old(closed)
    {
      if lines != [] {
        r := LineRead(lines[0]);
        lines := lines[1..];
      } else if readFails {
        r := ReadError;
      } else {
        r := EndOfInput;
      }
    }

    method Close() returns (ok: bool)
      modifies this
      ensures ok == !closeFails
      ensures closed == (old(closed) || ok) && lines == old(lines)
    {
      ok := !closeFails;
      if ok {
        closed := true;
      }
    }
  }

  /** An entry whose levels are the line (the instance class's construction). */
  function CreateParameterEntry(line: Line): ParameterEntry
  {
    ParameterEntry(line)
  }

  function EntriesOf(lines: seq<Line>): (entries: seq<ParameterEntry>)
    ensures |entries| == |lines|
    ensures forall i :: 0 <= i < |lines| ==> entries[i].levels == lines[i]
  {
    seq(|lines|, i requires 0 <= i < |lines| => CreateParameterEntry(lines[i]))
  }

  function LinesOf(entries: seq<ParameterEntry>): (lines: seq<Line>)
    ensures |lines| == |entries|
    ensures forall i :: 0 <= i < |entries| ==> lines[i] == entries[i].levels
  {
    seq(|entries|, i requires 0 <= i < |entries| => entries[i].levels)
  }

  /** Entries are the lines they were built from. */
  lemma LinesOfEntriesOf(lines: seq<Line>)
    ensures LinesOf(EntriesOf(lines)) == lines
  {
  }

  /** Building entries distributes over concatenation of the lines. */
  lemma EntriesOfAppend(a: seq<Line>, b: seq<Line>)
    ensures EntriesOf(a + b) == EntriesOf(a) + EntriesOf(b)
  {
    assert forall i :: 0 <= i < |a + b| ==> EntriesOf(a + b)[i] == (EntriesOf(a) + EntriesOf(b))[i];
  }

  /** The loader's state as a value: the reader's remaining lines, whether the
      loader is closed, and the reader's two failure modes. */
  datatype LoaderState = LoaderState(lines: seq<Line>, closed: bool, readFails: bool, closeFails: bool)

  datatype BatchStep = BatchStep(batch: Result<seq<ParameterEntry>, SerializationError>, after: LoaderState)

  /** One call of `nextBatch`. A closed loader delivers nothing and does not
      change. An open one delivers at most `batchSize` entries, the next lines
      in order; it is closed afterwards exactly when fewer lines than asked
      were there, and a failure can only happen in that case, while reading
      past the last line or while closing the reader. */
  function NextBatchStep(s: LoaderState, batchSize: nat): (r: BatchStep)
    ensures s.closed ==> r == BatchStep(Success([]), s)
    ensures r.after.readFails == s.readFails && r.after.closeFails == s.closeFails
    ensures r.batch.Success? ==> |r.batch.value| <= batchSize && s.lines == LinesOf(r.batch.value) + r.after.lines
    ensures !s.closed && r.batch.Success? ==> (r.after.closed <==> |r.batch.value| < batchSize)
    ensures !s.closed && r.after.closed ==> r.after.lines == []
    ensures r.batch.Success? <==> s.closed || |s.lines| >= batchSize || (!s.readFails && !s.closeFails)
    ensures r.batch.Failure? ==> !r.after.closed && r.after.lines == []
                                 && r.batch.error == if s.readFails then DeserializationError else ReaderCloseError
  {
    if s.closed then BatchStep(Success([]), s)
    else if |s.lines| >= batchSize then
      LinesOfEntriesOf(s.lines[..batchSize]);
      assert s.lines == s.lines[..batchSize] + s.lines[batchSize..];
      BatchStep(Success(EntriesOf(s.lines[..batchSize])), s.(lines := s.lines[batchSize..]))
    else if s.readFails then BatchStep(Failure(DeserializationError), s.(lines := []))
    else if s.closeFails then BatchStep(Failure(ReaderCloseError), s.(lines := []))
    else
      LinesOfEntriesOf(s.lines);
      BatchStep(Success(EntriesOf(s.lines)), s.(lines := [], closed := true))
  }

  /** What calling `nextBatch` while `hasMore()` holds delivers in all. */
  function Drain(s: LoaderState, batchSize: nat): Result<seq<ParameterEntry>, SerializationError>
    requires batchSize > 0
    decreases |s.lines|, !s.closed
  {
    if s.closed then Success([])
    else
      var step := NextBatchStep(s, batchSize);
      match step.batch
      case Failure(e) => Failure(e)
      case Success(batch) =>
        match Drain(step.after, batchSize)
        case Failure(e) => Failure(e)
        case Success(rest) => Success(batch + rest)
  }

  /** Draining an open loader whose reader does not fail delivers every line
      of the reader exactly once, in reader order. */
  lemma {:induction false} DrainDeliversEveryLine(s: LoaderState, batchSize: nat)
    requires batchSize > 0
    requires !s.closed && !s.readFails && !s.closeFails
    ensures Drain(s, batchSize) == Success(EntriesOf(s.lines))
    decreases |s.lines|
  {
    var step := NextBatchStep(s, batchSize);
    if |s.lines| >= batchSize {
      var after := step.after;
      assert after.lines == s.lines[batchSize..] && !after.closed;
      DrainDeliversEveryLine(after, batchSize);
      EntriesOfAppend(s.lines[..batchSize], s.lines[batchSize..]);
      assert s.lines[..batchSize] + s.lines[batchSize..] == s.lines;
    } else {
      assert step.batch == Success(EntriesOf(s.lines)) && step.after.closed;
      assert Drain(step.after, batchSize) == Success([]);
      assert EntriesOf(s.lines) + [] == EntriesOf(s.lines);
    }
  }

  /** Draining an open loader fails exactly when its reader fails, with the
      reading error taking precedence over the closing one. */
  lemma {:induction false} DrainFailsExactlyOnReaderFailure(s: LoaderState, batchSize: nat)
    requires batchSize > 0 && !s.closed
    ensures Drain(s, batchSize).Failure? <==> s.readFails || s.closeFails
    ensures Drain(s, batchSize).Failure? ==>
              Drain(s, batchSize).error == if s.readFails then DeserializationError else ReaderCloseError
    decreases |s.lines|
  {
    if !s.readFails && !s.closeFails {
      DrainDeliversEveryLine(s, batchSize);
    } else {
      var step := NextBatchStep(s, batchSize);
      if |s.lines| >= batchSize {
        DrainFailsExactlyOnReaderFailure(step.after, batchSize);
      }
    }
  }

  class CsvParameterEntryBatchLoader {
    const reader: CsvLineReader
    var closed: bool

    /** A new loader is open. */
    constructor (reader: CsvLineReader)
      ensures this.reader == reader && !closed
    {
      this.reader := reader;
      closed := false;
    }

    predicate HasMore()
      reads this
    {
      !closed
    }

    function State(): LoaderState
      reads this, reader
    {
      LoaderState(reader.lines, closed, reader.readFails, reader.closeFails)
    }

    /** Reads the next batch of at most `batchSize` entries. */
    method NextBatch(batchSize: nat) returns (r: Result<seq<ParameterEntry>, SerializationError>)
      modifies this, reader
      ensures BatchStep(r, State()) == NextBatchStep(old(State()), batchSize)
      ensures closed && !old(closed) ==> reader.closed
      ensures !(closed && !old(closed)) ==> reader.closed == old(reader.closed)
    {
      var entries: seq<ParameterEntry> := [];
      if !closed {
        var entriesRead := 0;
        while entriesRead < batchSize
          invariant entriesRead <= batchSize && entriesRead <= |old(reader.lines)|
          invariant reader.lines == old(reader.lines)[entriesRead..]
          invariant entries == EntriesOf(old(reader.lines)[..entriesRead])
          invariant closed == old(closed) && reader.closed == old(reader.closed)
        {
          var line := reader.Read();
          if line.ReadError? {
            return Failure(DeserializationError);
          }
          if line.EndOfInput? {
            break;
          }
          assert old(reader.lines)[..entriesRead + 1] == old(reader.lines)[..entriesRead] + [line.line];
          entries := entries + [CreateParameterEntry(line.line)];
          entriesRead := entriesRead + 1;
        }
        assert entriesRead < batchSize ==> entriesRead == |old(reader.lines)|;
        if entriesRead < batchSize {
          assert old(reader.lines)[..entriesRead] == old(reader.lines);
          var outcome := Close();
          if outcome.Fail? {
            return Failure(outcome.error);
          }
        }
      }
      return Success(entries);
    }

    /** Closes the reader once; the loader is closed only if that succeeded. */
    method Close() returns (outcome: Outcome<SerializationError>)
      modifies this, reader
      ensures reader.lines == old(reader.lines)
      ensures old(closed) ==> outcome == Pass && closed && reader.closed == old(reader.closed)
      ensures !old(closed) ==> (outcome.Pass? <==> !reader.closeFails) && closed == outcome.Pass?
      ensures !old(closed) && outcome.Pass? ==> reader.closed
      ensures reader.closed == (old(reader.closed) || (!old(closed) && outcome.Pass?))
      ensures outcome.Fail? ==> outcome.error == ReaderCloseError
    {
      if closed {
        return Pass;
      }
      var ok := reader.Close();
      if !ok {
        return Fail(ReaderCloseError);
      }
      closed := true;
      return Pass;
    }
  }
}
