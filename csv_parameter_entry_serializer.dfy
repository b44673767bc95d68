/** Writing a parameter's entries as CSV: a header row with the level names,
    then one row per entry, drained from a batch loader 500 entries at a
    time. The writer is closed on every path, and an error while closing it
    replaces whatever the serialization itself ended with.

    The CSV writer itself is not part of this model: it is CsvRowWriter, the
    rows written so far, with an optional capacity after which writing a row
    raises an I/O error and an optional failure on closing. */
module CsvEntrySerialization {
  import opened Wrappers
  import opened CsvEntryLoading
  import opened SerializationException

  datatype Level = Level(name: string)

  datatype Parameter = Parameter(levels: seq<Level>)

  const EntryBatchSize: nat := 500

  class CsvRowWriter {
    var rows: seq<seq<string>>
    const capacity: Option<nat>
    const closeFails: bool
    var closed: bool

    constructor (capacity: Option<nat>, closeFails: bool)
      ensures rows == [] && this.capacity == capacity && this.closeFails == closeFails && !closed
    {
      rows := [];
      this.capacity := capacity;
      this.closeFails := closeFails;
      closed := false;
    }

    predicate CanWrite()
      reads this
    {
      !closed && (capacity.None? || |rows| < capacity.value)
    }

    /** Appends a row; an I/O error when closed or full. */
    method Write(row: seq<string>) returns (ok: bool)
      modifies this
      ensures ok == old(CanWrite())
      ensures rows == if ok then old(rows) + [row] else old(rows)
      ensures closed == old(closed)
    {
      ok := CanWrite();
      if ok {
        rows := rows + [row];
      }
    }

    method Close() returns (ok: bool)
      modifies this
      ensures ok == !closeFails
      ensures closed == (old(closed) || ok) && rows == old(rows)
    {
      ok := !closeFails;
      if ok {
        closed := true;
      }
    }
  }

  function LevelNames(levels: seq<Level>): (names: seq<string>)
    ensures |names| == |levels|
    ensures forall i :: 0 <= i < |levels| ==> names[i] == levels[i].name
  {
    seq(|levels|, i requires 0 <= i < |levels| => levels[i].name)
  }

  /** The header row: the names of the parameter's levels, in level order. */
  method ExtractHeader(parameter: Parameter) returns (header: seq<string>)
    ensures header == LevelNames(parameter.levels)
  {
    header := [];
    for i := 0 to |parameter.levels|
      invariant header == LevelNames(parameter.levels[..i])
    {
      header := header + [parameter.levels[i].name];
    }
    assert parameter.levels[..|parameter.levels|] == parameter.levels;
  }

  /** The lines a loader still has to deliver: none once it is closed. */
  function Pending(loader: CsvParameterEntryBatchLoader): seq<Line>
    reads loader, loader.reader
  {
    if loader.closed then [] else loader.reader.lines
  }

  /** The serializer's inner loop: writes each entry's levels as a row,
      stopping at the first I/O error. */
  method WriteRows(writer: CsvRowWriter, entries: seq<ParameterEntry>) returns (ok: bool, count: nat)
    requires !writer.closed
    modifies writer
    ensures |writer.rows| == |old(writer.rows)| + count
    ensures ok <==> |entries| == 0 || writer.capacity.None? || |old(writer.rows)| + |entries| <= writer.capacity.value
    ensures ok ==> writer.rows == old(writer.rows) + LinesOf(entries)
    ensures IsPrefix(old(writer.rows), writer.rows) && IsPrefix(writer.rows, old(writer.rows) + LinesOf(entries))
    ensures !writer.closed
  {
    ok, count := true, 0;
    for i := 0 to |entries|
      invariant !writer.closed && count == i
      invariant writer.rows == old(writer.rows) + LinesOf(entries[..i])
      invariant writer.capacity.Some? && i > 0 ==> |old(writer.rows)| + i <= writer.capacity.value
    {
      var rowWritten := writer.Write(entries[i].levels);
      if !rowWritten {
        ok := false;
        PrefixOfAppend(writer.rows, old(writer.rows) + LinesOf(entries[..i]), LinesOf(entries[i..]));
        assert LinesOf(entries[..i]) + LinesOf(entries[i..]) == LinesOf(entries) by {
          assert entries[..i] + entries[i..] == entries;
          LinesOfAppend(entries[..i], entries[i..]);
        }
        return;
      }
      assert LinesOf(entries[..i + 1]) == LinesOf(entries[..i]) + [entries[i].levels];
      count := count + 1;
    }
    assert entries[..|entries|] == entries;
  }

  lemma LinesOfAppend(a: seq<ParameterEntry>, b: seq<ParameterEntry>)
    ensures LinesOf(a + b) == LinesOf(a) + LinesOf(b)
  {
    assert forall i :: 0 <= i < |a + b| ==> LinesOf(a + b)[i] == (LinesOf(a) + LinesOf(b))[i];
  }

  /** `a` is an initial part of `b`: what a writer that stopped early wrote. */
  ghost predicate IsPrefix<T>(a: seq<T>, b: seq<T>)
  {
    |a| <= |b| && b[..|a|] == a
  }

  lemma PrefixOfAppend<T>(a: seq<T>, b: seq<T>, c: seq<T>)
    requires IsPrefix(a, b)
    ensures IsPrefix(a, b + c)
  {
    assert (b + c)[..|a|] == b[..|a|];
  }

  lemma PrefixTransitive<T>(a: seq<T>, b: seq<T>, c: seq<T>)
    requires IsPrefix(a, b) && IsPrefix(b, c)
    ensures IsPrefix(a, c)
  {
    assert c[..|a|] == c[..|b|][..|a|];
  }

  /** One pass of the serializer's outer loop: reads the next batch and
      writes each of its entries as a row; `count` is the number of rows it
      wrote. `target` is everything still to be written, `base` what was
      written before. */
  method WriteNextBatch(writer: CsvRowWriter, loader: CsvParameterEntryBatchLoader,
                        ghost base: seq<seq<string>>, ghost target: seq<seq<string>>)
    returns (outcome: Outcome<SerializationError>, count: nat)
    requires !writer.closed && !loader.closed
    requires IsPrefix(base, writer.rows) && writer.rows + Pending(loader) == target
    modifies writer, loader, loader.reader
    ensures |writer.rows| == |old(writer.rows)| + count
    ensures !writer.closed && |loader.reader.lines| <= old(|loader.reader.lines|)
    ensures IsPrefix(base, writer.rows) && IsPrefix(writer.rows, target)
    ensures outcome.Pass? ==> writer.rows + Pending(loader) == target
    ensures outcome.Pass? ==> loader.closed || |loader.reader.lines| < old(|loader.reader.lines|)
    ensures outcome.Pass? && loader.closed ==> !loader.reader.readFails && !loader.reader.closeFails
    ensures outcome.Pass? && count > 0 && writer.capacity.Some? ==> |writer.rows| <= writer.capacity.value
    ensures outcome.Fail? ==>
              || loader.reader.readFails || loader.reader.closeFails
              || (writer.capacity.Some? && |old(Pending(loader))| > 0 && |target| > writer.capacity.value)
    ensures outcome.Fail? ==> outcome.error != WriterCloseError
    ensures outcome.Fail? && !loader.reader.readFails && !loader.reader.closeFails ==> outcome.error == SerializationFailure
  {
    ghost var remaining := Pending(loader);
    var batch := loader.NextBatch(EntryBatchSize);
    if batch.Failure? {
      PrefixOfAppend(writer.rows, writer.rows, remaining);
      return Fail(batch.error), 0;
    }
    var entries := batch.value;
    assert remaining == LinesOf(entries) + Pending(loader);
    ghost var rowsBefore := writer.rows;
    var batchWritten;
    batchWritten, count := WriteRows(writer, entries);
    PrefixTransitive(base, rowsBefore, writer.rows);
    if !batchWritten {
      PrefixOfAppend(writer.rows, rowsBefore + LinesOf(entries), Pending(loader));
      assert rowsBefore + LinesOf(entries) + Pending(loader) == target;
      return Fail(SerializationFailure), count;
    }
    assert writer.rows + Pending(loader) == target;
    PrefixOfAppend(writer.rows, writer.rows, Pending(loader));
    return Pass, count;
  }

  /** The serializer's outer loop: while the loader has more, writes every
      entry of its next batch. `counter` is the number of entry rows written. */
  method WriteAllEntries(writer: CsvRowWriter, loader: CsvParameterEntryBatchLoader)
    returns (outcome: Outcome<SerializationError>, counter: nat)
    requires !writer.closed
    modifies writer, loader, loader.reader
    ensures |writer.rows| == |old(writer.rows)| + counter
    ensures outcome.Pass? <==>
              && (old(loader.closed) || (!loader.reader.readFails && !loader.reader.closeFails))
              && (|old(Pending(loader))| == 0 || writer.capacity.None?
                  || |old(writer.rows)| + |old(Pending(loader))| <= writer.capacity.value)
    ensures outcome.Pass? ==> writer.rows == old(writer.rows) + old(Pending(loader)) && loader.closed
    ensures IsPrefix(old(writer.rows), writer.rows)
    ensures IsPrefix(writer.rows, old(writer.rows) + old(Pending(loader)))
    ensures outcome.Fail? ==> outcome.error != WriterCloseError
    ensures outcome.Fail? && !loader.reader.readFails && !loader.reader.closeFails ==> outcome.error == SerializationFailure
    ensures !writer.closed
  {
    counter := 0;
    ghost var base := writer.rows;
    ghost var pending := Pending(loader);
    ghost var target := base + pending;
    ghost var readerSound := loader.closed || (!loader.reader.readFails && !loader.reader.closeFails);
    ghost var fits := |pending| == 0 || writer.capacity.None? || |target| <= writer.capacity.value;
    PrefixOfAppend(base, base, []);
    outcome := Pass;
    while loader.HasMore()
      invariant outcome == Pass && !writer.closed
      invariant |writer.rows| == |base| + counter
      invariant IsPrefix(base, writer.rows) && writer.rows + Pending(loader) == target
      invariant old(loader.closed) ==> loader.closed
      invariant loader.closed && !old(loader.closed) ==> !loader.reader.readFails && !loader.reader.closeFails
      invariant writer.capacity.Some? && counter > 0 ==> |writer.rows| <= writer.capacity.value
      decreases |loader.reader.lines|, !loader.closed
    {
      var count;
      outcome, count := WriteNextBatch(writer, loader, base, target);
      counter := counter + count;
      if outcome.Fail? {
        assert !(readerSound && fits);
        return;
      }
    }
    assert writer.rows == target;
    assert readerSound && fits;
    PrefixOfAppend(writer.rows, writer.rows, []);
  }

  /** Serializes the parameter's entries: the header, then every entry the
      loader delivers, in order; then the writer is closed whatever happened. */
  method Serialize(writer: CsvRowWriter, parameter: Parameter, loader: CsvParameterEntryBatchLoader)
    returns (outcome: Outcome<SerializationError>)
    modifies writer, loader, loader.reader
    ensures outcome.Pass? <==>
              && !old(writer.closed)
              && !writer.closeFails
              && (old(loader.closed) || (!loader.reader.readFails && !loader.reader.closeFails))
              && (writer.capacity.None?
                  || |old(writer.rows)| + 1 + |old(Pending(loader))| <= writer.capacity.value)
    ensures outcome.Pass? ==>
              writer.rows == old(writer.rows) + [LevelNames(parameter.levels)] + old(Pending(loader)) && loader.closed
    ensures IsPrefix(old(writer.rows), writer.rows)
    ensures IsPrefix(writer.rows, old(writer.rows) + [LevelNames(parameter.levels)] + old(Pending(loader)))
    ensures writer.closeFails ==> outcome == Fail(WriterCloseError)
    ensures outcome.Fail? && !writer.closeFails && !loader.reader.readFails && !loader.reader.closeFails ==>
              outcome == Fail(SerializationFailure)
    ensures !writer.closeFails ==> writer.closed
  {
    var header := ExtractHeader(parameter);
    var written := writer.Write(header);
    if !written {
      outcome := Fail(SerializationFailure);
    } else {
      var counter;
      outcome, counter := WriteAllEntries(writer, loader);
      if outcome.Fail? {
        PrefixOfAppend(writer.rows, old(writer.rows) + [header] + old(Pending(loader)), []);
      }
    }
    var closedCleanly := writer.Close();
    if !closedCleanly {
      outcome := Fail(WriterCloseError);
    }
  }
}
