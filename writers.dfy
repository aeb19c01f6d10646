/** The AlleleAppendingFileWriter of the writers package: as the top-level
    writer, but its INFO column is generateInfoField, which puts "RS=<rsId>"
    before the values when the rsId is known, and a partition file that is
    already in the working directory gets no writer. */
module Writers {
  import opened Wrappers
  import opened JavaText
  import opened JavaFloat
  import opened AlleleProperties
  import opened Alleles
  import opened VcfParser
  import opened AlleleMerging
  import opened Folds
  import RootWriter
  import ExomiserParser

  // ---------------------------------------------------------------------------
  // The line of an allele
  // ---------------------------------------------------------------------------

  /** makeInfoFields: generateInfoField, or "." when it is empty. */
  function MakeInfoFields(r: AlleleRecord): string {
    if InfoField(r) == "" then "." else InfoField(r)
  }

  /** toLine: a StringJoiner on tabs over chromosome, position, rsId, ref,
      alt, two "." columns and the INFO column with the line break added. */
  function ToLine(r: AlleleRecord): string {
    Join([IntToString(r.chr), IntToString(r.pos), r.rsId, r.ref, r.alt, ".", ".", MakeInfoFields(r) + "\n"], '\t')
  }

  /** The eight columns of a line. */
  function Columns(r: AlleleRecord): (c: seq<string>)
    ensures |c| == 8 && c[0] == IntToString(r.chr) && c[1] == IntToString(r.pos)
    ensures c[2] == r.rsId && c[3] == r.ref && c[4] == r.alt
    ensures c[5] == "." && c[6] == "." && c[7] == MakeInfoFields(r)
  {
    [IntToString(r.chr), IntToString(r.pos), r.rsId, r.ref, r.alt, ".", ".", MakeInfoFields(r)]
  }

  /** A line without its line break. */
  function Body(r: AlleleRecord): string {
    Join(Columns(r), '\t')
  }

  /** toLine is the tab-joined columns and a line break. */
  lemma ToLineIsBody(r: AlleleRecord)
    ensures ToLine(r) == Body(r) + "\n"
  {
    var c := Columns(r);
    assert c[..7] + [c[7] + "\n"] ==
      [IntToString(r.chr), IntToString(r.pos), r.rsId, r.ref, r.alt, ".", ".", MakeInfoFields(r) + "\n"];
    JoinAppend(c, "\n", '\t');
  }

  /** With no rsId the line is the top-level writer's line. */
  lemma UnknownRsIdLineAsRoot(r: AlleleRecord)
    requires r.rsId == UnknownRsId
    ensures Body(r) == RootWriter.Body(r)
    ensures ToLine(r) == RootWriter.ToLine(r)
  {
    assert InfoEntries(r) == ValueEntries(r.values);
    assert Columns(r) == RootWriter.Columns(r);
    ToLineIsBody(r);
    RootWriter.ToLineIsBody(r);
  }

  // ---------------------------------------------------------------------------
  // Reading a line back
  // ---------------------------------------------------------------------------

  /** The "RS=" token of a clean rsId is clean. */
  lemma RsTokenClean(id: string)
    requires RootWriter.Clean(id)
    ensures RootWriter.Clean("RS=" + id)
  {
    var t := "RS=" + id;
    forall i | 0 <= i < |t| ensures t[i] != '\t' && t[i] != '\n' && t[i] != '\r' {
      if i >= 3 {
        assert t[i] == id[i - 3];
      }
    }
  }

  /** The INFO column holds no tab or line break. */
  lemma InfoFieldClean(r: AlleleRecord)
    requires RootWriter.Writable(r)
    ensures RootWriter.Clean(InfoField(r))
  {
    var es := InfoEntries(r);
    var vs := ValueEntries(r.values);
    ValueEntriesShape(r.values);
    if r.rsId != UnknownRsId {
      ExomiserParser.RsEntry(r);
      RsTokenClean(r.rsId);
      forall i | 0 <= i < |es| ensures RootWriter.Clean(es[i]) {
        if i > 0 {
          assert es[i] == vs[i - 1];
        }
      }
    } else {
      assert es == vs;
    }
    JoinFree(es, ';', '\t');
    JoinFree(es, ';', '\n');
    JoinFree(es, ';', '\r');
  }

  /** The columns of a writable allele's line split back out of it. */
  lemma ColumnsSplit(r: AlleleRecord)
    requires RootWriter.Writable(r)
    ensures Split(Body(r), '\t') == Columns(r)
    ensures '\n' !in Body(r) && !StartsWith(Body(r), "#")
  {
    InfoFieldClean(r);
    RootWriter.NumberText(r.chr);
    RootWriter.NumberText(r.pos);
    assert RootWriter.Clean(".");
    RootWriter.LineSplit(Columns(r));
  }

  /** Columns holding a writable allele's identity, and an INFO column the
      Exomiser decoder rejects, fail with the decoder's exception. */
  lemma ColumnsRejected(r: AlleleRecord, c: seq<string>, e: Exception)
    requires RootWriter.Writable(r) && |c| == 8
    requires c[0] == IntToString(r.chr) && c[1] == IntToString(r.pos)
    requires c[2] == r.rsId && c[3] == r.ref && c[4] == r.alt
    requires ExomiserParser.ExomiserValues(c[7]) == Err(e)
    ensures FieldsAlleles(Exomiser, c) == Err(e)
  {
    var rec := NewRecord(r.chr, r.pos, r.ref, r.alt).(rsId := r.rsId);
    RootWriter.IdentityRead(r, c);
    assert Additions(Exomiser, c[7], 1) == ExomiserParser.ExomiserAdditions(c[7], 1) == Err(e);
    FieldsRejected(Exomiser, c, [rec], e);
  }

  /** The line of an allele with a known rsId is rejected by the Exomiser
      parser, the exception readAndMergeAlleles catches. */
  lemma RsIdLineRejected(r: AlleleRecord)
    requires RootWriter.Writable(r) && r.rsId != UnknownRsId && ExomiserParser.NoTrailingBlank(r.rsId)
    ensures LineAlleles(Exomiser, Body(r)) == Err(IllegalArgument("RS"))
  {
    ColumnsSplit(r);
    ExomiserParser.KnownRsIdInfoTrimmed(r);
    ExomiserParser.KnownRsIdInfoRejected(r);
    ColumnsRejected(r, Columns(r), IllegalArgument("RS"));
  }

  /** The line of an allele without an rsId reads back as that allele. */
  lemma UnknownRsIdLineRead(r: AlleleRecord)
    requires RootWriter.Writable(r) && r.rsId == UnknownRsId
    ensures LineAlleles(Exomiser, Body(r)) == Ok([r])
  {
    UnknownRsIdLineAsRoot(r);
    RootWriter.LineRoundTrip(r);
  }

  /** A partition file of written alleles is read back up to, and without,
      the first allele with a known rsId: its line throws, and the rest of the
      file is dropped. With no such allele every allele comes back merged. */
  lemma PartitionReadUpToRsId(recs: seq<AlleleRecord>, k: nat)
    requires k <= |recs|
    requires forall i :: 0 <= i < |recs| ==> RootWriter.Writable(recs[i])
    requires forall i :: 0 <= i < k ==> recs[i].rsId == UnknownRsId
    requires k < |recs| ==> recs[k].rsId != UnknownRsId && ExomiserParser.NoTrailingBlank(recs[k].rsId)
    ensures ReadPartition(Lines(Written(recs, ToLine))) == MergeAll(map[], recs[..k])
  {
    var ls := Bodies(recs, Body);
    WrittenLines(recs);
    forall i | 0 <= i < k ensures LineAlleles(Exomiser, ls[i]) == Ok([recs[i]]) {
      UnknownRsIdLineRead(recs[i]);
    }
    if k < |recs| {
      RsIdLineRejected(recs[k]);
    }
    ReadPartitionUpTo(ls, recs, k);
  }

  /** A partition file of written alleles reads as one line per allele. */
  lemma WrittenLines(recs: seq<AlleleRecord>)
    requires forall i :: 0 <= i < |recs| ==> RootWriter.Writable(recs[i])
    ensures Lines(Written(recs, ToLine)) == Bodies(recs, Body)
  {
    var ls := Bodies(recs, Body);
    forall i | 0 <= i < |recs| ensures ToLine(recs[i]) == Body(recs[i]) + "\n" && '\n' !in ls[i] {
      ToLineIsBody(recs[i]);
      ColumnsSplit(recs[i]);
    }
    WrittenText(recs, ToLine, Body);
    LinesOfText(ls);
  }

  // ---------------------------------------------------------------------------
  // The writer
  // ---------------------------------------------------------------------------

  /** prepareWriters: every partition file is created if absent, and only a
      file created now is opened for appending. */
  method PrepareWriters(existing: map<int, string>) returns (files: map<int, string>, writers: set<int>)
    ensures files == Partitions(existing)
    ensures writers == set i | i in files && i !in existing
  {
    files, writers := map[], {};
    for i := 1 to NumChromosomes
      invariant files == map j | 1 <= j < i :: if j in existing then existing[j] else ""
      invariant writers == set j | j in files && j !in existing
    {
      files := files[i := if i in existing then existing[i] else ""];
      if i !in existing {
        writers := writers + {i};
      }
    }
  }

  class AlleleAppendingFileWriter {
    /** The text of each chromosome's partition file. */
    var files: map<int, string>
    /** The chromosomes with a writer in bufferedWriterMap. */
    var writers: set<int>
    /** Whether mergeToFile has closed the writers. */
    var closed: bool
    /** The number of alleles written. */
    var count: nat

    ghost predicate Valid()
      reads this
    {
      AllPartitions(files) && writers <= files.Keys
    }

    /** A writer over a working directory in which `existing` gives the text
        of the partition files already there. */
    constructor (existing: map<int, string>)
      ensures Valid()
      ensures files == Partitions(existing) && writers == set i | i in files && i !in existing
      ensures count == 0 && !closed
    {
      var f, w := PrepareWriters(existing);
      files, writers := f, w;
      count, closed := 0, false;
    }

    /** write: the allele's line is appended to its chromosome's partition
        and counted; with no open writer for the chromosome (one outside 1 to
        25, a file that was already there, or after mergeToFile) the
        exception is caught and nothing changes. */
    method Write(allele: Allele)
      requires Valid()
      modifies this
      ensures Valid() && writers == old(writers) && closed == old(closed)
      ensures if !closed && allele.chr in writers then
                files == old(files)[allele.chr := old(files)[allele.chr] + ToLine(allele.Snapshot())] &&
                count == old(count) + 1
              else files == old(files) && count == old(count)
    {
      var line := ToLine(allele.Snapshot());
      if !closed && allele.chr in writers {
        files := files[allele.chr := files[allele.chr] + line];
        count := count + 1;
      }
    }

    /** count. */
    function Count(): nat
      reads this
    {
      count
    }

    /** mergeToFile: the writers are closed and the merged file is the sorted,
        merged alleles of every partition in chromosome order. */
    method MergeToFile() returns (merged: string, ghost listings: seq<seq<AlleleRecord>>)
      requires Valid()
      modifies this
      ensures Valid() && closed
      ensures files == old(files) && writers == old(writers) && count == old(count)
      ensures |listings| == NumChromosomes - 1 && ListsPartitions(listings, files)
      ensures merged == Output(listings, ToLine)
    {
      closed := true;
      merged, listings := MergeAllelesByChromosome(files, ToLine);
    }
  }
}
