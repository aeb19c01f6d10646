/** The AlleleAppendingFileWriter of the top-level package: alleles are
    appended to one temporary partition file per chromosome as Exomiser VCF
    lines whose INFO column holds the values only; mergeToFile reads every
    partition back, merges alleles with the same key and writes them sorted. */
module RootWriter {
  import opened Wrappers
  import opened JavaText
  import opened JavaFloat
  import opened AlleleProperties
  import opened Alleles
  import opened ChromosomeParser
  import opened VcfParser
  import opened AlleleMerging
  import ExomiserParser

  // ---------------------------------------------------------------------------
  // The line of an allele
  // ---------------------------------------------------------------------------

  /** infoString: the "KEY=value" entries of the values, joined by ';'. */
  function InfoString(values: map<AlleleProperty, Float>): string {
    Join(ValueEntries(values), ';')
  }

  /** makeInfoFields: the info string, or "." when there are no values. */
  function MakeInfoFields(r: AlleleRecord): string {
    if InfoString(r.values) == "" then "." else InfoString(r.values)
  }

  /** toLine: chromosome, position, rsId, ref, alt, two "." columns and the
      INFO column, tab-separated and ended by a line break. */
  function ToLine(r: AlleleRecord): string {
    IntToString(r.chr) + "\t" + IntToString(r.pos) + "\t" + r.rsId + "\t" + r.ref + "\t" + r.alt + "\t" +
    ".\t.\t" + MakeInfoFields(r) + "\n"
  }

  /** The eight columns of a line. */
  function Columns(r: AlleleRecord): (c: seq<string>)
    ensures |c| == 8 && c[0] == IntToString(r.chr) && c[1] == IntToString(r.pos)
    ensures c[2] == r.rsId && c[3] == r.ref && c[4] == r.alt
    ensures c[5] == "." && c[6] == "." && c[7] == MakeInfoFields(r)
  {
    [IntToString(r.chr), IntToString(r.pos), r.rsId, r.ref, r.alt, ".", ".", MakeInfoFields(r)]
  }

  /** A line without its line break. */
  function Body(r: AlleleRecord): string {
    Join(Columns(r), '\t')
  }

  /** Four columns joined by tabs. */
  lemma TabJoinFour(a: string, b: string, c: string, d: string)
    ensures Join([a, b, c, d], '\t') == a + "\t" + b + "\t" + c + "\t" + d
  {
    JoinCons(c, [d], '\t');
    assert [c] + [d] == [c, d];
    JoinCons(b, [c, d], '\t');
    assert [b] + [c, d] == [b, c, d];
    JoinCons(a, [b, c, d], '\t');
    assert [a] + [b, c, d] == [a, b, c, d];
  }

  /** Eight columns joined by tabs, as toLine concatenates them. */
  lemma TabJoin(a: string, b: string, c: string, d: string, e: string, f: string, g: string, h: string)
    ensures Join([a, b, c, d, e, f, g, h], '\t') ==
      a + "\t" + b + "\t" + c + "\t" + d + "\t" + e + "\t" + f + "\t" + g + "\t" + h
  {
    var tail := e + "\t" + f + "\t" + g + "\t" + h;
    TabJoinFour(e, f, g, h);
    JoinCons(d, [e, f, g, h], '\t');
    assert [d] + [e, f, g, h] == [d, e, f, g, h];
    JoinCons(c, [d, e, f, g, h], '\t');
    assert [c] + [d, e, f, g, h] == [c, d, e, f, g, h];
    JoinCons(b, [c, d, e, f, g, h], '\t');
    assert [b] + [c, d, e, f, g, h] == [b, c, d, e, f, g, h];
    JoinCons(a, [b, c, d, e, f, g, h], '\t');
    assert [a] + [b, c, d, e, f, g, h] == [a, b, c, d, e, f, g, h];
    assert Join([a, b, c, d, e, f, g, h], '\t') == a + "\t" + b + "\t" + c + "\t" + d + "\t" + tail;
  }

  /** toLine is the tab-joined columns and a line break. */
  lemma ToLineIsBody(r: AlleleRecord)
    ensures ToLine(r) == Body(r) + "\n"
  {
    TabLine(IntToString(r.chr), IntToString(r.pos), r.rsId, r.ref, r.alt, MakeInfoFields(r));
  }

  /** The concatenation of toLine is the tab-joined columns and a line break. */
  lemma TabLine(a: string, b: string, c: string, d: string, e: string, h: string)
    ensures a + "\t" + b + "\t" + c + "\t" + d + "\t" + e + "\t" + ".\t.\t" + h + "\n" ==
      Join([a, b, c, d, e, ".", ".", h], '\t') + "\n"
  {
    TabJoin(a, b, c, d, e, ".", ".", h);
    var x := a + "\t" + b + "\t" + c + "\t" + d + "\t" + e + "\t";
    assert x + ".\t.\t" == x + "." + "\t" + "." + "\t";
  }

  // ---------------------------------------------------------------------------
  // Reading a line back
  // ---------------------------------------------------------------------------

  /** Text that stays one column of one line: no tab, and none of the
      characters at which BufferedReader.readLine ends a line. */
  predicate Clean(s: string) {
    '\t' !in s && '\n' !in s && '\r' !in s
  }

  /** An allele whose line the Exomiser parser reads back as itself: a
      chromosome Byte.parseByte accepts, a position Integer.parseInt accepts,
      no tab, '\n' or '\r' in the text columns, no ';' in the rsId (which is
      split at ';'), and upper-case bases with a single ALT (the parser
      upper-cases and splits the ALT column at ','). */
  predicate Writable(r: AlleleRecord) {
    -128 <= r.chr <= 127 && IntMin <= r.pos <= IntMax &&
    Clean(r.rsId) && ';' !in r.rsId &&
    Clean(r.ref) && IsUpper(r.ref) &&
    Clean(r.alt) && ',' !in r.alt && IsUpper(r.alt)
  }

  /** A printed number: digits, perhaps after a '-'. */
  lemma NumberText(n: int)
    ensures Clean(IntToString(n)) && IntToString(n)[0] != '#'
  {
    var s := IntToString(n);
    forall i | 0 <= i < |s| ensures s[i] != '\t' && s[i] != '\n' && s[i] != '\r' {
      if n < 0 && i > 0 {
        assert s[i] == s[1..][i - 1];
      }
    }
  }

  /** The info string is empty exactly when there are no values, and holds
      no tab or line break. */
  lemma InfoStringShape(values: map<AlleleProperty, Float>)
    ensures InfoString(values) == "" <==> values == map[]
    ensures Clean(InfoString(values))
  {
    ValueEntriesShape(values);
    JoinEmpty(ValueEntries(values), ';');
    JoinFree(ValueEntries(values), ';', '\t');
    JoinFree(ValueEntries(values), ';', '\n');
    JoinFree(ValueEntries(values), ';', '\r');
    if values != map[] {
      var p :| p in values;
      assert p in OrderedKeys(values);
    }
  }

  /** An INFO column of "." holds no values. */
  lemma DotRead()
    ensures ExomiserParser.ExomiserValues(".") == Ok(map[])
  {
    assert Trim(".") == ".";
  }

  /** The INFO column reads back as the values. */
  lemma InfoRead(r: AlleleRecord)
    ensures ExomiserParser.ExomiserValues(MakeInfoFields(r)) == Ok(r.values)
    ensures MakeInfoFields(r) != "" && Clean(MakeInfoFields(r))
  {
    InfoStringShape(r.values);
    if r.values != map[] {
      ExomiserParser.ValuesRoundTrip(r.values);
    } else {
      DotRead();
    }
  }

  /** The first five columns read as a single new allele with the line's
      identity and rsId. */
  lemma IdentityRead(r: AlleleRecord, c: seq<string>)
    requires Writable(r) && |c| >= 5
    requires c[0] == IntToString(r.chr) && c[1] == IntToString(r.pos)
    requires c[2] == r.rsId && c[3] == r.ref && c[4] == r.alt
    ensures ReadAlleles(c) == Ok([NewRecord(r.chr, r.pos, r.ref, r.alt).(rsId := r.rsId)])
  {
    IntToStringRoundTrip(r.pos, IntMin, IntMax);
    ParseChrOfNumber(r.chr);
    ToUpperOfUpper(r.ref);
    ToUpperOfUpper(r.alt);
    assert Alts(c[4]) == [r.alt];
    assert Split(c[2], ';') == [r.rsId];
    var rs := ReadAlleles(c).value;
    assert rs == [rs[0]];
  }

  /** Eight clean columns of which the first cannot start a header. */
  lemma LineSplit(c: seq<string>)
    requires |c| == 8 && c[0] != "" && c[0][0] != '#' && c[7] != ""
    requires Clean(c[0]) && Clean(c[1]) && Clean(c[2]) && Clean(c[3])
    requires Clean(c[4]) && Clean(c[5]) && Clean(c[6]) && Clean(c[7])
    ensures Split(Join(c, '\t'), '\t') == c
    ensures '\n' !in Join(c, '\t') && !StartsWith(Join(c, '\t'), "#")
  {
    forall i | 0 <= i < 8 ensures Clean(c[i]) {
      if i == 0 {
      } else if i == 1 {
      } else if i == 2 {
      } else if i == 3 {
      } else if i == 4 {
      } else if i == 5 {
      } else if i == 6 {
      }
    }
    SplitJoin(c, '\t');
    JoinFree(c, '\t', '\n');
    JoinEnds(c, '\t');
  }

  /** The columns of a writable allele's line split back out of it. */
  lemma ColumnsSplit(r: AlleleRecord)
    requires Writable(r)
    ensures Split(Body(r), '\t') == Columns(r)
    ensures '\n' !in Body(r) && !StartsWith(Body(r), "#")
  {
    var c := Columns(r);
    NumberText(r.chr);
    NumberText(r.pos);
    InfoStringShape(r.values);
    assert Clean(".");
    LineSplit(c);
  }

  /** Columns holding a writable allele's identity and rsId, and an INFO
      column that reads as its values, read as that allele. */
  lemma FieldsReadBack(r: AlleleRecord, c: seq<string>)
    requires Writable(r) && |c| == 8
    requires c[0] == IntToString(r.chr) && c[1] == IntToString(r.pos)
    requires c[2] == r.rsId && c[3] == r.ref && c[4] == r.alt
    requires ExomiserParser.ExomiserValues(c[7]) == Ok(r.values)
    ensures FieldsAlleles(Exomiser, c) == Ok([r])
  {
    var rec := NewRecord(r.chr, r.pos, r.ref, r.alt).(rsId := r.rsId);
    IdentityRead(r, c);
    ExomiserFieldsRead(c, rec, r.values);
    IdentityFilled(r);
  }

  /** The columns of a writable allele read as that allele. */
  lemma ColumnsRead(r: AlleleRecord)
    requires Writable(r)
    ensures FieldsAlleles(Exomiser, Columns(r)) == Ok([r])
  {
    InfoRead(r);
    FieldsReadBack(r, Columns(r));
  }

  /** A saved allele's text is one line, its body. */
  lemma BodyLine(r: AlleleRecord)
    requires Writable(r)
    ensures Lines(ToLine(r)) == [Body(r)]
  {
    ColumnsSplit(r);
    ToLineIsBody(r);
    LinesOfOne(Body(r));
  }

  /** A saved allele's line is read by the Exomiser parser as that allele:
      the identity, the rsId and every value come back. */
  lemma LineRoundTrip(r: AlleleRecord)
    requires Writable(r)
    ensures Lines(ToLine(r)) == [Body(r)]
    ensures LineAlleles(Exomiser, Body(r)) == Ok([r])
  {
    ColumnsSplit(r);
    ColumnsRead(r);
    BodyLine(r);
  }

  /** A partition of saved alleles reads back as the merge of those alleles,
      in the order they were saved. */
  lemma SavedAllelesReadBack(recs: seq<AlleleRecord>)
    requires forall i :: 0 <= i < |recs| ==> Writable(recs[i])
    ensures ReadPartition(Lines(Written(recs, ToLine))) == MergeAll(map[], recs)
  {
    var ls := Bodies(recs, Body);
    forall i | 0 <= i < |recs| ensures ToLine(recs[i]) == Body(recs[i]) + "\n" {
      ToLineIsBody(recs[i]);
    }
    WrittenText(recs, ToLine, Body);
    forall i | 0 <= i < |recs| ensures '\n' !in ls[i] && LineAlleles(Exomiser, ls[i]) == Ok([recs[i]]) {
      ColumnsSplit(recs[i]);
      LineRoundTrip(recs[i]);
    }
    LinesOfText(ls);
    ReadLinesOfSingles(map[], ls, recs);
  }

  /** The same allele saved twice is merged into one: the later record, with
      the earlier values on shared properties, the union of the properties,
      and the earlier rsId if the later one has none. */
  lemma SavedTwiceMerged(first: AlleleRecord, second: AlleleRecord)
    requires Writable(first) && Writable(second) && SameAllele(first, second)
    ensures ReadPartition(Lines(Written([first, second], ToLine))) ==
      map[Key(second) := MergeRecords(first, second)]
  {
    SavedAllelesReadBack([first, second]);
    KeyOfSame(first, second);
    MergeTwo(first, second);
  }

  // ---------------------------------------------------------------------------
  // The writer
  // ---------------------------------------------------------------------------

  /** prepareWriters: every partition file is created if absent and opened
      for appending. */
  method PrepareWriters(existing: map<int, string>) returns (files: map<int, string>, writers: set<int>)
    ensures files == Partitions(existing)
    ensures writers == files.Keys
  {
    files, writers := map[], {};
    for i := 1 to NumChromosomes
      invariant files == map j | 1 <= j < i :: if j in existing then existing[j] else ""
      invariant writers == files.Keys
    {
      files := files[i := if i in existing then existing[i] else ""];
      writers := writers + {i};
    }
  }

  class AlleleAppendingFileWriter {
    /** The text of each chromosome's partition file. */
    var files: map<int, string>
    /** The chromosomes with a writer in bufferedWriterMap. */
    var writers: set<int>
    /** Whether mergeToFile has closed the writers. */
    var closed: bool
    /** The number of alleles saved. */
    var count: nat

    ghost predicate Valid()
      reads this
    {
      AllPartitions(files) && writers <= files.Keys
    }

    /** A writer over a working directory in which `existing` gives the text
        of the partition files already there. */
    constructor (existing: map<int, string>)
      ensures Valid()
      ensures files == Partitions(existing) && writers == files.Keys
      ensures count == 0 && !closed
    {
      var f, w := PrepareWriters(existing);
      files, writers := f, w;
      count, closed := 0, false;
    }

    /** save: the allele's line is appended to its chromosome's partition
        and counted; with no open writer for the chromosome (one outside 1 to
        25, or after mergeToFile) the exception is caught and nothing changes. */
    method Save(allele: Allele)
      requires Valid()
      modifies this
      ensures Valid() && writers == old(writers) && closed == old(closed)
      ensures if !closed && allele.chr in writers then
                files == old(files)[allele.chr := old(files)[allele.chr] + ToLine(allele.Snapshot())] &&
                count == old(count) + 1
              else files == old(files) && count == old(count)
    {
      var line := ToLine(allele.Snapshot());
      if !closed && allele.chr in writers {
        files := files[allele.chr := files[allele.chr] + line];
        count := count + 1;
      }
    }

    /** count. */
    function Count(): nat
      reads this
    {
      count
    }

    /** mergeToFile: the writers are closed and the merged file is the sorted,
        merged alleles of every partition in chromosome order. */
    method MergeToFile() returns (merged: string, ghost listings: seq<seq<AlleleRecord>>)
      requires Valid()
      modifies this
      ensures Valid() && closed
      ensures files == old(files) && writers == old(writers) && count == old(count)
      ensures |listings| == NumChromosomes - 1 && ListsPartitions(listings, files)
      ensures merged == Output(listings, ToLine)
    {
      closed := true;
      merged, listings := MergeAllelesByChromosome(files, ToLine);
    }
  }
}
