/** The line parser the four VCF sources share: the eight tab-separated
    columns CHROM POS ID REF ALT QUAL FILTER INFO give one allele per ALT,
    which the source's INFO decoder then annotates. */
module VcfParser {
  import opened Wrappers
  import opened JavaText
  import opened JavaFloat
  import opened AlleleProperties
  import opened Alleles
  import opened ChromosomeParser
  import DbSnpParser
  import EspParser
  import ExacParser
  import ExomiserParser

  /** The subclasses of the template: each supplies parseInfoField. */
  datatype Dialect = DbSnp | Esp | Exac | Exomiser

  /** The values the `n` ALTs of a line receive from its INFO column. */
  function Additions(d: Dialect, info: string, n: nat): Result<seq<map<AlleleProperty, Float>>> {
    match d
    case DbSnp => DbSnpParser.DbSnpAdditions(info, n)
    case Esp => EspParser.EspAdditions(info, n)
    case Exac => ExacParser.ExacAdditions(info, n)
    case Exomiser => ExomiserParser.ExomiserAdditions(info, n)
  }

  /** A successful decoder gives one map per ALT. */
  lemma AdditionsLength(d: Dialect, info: string, n: nat)
    requires Additions(d, info, n).Ok?
    ensures |Additions(d, info, n).value| == n
  {
    match d
    case DbSnp =>
    case Esp =>
    case Exac =>
    case Exomiser =>
  }

  /** parseInfoField, dispatched to the source's decoder. */
  method ParseInfoField(d: Dialect, alleles: seq<Allele>, info: string) returns (r: Result<seq<Allele>>)
    requires Distinct(alleles)
    modifies alleles
    ensures var adds := Additions(d, info, |alleles|);
            r == (if adds.Ok? then Ok(alleles) else Err(adds.error)) &&
            (adds.Ok? ==> Snapshots(alleles) == Annotate(old(Snapshots(alleles)), adds.value))
  {
    match d
    case DbSnp => r := DbSnpParser.ParseInfoField(alleles, info);
    case Esp => r := EspParser.ParseInfoField(alleles, info);
    case Exac => r := ExacParser.ParseInfoField(alleles, info);
    case Exomiser => r := ExomiserParser.ParseInfoField(alleles, info);
  }

  /** getCurrentRsId: the first of the ';'-separated ids, "." when there is none. */
  function CurrentRsId(rsIds: seq<string>): (id: string)
    ensures |rsIds| >= 1 ==> id == rsIds[0]
    ensures rsIds == [] ==> id == UnknownRsId
  {
    if |rsIds| >= 1 then rsIds[0] else UnknownRsId
  }

  /** The position column: Integer.parseInt of field 1, after the chromosome
      column (which never fails) has been read. */
  function Position(fields: seq<string>): (r: Result<int>)
    requires |fields| >= 1
    ensures r.Ok? <==> |fields| >= 2 && ParseInt(fields[1]).Some?
    ensures r.Ok? ==> r.value == ParseInt(fields[1]).value
    ensures r.Err? ==> r.error == (if |fields| < 2 then IndexOutOfBounds(1) else NumberFormat(fields[1]))
  {
    if |fields| < 2 then Err(IndexOutOfBounds(1))
    else
      match ParseInt(fields[1])
      case None => Err(NumberFormat(fields[1]))
      case Some(pos) => Ok(pos)
  }

  /** The ALT column, upper-cased and split at ','. */
  function Alts(field: string): seq<string> {
    Split(ToUpper(field), ',')
  }

  /** One record per ALT, each new but for the rsId. */
  function AltRecords(chr: int, pos: int, ref: string, alts: seq<string>, rsId: string): (rs: seq<AlleleRecord>)
    ensures |rs| == |alts|
    ensures forall i :: 0 <= i < |alts| ==> rs[i] == NewRecord(chr, pos, ref, alts[i]).(rsId := rsId)
  {
    seq(|alts|, i requires 0 <= i < |alts| => NewRecord(chr, pos, ref, alts[i]).(rsId := rsId))
  }

  /** The loop of parseAlleles: a new Allele per ALT, its rsId set. */
  method NewAlleles(chr: int, pos: int, ref: string, alts: seq<string>, rsId: string) returns (alleles: seq<Allele>)
    ensures Snapshots(alleles) == AltRecords(chr, pos, ref, alts, rsId)
    ensures Distinct(alleles) && fresh(set a | a in alleles)
  {
    alleles := [];
    var i := 0;
    while i < |alts|
      invariant 0 <= i <= |alts| && |alleles| == i
      invariant forall j :: 0 <= j < i ==>
        fresh(alleles[j]) && alleles[j].Snapshot() == NewRecord(chr, pos, ref, alts[j]).(rsId := rsId)
      invariant Distinct(alleles)
    {
      var allele := new Allele(chr, pos, ref, alts[i]);
      allele.SetRsId(rsId);
      alleles := alleles + [allele];
      i := i + 1;
    }
  }

  /** parseAlleles: the alleles of the columns, one per ALT, each with the
      line's chromosome, position, upper-cased REF and current rsId; the
      columns are read in order, so a missing or unreadable one fails with
      the exception Java throws first. */
  function ReadAlleles(fields: seq<string>): (r: Result<seq<AlleleRecord>>)
    ensures r.Ok? <==> |fields| >= 5 && ParseInt(fields[1]).Some?
    ensures r.Err? ==>
      r.error == (if |fields| == 0 then IndexOutOfBounds(0)
                  else if |fields| < 2 then IndexOutOfBounds(1)
                  else if ParseInt(fields[1]).None? then NumberFormat(fields[1])
                  else IndexOutOfBounds(|fields|))
    ensures r.Ok? ==> |r.value| == |Alts(fields[4])|
    ensures r.Ok? ==> forall i :: 0 <= i < |r.value| ==>
      r.value[i] == NewRecord(ParseChr(fields[0]), ParseInt(fields[1]).value, ToUpper(fields[3]), Alts(fields[4])[i])
                      .(rsId := CurrentRsId(Split(fields[2], ';')))
  {
    if |fields| == 0 then Err(IndexOutOfBounds(0))
    else
      var chr := ParseChr(fields[0]);
      match Position(fields)
      case Err(e) => Err(e)
      case Ok(pos) =>
        if |fields| < 5 then Err(IndexOutOfBounds(|fields|))
        else Ok(AltRecords(chr, pos, ToUpper(fields[3]), Alts(fields[4]), CurrentRsId(Split(fields[2], ';'))))
  }

  /** parseAlleles. */
  method ParseAlleles(fields: seq<string>) returns (r: Result<seq<Allele>>)
    ensures r.Ok? <==> ReadAlleles(fields).Ok?
    ensures r.Err? ==> r.error == ReadAlleles(fields).error
    ensures r.Ok? ==> Snapshots(r.value) == ReadAlleles(fields).value
    ensures r.Ok? ==> Distinct(r.value) && fresh(set a | a in r.value)
  {
    if |fields| == 0 {
      return Err(IndexOutOfBounds(0));
    }
    var chr := ParseChr(fields[0]);
    if |fields| < 2 {
      return Err(IndexOutOfBounds(1));
    }
    var parsed := ParseInt(fields[1]);
    if parsed.None? {
      return Err(NumberFormat(fields[1]));
    }
    var pos := parsed.value;
    if |fields| < 5 {
      return Err(IndexOutOfBounds(|fields|));
    }
    var rsIds := Split(fields[2], ';');
    var ref := ToUpper(fields[3]);
    var alts := Split(ToUpper(fields[4]), ',');
    var alleles := NewAlleles(chr, pos, ref, alts, CurrentRsId(rsIds));
    r := Ok(alleles);
  }

  /** hasNoInfoField: a line of seven columns or fewer has no INFO column. */
  predicate HasNoInfoField(fields: seq<string>) {
    |fields| <= 7
  }

  /** The alleles of the columns of a line, annotated by the decoder when
      there is an INFO column. */
  function FieldsAlleles(d: Dialect, fields: seq<string>): Result<seq<AlleleRecord>> {
    match ReadAlleles(fields)
    case Err(e) => Err(e)
    case Ok(recs) =>
      if HasNoInfoField(fields) then Ok(recs)
      else
        match Additions(d, fields[7], |recs|)
        case Err(e) => Err(e)
        case Ok(adds) =>
          AdditionsLength(d, fields[7], |recs|);
          Ok(Annotate(recs, adds))
  }

  /** parseLine: nothing for a header line ("#..."); otherwise the alleles of
      its tab-separated columns. */
  function LineAlleles(d: Dialect, line: string): Result<seq<AlleleRecord>> {
    if StartsWith(line, "#") then Ok([]) else FieldsAlleles(d, Split(line, '\t'))
  }

  /** Columns that read as alleles, with an INFO column the decoder accepts,
      give those alleles annotated by it. */
  lemma FieldsAnnotated(d: Dialect, fields: seq<string>, recs: seq<AlleleRecord>, adds: seq<map<AlleleProperty, Float>>)
    requires ReadAlleles(fields) == Ok(recs) && |fields| >= 8
    requires Additions(d, fields[7], |recs|) == Ok(adds)
    ensures |adds| == |recs|
    ensures FieldsAlleles(d, fields) == Ok(Annotate(recs, adds))
  {
    AdditionsLength(d, fields[7], |recs|);
  }

  /** Columns that read as one allele, with an INFO column the Exomiser
      decoder reads as `values`, give that allele with the values put in. */
  lemma ExomiserFieldsRead(fields: seq<string>, rec: AlleleRecord, values: map<AlleleProperty, Float>)
    requires ReadAlleles(fields) == Ok([rec]) && |fields| >= 8
    requires ExomiserParser.ExomiserValues(fields[7]) == Ok(values)
    ensures FieldsAlleles(Exomiser, fields) == Ok([rec.(values := rec.values + values)])
  {
    ExomiserAdditionsOne(fields[7], values);
    FieldsAnnotated(Exomiser, fields, [rec], Same(1, values));
    AnnotateOne(rec, values);
  }

  lemma ExomiserAdditionsOne(info: string, values: map<AlleleProperty, Float>)
    requires ExomiserParser.ExomiserValues(info) == Ok(values)
    ensures Additions(Exomiser, info, 1) == Ok(Same(1, values))
  {
    assert Additions(Exomiser, info, 1) == ExomiserParser.ExomiserAdditions(info, 1);
  }

  /** Columns that read as alleles, with an INFO column the decoder rejects,
      fail with the decoder's exception. */
  lemma FieldsRejected(d: Dialect, fields: seq<string>, recs: seq<AlleleRecord>, e: Exception)
    requires ReadAlleles(fields) == Ok(recs) && |fields| >= 8
    requires Additions(d, fields[7], |recs|) == Err(e)
    ensures FieldsAlleles(d, fields) == Err(e)
  {
  }

  /** parseLine after the header test. */
  method ParseFields(d: Dialect, fields: seq<string>) returns (r: Result<seq<Allele>>)
    ensures r.Ok? <==> FieldsAlleles(d, fields).Ok?
    ensures r.Err? ==> r.error == FieldsAlleles(d, fields).error
    ensures r.Ok? ==> Snapshots(r.value) == FieldsAlleles(d, fields).value
    ensures r.Ok? ==> Distinct(r.value) && fresh(set a | a in r.value)
  {
    var alleles := ParseAlleles(fields);
    if alleles.Err? || HasNoInfoField(fields) {
      return alleles;
    }
    var info := fields[7];
    var created := alleles.value;
    r := ParseInfoField(d, created, info);
  }

  /** parseLine. */
  method ParseLine(d: Dialect, line: string) returns (r: Result<seq<Allele>>)
    ensures r.Ok? <==> LineAlleles(d, line).Ok?
    ensures r.Err? ==> r.error == LineAlleles(d, line).error
    ensures r.Ok? ==> Snapshots(r.value) == LineAlleles(d, line).value
    ensures r.Ok? ==> Distinct(r.value) && fresh(set a | a in r.value)
  {
    if StartsWith(line, "#") {
      return Ok([]);
    }
    r := ParseFields(d, Split(line, '\t'));
  }

  // ---------------------------------------------------------------------------
  // Properties
  // ---------------------------------------------------------------------------

  /** A header or comment line gives no allele, whatever follows the '#'. */
  lemma CommentLineNoAlleles(d: Dialect, rest: string)
    ensures LineAlleles(d, "#" + rest) == Ok([])
  {
    assert StartsWith("#" + rest, "#");
  }

  /** The upper-cased bases hold no lower-case letter. */
  lemma ToUpperIsUpper(s: string)
    ensures IsUpper(ToUpper(s))
  {
  }

  /** Every allele of a line carries the line's chromosome, position and
      current rsId and upper-case bases; the ALTs appear in the column's
      order; the decoder changes only the values. */
  lemma LineAllelesIdentity(d: Dialect, line: string, i: nat)
    requires !StartsWith(line, "#") && LineAlleles(d, line).Ok?
    requires i < |LineAlleles(d, line).value|
    ensures var fields := Split(line, '\t');
            var a := LineAlleles(d, line).value[i];
            |fields| >= 5 && i < |Alts(fields[4])| &&
            a.chr == ParseChr(fields[0]) && a.pos == ParseInt(fields[1]).value &&
            a.ref == ToUpper(fields[3]) && a.alt == Alts(fields[4])[i] &&
            a.rsId == CurrentRsId(Split(fields[2], ';')) &&
            IsUpper(a.ref) && IsUpper(a.alt)
  {
    var fields := Split(line, '\t');
    ToUpperIsUpper(fields[3]);
    var alts := Alts(fields[4]);
    assert IsUpper(alts[i]) by {
      var upper := ToUpper(fields[4]);
      ToUpperIsUpper(fields[4]);
      SplitUpper(upper, ',');
    }
  }

  /** A line without an INFO column gives alleles without values. */
  lemma NoInfoNoValues(d: Dialect, line: string)
    requires !StartsWith(line, "#") && HasNoInfoField(Split(line, '\t'))
    requires LineAlleles(d, line).Ok?
    ensures forall a :: a in LineAlleles(d, line).value ==> a.values == map[]
  {
  }

  /** With an INFO column, the alleles of a line are those of the columns
      annotated by the decoder; a decoder failure is the line's failure. */
  lemma InfoAnnotates(d: Dialect, line: string)
    requires !StartsWith(line, "#")
    requires ReadAlleles(Split(line, '\t')).Ok? && !HasNoInfoField(Split(line, '\t'))
    ensures var fields := Split(line, '\t');
            var recs := ReadAlleles(fields).value;
            var adds := Additions(d, fields[7], |recs|);
            (LineAlleles(d, line).Ok? <==> adds.Ok?) &&
            (adds.Err? ==> LineAlleles(d, line) == Err(adds.error)) &&
            (adds.Ok? ==> forall i :: 0 <= i < |recs| ==>
               LineAlleles(d, line).value[i] == recs[i].(values := adds.value[i]))
  {
    var fields := Split(line, '\t');
    var recs := ReadAlleles(fields).value;
    var adds := Additions(d, fields[7], |recs|);
    if adds.Ok? {
      FieldsAnnotated(d, fields, recs, adds.value);
      AnnotateFresh(recs, adds.value);
    } else {
      FieldsRejected(d, fields, recs, adds.error);
    }
  }

  /** Merged rsIds: of an ID column "a;b", such as
      "rs200118651;rs202059104", the first id is the current one. */
  lemma MergedRsIdFirst(a: string, b: string)
    requires a != "" && ';' !in a
    ensures CurrentRsId(Split(a + ";" + b, ';')) == a
  {
    var s := a + ";" + b;
    assert s[|a|] == ';';
    SplitFirst(s, ';', a);
  }

  /** A line whose POS is not a 32-bit integer fails with a number format
      error naming the column, before REF or ALT are looked at. */
  lemma BadPositionFails(d: Dialect, line: string)
    requires !StartsWith(line, "#")
    requires var fields := Split(line, '\t'); |fields| >= 2 && ParseInt(fields[1]).None?
    ensures LineAlleles(d, line) == Err(NumberFormat(Split(line, '\t')[1]))
  {
  }
}
