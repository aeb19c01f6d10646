/** dbNSFP: a tab-separated table whose header line names its columns. The
    parser remembers, from the header, where nine columns are, and reads one
    allele per data line with its SIFT, PolyPhen-2 and MutationTaster
    scores. */
module DbNsfpParser {
  import opened Wrappers
  import opened JavaText
  import opened JavaFloat
  import opened AlleleProperties
  import opened Alleles
  import opened ChromosomeParser
  import opened Folds

  /** EMPTY_VALUE. */
  const EmptyValue: string := "."

  // ---------------------------------------------------------------------------
  // The column positions
  // ---------------------------------------------------------------------------

  /** The columns the parser reads. */
  datatype Column = ChrCol | PosCol | RsCol | RefCol | AltCol | SiftCol | PolyPhenCol | MTasterScoreCol | MTasterPredCol

  /** The header name of each column. */
  function ColumnName(c: Column): string {
    match c
    case ChrCol => "hg19_chr"
    case PosCol => "hg19_pos(1-based)"
    case RsCol => "rs_dbSNP147"
    case RefCol => "ref"
    case AltCol => "alt"
    case SiftCol => "SIFT_score"
    case PolyPhenCol => "Polyphen2_HVAR_score"
    case MTasterScoreCol => "MutationTaster_score"
    case MTasterPredCol => "MutationTaster_pred"
  }

  /** The positions of the nine columns, as the parser's fields hold them. */
  datatype Columns = Columns(
    chr: nat, pos: nat, rs: nat, ref: nat, alt: nat,
    sift: nat, polyPhen: nat, mTasterScore: nat, mTasterPred: nat)
  {
    function At(c: Column): nat {
      match c
      case ChrCol => chr
      case PosCol => pos
      case RsCol => rs
      case RefCol => ref
      case AltCol => alt
      case SiftCol => sift
      case PolyPhenCol => polyPhen
      case MTasterScoreCol => mTasterScore
      case MTasterPredCol => mTasterPred
    }

    /** The positions with column `c` moved to `i`. */
    function Put(c: Column, i: nat): (r: Columns)
      ensures r.At(c) == i && forall d :: d != c ==> r.At(d) == At(d)
    {
      match c
      case ChrCol => this.(chr := i)
      case PosCol => this.(pos := i)
      case RsCol => this.(rs := i)
      case RefCol => this.(ref := i)
      case AltCol => this.(alt := i)
      case SiftCol => this.(sift := i)
      case PolyPhenCol => this.(polyPhen := i)
      case MTasterScoreCol => this.(mTasterScore := i)
      case MTasterPredCol => this.(mTasterPred := i)
    }
  }

  /** The positions before any header: every field of a new parser is 0. */
  const Initial: Columns := Columns(0, 0, 0, 0, 0, 0, 0, 0, 0)

  /** The column a header token names, if any. */
  function ColumnNamed(token: string): (r: Option<Column>)
    ensures r.Some? ==> ColumnName(r.value) == token
    ensures r.None? ==> forall c :: ColumnName(c) != token
  {
    if token == ColumnName(ChrCol) then Some(ChrCol)
    else if token == ColumnName(PosCol) then Some(PosCol)
    else if token == ColumnName(RsCol) then Some(RsCol)
    else if token == ColumnName(RefCol) then Some(RefCol)
    else if token == ColumnName(AltCol) then Some(AltCol)
    else if token == ColumnName(SiftCol) then Some(SiftCol)
    else if token == ColumnName(PolyPhenCol) then Some(PolyPhenCol)
    else if token == ColumnName(MTasterScoreCol) then Some(MTasterScoreCol)
    else if token == ColumnName(MTasterPredCol) then Some(MTasterPredCol)
    else None
  }

  /** The header names are distinct, so a token names at most one column. */
  lemma ColumnNamesDistinct(c: Column, d: Column)
    requires ColumnName(c) == ColumnName(d)
    ensures c == d
  {
  }

  /** The pass of the header loop for token `i`. */
  function SetColumn(cs: Columns, token: string, i: nat): Columns {
    match ColumnNamed(token)
    case None => cs
    case Some(c) => cs.Put(c, i)
  }

  /** The positions after the header loop has seen `tokens`. */
  function ColumnsAfter(cs: Columns, tokens: seq<string>): Columns {
    if tokens == [] then cs
    else
      var n := |tokens| - 1;
      SetColumn(ColumnsAfter(cs, tokens[..n]), tokens[n], n)
  }

  /** The tokens of a header line: the line without its '#', split at tabs. */
  function HeaderTokens(line: string): seq<string>
    requires line != []
  {
    Split(line[1..], '\t')
  }

  /** The last index at which `token` occurs in `tokens`. */
  function LastIndex(tokens: seq<string>, token: string): (i: nat)
    requires token in tokens
    ensures i < |tokens| && tokens[i] == token
    ensures forall j :: i < j < |tokens| ==> tokens[j] != token
  {
    var n := |tokens| - 1;
    if tokens[n] == token then n else LastIndex(tokens[..n], token)
  }

  // ---------------------------------------------------------------------------
  // The scores
  // ---------------------------------------------------------------------------

  /** Float.valueOf / Float.parseFloat, a NumberFormatException on failure. */
  function ReadFloat(s: string): (r: Result<Float>)
    ensures r.Ok? <==> ParseFloat(s).Some?
    ensures r.Ok? ==> r.value == ParseFloat(s).value
    ensures r.Err? ==> r.error == NumberFormat(s)
  {
    match ParseFloat(s)
    case None => Err(NumberFormat(s))
    case Some(v) => Ok(v)
  }

  /** One score of a ';'-separated list: "." is skipped, any other entry parsed. */
  function ScoreEntry(score: string): (r: Result<Option<Float>>)
    ensures r.Ok? && r.value.None? <==> score == EmptyValue
    ensures r.Ok? && r.value.Some? <==> score != EmptyValue && ParseFloat(score).Some?
    ensures r.Ok? && r.value.Some? ==> r.value.value == ParseFloat(score).value
    ensures r.Err? ==> r.error == NumberFormat(score)
  {
    if score == EmptyValue then Ok(None)
    else
      match ReadFloat(score)
      case Err(e) => Err(e)
      case Ok(v) => Ok(Some(v))
  }

  function ScoreEntries(scores: seq<string>): (es: seq<Result<Option<Float>>>)
    ensures |es| == |scores| && forall i :: 0 <= i < |scores| ==> es[i] == ScoreEntry(scores[i])
  {
    seq(|scores|, i requires 0 <= i < |scores| => ScoreEntry(scores[i]))
  }

  /** parseValue: a single entry is stored as it is, unless it is ".". */
  function SingleScore(score: string): Result<Option<Float>> {
    ScoreEntry(score)
  }

  /** parseSift: a single entry as it is; several entries give their smallest
      (starting from 1), stored only when below 1 — SIFT scores are more
      damaging the smaller they are. */
  function SiftScore(field: string): (r: Result<Option<Float>>)
    ensures r.Ok? && r.value.Some? && |Split(field, ';')| != 1 ==> Less(r.value.value, One)
  {
    var preds := Split(field, ';');
    if |preds| == 1 then SingleScore(preds[0])
    else
      match Reduce(ScoreEntries(preds), One, Min)
      case Err(e) => Err(e)
      case Ok(m) => Ok(if Less(m, One) then Some(m) else None)
  }

  /** parsePolyPhen: a single entry as it is; several entries give their
      largest (starting from 0), stored only when above 0. */
  function PolyPhenScore(field: string): (r: Result<Option<Float>>)
    ensures r.Ok? && r.value.Some? && |Split(field, ';')| != 1 ==> Less(Zero, r.value.value)
  {
    var preds := Split(field, ';');
    if |preds| == 1 then SingleScore(preds[0])
    else
      match Reduce(ScoreEntries(preds), Zero, Max)
      case Err(e) => Err(e)
      case Ok(m) => Ok(if Less(Zero, m) then Some(m) else None)
  }

  /** One transcript of MutationTaster: its score counts only when it is not
      "." and the trimmed prediction is "A" (disease causing, automatic) or
      "D" (disease causing). */
  function MTasterEntry(score: string, pred: string): (r: Result<Option<Float>>)
    ensures r.Ok? && r.value.Some? ==>
      score != EmptyValue && (Trim(pred) == "A" || Trim(pred) == "D") && ParseFloat(score) == r.value
    ensures score == EmptyValue || (Trim(pred) != "A" && Trim(pred) != "D") ==> r == Ok(None)
    ensures r.Err? ==> r.error == NumberFormat(score)
  {
    if score == EmptyValue then Ok(None)
    else
      var p := Trim(pred);
      if p == "N" || p == "P" then Ok(None)
      else if p == "A" || p == "D" then
        match ReadFloat(score)
        case Err(e) => Err(e)
        case Ok(v) => Ok(Some(v))
      else Ok(None)
  }

  function MTasterEntries(scores: seq<string>, preds: seq<string>): (es: seq<Result<Option<Float>>>)
    requires |scores| == |preds|
    ensures |es| == |scores| && forall i :: 0 <= i < |scores| ==> es[i] == MTasterEntry(scores[i], preds[i])
  {
    seq(|scores|, i requires 0 <= i < |scores| => MTasterEntry(scores[i], preds[i]))
  }

  /** parseMutationTaster: with as many predictions as scores, the largest
      score of a disease-causing prediction (starting from 0), stored only
      when above 0; nothing when the lists differ in length. */
  function MTasterScore(scoreField: string, predField: string): (r: Result<Option<Float>>)
    ensures r.Ok? && r.value.Some? ==> Less(Zero, r.value.value)
    ensures |Split(scoreField, ';')| != |Split(predField, ';')| ==> r == Ok(None)
  {
    var scores := Split(scoreField, ';');
    var preds := Split(predField, ';');
    if |scores| != |preds| then Ok(None)
    else
      match Reduce(MTasterEntries(scores, preds), Zero, Max)
      case Err(e) => Err(e)
      case Ok(m) => Ok(if Less(Zero, m) then Some(m) else None)
  }

  /** values.put(key, v) when there is a value. */
  function PutScore(values: map<AlleleProperty, Float>, key: AlleleProperty, v: Option<Float>): map<AlleleProperty, Float> {
    if v.Some? then values[key := v.value] else values
  }

  /** fields[i], or the index error Java throws. */
  function Field(fields: seq<string>, i: nat): (r: Result<string>)
    ensures r.Ok? <==> i < |fields|
    ensures r.Ok? ==> r.value == fields[i]
    ensures r.Err? ==> r.error == IndexOutOfBounds(i)
  {
    if i < |fields| then Ok(fields[i]) else Err(IndexOutOfBounds(i))
  }

  /** parsePathScores: SIFT, then PolyPhen, then MutationTaster; the first
      missing column or unreadable score ends it. */
  function PathScores(cs: Columns, fields: seq<string>): (r: Result<map<AlleleProperty, Float>>)
    ensures r.Ok? ==> r.value.Keys <= {SIFT, POLYPHEN, MUT_TASTER}
  {
    match Field(fields, cs.sift)
    case Err(e) => Err(e)
    case Ok(siftField) =>
      match SiftScore(siftField)
      case Err(e) => Err(e)
      case Ok(sift) =>
        match Field(fields, cs.polyPhen)
        case Err(e) => Err(e)
        case Ok(polyPhenField) =>
          match PolyPhenScore(polyPhenField)
          case Err(e) => Err(e)
          case Ok(polyPhen) =>
            match Field(fields, cs.mTasterScore)
            case Err(e) => Err(e)
            case Ok(scoreField) =>
              match Field(fields, cs.mTasterPred)
              case Err(e) => Err(e)
              case Ok(predField) =>
                match MTasterScore(scoreField, predField)
                case Err(e) => Err(e)
                case Ok(mTaster) =>
                  Ok(PutScore(PutScore(PutScore(map[], SIFT, sift), POLYPHEN, polyPhen), MUT_TASTER, mTaster))
  }

  /** The identity columns of a data line, read in the order parseAllele
      reads them: chromosome, position, rsId, ref, alt. */
  datatype Identity = Identity(chr: int, pos: int, rsId: string, ref: string, alt: string)

  /** The identity of a line; None for a line whose chromosome reads as 0,
      which is skipped before any other column is read. */
  function LineIdentity(cs: Columns, fields: seq<string>): (r: Result<Option<Identity>>)
    ensures r.Ok? && r.value.Some? ==> r.value.value.chr != 0
  {
    match Field(fields, cs.chr)
    case Err(e) => Err(e)
    case Ok(chrField) =>
      var chr := ParseChr(chrField);
      if chr == 0 then Ok(None)
      else
        match Field(fields, cs.pos)
        case Err(e) => Err(e)
        case Ok(posField) =>
          match ParseInt(posField)
          case None => Err(NumberFormat(posField))
          case Some(pos) =>
            match Field(fields, cs.rs)
            case Err(e) => Err(e)
            case Ok(rsId) =>
              match Field(fields, cs.ref)
              case Err(e) => Err(e)
              case Ok(ref) =>
                match Field(fields, cs.alt)
                case Err(e) => Err(e)
                case Ok(alt) => Ok(Some(Identity(chr, pos, rsId, ref, alt)))
  }

  /** parseAllele: no allele for chromosome 0, nor for an allele with neither
      an rsId nor a score; otherwise one allele carrying the line's rsId and
      scores. */
  function LineAlleles(cs: Columns, fields: seq<string>): (r: Result<seq<AlleleRecord>>)
    ensures r.Ok? ==> |r.value| <= 1
    ensures r.Ok? && |r.value| == 1 ==> r.value[0].rsId != EmptyValue || r.value[0].values != map[]
  {
    match LineIdentity(cs, fields)
    case Err(e) => Err(e)
    case Ok(None) => Ok([])
    case Ok(Some(id)) =>
      match PathScores(cs, fields)
      case Err(e) => Err(e)
      case Ok(scores) =>
        if id.rsId == EmptyValue && scores == map[] then Ok([])
        else Ok([NewRecord(id.chr, id.pos, id.ref, id.alt).(rsId := id.rsId, values := scores)])
  }

  // ---------------------------------------------------------------------------
  // The parser
  // ---------------------------------------------------------------------------

  class DbNsfpAlleleParser {
    var chrPos: nat
    var posPos: nat
    var rsPos: nat
    var refPos: nat
    var altPos: nat
    var siftPos: nat
    var polyPhen2HvarPos: nat
    var mTasterScorePos: nat
    var mTasterPredPos: nat

    function Positions(): Columns
      reads this
    {
      Columns(chrPos, posPos, rsPos, refPos, altPos, siftPos, polyPhen2HvarPos, mTasterScorePos, mTasterPredPos)
    }

    /** Java's default: every position is 0 until a header sets it. */
    constructor ()
      ensures Positions() == Initial
    {
      chrPos, posPos, rsPos, refPos, altPos := 0, 0, 0, 0, 0;
      siftPos, polyPhen2HvarPos, mTasterScorePos, mTasterPredPos := 0, 0, 0, 0;
    }

    /** One case of the header switch: the field of column `c` becomes `i`. */
    method SetPosition(c: Column, i: nat)
      modifies this
      ensures Positions() == old(Positions()).Put(c, i)
    {
      match c
      case ChrCol => chrPos := i;
      case PosCol => posPos := i;
      case RsCol => rsPos := i;
      case RefCol => refPos := i;
      case AltCol => altPos := i;
      case SiftCol => siftPos := i;
      case PolyPhenCol => polyPhen2HvarPos := i;
      case MTasterScoreCol => mTasterScorePos := i;
      case MTasterPredCol => mTasterPredPos := i;
    }

    /** parseColumnIndex: each token naming a column sets that column's
        position to the token's index. */
    method ParseColumnIndex(line: string)
      requires line != []
      modifies this
      ensures Positions() == ColumnsAfter(old(Positions()), HeaderTokens(line))
    {
      var fields := Split(line[1..], '\t');
      var i := 0;
      while i < |fields|
        invariant 0 <= i <= |fields|
        invariant Positions() == ColumnsAfter(old(Positions()), fields[..i])
      {
        var token := fields[i];
        assert fields[..i + 1][..i] == fields[..i];
        var c := ColumnNamed(token);
        if c.Some? {
          SetPosition(c.value, i);
        }
        i := i + 1;
      }
      assert fields[..i] == fields;
    }

    /** parseSift on the value map. */
    method ParseSift(values: map<AlleleProperty, Float>, field: string) returns (r: Result<map<AlleleProperty, Float>>)
      ensures r == (match SiftScore(field)
                    case Err(e) => Err(e)
                    case Ok(v) => Ok(PutScore(values, SIFT, v)))
    {
      var transcriptPredictions := Split(field, ';');
      if |transcriptPredictions| == 1 {
        r := ParseValue(values, SIFT, transcriptPredictions[0]);
        return;
      }
      var maxValue := ExtremeScore(transcriptPredictions, One, Min);
      if maxValue.Err? {
        return Err(maxValue.error);
      }
      if Less(maxValue.value, One) {
        return Ok(values[SIFT := maxValue.value]);
      }
      return Ok(values);
    }

    /** parsePolyPhen on the value map. */
    method ParsePolyPhen(values: map<AlleleProperty, Float>, field: string) returns (r: Result<map<AlleleProperty, Float>>)
      ensures r == (match PolyPhenScore(field)
                    case Err(e) => Err(e)
                    case Ok(v) => Ok(PutScore(values, POLYPHEN, v)))
    {
      var transcriptPredictions := Split(field, ';');
      if |transcriptPredictions| == 1 {
        r := ParseValue(values, POLYPHEN, transcriptPredictions[0]);
        return;
      }
      var maxValue := ExtremeScore(transcriptPredictions, Zero, Max);
      if maxValue.Err? {
        return Err(maxValue.error);
      }
      if Less(Zero, maxValue.value) {
        return Ok(values[POLYPHEN := maxValue.value]);
      }
      return Ok(values);
    }

    /** parseValue: Float.valueOf of the entry, unless it is ".". */
    method ParseValue(values: map<AlleleProperty, Float>, key: AlleleProperty, value: string) returns (r: Result<map<AlleleProperty, Float>>)
      ensures r == (match SingleScore(value)
                    case Err(e) => Err(e)
                    case Ok(v) => Ok(PutScore(values, key, v)))
    {
      if value != EmptyValue {
        var parsed := ParseFloat(value);
        if parsed.None? {
          return Err(NumberFormat(value));
        }
        return Ok(values[key := parsed.value]);
      }
      return Ok(values);
    }

    /** The loop of parseSift (f = Float.min from 1) and of getMaxValue
        (f = Float.max from 0): "." entries are skipped. */
    method ExtremeScore(transcriptPredictions: seq<string>, init: Float, f: (Float, Float) -> Float) returns (r: Result<Float>)
      ensures r == Reduce(ScoreEntries(transcriptPredictions), init, f)
    {
      ghost var entries := ScoreEntries(transcriptPredictions);
      var maxValue := init;
      var i := 0;
      while i < |transcriptPredictions|
        invariant 0 <= i <= |transcriptPredictions|
        invariant Reduce(entries[..i], init, f) == Ok(maxValue)
      {
        var score := transcriptPredictions[i];
        if score != EmptyValue {
          var value := ParseFloat(score);
          if value.None? {
            ReduceBreaks(entries, i, init, f);
            return Err(NumberFormat(score));
          }
          ReduceStep(entries, i, init, f, maxValue);
          maxValue := f(maxValue, value.value);
        } else {
          ReduceStep(entries, i, init, f, maxValue);
        }
        i := i + 1;
      }
      assert entries[..i] == entries;
      r := Ok(maxValue);
    }

    /** parseMutationTaster on the value map. */
    method ParseMutationTaster(values: map<AlleleProperty, Float>, scoreFields: string, predFields: string)
      returns (r: Result<map<AlleleProperty, Float>>)
      ensures r == (match MTasterScore(scoreFields, predFields)
                    case Err(e) => Err(e)
                    case Ok(v) => Ok(PutScore(values, MUT_TASTER, v)))
    {
      var scores := Split(scoreFields, ';');
      var predictions := Split(predFields, ';');
      if |scores| == |predictions| {
        ghost var entries := MTasterEntries(scores, predictions);
        var maxValue := Zero;
        var i := 0;
        while i < |scores|
          invariant 0 <= i <= |scores|
          invariant Reduce(entries[..i], Zero, Max) == Ok(maxValue)
        {
          var score := scores[i];
          var p := Trim(predictions[i]);
          if score != EmptyValue && (p == "A" || p == "D") {
            var value := ParseFloat(score);
            if value.None? {
              ReduceBreaks(entries, i, Zero, Max);
              return Err(NumberFormat(score));
            }
            ReduceStep(entries, i, Zero, Max, maxValue);
            maxValue := Max(maxValue, value.value);
          } else {
            ReduceStep(entries, i, Zero, Max, maxValue);
          }
          i := i + 1;
        }
        assert entries[..i] == entries;
        if Less(Zero, maxValue) {
          return Ok(values[MUT_TASTER := maxValue]);
        }
      }
      return Ok(values);
    }

    /** parsePathScores. */
    method ParsePathScores(fields: seq<string>) returns (r: Result<map<AlleleProperty, Float>>)
      ensures r == PathScores(Positions(), fields)
    {
      var values: map<AlleleProperty, Float> := map[];
      if siftPos >= |fields| {
        return Err(IndexOutOfBounds(siftPos));
      }
      var sift := ParseSift(values, fields[siftPos]);
      if sift.Err? {
        return sift;
      }
      if polyPhen2HvarPos >= |fields| {
        return Err(IndexOutOfBounds(polyPhen2HvarPos));
      }
      var polyPhen := ParsePolyPhen(sift.value, fields[polyPhen2HvarPos]);
      if polyPhen.Err? {
        return polyPhen;
      }
      if mTasterScorePos >= |fields| {
        return Err(IndexOutOfBounds(mTasterScorePos));
      }
      if mTasterPredPos >= |fields| {
        return Err(IndexOutOfBounds(mTasterPredPos));
      }
      r := ParseMutationTaster(polyPhen.value, fields[mTasterScorePos], fields[mTasterPredPos]);
    }

    /** The first half of parseAllele: the identity columns. */
    method ReadIdentity(fields: seq<string>) returns (r: Result<Option<Identity>>)
      ensures r == LineIdentity(Positions(), fields)
    {
      if chrPos >= |fields| {
        return Err(IndexOutOfBounds(chrPos));
      }
      var chr := ParseChr(fields[chrPos]);
      if chr == 0 {
        return Ok(None);
      }
      if posPos >= |fields| {
        return Err(IndexOutOfBounds(posPos));
      }
      var pos := ParseInt(fields[posPos]);
      if pos.None? {
        return Err(NumberFormat(fields[posPos]));
      }
      if rsPos >= |fields| {
        return Err(IndexOutOfBounds(rsPos));
      }
      var rsId := fields[rsPos];
      if refPos >= |fields| {
        return Err(IndexOutOfBounds(refPos));
      }
      var ref := fields[refPos];
      if altPos >= |fields| {
        return Err(IndexOutOfBounds(altPos));
      }
      var alt := fields[altPos];
      r := Ok(Some(Identity(chr, pos.value, rsId, ref, alt)));
    }

    /** parseAllele. */
    method ParseAllele(fields: seq<string>) returns (r: Result<seq<Allele>>)
      ensures r.Ok? <==> LineAlleles(Positions(), fields).Ok?
      ensures r.Err? ==> r.error == LineAlleles(Positions(), fields).error
      ensures r.Ok? ==> Snapshots(r.value) == LineAlleles(Positions(), fields).value
      ensures r.Ok? ==> fresh(set a | a in r.value)
    {
      var id := ReadIdentity(fields);
      if id.Err? {
        return Err(id.error);
      }
      if id.value.None? {
        return Ok([]);
      }
      var pathScores := ParsePathScores(fields);
      if pathScores.Err? {
        return Err(pathScores.error);
      }
      var rsId := id.value.value.rsId;
      if rsId == EmptyValue && pathScores.value == map[] {
        return Ok([]);
      }
      var allele := new Allele(id.value.value.chr, id.value.value.pos, id.value.value.ref, id.value.value.alt);
      allele.SetRsId(rsId);
      allele.PutAll(pathScores.value);
      assert map[] + pathScores.value == pathScores.value;
      r := Ok([allele]);
    }

    /** parseLine: a header line resets the column positions and gives no
        allele; any other line is read with the current positions. */
    method ParseLine(line: string) returns (r: Result<seq<Allele>>)
      modifies this
      ensures StartsWith(line, "#") ==>
        r == Ok([]) && Positions() == ColumnsAfter(old(Positions()), HeaderTokens(line))
      ensures !StartsWith(line, "#") ==> Positions() == old(Positions())
      ensures !StartsWith(line, "#") ==>
        var expected := LineAlleles(Positions(), Split(line, '\t'));
        (r.Ok? <==> expected.Ok?) && (r.Err? ==> r.error == expected.error) &&
        (r.Ok? ==> Snapshots(r.value) == expected.value && fresh(set a | a in r.value))
    {
      if StartsWith(line, "#") {
        ParseColumnIndex(line);
        return Ok([]);
      }
      var fields := Split(line, '\t');
      r := ParseAllele(fields);
    }
  }

  // ---------------------------------------------------------------------------
  // Properties
  // ---------------------------------------------------------------------------

  /** After a header, a column's position is the index of the last token
      naming it; a column the header does not name keeps its position. */
  lemma {:induction false} ColumnsAfterAt(cs: Columns, tokens: seq<string>, c: Column)
    ensures ColumnName(c) in tokens ==> ColumnsAfter(cs, tokens).At(c) == LastIndex(tokens, ColumnName(c))
    ensures ColumnName(c) !in tokens ==> ColumnsAfter(cs, tokens).At(c) == cs.At(c)
  {
    if tokens != [] {
      var n := |tokens| - 1;
      var prefix := tokens[..n];
      ColumnsAfterAt(cs, prefix, c);
      assert tokens == prefix + [tokens[n]];
      SetColumnAt(ColumnsAfter(cs, prefix), tokens[n], n, c);
    }
  }

  /** One pass of the header loop moves the column the token names, and only it. */
  lemma SetColumnAt(cs: Columns, token: string, i: nat, c: Column)
    ensures SetColumn(cs, token, i).At(c) == if token == ColumnName(c) then i else cs.At(c)
  {
    match ColumnNamed(token)
    case None =>
    case Some(d) =>
      if d != c && ColumnName(d) == ColumnName(c) {
        ColumnNamesDistinct(c, d);
      }
  }

  /** A header naming the nine columns once each places them at their
      indices. */
  lemma HeaderPlacesColumns(line: string, c: Column, i: nat)
    requires line != [] && i < |HeaderTokens(line)| && HeaderTokens(line)[i] == ColumnName(c)
    requires forall j :: 0 <= j < |HeaderTokens(line)| && j != i ==> HeaderTokens(line)[j] != ColumnName(c)
    ensures forall cs :: ColumnsAfter(cs, HeaderTokens(line)).At(c) == i
  {
    var tokens := HeaderTokens(line);
    forall cs ensures ColumnsAfter(cs, tokens).At(c) == i {
      ColumnsAfterAt(cs, tokens, c);
    }
  }

  /** The running minimum is at most the start value and every entry read,
      and is one of them. */
  lemma {:induction false} ReduceMinBounds(entries: seq<Result<Option<Float>>>, init: Float)
    requires Reduce(entries, init, Min).Ok?
    ensures var m := Reduce(entries, init, Min).value;
            LessEq(m, init) &&
            (forall j :: 0 <= j < |entries| && entries[j].Ok? && entries[j].value.Some? ==> LessEq(m, entries[j].value.value)) &&
            (m == init || exists j :: 0 <= j < |entries| && entries[j] == Ok(Some(m)))
  {
    if entries != [] {
      var n := |entries| - 1;
      var prefix := entries[..n];
      ReduceMinBounds(prefix, init);
      var acc := Reduce(prefix, init, Min).value;
      var m := Reduce(entries, init, Min).value;
      assert forall j :: 0 <= j < n ==> prefix[j] == entries[j];
      assert LessEq(m, acc);
      forall j | 0 <= j < |entries| && entries[j].Ok? && entries[j].value.Some?
        ensures LessEq(m, entries[j].value.value)
      {
        if j < n {
          LessTransitive(m, acc, entries[j].value.value);
        }
      }
      LessTransitive(m, acc, init);
      if m != acc && m != init {
        assert entries[n] == Ok(Some(m));
      } else if m == acc && acc != init {
        var j :| 0 <= j < n && prefix[j] == Ok(Some(acc));
        assert entries[j] == Ok(Some(m));
      }
    }
  }

  /** The running maximum is at least the start value and every entry read,
      and is one of them. */
  lemma {:induction false} ReduceMaxBounds(entries: seq<Result<Option<Float>>>, init: Float)
    requires Reduce(entries, init, Max).Ok?
    ensures var m := Reduce(entries, init, Max).value;
            LessEq(init, m) &&
            (forall j :: 0 <= j < |entries| && entries[j].Ok? && entries[j].value.Some? ==> LessEq(entries[j].value.value, m)) &&
            (m == init || exists j :: 0 <= j < |entries| && entries[j] == Ok(Some(m)))
  {
    if entries != [] {
      var n := |entries| - 1;
      var prefix := entries[..n];
      ReduceMaxBounds(prefix, init);
      var acc := Reduce(prefix, init, Max).value;
      var m := Reduce(entries, init, Max).value;
      assert forall j :: 0 <= j < n ==> prefix[j] == entries[j];
      assert LessEq(acc, m);
      forall j | 0 <= j < |entries| && entries[j].Ok? && entries[j].value.Some?
        ensures LessEq(entries[j].value.value, m)
      {
        if j < n {
          LessTransitive(entries[j].value.value, acc, m);
        }
      }
      LessTransitive(init, acc, m);
      if m != acc && m != init {
        assert entries[n] == Ok(Some(m));
      } else if m == acc && acc != init {
        var j :| 0 <= j < n && prefix[j] == Ok(Some(acc));
        assert entries[j] == Ok(Some(m));
      }
    }
  }

  /** A list entry that is not "." and reads as `v`. */
  predicate Scored(score: string, v: Float) {
    score != EmptyValue && ParseFloat(score) == Some(v)
  }

  /** The passes of the score loop that yield a value are the scored entries. */
  lemma ScoreEntriesYield(preds: seq<string>, j: nat, v: Float)
    requires j < |preds|
    ensures ScoreEntries(preds)[j] == Ok(Some(v)) <==> Scored(preds[j], v)
  {
  }

  /** Several SIFT entries: the stored score is an entry, no larger than any
      entry, and below 1; none is stored when no entry is below 1. */
  lemma SiftIsSmallest(field: string)
    requires |Split(field, ';')| != 1 && SiftScore(field).Ok?
    ensures var preds := Split(field, ';');
            var r := SiftScore(field).value;
            (r.Some? ==> Less(r.value, One) &&
                         (exists j :: 0 <= j < |preds| && Scored(preds[j], r.value)) &&
                         forall j, v :: 0 <= j < |preds| && Scored(preds[j], v) ==> LessEq(r.value, v)) &&
            (r.None? ==> forall j, v :: 0 <= j < |preds| && Scored(preds[j], v) ==> !Less(v, One))
  {
    var preds := Split(field, ';');
    var entries := ScoreEntries(preds);
    ReduceMinBounds(entries, One);
    var m := Reduce(entries, One, Min).value;
    forall j, v | 0 <= j < |preds| && Scored(preds[j], v) ensures LessEq(m, v) {
      ScoreEntriesYield(preds, j, v);
    }
    if Less(m, One) {
      var j :| 0 <= j < |entries| && entries[j] == Ok(Some(m));
      ScoreEntriesYield(preds, j, m);
    } else {
      forall j, v | 0 <= j < |preds| && Scored(preds[j], v) ensures !Less(v, One) {
        LessTransitive(One, m, v);
      }
    }
  }

  /** Several PolyPhen entries: the stored score is an entry, no smaller than
      any entry, and above 0; none is stored when no entry is above 0. */
  lemma PolyPhenIsLargest(field: string)
    requires |Split(field, ';')| != 1 && PolyPhenScore(field).Ok?
    ensures var preds := Split(field, ';');
            var r := PolyPhenScore(field).value;
            (r.Some? ==> Less(Zero, r.value) &&
                         (exists j :: 0 <= j < |preds| && Scored(preds[j], r.value)) &&
                         forall j, v :: 0 <= j < |preds| && Scored(preds[j], v) ==> LessEq(v, r.value)) &&
            (r.None? ==> forall j, v :: 0 <= j < |preds| && Scored(preds[j], v) ==> !Less(Zero, v))
  {
    var preds := Split(field, ';');
    var entries := ScoreEntries(preds);
    ReduceMaxBounds(entries, Zero);
    var m := Reduce(entries, Zero, Max).value;
    forall j, v | 0 <= j < |preds| && Scored(preds[j], v) ensures LessEq(v, m) {
      ScoreEntriesYield(preds, j, v);
    }
    if Less(Zero, m) {
      var j :| 0 <= j < |entries| && entries[j] == Ok(Some(m));
      ScoreEntriesYield(preds, j, m);
    } else {
      forall j, v | 0 <= j < |preds| && Scored(preds[j], v) ensures !Less(Zero, v) {
        LessTransitive(v, m, Zero);
      }
    }
  }

  /** A disease-causing MutationTaster prediction: "A" or "D" once trimmed. */
  predicate Causing(pred: string) {
    Trim(pred) == "A" || Trim(pred) == "D"
  }

  /** The passes of the MutationTaster loop that yield a value are the
      scored entries with a disease-causing prediction. */
  lemma MTasterEntriesYield(scores: seq<string>, preds: seq<string>, j: nat, v: Float)
    requires |scores| == |preds| && j < |scores|
    ensures MTasterEntries(scores, preds)[j] == Ok(Some(v)) <==> Scored(scores[j], v) && Causing(preds[j])
  {
    MTasterEntryYields(scores[j], preds[j], v);
  }

  lemma MTasterEntryYields(score: string, pred: string, v: Float)
    ensures MTasterEntry(score, pred) == Ok(Some(v)) <==> Scored(score, v) && Causing(pred)
  {
    if score != EmptyValue && Causing(pred) {
      var p := Trim(pred);
      assert p != "N" && p != "P";
      assert MTasterEntry(score, pred) == match ReadFloat(score) case Err(e) => Err(e) case Ok(x) => Ok(Some(x));
    }
  }

  /** MutationTaster: the stored score is the score of a disease-causing
      prediction and no smaller than any such score. */
  lemma MTasterIsLargestCausing(scoreField: string, predField: string)
    requires MTasterScore(scoreField, predField).Ok? && MTasterScore(scoreField, predField).value.Some?
    ensures var scores, preds := Split(scoreField, ';'), Split(predField, ';');
            var m := MTasterScore(scoreField, predField).value.value;
            |scores| == |preds| &&
            (exists j :: 0 <= j < |scores| && Scored(scores[j], m) && Causing(preds[j])) &&
            forall j, v :: 0 <= j < |scores| && Scored(scores[j], v) && Causing(preds[j]) ==> LessEq(v, m)
  {
    var scores, preds := Split(scoreField, ';'), Split(predField, ';');
    var m := MTasterScore(scoreField, predField).value.value;
    assert |scores| == |preds|;
    MTasterLargest(scores, preds, m);
  }

  /** The running maximum of the MutationTaster passes, when above 0, is the
      score of a disease-causing prediction and no smaller than any such score. */
  lemma MTasterLargest(scores: seq<string>, preds: seq<string>, m: Float)
    requires |scores| == |preds| && Reduce(MTasterEntries(scores, preds), Zero, Max) == Ok(m) && Less(Zero, m)
    ensures exists j :: 0 <= j < |scores| && Scored(scores[j], m) && Causing(preds[j])
    ensures forall j, v :: 0 <= j < |scores| && Scored(scores[j], v) && Causing(preds[j]) ==> LessEq(v, m)
  {
    var entries := MTasterEntries(scores, preds);
    ReduceMaxBounds(entries, Zero);
    assert m != Zero;
    var j :| 0 <= j < |entries| && entries[j] == Ok(Some(m));
    MTasterEntriesYield(scores, preds, j, m);
    forall k, v | 0 <= k < |scores| && Scored(scores[k], v) && Causing(preds[k]) ensures LessEq(v, m) {
      MTasterEntriesYield(scores, preds, k, v);
    }
  }

  /** A line on chromosome "." (or any token that reads as 0) gives no allele,
      whatever its other columns hold. */
  lemma ChromosomeZeroSkipped(cs: Columns, fields: seq<string>)
    requires cs.chr < |fields| && ParseChr(fields[cs.chr]) == 0
    ensures LineAlleles(cs, fields) == Ok([])
  {
  }

  /** A line with an rsId or a score gives exactly one allele, with the
      line's identity, rsId and scores. */
  lemma OneAllelePerLine(cs: Columns, fields: seq<string>)
    requires LineIdentity(cs, fields).Ok? && LineIdentity(cs, fields).value.Some?
    requires PathScores(cs, fields).Ok?
    ensures var id := LineIdentity(cs, fields).value.value;
            var scores := PathScores(cs, fields).value;
            LineAlleles(cs, fields) ==
              if id.rsId == EmptyValue && scores == map[] then Ok([])
              else Ok([AlleleRecord(id.chr, id.pos, id.ref, id.alt, id.rsId, scores)])
  {
  }
}
