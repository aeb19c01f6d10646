/** ExAC: per-population allele counts (AC_<pop>, one entry per ALT) and
    allele numbers (AN_<pop>) become EXAC_<pop> percentages 100 × AC / AN,
    stored only for populations whose count for the ALT is not zero. */
module ExacParser {
  import opened Wrappers
  import opened JavaText
  import opened JavaFloat
  import opened AlleleProperties
  import opened Alleles
  import opened Folds

  /** EXAC_FIELD: the seven populations, in declaration order. */
  datatype ExacField = Afr | Amr | Eas | Fin | Nfe | Oth | Sas

  /** EXAC_FIELD.values(). */
  const ExacFields: seq<ExacField> := [Afr, Amr, Eas, Fin, Nfe, Oth, Sas]

  const AlleleCountPrefix: string := "AC"
  const AlleleNumberPrefix: string := "AN"

  /** The field's AC key, AC_<pop>. */
  function AcKey(f: ExacField): string {
    match f
    case Afr => "AC_AFR"
    case Amr => "AC_AMR"
    case Eas => "AC_EAS"
    case Fin => "AC_FIN"
    case Nfe => "AC_NFE"
    case Oth => "AC_OTH"
    case Sas => "AC_SAS"
  }

  /** The field's AN key, AN_<pop>. */
  function AnKey(f: ExacField): string {
    match f
    case Afr => "AN_AFR"
    case Amr => "AN_AMR"
    case Eas => "AN_EAS"
    case Fin => "AN_FIN"
    case Nfe => "AN_NFE"
    case Oth => "AN_OTH"
    case Sas => "AN_SAS"
  }

  /** The property a field annotates. */
  function ExacProperty(f: ExacField): AlleleProperty {
    match f
    case Afr => EXAC_AFR
    case Amr => EXAC_AMR
    case Eas => EXAC_EAS
    case Fin => EXAC_FIN
    case Nfe => EXAC_NFE
    case Oth => EXAC_OTH
    case Sas => EXAC_SAS
  }

  /** The properties of EXAC_FIELD.values(), in the same order. */
  const ExacKeys: seq<AlleleProperty> :=
    [EXAC_AFR, EXAC_AMR, EXAC_EAS, EXAC_FIN, EXAC_NFE, EXAC_OTH, EXAC_SAS]

  lemma ExacKeysAligned()
    ensures |ExacKeys| == |ExacFields| && DistinctKeys(ExacKeys)
    ensures forall k :: 0 <= k < |ExacFields| ==> ExacKeys[k] == ExacProperty(ExacFields[k])
  {
  }

  /** name(): EXAC_<pop>, the name of the property the field fills. */
  function FieldName(f: ExacField): string {
    Name(ExacProperty(f))
  }

  /** Every field name is the name of an AlleleProperty, so valueOf never
      fails here: it finds ExacProperty(f). */
  lemma FieldNamesAreProperties(f: ExacField)
    ensures ValueOf(FieldName(f)) == Ok(ExacProperty(f))
  {
    ValueOfName(ExacProperty(f));
  }

  /** AlleleProperty.valueOf(field.name()). */
  method FieldProperty(f: ExacField) returns (p: AlleleProperty)
    ensures p == ExacProperty(f)
  {
    FieldNamesAreProperties(f);
    var found := ValueOf(FieldName(f));
    p := found.value;
  }

  // ---------------------------------------------------------------------------
  // getAlleleCountsFromInfoField
  // ---------------------------------------------------------------------------

  /** The INFO tokens that carry a count: those starting with AC or AN. */
  predicate IsCountToken(t: string) {
    StartsWith(t, AlleleCountPrefix) || StartsWith(t, AlleleNumberPrefix)
  }

  /** One pass of the loop over the INFO tokens: a count token `key=value...`
      puts value under key (replacing an earlier one); a count token without
      a value fails indexing its `=`-pieces. */
  function CountEntry(counts: map<string, string>, t: string): (r: Result<map<string, string>>)
    ensures r.Err? ==> IsCountToken(t) && r.error == IndexOutOfBounds(|Split(t, '=')|) && |Split(t, '=')| < 2
    ensures r.Ok? && IsCountToken(t) ==>
      |Split(t, '=')| >= 2 && r.value == counts[Split(t, '=')[0] := Split(t, '=')[1]]
    ensures r.Ok? && !IsCountToken(t) ==> r.value == counts
  {
    if !IsCountToken(t) then Ok(counts)
    else
      var kv := Split(t, '=');
      if |kv| < 2 then Err(IndexOutOfBounds(|kv|))
      else Ok(counts[kv[0] := kv[1]])
  }

  /** The counts after the loop has passed over `tokens`. */
  function CountsOf(tokens: seq<string>): Result<map<string, string>> {
    if |tokens| == 0 then Ok(map[])
    else
      match CountsOf(tokens[..|tokens| - 1])
      case Err(e) => Err(e)
      case Ok(m) => CountEntry(m, tokens[|tokens| - 1])
  }

  /** The allele counts and numbers of an INFO field. */
  function AlleleCounts(info: string): Result<map<string, string>> {
    CountsOf(Split(info, ';'))
  }

  /** getAlleleCountsFromInfoField. */
  method GetAlleleCountsFromInfoField(info: string) returns (r: Result<map<string, string>>)
    ensures r == AlleleCounts(info)
  {
    var exacFreqs: map<string, string> := map[];
    var infoFields := Split(info, ';');
    var i := 0;
    while i < |infoFields|
      invariant 0 <= i <= |infoFields|
      invariant CountsOf(infoFields[..i]) == Ok(exacFreqs)
    {
      var infoField := infoFields[i];
      assert infoFields[..i + 1][..i] == infoFields[..i];
      if StartsWith(infoField, AlleleCountPrefix) || StartsWith(infoField, AlleleNumberPrefix) {
        var exacData := Split(infoField, '=');
        if |exacData| < 2 {
          CountsErrorPersists(infoFields, i + 1);
          return Err(IndexOutOfBounds(|exacData|));
        }
        exacFreqs := exacFreqs[exacData[0] := exacData[1]];
      }
      i := i + 1;
    }
    assert infoFields[..i] == infoFields;
    return Ok(exacFreqs);
  }

  /** Once a token has failed, the loop over the tokens fails with its error. */
  lemma {:induction false} CountsErrorPersists(tokens: seq<string>, k: nat)
    requires k <= |tokens| && CountsOf(tokens[..k]).Err?
    ensures CountsOf(tokens) == CountsOf(tokens[..k])
    decreases |tokens| - k
  {
    if k < |tokens| {
      assert tokens[..k + 1][..k] == tokens[..k];
      CountsErrorPersists(tokens, k + 1);
    } else {
      assert tokens[..k] == tokens;
    }
  }

  // ---------------------------------------------------------------------------
  // calculateAllelePopulationFrequencies
  // ---------------------------------------------------------------------------

  /** parseAlleleCount(alleleCounts.get(AC), i): a missing AC key is a null
      dereference; too few comma-separated counts an index error; an
      unreadable count a number format error. */
  function AlleleCount(acValue: Option<string>, altAllelePos: nat): (r: Result<int>)
    ensures r.Ok? <==> acValue.Some? && altAllelePos < |Split(acValue.value, ',')| &&
                       ParseInt(Split(acValue.value, ',')[altAllelePos]).Some?
    ensures r.Ok? ==> Some(r.value) == ParseInt(Split(acValue.value, ',')[altAllelePos])
    ensures acValue.None? ==> r == Err(NullPointer)
  {
    match acValue
    case None => Err(NullPointer)
    case Some(value) =>
      var counts := Split(value, ',');
      if altAllelePos >= |counts| then Err(IndexOutOfBounds(altAllelePos))
      else
        match ParseInt(counts[altAllelePos])
        case None => Err(NumberFormat(counts[altAllelePos]))
        case Some(n) => Ok(n)
  }

  /** parseAlleleCount. */
  method ParseAlleleCount(acValue: Option<string>, altAllelePos: nat) returns (r: Result<int>)
    ensures r == AlleleCount(acValue, altAllelePos)
  {
    if acValue.None? {
      return Err(NullPointer);
    }
    var counts := Split(acValue.value, ',');
    if altAllelePos >= |counts| {
      return Err(IndexOutOfBounds(altAllelePos));
    }
    var count := ParseInt(counts[altAllelePos]);
    if count.None? {
      return Err(NumberFormat(counts[altAllelePos]));
    }
    return Ok(count.value);
  }

  /** map.get(key), with null as None. */
  function Get(counts: map<string, string>, key: string): Option<string> {
    if key in counts then Some(counts[key]) else None
  }

  /** Integer.parseInt(map.get(key)): a missing key is parseInt(null), a
      number format error whose input reads "null". */
  function AlleleNumber(anValue: Option<string>): (r: Result<int>)
    ensures r.Ok? <==> anValue.Some? && ParseInt(anValue.value).Some?
    ensures r.Ok? ==> Some(r.value) == ParseInt(anValue.value)
    ensures anValue.None? ==> r == Err(NumberFormat("null"))
  {
    match anValue
    case None => Err(NumberFormat("null"))
    case Some(s) =>
      match ParseInt(s)
      case None => Err(NumberFormat(s))
      case Some(n) => Ok(n)
  }

  /** The pass of the loop over EXAC_FIELD for one field and the ALT at `i`:
      nothing to store when its count is 0, otherwise the percentage. */
  function PopulationEntry(counts: map<string, string>, f: ExacField, i: nat): (r: Result<Option<Float>>)
    ensures r.Ok? ==> AlleleCount(Get(counts, AcKey(f)), i).Ok?
    ensures r.Ok? ==> (r.value.None? <==> AlleleCount(Get(counts, AcKey(f)), i).value == 0)
    ensures r.Ok? && r.value.Some? ==>
      AlleleNumber(Get(counts, AnKey(f))).Ok? &&
      r.value.value == Percentage(AlleleCount(Get(counts, AcKey(f)), i).value,
                                  AlleleNumber(Get(counts, AnKey(f))).value)
  {
    match AlleleCount(Get(counts, AcKey(f)), i)
    case Err(e) => Err(e)
    case Ok(alleleCount) =>
      if alleleCount == 0 then Ok(None)
      else
        match AlleleNumber(Get(counts, AnKey(f)))
        case Err(e) => Err(e)
        case Ok(alleleNumber) => Ok(Some(Percentage(alleleCount, alleleNumber)))
  }

  /** The passes of the loop over EXAC_FIELD for the ALT at `i`. */
  function PopulationEntries(counts: map<string, string>, i: nat): (es: seq<Result<Option<Float>>>)
    ensures |es| == |ExacFields|
    ensures forall k :: 0 <= k < |ExacFields| ==> es[k] == PopulationEntry(counts, ExacFields[k], i)
  {
    seq(|ExacFields|, k requires 0 <= k < |ExacFields| => PopulationEntry(counts, ExacFields[k], i))
  }

  /** The frequencies the ALT at `i` receives. */
  function PopulationFrequencies(counts: map<string, string>, i: nat): Result<map<AlleleProperty, Float>> {
    Collect(ExacKeys, PopulationEntries(counts, i))
  }

  /** calculateAllelePopulationFrequencies. */
  method CalculateAllelePopulationFrequencies(alleleCounts: map<string, string>, i: nat)
    returns (r: Result<map<AlleleProperty, Float>>)
    ensures r == PopulationFrequencies(alleleCounts, i)
  {
    ghost var entries := PopulationEntries(alleleCounts, i);
    var allelePopFreqs: map<AlleleProperty, Float> := map[];
    var k := 0;
    while k < |ExacFields|
      invariant 0 <= k <= |ExacFields|
      invariant Collect(ExacKeys[..k], entries[..k]) == Ok(allelePopFreqs)
    {
      var field := ExacFields[k];
      assert ExacKeys[..k + 1][..k] == ExacKeys[..k] && entries[..k + 1][..k] == entries[..k];
      var alleleCount := ParseAlleleCount(Get(alleleCounts, AcKey(field)), i);
      if alleleCount.Err? {
        ExacBreaks(entries, k);
        return Err(alleleCount.error);
      }
      if alleleCount.value != 0 {
        var alleleNumber := AlleleNumber(Get(alleleCounts, AnKey(field)));
        if alleleNumber.Err? {
          ExacBreaks(entries, k);
          return Err(alleleNumber.error);
        }
        var minorAlleleFrequency := Percentage(alleleCount.value, alleleNumber.value);
        var key := FieldProperty(field);
        ExacKeysAligned();
        allelePopFreqs := allelePopFreqs[key := minorAlleleFrequency];
      }
      k := k + 1;
    }
    assert ExacKeys[..k] == ExacKeys && entries[..k] == entries;
    return Ok(allelePopFreqs);
  }

  /** A failing pass after successful ones ends the loop with its exception. */
  lemma ExacBreaks(entries: seq<Result<Option<Float>>>, k: nat)
    requires |entries| == |ExacKeys| && k < |entries| && entries[k].Err?
    requires Collect(ExacKeys[..k], entries[..k]).Ok?
    ensures Collect(ExacKeys, entries) == Err(entries[k].error)
  {
    CollectOk(ExacKeys[..k], entries[..k]);
    assert forall j :: 0 <= j < k ==> entries[..k][j] == entries[j];
    CollectFirstError(ExacKeys, entries, k);
  }

  /** The outcome for each of `n` ALTs. */
  function ExacResults(counts: map<string, string>, n: nat): (rs: seq<Result<map<AlleleProperty, Float>>>)
    ensures |rs| == n && forall i :: 0 <= i < n ==> rs[i] == PopulationFrequencies(counts, i)
  {
    seq(n, i requires 0 <= i < n => PopulationFrequencies(counts, i))
  }

  /** The values the `n` ALTs of a line receive from its INFO field, or the
      exception of the token or the first ALT that fails. */
  function ExacAdditions(info: string, n: nat): Result<seq<map<AlleleProperty, Float>>> {
    match AlleleCounts(info)
    case Err(e) => Err(e)
    case Ok(counts) => AllOk(ExacResults(counts, n))
  }

  /** parseInfoField: the ALT at i receives the frequencies computed from the
      i-th count of every population. */
  method ParseInfoField(alleles: seq<Allele>, info: string) returns (r: Result<seq<Allele>>)
    requires Distinct(alleles)
    modifies alleles
    ensures var adds := ExacAdditions(info, |alleles|);
            r == (if adds.Ok? then Ok(alleles) else Err(adds.error)) &&
            (adds.Ok? ==> Snapshots(alleles) == Annotate(old(Snapshots(alleles)), adds.value))
  {
    var alleleCounts := GetAlleleCountsFromInfoField(info);
    if alleleCounts.Err? {
      return Err(alleleCounts.error);
    }
    r := AddPopulationFrequencies(alleles, alleleCounts.value);
  }

  /** The loop of parseInfoField over the ALTs, once the counts are read. */
  method AddPopulationFrequencies(alleles: seq<Allele>, alleleCounts: map<string, string>) returns (r: Result<seq<Allele>>)
    requires Distinct(alleles)
    modifies alleles
    ensures var adds := AllOk(ExacResults(alleleCounts, |alleles|));
            r == (if adds.Ok? then Ok(alleles) else Err(adds.error)) &&
            (adds.Ok? ==> Snapshots(alleles) == Annotate(old(Snapshots(alleles)), adds.value))
  {
    ghost var results := ExacResults(alleleCounts, |alleles|);
    ghost var before := Snapshots(alleles);
    ghost var adds: seq<map<AlleleProperty, Float>> := [];
    var i := 0;
    while i < |alleles|
      invariant 0 <= i <= |alleles| && |adds| == i
      invariant OkPrefix(results, adds)
      invariant Snapshots(alleles) == AnnotatePrefix(before, adds)
    {
      var allelePopFreqs := CalculateAllelePopulationFrequencies(alleleCounts, i);
      if allelePopFreqs.Err? {
        OkPrefixBreaks(results, adds);
        return Err(allelePopFreqs.error);
      }
      PutAllAt(alleles, i, allelePopFreqs.value);
      OkPrefixStep(results, adds, allelePopFreqs.value);
      AnnotatePrefixStep(before, adds, allelePopFreqs.value);
      adds := adds + [allelePopFreqs.value];
      i := i + 1;
    }
    OkPrefixAll(results, adds);
    AnnotatePrefixAll(before, adds);
    r := Ok(alleles);
  }

  // ---------------------------------------------------------------------------
  // Properties
  // ---------------------------------------------------------------------------

  /** The position of a field in EXAC_FIELD.values(). */
  function FieldIndex(f: ExacField): (j: nat)
    ensures j < |ExacFields| && ExacFields[j] == f
  {
    match f
    case Afr => 0
    case Amr => 1
    case Eas => 2
    case Fin => 3
    case Nfe => 4
    case Oth => 5
    case Sas => 6
  }

  /** What an ALT receives, field by field: EXAC_<pop> is present exactly when
      AC_<pop> has a non-zero count at the ALT's position, and is then
      100 × that count / AN_<pop>; every population needs an AC entry. */
  lemma ExacFrequency(info: string, n: nat, i: nat, f: ExacField)
    requires ExacAdditions(info, n).Ok? && i < n
    ensures AlleleCounts(info).Ok?
    ensures var counts := AlleleCounts(info).value;
            var m := ExacAdditions(info, n).value[i];
            var ac := AlleleCount(Get(counts, AcKey(f)), i);
            ac.Ok? &&
            (ExacProperty(f) in m <==> ac.value != 0) &&
            (ac.value != 0 ==>
               AlleleNumber(Get(counts, AnKey(f))).Ok? &&
               m[ExacProperty(f)] == Percentage(ac.value, AlleleNumber(Get(counts, AnKey(f))).value))
  {
    var counts := AlleleCounts(info).value;
    assert ExacResults(counts, n)[i] == Ok(ExacAdditions(info, n).value[i]);
    ExacKeysAligned();
    CollectAt(ExacKeys, PopulationEntries(counts, i), FieldIndex(f));
  }

  /** ExAC only ever sets the seven EXAC properties. */
  lemma OnlyExac(info: string, n: nat, i: nat)
    requires ExacAdditions(info, n).Ok? && i < n
    ensures forall p :: p in ExacAdditions(info, n).value[i] ==> p in ExacKeys
  {
    var counts := AlleleCounts(info).value;
    assert ExacResults(counts, n)[i] == Ok(ExacAdditions(info, n).value[i]);
    CollectKeys(ExacKeys, PopulationEntries(counts, i));
  }

  /** An INFO field without some population's AC key cannot annotate any
      ALT: the line fails with a null dereference or an earlier error. */
  lemma MissingAlleleCountFails(info: string, n: nat, f: ExacField)
    requires AlleleCounts(info).Ok? && AcKey(f) !in AlleleCounts(info).value && n > 0
    ensures ExacAdditions(info, n).Err?
  {
    if ExacAdditions(info, n).Ok? {
      ExacFrequency(info, n, 0, f);
    }
  }

  /** Zero counts store nothing: AC_FIN=0,0 leaves EXAC_FIN off both ALTs. */
  lemma ZeroCountNoValue(info: string, n: nat, i: nat, f: ExacField)
    requires ExacAdditions(info, n).Ok? && i < n
    requires AcKey(f) in AlleleCounts(info).value
    requires var acs := Split(AlleleCounts(info).value[AcKey(f)], ',');
             i < |acs| && acs[i] == "0"
    ensures ExacProperty(f) !in ExacAdditions(info, n).value[i]
  {
    ExacFrequency(info, n, i, f);
    assert DigitsValue("0") == 0;
  }

  /** Of two tokens with the same key, the later one wins. */
  lemma LaterCountWins(tokens: seq<string>, t: string)
    requires CountsOf(tokens + [t]).Ok? && IsCountToken(t)
    ensures var kv := Split(t, '=');
            |kv| >= 2 && kv[0] in CountsOf(tokens + [t]).value &&
            CountsOf(tokens + [t]).value[kv[0]] == kv[1]
  {
    assert (tokens + [t])[..|tokens|] == tokens;
  }

  /** A count token with no value after `=` fails the whole line. */
  lemma CountWithoutValueFails(tokens: seq<string>, t: string)
    requires IsCountToken(t) && |Split(t, '=')| < 2
    ensures CountsOf(tokens + [t]).Err?
  {
    assert (tokens + [t])[..|tokens|] == tokens;
  }
}
