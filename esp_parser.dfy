/** ESP: the MAF INFO token holds three minor-allele percentages (European
    American, African American, all) that every ALT of the line receives. */
module EspParser {
  import opened Wrappers
  import opened JavaText
  import opened JavaFloat
  import opened AlleleProperties
  import opened Alleles
  import opened Folds

  const MafPrefix: string := "MAF="

  /** MAF_FIELD: the populations of the MAF token, in the token's order. */
  datatype MafField = EspEa | EspAa | EspAll

  /** MAF_FIELD.values(). */
  const MafFields: seq<MafField> := [EspEa, EspAa, EspAll]

  /** The property a field fills. */
  function MafProperty(f: MafField): AlleleProperty {
    match f
    case EspEa => ESP_EA
    case EspAa => ESP_AA
    case EspAll => ESP_ALL
  }

  /** The properties of MAF_FIELD.values(), in the same order. */
  const EspKeys: seq<AlleleProperty> := [ESP_EA, ESP_AA, ESP_ALL]

  lemma EspKeysAligned()
    ensures |EspKeys| == |MafFields| && DistinctKeys(EspKeys)
    ensures forall k :: 0 <= k < |MafFields| ==> EspKeys[k] == MafProperty(MafFields[k])
  {
  }

  /** name(): ESP_EA, ESP_AA or ESP_ALL, the name of the property the field
      fills. */
  function MafFieldName(f: MafField): string {
    Name(MafProperty(f))
  }

  /** Every MAF_FIELD name is the name of an AlleleProperty, so valueOf never
      fails here: it finds MafProperty(f). */
  lemma MafFieldNamesAreProperties(f: MafField)
    ensures ValueOf(MafFieldName(f)) == Ok(MafProperty(f))
  {
    ValueOfName(MafProperty(f));
  }

  /** AlleleProperty.valueOf(field.name()). */
  method FieldProperty(f: MafField) returns (p: AlleleProperty)
    ensures p == MafProperty(f)
  {
    MafFieldNamesAreProperties(f);
    var found := ValueOf(MafFieldName(f));
    p := found.value;
  }

  /** The pass of the loop over MAF_FIELD for the field of ordinal `k`: an
      index error when the token has no entry k; nothing to store for the
      exact text "0.0"; otherwise the parsed entry, or a number format error. */
  function MafEntry(freqs: seq<string>, k: nat): (r: Result<Option<Float>>)
    ensures r.Ok? ==> k < |freqs|
    ensures r.Ok? ==> (r.value.Some? <==> freqs[k] != "0.0")
    ensures r.Ok? && r.value.Some? ==> ParseFloat(freqs[k]) == r.value
    ensures r.Err? ==> if k < |freqs| then r.error == NumberFormat(freqs[k]) else r.error == IndexOutOfBounds(k)
  {
    if k >= |freqs| then Err(IndexOutOfBounds(k))
    else if freqs[k] == "0.0" then Ok(None)
    else
      match ParseFloat(freqs[k])
      case None => Err(NumberFormat(freqs[k]))
      case Some(v) => Ok(Some(v))
  }

  /** The passes of the loop over MAF_FIELD. */
  function MafEntries(freqs: seq<string>): (es: seq<Result<Option<Float>>>)
    ensures |es| == |MafFields|
    ensures forall k :: 0 <= k < |MafFields| ==> es[k] == MafEntry(freqs, k)
  {
    seq(|MafFields|, k requires 0 <= k < |MafFields| => MafEntry(freqs, k))
  }

  /** The frequencies of the entries of a MAF token. */
  function MafMap(freqs: seq<string>): Result<map<AlleleProperty, Float>> {
    Collect(EspKeys, MafEntries(freqs))
  }

  /** parseMafField: the three entries after "MAF=". */
  method ParseMafField(infoField: string) returns (r: Result<map<AlleleProperty, Float>>)
    requires StartsWith(infoField, MafPrefix)
    ensures r == MafMap(Split(infoField[|MafPrefix|..], ','))
  {
    var frequencies: map<AlleleProperty, Float> := map[];
    var minorAlleleFreqs := Split(infoField[|MafPrefix|..], ',');
    ghost var entries := MafEntries(minorAlleleFreqs);
    var k := 0;
    while k < |MafFields|
      invariant 0 <= k <= |MafFields|
      invariant Collect(EspKeys[..k], entries[..k]) == Ok(frequencies)
    {
      var field := MafFields[k];
      if k >= |minorAlleleFreqs| {
        EspBreaks(entries, k);
        return Err(IndexOutOfBounds(k));
      }
      var freq := minorAlleleFreqs[k];
      if freq != "0.0" {
        var parsed := ParseFloat(freq);
        if parsed.None? {
          EspBreaks(entries, k);
          return Err(NumberFormat(freq));
        }
        var key := FieldProperty(field);
        EspKeysAligned();
        CollectStep(EspKeys, entries, k, frequencies);
        frequencies := frequencies[key := parsed.value];
      } else {
        CollectStep(EspKeys, entries, k, frequencies);
      }
      k := k + 1;
    }
    assert EspKeys[..k] == EspKeys && entries[..k] == entries;
    return Ok(frequencies);
  }

  /** A failing pass after successful ones ends the loop with its exception. */
  lemma EspBreaks(entries: seq<Result<Option<Float>>>, k: nat)
    requires |entries| == |EspKeys| && k < |entries| && entries[k].Err?
    requires Collect(EspKeys[..k], entries[..k]).Ok?
    ensures Collect(EspKeys, entries) == Err(entries[k].error)
  {
    CollectOk(EspKeys[..k], entries[..k]);
    assert forall j :: 0 <= j < k ==> entries[..k][j] == entries[j];
    CollectFirstError(EspKeys, entries, k);
  }

  /** The frequencies of the first MAF token; none without one. */
  function EspFrequencies(info: string): Result<map<AlleleProperty, Float>> {
    match FirstWithPrefix(Split(info, ';'), MafPrefix)
    case None => Ok(map[])
    case Some(t) => MafMap(Split(t[|MafPrefix|..], ','))
  }

  /** parseMinorAlleleFrequencies. */
  method ParseMinorAlleleFrequencies(info: string) returns (r: Result<map<AlleleProperty, Float>>)
    ensures r == EspFrequencies(info)
  {
    var maf := FindFirstWithPrefix(Split(info, ';'), MafPrefix);
    match maf
    case None =>
      r := Ok(map[]);
    case Some(t) =>
      r := ParseMafField(t);
  }

  /** The values the `n` ALTs of a line receive: all the same map. */
  function EspAdditions(info: string, n: nat): Result<seq<map<AlleleProperty, Float>>> {
    match EspFrequencies(info)
    case Err(e) => Err(e)
    case Ok(m) => Ok(Same(n, m))
  }

  /** parseInfoField: every ALT receives the frequencies (putAll). */
  method ParseInfoField(alleles: seq<Allele>, info: string) returns (r: Result<seq<Allele>>)
    requires Distinct(alleles)
    modifies alleles
    ensures var adds := EspAdditions(info, |alleles|);
            r == (if adds.Ok? then Ok(alleles) else Err(adds.error)) &&
            (adds.Ok? ==> Snapshots(alleles) == Annotate(old(Snapshots(alleles)), adds.value))
  {
    var frequencies := ParseMinorAlleleFrequencies(info);
    if frequencies.Err? {
      return Err(frequencies.error);
    }
    PutAllEach(alleles, frequencies.value);
    r := Ok(alleles);
  }

  // ---------------------------------------------------------------------------
  // Properties
  // ---------------------------------------------------------------------------

  /** The field of ordinal k is stored under its property exactly when its
      entry is not "0.0", as the parsed entry; nothing else is stored. */
  lemma MafMapAt(freqs: seq<string>, k: nat)
    requires k < |MafFields| && MafMap(freqs).Ok?
    ensures k < |freqs|
    ensures forall p :: p in MafMap(freqs).value ==> p in EspKeys
    ensures var p := MafProperty(MafFields[k]);
            (p in MafMap(freqs).value <==> freqs[k] != "0.0") &&
            (freqs[k] != "0.0" ==> ParseFloat(freqs[k]) == Some(MafMap(freqs).value[p]))
  {
    EspKeysAligned();
    CollectAt(EspKeys, MafEntries(freqs), k);
    CollectKeys(EspKeys, MafEntries(freqs));
  }

  /** The MAF entries are read in MAF_FIELD order and each must be there and
      readable (or "0.0"): the parse succeeds exactly when all three are. */
  lemma MafMapOk(freqs: seq<string>)
    ensures MafMap(freqs).Ok? <==> forall k :: 0 <= k < |MafFields| ==> MafEntry(freqs, k).Ok?
  {
    CollectOk(EspKeys, MafEntries(freqs));
  }

  /** A MAF token with fewer than three entries fails with an index error
      at the first missing position, unless an earlier entry fails first. */
  lemma ShortMafIsError(freqs: seq<string>)
    requires |freqs| < |MafFields|
    ensures MafMap(freqs).Err?
  {
    MafMapOk(freqs);
    assert MafEntry(freqs, |freqs|).Err?;
  }

  /** ESP only ever sets the three ESP keys, and sets the same map on every ALT. */
  lemma EspSameForEveryAlt(info: string, n: nat, i: nat, j: nat)
    requires EspAdditions(info, n).Ok? && i < n && j < n
    ensures EspAdditions(info, n).value[i] == EspAdditions(info, n).value[j]
    ensures forall p :: p in EspAdditions(info, n).value[i] ==> p in EspKeys
  {
    match FirstWithPrefix(Split(info, ';'), MafPrefix)
    case None =>
    case Some(t) =>
      CollectKeys(EspKeys, MafEntries(Split(t[|MafPrefix|..], ',')));
  }

  /** Without a MAF token no ALT receives a value. */
  lemma NoMafNoValues(info: string, n: nat)
    requires forall t :: t in Split(info, ';') ==> !StartsWith(t, MafPrefix)
    ensures EspAdditions(info, n) == Ok(Same(n, map[]))
  {
  }
}
