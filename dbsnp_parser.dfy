/** dbSNP: the 1000 Genomes frequencies of the CAF INFO token become KG
    values, one CAF entry per ALT allele. */
module DbSnpParser {
  import opened Wrappers
  import opened JavaText
  import opened JavaFloat
  import opened AlleleProperties
  import opened Alleles

  const CafPrefix: string := "CAF="

  /** parseCafField: the CAF entries after the reference entry. */
  method ParseCafField(infoField: string) returns (minorFreqs: seq<string>)
    requires StartsWith(infoField, CafPrefix)
    ensures var freqs := Split(infoField[|CafPrefix|..], ',');
            |minorFreqs| == if |freqs| == 0 then 0 else |freqs| - 1
    ensures var freqs := Split(infoField[|CafPrefix|..], ',');
            forall i :: 0 <= i < |minorFreqs| ==> minorFreqs[i] == freqs[i + 1]
  {
    minorFreqs := [];
    var freqs := Split(infoField[|CafPrefix|..], ',');
    var i := 1;
    while i < |freqs|
      invariant 1 <= i <= if |freqs| == 0 then 1 else |freqs|
      invariant |minorFreqs| == i - 1
      invariant forall k :: 0 <= k < i - 1 ==> minorFreqs[k] == freqs[k + 1]
    {
      minorFreqs := minorFreqs + [freqs[i]];
      i := i + 1;
    }
  }

  /** The minor-allele entries of the first CAF token; none without one. */
  function MinorAlleleFrequencies(info: string): seq<string> {
    match FirstWithPrefix(Split(info, ';'), CafPrefix)
    case None => []
    case Some(t) =>
      var freqs := Split(t[|CafPrefix|..], ',');
      if |freqs| == 0 then [] else freqs[1..]
  }

  /** parseMinorAlleleFrequencies. */
  method ParseMinorAlleleFrequencies(info: string) returns (mafs: seq<string>)
    ensures mafs == MinorAlleleFrequencies(info)
  {
    var caf := FindFirstWithPrefix(Split(info, ';'), CafPrefix);
    match caf
    case None =>
      mafs := [];
    case Some(t) =>
      mafs := ParseCafField(t);
  }

  /** What the ALT at `index` receives: nothing when there is no CAF entry at
      all or the entry is "."; otherwise KG, 100 times the entry. Too few
      entries is an index error, an unreadable entry a number format error. */
  function KgAddition(mafs: seq<string>, index: nat): (r: Result<map<AlleleProperty, Float>>)
    ensures r.Ok? ==> r.value.Keys <= {KG}
    ensures r.Ok? && KG in r.value ==>
      index < |mafs| && ParseFloat(mafs[index]).Some? &&
      r.value[KG] == Times100(ParseFloat(mafs[index]).value)
    ensures r.Ok? && KG !in r.value ==> (mafs == [] || (index < |mafs| && mafs[index] == "."))
    ensures r.Err? ==> (mafs != [] &&
                        if index < |mafs| then r.error == NumberFormat(mafs[index])
                        else r.error == IndexOutOfBounds(index))
  {
    if mafs == [] then Ok(map[])
    else if index >= |mafs| then Err(IndexOutOfBounds(index))
    else if mafs[index] == "." then Ok(map[])
    else
      match ParseFloat(mafs[index])
      case None => Err(NumberFormat(mafs[index]))
      case Some(f) => Ok(map[KG := Times100(f)])
  }

  /** The outcome for each of `n` ALTs. */
  function KgResults(mafs: seq<string>, n: nat): (rs: seq<Result<map<AlleleProperty, Float>>>)
    ensures |rs| == n && forall i :: 0 <= i < n ==> rs[i] == KgAddition(mafs, i)
  {
    seq(n, i requires 0 <= i < n => KgAddition(mafs, i))
  }

  /** The values the `n` ALTs of a line receive from its INFO field, or the
      exception of the first ALT that fails. */
  function DbSnpAdditions(info: string, n: nat): Result<seq<map<AlleleProperty, Float>>> {
    AllOk(KgResults(MinorAlleleFrequencies(info), n))
  }

  /** parseInfoField: entry i + 1 of CAF annotates the i-th allele. */
  method ParseInfoField(alleles: seq<Allele>, info: string) returns (r: Result<seq<Allele>>)
    requires Distinct(alleles)
    modifies alleles
    ensures var adds := DbSnpAdditions(info, |alleles|);
            r == (if adds.Ok? then Ok(alleles) else Err(adds.error)) &&
            (adds.Ok? ==> Snapshots(alleles) == Annotate(old(Snapshots(alleles)), adds.value))
  {
    var minorAlleleFrequencies := ParseMinorAlleleFrequencies(info);
    ghost var results := KgResults(minorAlleleFrequencies, |alleles|);
    ghost var before := Snapshots(alleles);
    ghost var adds: seq<map<AlleleProperty, Float>> := [];
    var i := 0;
    while i < |alleles|
      invariant 0 <= i <= |alleles| && |adds| == i
      invariant OkPrefix(results, adds)
      invariant Snapshots(alleles) == AnnotatePrefix(before, adds)
    {
      ghost var add: map<AlleleProperty, Float> := map[];
      ghost var changed := false;
      if minorAlleleFrequencies != [] {
        if i >= |minorAlleleFrequencies| {
          OkPrefixBreaks(results, adds);
          return Err(IndexOutOfBounds(i));
        }
        var maf := minorAlleleFrequencies[i];
        if maf != "." {
          var parsed := ParseFloat(maf);
          if parsed.None? {
            OkPrefixBreaks(results, adds);
            return Err(NumberFormat(maf));
          }
          var freq := Times100(parsed.value);
          AddValueAt(alleles, i, KG, freq);
          add, changed := map[KG := freq], true;
        }
      }
      assert results[i] == KgAddition(minorAlleleFrequencies, i) == Ok(add);
      OkPrefixStep(results, adds, add);
      if !changed {
        AnnotatePrefixSkip(before, adds);
      } else {
        AnnotatePrefixStep(before, adds, add);
      }
      adds := adds + [add];
      i := i + 1;
    }
    OkPrefixAll(results, adds);
    AnnotatePrefixAll(before, adds);
    r := Ok(alleles);
  }

  // ---------------------------------------------------------------------------
  // Properties
  // ---------------------------------------------------------------------------

  /** dbSNP only ever sets KG. */
  lemma OnlyKg(info: string, n: nat)
    requires DbSnpAdditions(info, n).Ok?
    ensures forall i :: 0 <= i < n ==> DbSnpAdditions(info, n).value[i].Keys <= {KG}
  {
    var mafs := MinorAlleleFrequencies(info);
    var adds := DbSnpAdditions(info, n).value;
    forall i | 0 <= i < n ensures adds[i].Keys <= {KG} {
      assert KgResults(mafs, n)[i] == Ok(adds[i]);
      assert KgAddition(mafs, i) == Ok(adds[i]);
    }
  }

  /** Without any CAF entry after the reference entry, every ALT receives nothing. */
  lemma NoMinorEntriesNoValues(info: string, n: nat)
    requires MinorAlleleFrequencies(info) == []
    ensures DbSnpAdditions(info, n) == Ok(Same(n, map[]))
  {
    var rs := KgResults([], n);
    assert forall i :: 0 <= i < n ==> rs[i] == Ok(map[]);
    var r := AllOk(rs);
    assert r.Ok?;
    assert r.value == Same(n, map[]);
  }

  /** Without a CAF token no ALT receives a value. */
  lemma NoCafNoValues(info: string, n: nat)
    requires forall t :: t in Split(info, ';') ==> !StartsWith(t, CafPrefix)
    ensures DbSnpAdditions(info, n) == Ok(Same(n, map[]))
  {
    NoMinorEntriesNoValues(info, n);
  }

  /** A CAF list with only the reference entry gives no values. */
  lemma ReferenceOnlyCaf(info: string, n: nat, caf: string)
    requires FirstWithPrefix(Split(info, ';'), CafPrefix) == Some(caf)
    requires |Split(caf[|CafPrefix|..], ',')| <= 1
    ensures DbSnpAdditions(info, n) == Ok(Same(n, map[]))
  {
    NoMinorEntriesNoValues(info, n);
  }

  /** The ALT at `index` receives 100 times CAF entry index + 1, the entry at
      0 belonging to the reference allele; a "." entry gives it nothing. */
  lemma CafAlignment(info: string, n: nat, index: nat, caf: string)
    requires FirstWithPrefix(Split(info, ';'), CafPrefix) == Some(caf)
    requires index + 1 < |Split(caf[|CafPrefix|..], ',')|
    requires index < n && DbSnpAdditions(info, n).Ok?
    ensures var entry := Split(caf[|CafPrefix|..], ',')[index + 1];
            if entry == "." then DbSnpAdditions(info, n).value[index] == map[]
            else ParseFloat(entry).Some? &&
                 DbSnpAdditions(info, n).value[index] == map[KG := Times100(ParseFloat(entry).value)]
  {
    var mafs := MinorAlleleFrequencies(info);
    assert mafs[index] == Split(caf[|CafPrefix|..], ',')[index + 1];
    assert KgResults(mafs, n)[index] == Ok(DbSnpAdditions(info, n).value[index]);
  }

  /** A CAF list with fewer ALT entries than ALTs fails with an index error
      at the first ALT without an entry. */
  lemma TooFewCafEntries(info: string, n: nat)
    requires 0 < |MinorAlleleFrequencies(info)| < n
    requires forall i :: 0 <= i < |MinorAlleleFrequencies(info)| ==> KgAddition(MinorAlleleFrequencies(info), i).Ok?
    ensures DbSnpAdditions(info, n) == Err(IndexOutOfBounds(|MinorAlleleFrequencies(info)|))
  {
    var mafs := MinorAlleleFrequencies(info);
    AllOkFirstError(KgResults(mafs, n), |mafs|);
  }
}
