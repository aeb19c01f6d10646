/** The fourteen annotation keys an allele can carry, in declaration order,
    grouped into population frequencies and pathogenicity scores. */
module AlleleProperties {
  import opened Wrappers

  datatype AlleleProperty =
    | KG
    | ESP_EA | ESP_AA | ESP_ALL
    | EXAC_AFR | EXAC_AMR | EXAC_EAS | EXAC_FIN | EXAC_NFE | EXAC_OTH | EXAC_SAS
    | SIFT | POLYPHEN | MUT_TASTER

  /** values(): the constants in declaration order. */
  const Values: seq<AlleleProperty> :=
    [KG, ESP_EA, ESP_AA, ESP_ALL,
     EXAC_AFR, EXAC_AMR, EXAC_EAS, EXAC_FIN, EXAC_NFE, EXAC_OTH, EXAC_SAS,
     SIFT, POLYPHEN, MUT_TASTER]

  function Ordinal(p: AlleleProperty): nat {
    match p
    case KG => 0
    case ESP_EA => 1
    case ESP_AA => 2
    case ESP_ALL => 3
    case EXAC_AFR => 4
    case EXAC_AMR => 5
    case EXAC_EAS => 6
    case EXAC_FIN => 7
    case EXAC_NFE => 8
    case EXAC_OTH => 9
    case EXAC_SAS => 10
    case SIFT => 11
    case POLYPHEN => 12
    case MUT_TASTER => 13
  }

  /** name(): the constant's identifier, the key written into INFO fields. */
  function Name(p: AlleleProperty): string {
    match p
    case KG => "KG"
    case ESP_EA => "ESP_EA"
    case ESP_AA => "ESP_AA"
    case ESP_ALL => "ESP_ALL"
    case EXAC_AFR => "EXAC_AFR"
    case EXAC_AMR => "EXAC_AMR"
    case EXAC_EAS => "EXAC_EAS"
    case EXAC_FIN => "EXAC_FIN"
    case EXAC_NFE => "EXAC_NFE"
    case EXAC_OTH => "EXAC_OTH"
    case EXAC_SAS => "EXAC_SAS"
    case SIFT => "SIFT"
    case POLYPHEN => "POLYPHEN"
    case MUT_TASTER => "MUT_TASTER"
  }

  /** The characters property names are made of. */
  predicate NameChar(ch: char) {
    'A' <= ch <= 'Z' || ch == '_'
  }

  lemma NameShape(p: AlleleProperty)
    ensures |Name(p)| >= 2
    ensures forall i :: 0 <= i < |Name(p)| ==> NameChar(Name(p)[i])
  {
  }

  lemma {:induction false} ValuesInOrder()
    ensures |Values| == 14
    ensures forall i :: 0 <= i < |Values| ==> Ordinal(Values[i]) == i
    ensures forall p :: Values[Ordinal(p)] == p
    ensures forall p :: p in Values
  {
    forall p ensures p in Values {
      assert Values[Ordinal(p)] == p;
    }
  }

  function Lookup(ps: seq<AlleleProperty>, name: string): (r: Option<AlleleProperty>)
    ensures r.Some? ==> r.value in ps && Name(r.value) == name
    ensures r.None? ==> forall i :: 0 <= i < |ps| ==> Name(ps[i]) != name
  {
    if ps == [] then None
    else if Name(ps[0]) == name then Some(ps[0])
    else Lookup(ps[1..], name)
  }

  /** valueOf(name): the constant of that name; IllegalArgumentException when
      no constant has it. */
  function ValueOf(name: string): (r: Result<AlleleProperty>)
    ensures r.Ok? ==> Name(r.value) == name
    ensures r.Err? ==> r.error == IllegalArgument(name) && forall p :: Name(p) != name
  {
    match Lookup(Values, name)
    case Some(p) => Ok(p)
    case None =>
      LookupValuesNone(name);
      Err(IllegalArgument(name))
  }

  lemma LookupValuesNone(name: string)
    requires Lookup(Values, name).None?
    ensures forall p :: Name(p) != name
  {
    forall p ensures Name(p) != name {
      ValuesInOrder();
      assert Values[Ordinal(p)] == p;
    }
  }

  /** valueOf inverts name() on every constant. */
  lemma ValueOfName(p: AlleleProperty)
    ensures ValueOf(Name(p)) == Ok(p)
  {
    var r := ValueOf(Name(p));
    assert r.Ok?;
    NameInjective(r.value, p);
  }

  lemma NameInjective(p: AlleleProperty, q: AlleleProperty)
    requires Name(p) == Name(q)
    ensures p == q
  {
  }

  /** EnumSet.range(from, to): the constants from `from` to `to` in declaration order. */
  function Range(from: AlleleProperty, to: AlleleProperty): set<AlleleProperty>
  {
    set p | p in Values && Ordinal(from) <= Ordinal(p) <= Ordinal(to)
  }

  const FrequencyProperties: set<AlleleProperty> := Range(KG, EXAC_SAS)
  const PathogenicProperties: set<AlleleProperty> := Range(SIFT, MUT_TASTER)

  lemma RangeMembers(from: AlleleProperty, to: AlleleProperty, p: AlleleProperty)
    ensures p in Range(from, to) <==> Ordinal(from) <= Ordinal(p) <= Ordinal(to)
  {
    ValuesInOrder();
    assert Values[Ordinal(p)] == p;
  }

  /** The pathogenicity group is exactly the three predictor scores. */
  lemma PathogenicPropertiesMembers()
    ensures PathogenicProperties == {SIFT, POLYPHEN, MUT_TASTER}
  {
    forall p ensures p in PathogenicProperties <==> Ordinal(p) >= 11 {
      RangeMembers(SIFT, MUT_TASTER, p);
    }
  }

  /** Every property is in exactly one of the two groups: the frequency group
      is everything from KG to EXAC_SAS, i.e. all but the three scores. */
  lemma GroupsPartition(p: AlleleProperty)
    ensures p in FrequencyProperties <==> Ordinal(p) <= Ordinal(EXAC_SAS)
    ensures p in FrequencyProperties <==> p !in PathogenicProperties
  {
    RangeMembers(KG, EXAC_SAS, p);
    RangeMembers(SIFT, MUT_TASTER, p);
  }
}
