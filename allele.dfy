/** A variant allele: its identity (chromosome, position, reference and
    alternate bases), its dbSNP id and its annotation values. */
module Alleles {
  import opened Wrappers
  import opened JavaText
  import opened JavaFloat
  import opened AlleleProperties

  /** The rsId of an allele with no known dbSNP id. */
  const UnknownRsId: string := "."

  /** The state of an Allele object at one moment. */
  datatype AlleleRecord = AlleleRecord(
    chr: int,
    pos: int,
    ref: string,
    alt: string,
    rsId: string,
    values: map<AlleleProperty, Float>)

  /** A freshly constructed allele: unknown rsId, no values. */
  function NewRecord(chr: int, pos: int, ref: string, alt: string): (r: AlleleRecord)
    ensures r.rsId == UnknownRsId && r.values == map[]
  {
    AlleleRecord(chr, pos, ref, alt, UnknownRsId, map[])
  }

  class Allele {
    const chr: int
    const pos: int
    const ref: string
    const alt: string
    var rsId: string
    var values: map<AlleleProperty, Float>

    constructor (chr: int, pos: int, ref: string, alt: string)
      ensures Snapshot() == NewRecord(chr, pos, ref, alt)
    {
      this.chr := chr;
      this.pos := pos;
      this.ref := ref;
      this.alt := alt;
      rsId := UnknownRsId;
      values := map[];
    }

    function Snapshot(): AlleleRecord
      reads this
    {
      AlleleRecord(chr, pos, ref, alt, rsId, values)
    }

    method SetRsId(id: string)
      modifies this
      ensures Snapshot() == old(Snapshot()).(rsId := id)
    {
      rsId := id;
    }

    /** Sets exactly one key; every other key keeps its value. */
    method AddValue(key: AlleleProperty, value: Float)
      modifies this
      ensures Snapshot() == old(Snapshot()).(values := old(values)[key := value])
      ensures key in values && values[key] == value
      ensures forall p :: p != key ==> (p in values <==> p in old(values))
      ensures forall p :: p != key && p in values ==> values[p] == old(values)[p]
    {
      values := values[key := value];
    }

    /** getValues().putAll(m): the entries of `m` override those already present. */
    method PutAll(m: map<AlleleProperty, Float>)
      modifies this
      ensures Snapshot() == old(Snapshot()).(values := old(values) + m)
    {
      values := values + m;
    }
  }

  // ---------------------------------------------------------------------------
  // Identity: equals, compareTo, generateKey
  // ---------------------------------------------------------------------------

  /** equals: the same chromosome, position, ref and alt; rsId and values are ignored. */
  predicate SameAllele(a: AlleleRecord, b: AlleleRecord) {
    a.chr == b.chr && a.pos == b.pos && a.ref == b.ref && a.alt == b.alt
  }

  /** compareTo: by chromosome, then position, then ref, then alt. */
  function Compare(a: AlleleRecord, b: AlleleRecord): int {
    if a.chr != b.chr then CompareInts(a.chr, b.chr)
    else if a.pos != b.pos then CompareInts(a.pos, b.pos)
    else if a.ref != b.ref then CompareStrings(a.ref, b.ref)
    else CompareStrings(a.alt, b.alt)
  }

  /** compareTo is consistent with equals. */
  lemma CompareZeroIffSame(a: AlleleRecord, b: AlleleRecord)
    ensures Compare(a, b) == 0 <==> SameAllele(a, b)
  {
    if a.chr == b.chr && a.pos == b.pos {
      if a.ref != b.ref {
        CompareStringsZero(a.ref, b.ref);
      } else {
        CompareStringsZero(a.alt, b.alt);
      }
    }
  }

  lemma CompareAntisymmetric(a: AlleleRecord, b: AlleleRecord)
    ensures Compare(a, b) < 0 <==> Compare(b, a) > 0
  {
    CompareStringsAntisymmetric(a.ref, b.ref);
    CompareStringsAntisymmetric(a.alt, b.alt);
  }

  lemma CompareTransitive(a: AlleleRecord, b: AlleleRecord, c: AlleleRecord)
    requires Compare(a, b) < 0 && Compare(b, c) < 0
    ensures Compare(a, c) < 0
  {
    if a.chr == b.chr == c.chr && a.pos == b.pos == c.pos {
      if a.ref == b.ref == c.ref {
        CompareStringsTransitive(a.alt, b.alt, c.alt);
      } else if a.ref == b.ref {
        CompareStringsZero(a.ref, b.ref);
      } else if b.ref == c.ref {
        CompareStringsZero(b.ref, c.ref);
      } else {
        CompareStringsTransitive(a.ref, b.ref, c.ref);
        CompareStringsZero(a.ref, c.ref);
      }
    }
  }

  /** Records equal under equals compare alike against every third record. */
  lemma CompareSameLeft(a: AlleleRecord, b: AlleleRecord, c: AlleleRecord)
    requires SameAllele(a, b)
    ensures Compare(a, c) == Compare(b, c)
  {
  }

  /** generateKey: "chr-pos-ref-alt". */
  function Key(r: AlleleRecord): string {
    Join([IntToString(r.chr), IntToString(r.pos), r.ref, r.alt], '-')
  }

  /** Equal alleles share a key. */
  lemma KeyOfSame(a: AlleleRecord, b: AlleleRecord)
    requires SameAllele(a, b)
    ensures Key(a) == Key(b)
  {
  }

  /** The shape of a key whose parts cannot be confused: non-negative numbers
      and bases free of '-'. */
  predicate KeySafe(r: AlleleRecord) {
    r.chr >= 0 && r.pos >= 0 && '-' !in r.ref && '-' !in r.alt
  }

  lemma NoDashInDigits(s: string)
    requires AllDigits(s)
    ensures '-' !in s
  {
  }

  /** The key of a safe record splits back into its four parts. */
  lemma KeyParts(r: AlleleRecord)
    requires KeySafe(r)
    ensures SplitAll(Key(r), '-') == [IntToString(r.chr), IntToString(r.pos), r.ref, r.alt]
  {
    var parts := [IntToString(r.chr), IntToString(r.pos), r.ref, r.alt];
    NoDashInDigits(parts[0]);
    NoDashInDigits(parts[1]);
    SplitAllJoin(parts, '-');
  }

  /** On safe records generateKey determines the identity. */
  lemma KeyInjective(a: AlleleRecord, b: AlleleRecord)
    requires KeySafe(a) && KeySafe(b)
    requires Key(a) == Key(b)
    ensures SameAllele(a, b)
  {
    KeyParts(a);
    KeyParts(b);
    NatToStringInjective(a.chr, b.chr);
    NatToStringInjective(a.pos, b.pos);
  }

  /** A '-' inside the bases makes two different alleles share a key. */
  lemma KeyCollision()
    ensures var a := NewRecord(1, 2, "A-C", "G");
            var b := NewRecord(1, 2, "A", "C-G");
            !SameAllele(a, b) && Key(a) == Key(b)
  {
    var a := NewRecord(1, 2, "A-C", "G");
    var b := NewRecord(1, 2, "A", "C-G");
    KeyJoin(a);
    KeyJoin(b);
    assert IntToString(1) == "1" && IntToString(2) == "2";
    assert "A-C" + "-" + "G" == "A" + "-" + "C-G";
  }

  /** The four parts of a key, with a '-' between neighbours. */
  lemma KeyJoin(r: AlleleRecord)
    ensures Key(r) == IntToString(r.chr) + "-" + IntToString(r.pos) + "-" + r.ref + "-" + r.alt
  {
    var parts := [IntToString(r.chr), IntToString(r.pos), r.ref, r.alt];
    assert parts[1..][1..][1..] == [r.alt];
    assert parts[1..][1..] == [r.ref, r.alt];
    assert Join(parts[1..][1..], '-') == r.ref + ['-'] + r.alt;
    assert Join(parts[1..], '-') == IntToString(r.pos) + ['-'] + (r.ref + ['-'] + r.alt);
  }

  // ---------------------------------------------------------------------------
  // The INFO field: generateInfoField
  // ---------------------------------------------------------------------------

  /** Ordinals strictly increase along `ps`. */
  predicate InEnumOrder(ps: seq<AlleleProperty>) {
    forall i, j :: 0 <= i < j < |ps| ==> Ordinal(ps[i]) < Ordinal(ps[j])
  }

  /** The properties of `ps` that are keys of `m`, in the order of `ps`. */
  function KeysAmong(ps: seq<AlleleProperty>, m: map<AlleleProperty, Float>): (ks: seq<AlleleProperty>)
    requires InEnumOrder(ps)
    ensures InEnumOrder(ks)
    ensures forall p :: p in ks <==> p in ps && p in m
  {
    if ps == [] then []
    else
      var rest := KeysAmong(ps[1..], m);
      assert forall p :: p in rest ==> Ordinal(ps[0]) < Ordinal(p) by {
        forall p | p in rest ensures Ordinal(ps[0]) < Ordinal(p) {
          var j :| 1 <= j < |ps| && ps[j] == p by {
            assert p in ps[1..];
          }
        }
      }
      if ps[0] in m then [ps[0]] + rest else rest
  }

  /** The keys of an EnumMap in iteration order, which is declaration order. */
  function OrderedKeys(m: map<AlleleProperty, Float>): (ks: seq<AlleleProperty>)
    ensures InEnumOrder(ks)
    ensures forall p :: p in ks <==> p in m
  {
    ValuesInOrder();
    KeysAmong(Values, m)
  }

  /** Map.Entry.toString: "KEY=value". */
  function Entry(p: AlleleProperty, v: Float): string {
    Name(p) + "=" + FormatFloat(v)
  }

  /** The entries of an EnumMap, in iteration order. */
  function ValueEntries(m: map<AlleleProperty, Float>): (es: seq<string>)
    ensures |es| == |OrderedKeys(m)|
    ensures forall i :: 0 <= i < |es| ==> es[i] == Entry(OrderedKeys(m)[i], m[OrderedKeys(m)[i]])
  {
    var ks := OrderedKeys(m);
    seq(|ks|, i requires 0 <= i < |ks| => Entry(ks[i], m[ks[i]]))
  }

  /** Text that starts with a letter of a property name. */
  predicate StartsWithName(s: string) {
    s != [] && NameChar(s[0])
  }

  /** Text whose last character is printable (not removed by trim). */
  predicate EndsPrintable(s: string) {
    s != [] && s[|s| - 1] > ' '
  }

  /** An entry starts with a letter of the key and ends as the value's text does. */
  lemma EntryEnds(p: AlleleProperty, v: Float)
    ensures StartsWithName(Entry(p, v)) && EndsPrintable(Entry(p, v))
  {
    NameShape(p);
    var e, f := Entry(p, v), FormatFloat(v);
    assert e[0] == Name(p)[0];
    assert e[|e| - 1] == f[|f| - 1];
  }

  /** The entries of a non-empty map start with a letter and end with a
      printed character. */
  lemma ValueEntriesEnds(m: map<AlleleProperty, Float>)
    requires m != map[]
    ensures NamedEnds(ValueEntries(m))
  {
    KeysNotEmpty(m);
    EntriesEnds(ValueEntries(m), OrderedKeys(m), m);
  }

  lemma KeysNotEmpty(m: map<AlleleProperty, Float>)
    requires m != map[]
    ensures |ValueEntries(m)| >= 1
  {
    var p :| p in m;
    assert p in OrderedKeys(m);
  }

  /** Entries printed for keys of a map start with a letter and end printable. */
  lemma EntriesEnds(es: seq<string>, ks: seq<AlleleProperty>, m: map<AlleleProperty, Float>)
    requires |es| == |ks| >= 1
    requires forall i :: 0 <= i < |ks| ==> ks[i] in m && es[i] == Entry(ks[i], m[ks[i]])
    ensures NamedEnds(es)
  {
    var first, last := ks[0], ks[|ks| - 1];
    EntryEnds(first, m[first]);
    EntryEnds(last, m[last]);
  }

  /** Entries of which the first starts with a letter of a name and the last
      ends printable. */
  predicate NamedEnds(es: seq<string>) {
    |es| >= 1 && StartsWithName(es[0]) && EndsPrintable(es[|es| - 1])
  }

  /** The tokens of generateInfoField: "RS=<rsId>" when the rsId is known,
      then one "KEY=value" per property. */
  function InfoEntries(r: AlleleRecord): seq<string> {
    (if r.rsId != UnknownRsId then ["RS=" + r.rsId] else []) + ValueEntries(r.values)
  }

  /** generateInfoField: the tokens joined by ';'. */
  function InfoField(r: AlleleRecord): string {
    Join(InfoEntries(r), ';')
  }

  lemma JoinEmpty(parts: seq<string>, sep: char)
    requires forall i :: 0 <= i < |parts| ==> parts[i] != ""
    ensures Join(parts, sep) == "" <==> parts == []
  {
    if |parts| >= 2 {
      JoinContainsSeparator(parts, sep);
    }
  }

  lemma EntryShape(p: AlleleProperty, v: Float)
    ensures Entry(p, v) != ""
    ensures ';' !in Entry(p, v) && '\t' !in Entry(p, v) && '\n' !in Entry(p, v) && '\r' !in Entry(p, v)
    ensures '=' in Entry(p, v)
  {
    var n, f := Name(p), FormatFloat(v);
    NameShape(p);
    assert ';' !in n && '\t' !in n && '\n' !in n && '\r' !in n by {
      forall i | 0 <= i < |n| ensures n[i] != ';' && n[i] != '\t' && n[i] != '\n' && n[i] != '\r' {
        assert NameChar(n[i]);
      }
    }
    assert ';' !in f && '\t' !in f && '\n' !in f && '\r' !in f by {
      forall i | 0 <= i < |f| ensures f[i] != ';' && f[i] != '\t' && f[i] != '\n' && f[i] != '\r' {
        assert FloatChar(f[i]);
      }
    }
    assert Entry(p, v) == n + "=" + f;
    assert (n + "=" + f)[|n|] == '=';
  }

  /** There is an entry exactly when there is a value. */
  lemma ValueEntriesEmpty(m: map<AlleleProperty, Float>)
    ensures ValueEntries(m) == [] <==> m == map[]
  {
    var ks := OrderedKeys(m);
    if ks != [] {
      assert ks[0] in ks;
    }
    if m != map[] {
      var p :| p in m;
      assert p in ks;
    }
  }

  /** No "KEY=value" entry is empty or holds a ';', a tab, a '\n' or a '\r'. */
  lemma ValueEntriesShape(m: map<AlleleProperty, Float>)
    ensures forall k :: 0 <= k < |ValueEntries(m)| ==>
      ValueEntries(m)[k] != "" && ';' !in ValueEntries(m)[k] &&
      '\t' !in ValueEntries(m)[k] && '\n' !in ValueEntries(m)[k] && '\r' !in ValueEntries(m)[k]
  {
    var ks := OrderedKeys(m);
    forall k | 0 <= k < |ks| ensures ValueEntries(m)[k] != "" && ';' !in ValueEntries(m)[k] &&
      '\t' !in ValueEntries(m)[k] && '\n' !in ValueEntries(m)[k] && '\r' !in ValueEntries(m)[k] {
      EntryShape(ks[k], m[ks[k]]);
    }
  }

  /** With an rsId free of ';', no token is empty or holds a ';'. */
  lemma InfoEntriesShape(r: AlleleRecord)
    requires ';' !in r.rsId
    ensures forall i :: 0 <= i < |InfoEntries(r)| ==>
      InfoEntries(r)[i] != "" && ';' !in InfoEntries(r)[i]
  {
    ValueEntriesShape(r.values);
    if r.rsId != UnknownRsId {
      var rs := "RS=" + r.rsId;
      assert rs[0] == 'R' && forall i :: 3 <= i < |rs| ==> rs[i] == r.rsId[i - 3];
    }
  }

  /** No token is empty. */
  lemma InfoEntriesNonEmpty(r: AlleleRecord)
    ensures forall i :: 0 <= i < |InfoEntries(r)| ==> InfoEntries(r)[i] != ""
  {
    ValueEntriesShape(r.values);
  }

  /** generateInfoField is empty exactly when there is neither an rsId nor a value. */
  lemma InfoFieldEmpty(r: AlleleRecord)
    ensures InfoField(r) == "" <==> r.rsId == UnknownRsId && r.values == map[]
  {
    InfoEntriesNonEmpty(r);
    JoinEmpty(InfoEntries(r), ';');
    if r.values != map[] {
      var p :| p in r.values;
      assert p in OrderedKeys(r.values);
    }
  }

  /** generateInfoField splits back into its tokens, the rsId (if known) first. */
  lemma InfoFieldSplit(r: AlleleRecord)
    requires ';' !in r.rsId
    requires InfoField(r) != ""
    ensures Split(InfoField(r), ';') == InfoEntries(r)
  {
    InfoEntriesShape(r);
    var es := InfoEntries(r);
    assert es != [];
    SplitJoin(es, ';');
  }

  // ---------------------------------------------------------------------------
  // Lists of alleles
  // ---------------------------------------------------------------------------

  /** No allele object occurs twice in the list. */
  predicate Distinct(alleles: seq<Allele>) {
    forall i, j :: 0 <= i < j < |alleles| ==> alleles[i] != alleles[j]
  }

  /** The states of the alleles of a list. */
  function Snapshots(alleles: seq<Allele>): (rs: seq<AlleleRecord>)
    reads alleles
    ensures |rs| == |alleles|
    ensures forall i :: 0 <= i < |alleles| ==> rs[i] == alleles[i].Snapshot()
  {
    seq(|alleles|, i reads alleles requires 0 <= i < |alleles| => alleles[i].Snapshot())
  }

  /** Each record with the matching additions put into its values. */
  function Annotate(recs: seq<AlleleRecord>, adds: seq<map<AlleleProperty, Float>>): (r: seq<AlleleRecord>)
    requires |recs| == |adds|
    ensures |r| == |recs|
    ensures forall i :: 0 <= i < |r| ==> r[i] == recs[i].(values := recs[i].values + adds[i])
  {
    seq(|recs|, i requires 0 <= i < |recs| => recs[i].(values := recs[i].values + adds[i]))
  }

  /** A record made from an allele's identity and rsId, with the allele's
      values added, is that allele. */
  lemma IdentityFilled(r: AlleleRecord)
    ensures var rec := NewRecord(r.chr, r.pos, r.ref, r.alt).(rsId := r.rsId);
      rec.(values := rec.values + r.values) == r
  {
    assert map[] + r.values == r.values;
  }

  /** Records without values take exactly the maps put into them. */
  lemma AnnotateFresh(recs: seq<AlleleRecord>, adds: seq<map<AlleleProperty, Float>>)
    requires |recs| == |adds| && forall i :: 0 <= i < |recs| ==> recs[i].values == map[]
    ensures forall i :: 0 <= i < |recs| ==> Annotate(recs, adds)[i] == recs[i].(values := adds[i])
  {
    forall i | 0 <= i < |recs| ensures Annotate(recs, adds)[i] == recs[i].(values := adds[i]) {
      assert map[] + adds[i] == adds[i];
    }
  }

  /** Annotating a single record puts the map into its values. */
  lemma AnnotateOne(rec: AlleleRecord, m: map<AlleleProperty, Float>)
    ensures Annotate([rec], Same(1, m)) == [rec.(values := rec.values + m)]
  {
    var a := Annotate([rec], Same(1, m));
    assert a == [a[0]];
  }

  /** `n` copies of one map: what every ALT of a line receives when a source
      annotates them all alike. */
  function Same(n: nat, m: map<AlleleProperty, Float>): (r: seq<map<AlleleProperty, Float>>)
    ensures |r| == n && forall i :: 0 <= i < n ==> r[i] == m
  {
    seq(n, _ => m)
  }

  /** The loop `for each allele: allele.getValues().putAll(m)`. */
  method PutAllEach(alleles: seq<Allele>, m: map<AlleleProperty, Float>)
    requires Distinct(alleles)
    modifies alleles
    ensures Snapshots(alleles) == Annotate(old(Snapshots(alleles)), Same(|alleles|, m))
  {
    var i := 0;
    while i < |alleles|
      invariant 0 <= i <= |alleles|
      invariant forall j :: 0 <= j < i ==>
        alleles[j].Snapshot() == old(alleles[j].Snapshot()).(values := old(alleles[j].values) + m)
      invariant forall j :: i <= j < |alleles| ==> alleles[j].Snapshot() == old(alleles[j].Snapshot())
    {
      alleles[i].PutAll(m);
      i := i + 1;
    }
  }

  /** The records with the first |adds| of them annotated, the rest as they were. */
  function AnnotatePrefix(recs: seq<AlleleRecord>, adds: seq<map<AlleleProperty, Float>>): (r: seq<AlleleRecord>)
    requires |adds| <= |recs|
    ensures |r| == |recs|
    ensures forall j :: 0 <= j < |adds| ==> r[j] == recs[j].(values := recs[j].values + adds[j])
    ensures forall j :: |adds| <= j < |recs| ==> r[j] == recs[j]
  {
    Annotate(recs[..|adds|], adds) + recs[|adds|..]
  }

  /** The records with `m` put into the values of the i-th. */
  function PutAllInto(recs: seq<AlleleRecord>, i: nat, m: map<AlleleProperty, Float>): (r: seq<AlleleRecord>)
    requires i < |recs|
    ensures |r| == |recs| && r[i] == recs[i].(values := recs[i].values + m)
    ensures forall j :: 0 <= j < |recs| && j != i ==> r[j] == recs[j]
  {
    recs[i := recs[i].(values := recs[i].values + m)]
  }

  /** Annotating one more record extends the annotated prefix. */
  lemma AnnotatePrefixStep(recs: seq<AlleleRecord>, adds: seq<map<AlleleProperty, Float>>, m: map<AlleleProperty, Float>)
    requires |adds| < |recs|
    ensures AnnotatePrefix(recs, adds + [m]) == PutAllInto(AnnotatePrefix(recs, adds), |adds|, m)
  {
  }

  /** Annotating one more record with nothing leaves the records as they were. */
  lemma AnnotatePrefixSkip(recs: seq<AlleleRecord>, adds: seq<map<AlleleProperty, Float>>)
    requires |adds| < |recs|
    ensures AnnotatePrefix(recs, adds + [map[]]) == AnnotatePrefix(recs, adds)
  {
    var k := |adds|;
    assert recs[k].values + map[] == recs[k].values;
    assert AnnotatePrefix(recs, adds + [map[]])[k] == recs[k];
  }

  /** Once every record is annotated, the prefix is the whole list. */
  lemma AnnotatePrefixAll(recs: seq<AlleleRecord>, adds: seq<map<AlleleProperty, Float>>)
    requires |adds| == |recs|
    ensures AnnotatePrefix(recs, adds) == Annotate(recs, adds)
  {
  }

  /** alleles.get(i).getValues().putAll(m) on a list of distinct alleles: only
      the i-th record changes. */
  method PutAllAt(alleles: seq<Allele>, i: nat, m: map<AlleleProperty, Float>)
    requires Distinct(alleles) && i < |alleles|
    modifies alleles[i]
    ensures Snapshots(alleles) == PutAllInto(old(Snapshots(alleles)), i, m)
  {
    alleles[i].PutAll(m);
  }

  /** alleles.get(i).addValue(key, value) on a list of distinct alleles: only
      the i-th record changes, gaining the one entry. */
  method AddValueAt(alleles: seq<Allele>, i: nat, key: AlleleProperty, value: Float)
    requires Distinct(alleles) && i < |alleles|
    modifies alleles[i]
    ensures Snapshots(alleles) == PutAllInto(old(Snapshots(alleles)), i, map[key := value])
  {
    alleles[i].AddValue(key, value);
    assert alleles[i].values == old(alleles[i].values) + map[key := value];
  }
}
