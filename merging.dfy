/** The merge both partition writers perform: a partition's lines are read
    back with the Exomiser parser, alleles with the same key are merged into
    one, and the survivors are listed in compareTo order. */
module AlleleMerging {
  import opened Wrappers
  import opened JavaText
  import opened Alleles
  import opened VcfParser

  // ---------------------------------------------------------------------------
  // The merge function
  // ---------------------------------------------------------------------------

  /** Map.merge(key, incoming, mergeAlleles()) when `existing` is stored under
      the key: the lambda receives (existing, incoming) — its parameters are
      named (latest, original) — and returns the incoming allele, its unknown
      rsId filled from the existing one and the existing values put into its
      own. */
  function MergeRecords(existing: AlleleRecord, incoming: AlleleRecord): (r: AlleleRecord)
    ensures SameAllele(r, incoming)
    ensures r.rsId == if incoming.rsId == UnknownRsId then existing.rsId else incoming.rsId
    ensures r.values.Keys == existing.values.Keys + incoming.values.Keys
    ensures forall p :: p in existing.values ==> r.values[p] == existing.values[p]
    ensures forall p :: p in incoming.values && p !in existing.values ==> r.values[p] == incoming.values[p]
  {
    incoming.(rsId := if incoming.rsId == UnknownRsId then existing.rsId else incoming.rsId,
              values := incoming.values + existing.values)
  }

  /** The lambda of mergeAlleles, on the objects: only the incoming allele
      (`original`) changes, and it is the result. */
  method MergeAlleles(latest: Allele, original: Allele) returns (merged: Allele)
    modifies original
    ensures merged == original
    ensures merged.Snapshot() == MergeRecords(old(latest.Snapshot()), old(original.Snapshot()))
  {
    if original.rsId == UnknownRsId {
      original.SetRsId(latest.rsId);
    }
    original.PutAll(latest.values);
    merged := original;
  }

  /** One Map.merge into the store, keyed by generateKey. */
  function MergeInto(store: map<string, AlleleRecord>, r: AlleleRecord): (s: map<string, AlleleRecord>)
    ensures s.Keys == store.Keys + {Key(r)}
    ensures forall k :: k in store && k != Key(r) ==> s[k] == store[k]
    ensures s[Key(r)] == if Key(r) in store then MergeRecords(store[Key(r)], r) else r
  {
    var k := Key(r);
    store[k := if k in store then MergeRecords(store[k], r) else r]
  }

  /** The merges of the alleles of one line, in list order. */
  function MergeAll(store: map<string, AlleleRecord>, recs: seq<AlleleRecord>): map<string, AlleleRecord>
    decreases |recs|
  {
    if recs == [] then store else MergeAll(MergeInto(store, recs[0]), recs[1..])
  }

  /** readAndMergeAlleles from a given store: the alleles of each line are
      merged in; the first line the parser rejects ends the reading (the
      exception is caught and logged), and the store built so far is kept. */
  function ReadLines(store: map<string, AlleleRecord>, lines: seq<string>): map<string, AlleleRecord>
    decreases |lines|
  {
    if lines == [] then store
    else
      match LineAlleles(Exomiser, lines[0])
      case Err(_) => store
      case Ok(recs) => ReadLines(MergeAll(store, recs), lines[1..])
  }

  /** readAndMergeAlleles: the store a partition's lines produce. */
  function ReadPartition(lines: seq<string>): map<string, AlleleRecord> {
    ReadLines(map[], lines)
  }

  // ---------------------------------------------------------------------------
  // The store on the objects
  // ---------------------------------------------------------------------------

  /** The states of the alleles of a store. */
  function StoreRecords(store: map<string, Allele>): (s: map<string, AlleleRecord>)
    reads store.Values
    ensures s.Keys == store.Keys
    ensures forall k :: k in store ==> s[k] == store[k].Snapshot()
  {
    map k | k in store :: store[k].Snapshot()
  }

  /** Storing an allele under a key. */
  lemma StoreRecordsPut(store: map<string, Allele>, k: string, a: Allele)
    ensures StoreRecords(store[k := a]) == StoreRecords(store)[k := a.Snapshot()]
  {
  }

  /** alleleStore.merge(generateKey, allele, mergeAlleles()): the allele is
      stored under its key, merged into the allele already there. */
  method MergeOne(store: map<string, Allele>, allele: Allele) returns (after: map<string, Allele>)
    requires allele !in store.Values
    modifies allele
    ensures StoreRecords(after) == MergeInto(old(StoreRecords(store)), old(allele.Snapshot()))
    ensures forall k :: k in after ==> (k in store && after[k] == store[k]) || after[k] == allele
  {
    var key := Key(allele.Snapshot());
    var merged := allele;
    if key in store {
      merged := MergeAlleles(store[key], allele);
    }
    StoreRecordsPut(store, key, merged);
    after := store[key := merged];
  }

  /** The inner loop of readAndMergeAlleles over one line's alleles. */
  method MergeLine(store: map<string, Allele>, alleles: seq<Allele>) returns (after: map<string, Allele>)
    requires Distinct(alleles)
    requires forall k, j :: k in store && 0 <= j < |alleles| ==> store[k] != alleles[j]
    modifies alleles
    ensures StoreRecords(after) == MergeAll(old(StoreRecords(store)), old(Snapshots(alleles)))
  {
    ghost var recs := Snapshots(alleles);
    ghost var goal := MergeAll(StoreRecords(store), recs);
    after := store;
    var j := 0;
    while j < |alleles|
      invariant 0 <= j <= |alleles|
      invariant forall k, m :: k in after && j <= m < |alleles| ==> after[k] != alleles[m]
      invariant forall m :: j <= m < |alleles| ==> alleles[m].Snapshot() == recs[m]
      invariant MergeAll(StoreRecords(after), recs[j..]) == goal
    {
      ghost var before := StoreRecords(after);
      after := MergeOne(after, alleles[j]);
      MergeAllStep(before, recs, j);
      j := j + 1;
    }
  }

  lemma MergeAllStep(store: map<string, AlleleRecord>, recs: seq<AlleleRecord>, j: nat)
    requires j < |recs|
    ensures MergeAll(store, recs[j..]) == MergeAll(MergeInto(store, recs[j]), recs[j + 1..])
  {
    assert recs[j..][0] == recs[j] && recs[j..][1..] == recs[j + 1..];
  }

  /** readAndMergeAlleles: parse each line of the partition with a new
      Exomiser parser and merge its alleles into the store, keyed by
      generateKey; the first failing line ends the loop. */
  method ReadAndMergeAlleles(lines: seq<string>) returns (store: map<string, Allele>)
    ensures StoreRecords(store) == ReadPartition(lines)
  {
    store := map[];
    var i := 0;
    while i < |lines|
      invariant 0 <= i <= |lines|
      invariant ReadLines(StoreRecords(store), lines[i..]) == ReadPartition(lines)
    {
      assert lines[i..][0] == lines[i] && lines[i..][1..] == lines[i + 1..];
      var alleles := ParseLine(Exomiser, lines[i]);
      if alleles.Err? {
        return;
      }
      store := MergeLine(store, alleles.value);
      i := i + 1;
    }
  }

  // ---------------------------------------------------------------------------
  // Properties of the merge
  // ---------------------------------------------------------------------------

  /** Every allele of a store is stored under its own key. */
  ghost predicate KeyedByKey(store: map<string, AlleleRecord>) {
    forall k :: k in store ==> Key(store[k]) == k
  }

  /** Merging keeps every allele under its own key, and the keys are those
      before plus those of the merged alleles. */
  lemma {:induction false} MergeAllKeys(store: map<string, AlleleRecord>, recs: seq<AlleleRecord>)
    requires KeyedByKey(store)
    ensures KeyedByKey(MergeAll(store, recs))
    ensures forall k :: k in MergeAll(store, recs) <==> k in store || exists r :: r in recs && Key(r) == k
    decreases |recs|
  {
    if recs != [] {
      var next := MergeInto(store, recs[0]);
      MergeAllKeys(next, recs[1..]);
      forall k ensures k in MergeAll(store, recs) <==> k in store || exists r :: r in recs && Key(r) == k {
        if exists r :: r in recs[1..] && Key(r) == k {
          var r :| r in recs[1..] && Key(r) == k;
          assert r in recs;
        }
        if exists r :: r in recs && Key(r) == k {
          var r :| r in recs && Key(r) == k;
          assert r == recs[0] || r in recs[1..];
        }
      }
    }
  }

  /** Reading a partition keeps every allele under its own key; every key is
      that of an allele of an accepted line. */
  lemma {:induction false} ReadLinesKeys(store: map<string, AlleleRecord>, lines: seq<string>)
    requires KeyedByKey(store)
    ensures KeyedByKey(ReadLines(store, lines))
    ensures store.Keys <= ReadLines(store, lines).Keys
    decreases |lines|
  {
    if lines != [] {
      match LineAlleles(Exomiser, lines[0])
      case Err(_) =>
      case Ok(recs) =>
        MergeAllKeys(store, recs);
        ReadLinesKeys(MergeAll(store, recs), lines[1..]);
    }
  }

  /** Hence the partition holds one allele per distinct key, and no two of
      its alleles are equal (equals implies the same key). */
  lemma PartitionDistinct(lines: seq<string>)
    ensures KeyedByKey(ReadPartition(lines))
    ensures OnePerAllele(ReadPartition(lines))
  {
    ReadLinesKeys(map[], lines);
    var store := ReadPartition(lines);
    forall k, l | k in store && l in store && k != l ensures !SameAllele(store[k], store[l]) {
      if SameAllele(store[k], store[l]) {
        KeyOfSame(store[k], store[l]);
      }
    }
  }

  /** A line the parser rejects ends the reading: the lines after it are
      never merged. */
  lemma RejectedLineEndsPartition(lines: seq<string>, i: nat)
    requires i < |lines| && LineAlleles(Exomiser, lines[i]).Err?
    ensures ReadPartition(lines) == ReadPartition(lines[..i])
  {
    ReadLinesPrefix(map[], lines, i);
  }

  lemma {:induction false} ReadLinesPrefix(store: map<string, AlleleRecord>, lines: seq<string>, i: nat)
    requires i < |lines| && LineAlleles(Exomiser, lines[i]).Err?
    ensures ReadLines(store, lines) == ReadLines(store, lines[..i])
    decreases i
  {
    if i > 0 {
      assert lines[..i][0] == lines[0] && lines[..i][1..] == lines[1..][..i - 1];
      match LineAlleles(Exomiser, lines[0])
      case Err(_) =>
      case Ok(recs) =>
        ReadLinesPrefix(MergeAll(store, recs), lines[1..], i - 1);
    }
  }

  /** Lines that each read as one allele merge those alleles in order. */
  lemma {:induction false} ReadLinesOfSingles(store: map<string, AlleleRecord>, lines: seq<string>, recs: seq<AlleleRecord>)
    requires |lines| == |recs|
    requires forall i :: 0 <= i < |lines| ==> LineAlleles(Exomiser, lines[i]) == Ok([recs[i]])
    ensures ReadLines(store, lines) == MergeAll(store, recs)
    decreases |lines|
  {
    if lines != [] {
      assert [recs[0]][1..] == [];
      assert MergeAll(store, [recs[0]]) == MergeInto(store, recs[0]);
      ReadLinesOfSingles(MergeInto(store, recs[0]), lines[1..], recs[1..]);
    }
  }

  /** Lines that each read as one allele, up to a line the parser rejects (or
      the end), give the merge of those alleles; the lines after the rejected
      one are never read. */
  lemma ReadPartitionUpTo(lines: seq<string>, recs: seq<AlleleRecord>, k: nat)
    requires |lines| == |recs| && k <= |lines|
    requires forall i :: 0 <= i < k ==> LineAlleles(Exomiser, lines[i]) == Ok([recs[i]])
    requires k < |lines| ==> LineAlleles(Exomiser, lines[k]).Err?
    ensures ReadPartition(lines) == MergeAll(map[], recs[..k])
  {
    if k < |lines| {
      RejectedLineEndsPartition(lines, k);
    } else {
      assert lines[..k] == lines;
    }
    ReadLinesOfSingles(map[], lines[..k], recs[..k]);
  }

  /** Two alleles with the same key saved one after the other: the later one
      survives, with the earlier one's values on shared keys and the union of
      the keys (the earlier rsId fills an unknown later one). */
  lemma MergeTwo(first: AlleleRecord, second: AlleleRecord)
    requires Key(first) == Key(second)
    ensures MergeAll(map[], [first, second]) == map[Key(second) := MergeRecords(first, second)]
  {
    var one := MergeInto(map[], first);
    assert [first, second][1..] == [second] && [second][1..] == [];
    assert MergeAll(map[], [first, second]) == MergeAll(one, [second]) == MergeAll(MergeInto(one, second), []);
  }

  // ---------------------------------------------------------------------------
  // The sorted listing
  // ---------------------------------------------------------------------------

  /** Strictly increasing in compareTo order. */
  predicate StrictlySorted(rs: seq<AlleleRecord>) {
    forall i, j :: 0 <= i < j < |rs| ==> Compare(rs[i], rs[j]) < 0
  }

  /** values().stream().sorted(): the alleles of a store in compareTo order. */
  ghost predicate Listing(out: seq<AlleleRecord>, store: map<string, AlleleRecord>) {
    StrictlySorted(out) && forall r :: r in out <==> r in store.Values
  }

  /** `r` placed in a sorted list before the first allele above it. */
  function Insert(sorted: seq<AlleleRecord>, r: AlleleRecord): (res: seq<AlleleRecord>)
    requires StrictlySorted(sorted)
    requires forall x :: x in sorted ==> !SameAllele(x, r)
    ensures StrictlySorted(res)
    ensures forall x :: x in res <==> x in sorted || x == r
    ensures |res| == |sorted| + 1
  {
    if sorted == [] then [r]
    else if Compare(r, sorted[0]) < 0 then
      InsertBefore(sorted, r);
      [r] + sorted
    else
      AboveFirst(sorted, r);
      var rest := Insert(sorted[1..], r);
      InsertAfter(sorted, r, rest);
      [sorted[0]] + rest
  }

  lemma AboveFirst(sorted: seq<AlleleRecord>, r: AlleleRecord)
    requires sorted != [] && !(Compare(r, sorted[0]) < 0)
    requires forall x :: x in sorted ==> !SameAllele(x, r)
    ensures Compare(sorted[0], r) < 0
  {
    assert sorted[0] in sorted;
    CompareZeroIffSame(r, sorted[0]);
    CompareAntisymmetric(sorted[0], r);
  }

  lemma InsertAfter(sorted: seq<AlleleRecord>, r: AlleleRecord, rest: seq<AlleleRecord>)
    requires StrictlySorted(sorted) && sorted != [] && Compare(sorted[0], r) < 0
    requires StrictlySorted(rest) && forall x :: x in rest ==> x in sorted[1..] || x == r
    ensures StrictlySorted([sorted[0]] + rest)
  {
    forall j | 0 <= j < |rest| ensures Compare(sorted[0], rest[j]) < 0 {
      if rest[j] != r {
        assert rest[j] in rest;
        var m :| 0 <= m < |sorted| - 1 && sorted[1..][m] == rest[j];
        assert sorted[m + 1] == rest[j];
      }
    }
  }

  lemma InsertBefore(sorted: seq<AlleleRecord>, r: AlleleRecord)
    requires StrictlySorted(sorted) && sorted != [] && Compare(r, sorted[0]) < 0
    ensures StrictlySorted([r] + sorted)
  {
    forall j | 0 <= j < |sorted| ensures Compare(r, sorted[j]) < 0 {
      if j > 0 {
        CompareTransitive(r, sorted[0], sorted[j]);
      }
    }
  }

  /** The sort of the stream: insertion of each allele in turn. */
  method SortRecords(rs: seq<AlleleRecord>) returns (sorted: seq<AlleleRecord>)
    requires forall i, j :: 0 <= i < j < |rs| ==> !SameAllele(rs[i], rs[j])
    ensures StrictlySorted(sorted)
    ensures forall x :: x in sorted <==> x in rs
  {
    sorted := [];
    var i := 0;
    while i < |rs|
      invariant 0 <= i <= |rs|
      invariant StrictlySorted(sorted)
      invariant forall x :: x in sorted <==> x in rs[..i]
    {
      assert forall x :: x in sorted ==> !SameAllele(x, rs[i]) by {
        forall x | x in sorted ensures !SameAllele(x, rs[i]) {
          var j :| 0 <= j < i && rs[j] == x;
        }
      }
      sorted := Insert(sorted, rs[i]);
      assert rs[..i + 1] == rs[..i] + [rs[i]];
      i := i + 1;
    }
    assert rs[..i] == rs;
  }

  /** No two keys of a store hold equal alleles. */
  ghost predicate OnePerAllele(store: map<string, AlleleRecord>) {
    forall k, l :: k in store && l in store && k != l ==> !SameAllele(store[k], store[l])
  }

  /** The values of a store, as a list of pairwise unequal alleles. */
  method StoreValues(store: map<string, AlleleRecord>) returns (rs: seq<AlleleRecord>)
    requires OnePerAllele(store)
    ensures forall x :: x in rs <==> x in store.Values
    ensures forall i, j :: 0 <= i < j < |rs| ==> !SameAllele(rs[i], rs[j])
  {
    rs := [];
    ghost var ks: seq<string> := [];
    var keys := store.Keys;
    while keys != {}
      invariant keys <= store.Keys && |ks| == |rs|
      invariant forall i :: 0 <= i < |ks| ==> ks[i] in store && ks[i] !in keys && rs[i] == store[ks[i]]
      invariant forall k :: k in store && k !in keys ==> k in ks
      invariant forall i, j :: 0 <= i < j < |ks| ==> ks[i] != ks[j]
      decreases |keys|
    {
      var k :| k in keys;
      rs := rs + [store[k]];
      ks := ks + [k];
      keys := keys - {k};
    }
    StoreValuesListed(store, ks, rs);
  }

  /** Values listed under distinct keys that cover the store are the store's
      values, pairwise unequal alleles. */
  lemma StoreValuesListed(store: map<string, AlleleRecord>, ks: seq<string>, rs: seq<AlleleRecord>)
    requires OnePerAllele(store) && |ks| == |rs|
    requires forall i :: 0 <= i < |ks| ==> ks[i] in store && rs[i] == store[ks[i]]
    requires forall k :: k in store ==> k in ks
    requires forall i, j :: 0 <= i < j < |ks| ==> ks[i] != ks[j]
    ensures forall x :: x in rs <==> x in store.Values
    ensures forall i, j :: 0 <= i < j < |rs| ==> !SameAllele(rs[i], rs[j])
  {
    forall x | x in store.Values ensures x in rs {
      var k :| k in store && store[k] == x;
      var i :| 0 <= i < |ks| && ks[i] == k;
      assert rs[i] == x;
    }
  }

  /** A partition's listing: the merged store, sorted. */
  method ListPartition(lines: seq<string>) returns (sorted: seq<AlleleRecord>)
    ensures Listing(sorted, ReadPartition(lines))
  {
    var store := ReadAndMergeAlleles(lines);
    var records := StoreRecords(store);
    PartitionDistinct(lines);
    var values := StoreValues(records);
    sorted := SortRecords(values);
  }

  /** A store has one listing: two strictly sorted lists of the same alleles
      are equal, so the output does not depend on the hash map's order. */
  lemma {:induction false} ListingUnique(a: seq<AlleleRecord>, b: seq<AlleleRecord>)
    requires StrictlySorted(a) && StrictlySorted(b)
    requires forall x :: x in a <==> x in b
    ensures a == b
  {
    if a != [] {
      assert a[0] in a;
    }
    if b != [] {
      assert b[0] in b;
    }
    if a != [] && b != [] {
      SmallestFirst(a, b[0]);
      SmallestFirst(b, a[0]);
      if a[0] != b[0] {
        CompareAntisymmetric(a[0], b[0]);
      }
      assert a == [a[0]] + a[1..] && b == [b[0]] + b[1..];
      forall x ensures x in a[1..] <==> x in b[1..] {
        if x in a[1..] {
          NotFirst(a, x);
          assert x in a && x in b;
        }
        if x in b[1..] {
          NotFirst(b, x);
          assert x in b && x in a;
        }
      }
      ListingUnique(a[1..], b[1..]);
    }
  }

  /** A strictly sorted list holds each allele once. */
  lemma NotFirst(s: seq<AlleleRecord>, x: AlleleRecord)
    requires StrictlySorted(s) && |s| > 0 && x in s[1..]
    ensures x != s[0]
  {
    var j :| 1 <= j < |s| && s[j] == x by {
      var m :| 0 <= m < |s| - 1 && s[1..][m] == x;
      assert s[m + 1] == x;
    }
    CompareZeroIffSame(x, x);
  }

  /** In a strictly sorted list, the first element is below every other. */
  lemma SmallestFirst(s: seq<AlleleRecord>, x: AlleleRecord)
    requires StrictlySorted(s) && x in s
    ensures Compare(s[0], x) <= 0
    ensures x != s[0] ==> Compare(s[0], x) < 0
  {
    var j :| 0 <= j < |s| && s[j] == x;
    if j == 0 {
      CompareZeroIffSame(x, x);
    }
  }

  // ---------------------------------------------------------------------------
  // The merged file
  // ---------------------------------------------------------------------------

  /** The chromosomes of the partitions: 1 to NUM_CHROMOSOMES - 1. */
  const NumChromosomes: int := 25 + 1

  /** A partition for every chromosome. */
  ghost predicate AllPartitions(files: map<int, string>) {
    forall i :: 1 <= i < NumChromosomes ==> i in files
  }

  /** The partition files after prepareWriters: temp_chr<i>.allele for every
      chromosome, keeping the text of a file that `existing` says is already
      in the working directory, empty otherwise. */
  function Partitions(existing: map<int, string>): (files: map<int, string>)
    ensures AllPartitions(files)
    ensures forall i :: i in files ==> 1 <= i < NumChromosomes
    ensures forall i :: i in files ==> files[i] == if i in existing then existing[i] else ""
  {
    map i | 1 <= i < NumChromosomes :: if i in existing then existing[i] else ""
  }

  /** The text of a listing, each allele written with `toLine`. */
  function Written(recs: seq<AlleleRecord>, toLine: AlleleRecord -> string): string {
    if recs == [] then "" else Written(recs[..|recs| - 1], toLine) + toLine(recs[|recs| - 1])
  }

  /** The lines `body` gives a list of alleles. */
  function Bodies(recs: seq<AlleleRecord>, body: AlleleRecord -> string): (ls: seq<string>)
    ensures |ls| == |recs| && forall i :: 0 <= i < |recs| ==> ls[i] == body(recs[i])
  {
    seq(|recs|, i requires 0 <= i < |recs| => body(recs[i]))
  }

  /** A listing written with a `toLine` that ends each allele's line with a
      line break is the text of those lines. */
  lemma {:induction false} WrittenText(recs: seq<AlleleRecord>, toLine: AlleleRecord -> string, body: AlleleRecord -> string)
    requires forall i :: 0 <= i < |recs| ==> toLine(recs[i]) == body(recs[i]) + "\n"
    ensures Written(recs, toLine) == Text(Bodies(recs, body))
  {
    if recs != [] {
      var n := |recs| - 1;
      WrittenText(recs[..n], toLine, body);
      TextAppend(Bodies(recs[..n], body), body(recs[n]));
      assert Bodies(recs[..n], body) + [body(recs[n])] == Bodies(recs, body);
    }
  }

  /** The merged file: the listings of the partitions in chromosome order. */
  function Output(listings: seq<seq<AlleleRecord>>, toLine: AlleleRecord -> string): string {
    if listings == [] then ""
    else Output(listings[..|listings| - 1], toLine) + Written(listings[|listings| - 1], toLine)
  }

  /** forEach(writeAlleleLine): each allele of the listing written in turn. */
  method WriteListing(sorted: seq<AlleleRecord>, toLine: AlleleRecord -> string) returns (text: string)
    ensures text == Written(sorted, toLine)
  {
    text := "";
    for k := 0 to |sorted|
      invariant text == Written(sorted[..k], toLine)
    {
      assert sorted[..k + 1][..k] == sorted[..k];
      text := text + toLine(sorted[k]);
    }
    assert sorted[..|sorted|] == sorted;
  }

  /** mergeAllelesByChromosome: for chromosomes 1 to 25 in turn, the
      partition is read and merged, and its alleles are written in compareTo
      order. The result is the text of the merged file. */
  method MergeAllelesByChromosome(files: map<int, string>, toLine: AlleleRecord -> string)
    returns (merged: string, ghost listings: seq<seq<AlleleRecord>>)
    requires AllPartitions(files)
    ensures |listings| == NumChromosomes - 1
    ensures ListsPartitions(listings, files)
    ensures merged == Output(listings, toLine)
  {
    merged, listings := "", [];
    for chr := 1 to NumChromosomes
      invariant |listings| == chr - 1
      invariant ListsPartitions(listings, files)
      invariant merged == Output(listings, toLine)
    {
      var sorted := ListPartition(Lines(files[chr]));
      var text := WriteListing(sorted, toLine);
      merged := merged + text;
      ListsPartitionsAppend(listings, files, sorted);
      assert (listings + [sorted])[..|listings|] == listings;
      listings := listings + [sorted];
    }
  }

  /** Listing i is the sorted merge of the partition of chromosome i + 1. */
  ghost predicate ListsPartitions(listings: seq<seq<AlleleRecord>>, files: map<int, string>) {
    forall i :: 0 <= i < |listings| ==> ListsPartition(listings, files, i)
  }

  ghost predicate ListsPartition(listings: seq<seq<AlleleRecord>>, files: map<int, string>, i: nat)
    requires i < |listings|
  {
    i + 1 in files && Listing(listings[i], ReadPartition(Lines(files[i + 1])))
  }

  lemma ListsPartitionsAppend(listings: seq<seq<AlleleRecord>>, files: map<int, string>, sorted: seq<AlleleRecord>)
    requires ListsPartitions(listings, files)
    requires |listings| + 1 in files && Listing(sorted, ReadPartition(Lines(files[|listings| + 1])))
    ensures ListsPartitions(listings + [sorted], files)
  {
    var all := listings + [sorted];
    forall i | 0 <= i < |all| ensures ListsPartition(all, files, i) {
      if i < |listings| {
        assert ListsPartition(listings, files, i);
        assert all[i] == listings[i];
      } else {
        assert all[i] == sorted;
      }
    }
  }
}
