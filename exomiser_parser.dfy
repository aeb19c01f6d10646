/** The repository's own INFO format, "KEY=value;KEY=value", as the file
    writers produce it: every token names a property and carries its value,
    and every ALT of the line receives the whole map. */
module ExomiserParser {
  import opened Wrappers
  import opened JavaText
  import opened JavaFloat
  import opened AlleleProperties
  import opened Alleles
  import opened Folds

  /** One pass of parseInfoLine's loop: the token split at '=', its first
      piece looked up with valueOf and its second parsed as a float, in the
      order Java evaluates them. */
  function InfoEntry(field: string): (r: Result<(AlleleProperty, Float)>)
    ensures r.Ok? ==> var kv := Split(field, '=');
      |kv| >= 2 && Name(r.value.0) == kv[0] && ParseFloat(kv[1]) == Some(r.value.1)
    ensures r.Err? ==> var kv := Split(field, '=');
      if |kv| == 0 then r.error == IndexOutOfBounds(0)
      else if ValueOf(kv[0]).Err? then r.error == IllegalArgument(kv[0])
      else if |kv| == 1 then r.error == IndexOutOfBounds(1)
      else r.error == NumberFormat(kv[1])
  {
    var kv := Split(field, '=');
    if |kv| == 0 then Err(IndexOutOfBounds(0))
    else
      match ValueOf(kv[0])
      case Err(e) => Err(e)
      case Ok(p) =>
        if |kv| < 2 then Err(IndexOutOfBounds(1))
        else
          match ParseFloat(kv[1])
          case None => Err(NumberFormat(kv[1]))
          case Some(v) => Ok((p, v))
  }

  /** The passes of the loop over the tokens. */
  function InfoEntries(fields: seq<string>): (es: seq<Result<(AlleleProperty, Float)>>)
    ensures |es| == |fields| && forall j :: 0 <= j < |fields| ==> es[j] == InfoEntry(fields[j])
  {
    seq(|fields|, j requires 0 <= j < |fields| => InfoEntry(fields[j]))
  }

  /** The map the loop over the tokens builds: each token puts its value under
      its key, a later token overriding an earlier one; the first failing
      token ends the loop with its exception. */
  function InfoValues(fields: seq<string>): Result<map<AlleleProperty, Float>> {
    Assign(InfoEntries(fields))
  }

  /** What parseInfoLine returns: nothing for ".", otherwise the values of
      the ';' tokens. */
  function InfoLine(info: string): Result<map<AlleleProperty, Float>> {
    if info == "." then Ok(map[]) else InfoValues(Split(info, ';'))
  }

  /** The values of an INFO field: parseInfoLine of the trimmed field. */
  function ExomiserValues(info: string): Result<map<AlleleProperty, Float>> {
    InfoLine(Trim(info))
  }

  /** parseInfoLine. */
  method ParseInfoLine(info: string) returns (r: Result<map<AlleleProperty, Float>>)
    ensures r == InfoLine(info)
  {
    var values: map<AlleleProperty, Float> := map[];
    if info == "." {
      return Ok(values);
    }
    var fields := Split(info, ';');
    ghost var entries := InfoEntries(fields);
    var i := 0;
    while i < |fields|
      invariant 0 <= i <= |fields|
      invariant Assign(entries[..i]) == Ok(values)
    {
      var fieldValues := Split(fields[i], '=');
      if |fieldValues| == 0 {
        AssignBreaks(entries, i);
        return Err(IndexOutOfBounds(0));
      }
      var key := ValueOf(fieldValues[0]);
      if key.Err? {
        AssignBreaks(entries, i);
        return Err(key.error);
      }
      if |fieldValues| < 2 {
        AssignBreaks(entries, i);
        return Err(IndexOutOfBounds(1));
      }
      var value := ParseFloat(fieldValues[1]);
      if value.None? {
        AssignBreaks(entries, i);
        return Err(NumberFormat(fieldValues[1]));
      }
      assert entries[i] == Ok((key.value, value.value));
      AssignStep(entries, i, values);
      values := values[key.value := value.value];
      i := i + 1;
    }
    assert entries[..i] == entries;
    return Ok(values);
  }

  /** The values the `n` ALTs of a line receive: all the same map. */
  function ExomiserAdditions(info: string, n: nat): Result<seq<map<AlleleProperty, Float>>> {
    match ExomiserValues(info)
    case Err(e) => Err(e)
    case Ok(m) => Ok(Same(n, m))
  }

  /** parseInfoField: the values of the trimmed INFO field are put into every ALT. */
  method ParseInfoField(alleles: seq<Allele>, info: string) returns (r: Result<seq<Allele>>)
    requires Distinct(alleles)
    modifies alleles
    ensures var adds := ExomiserAdditions(info, |alleles|);
            r == (if adds.Ok? then Ok(alleles) else Err(adds.error)) &&
            (adds.Ok? ==> Snapshots(alleles) == Annotate(old(Snapshots(alleles)), adds.value))
  {
    var values := ParseInfoLine(Trim(info));
    if values.Err? {
      return Err(values.error);
    }
    PutAllEach(alleles, values.value);
    r := Ok(alleles);
  }

  // ---------------------------------------------------------------------------
  // Properties
  // ---------------------------------------------------------------------------

  /** An INFO field that trims to "." gives no values. */
  lemma DotGivesNothing(info: string, n: nat)
    requires Trim(info) == "."
    ensures ExomiserAdditions(info, n) == Ok(Same(n, map[]))
  {
  }

  /** Every ALT receives the same map. */
  lemma ExomiserSameForEveryAlt(info: string, n: nat, i: nat, j: nat)
    requires ExomiserAdditions(info, n).Ok? && i < n && j < n
    ensures ExomiserAdditions(info, n).value[i] == ExomiserAdditions(info, n).value[j]
    ensures ExomiserAdditions(info, n).value[i] == ExomiserValues(info).value
  {
  }

  /** The loop succeeds exactly when every token is a readable "KEY=value". */
  lemma InfoValuesOk(fields: seq<string>)
    ensures InfoValues(fields).Ok? <==> forall j :: 0 <= j < |fields| ==> InfoEntry(fields[j]).Ok?
  {
    AssignOk(InfoEntries(fields));
  }

  /** Exactly the keys of the tokens are stored. */
  lemma InfoValuesKeys(fields: seq<string>, p: AlleleProperty)
    requires InfoValues(fields).Ok?
    ensures p in InfoValues(fields).value <==>
      exists j :: 0 <= j < |fields| && InfoEntry(fields[j]).Ok? && InfoEntry(fields[j]).value.0 == p
  {
    var es := InfoEntries(fields);
    AssignKeys(es, p);
    if p in InfoValues(fields).value {
      var j :| 0 <= j < |es| && es[j].Ok? && es[j].value.0 == p;
      assert InfoEntry(fields[j]) == es[j];
    }
  }

  /** A key takes the value of the last token that names it. */
  lemma InfoValuesLast(fields: seq<string>, j: nat)
    requires InfoValues(fields).Ok? && j < |fields|
    requires InfoEntry(fields[j]).Ok?
    requires forall k :: j < k < |fields| && InfoEntry(fields[k]).Ok? ==>
      InfoEntry(fields[k]).value.0 != InfoEntry(fields[j]).value.0
    ensures var (p, v) := InfoEntry(fields[j]).value;
            p in InfoValues(fields).value && InfoValues(fields).value[p] == v
  {
    AssignLast(InfoEntries(fields), j);
  }

  /** A string no property is called is refused by valueOf. */
  lemma NotANameRefused(s: string)
    requires forall p :: Name(p) != s
    ensures ValueOf(s) == Err(IllegalArgument(s))
  {
  }

  /** No property is called "RS". */
  lemma RsIsNoName()
    ensures forall p :: Name(p) != "RS"
  {
  }

  /** The piece of a token before its first '='. */
  lemma SplitKey(key: string, rest: string)
    requires key != "" && '=' !in key
    ensures var kv := Split(key + "=" + rest, '=');
            |kv| >= 1 && kv[0] == key
  {
    var s := key + "=" + rest;
    assert s[|key|] == '=';
    SplitFirst(s, '=', key);
  }

  /** An "RS=<id>" token, as a writer that puts the rsId into INFO produces,
      is rejected: "RS" is not a property name. */
  lemma RsTokenRejected(id: string)
    ensures InfoEntry("RS=" + id) == Err(IllegalArgument("RS"))
  {
    SplitKey("RS", id);
    assert "RS" + "=" + id == "RS=" + id;
    RsIsNoName();
    NotANameRefused("RS");
  }

  /** A "KEY=value" entry as Map.Entry.toString prints it reads back as the
      same key and value. */
  lemma EntryRoundTrip(p: AlleleProperty, v: Float)
    ensures InfoEntry(Entry(p, v)) == Ok((p, v))
  {
    var n, f := Name(p), FormatFloat(v);
    NameShape(p);
    assert '=' !in n by {
      forall i | 0 <= i < |n| ensures n[i] != '=' {
        assert NameChar(n[i]);
      }
    }
    assert '=' !in f by {
      forall i | 0 <= i < |f| ensures f[i] != '=' {
        assert FloatChar(f[i]);
      }
    }
    assert Join([n, f], '=') == Entry(p, v);
    SplitJoin([n, f], '=');
    ValueOfName(p);
    FormatParseRoundTrip(v);
  }

  /** The loop reads the entries of a map back as the keys and values they print. */
  lemma EntriesRead(m: map<AlleleProperty, Float>)
    ensures InfoEntries(ValueEntries(m)) == Pairs(OrderedKeys(m), m)
  {
    var ks := OrderedKeys(m);
    forall i | 0 <= i < |ks| ensures InfoEntries(ValueEntries(m))[i] == Pairs(ks, m)[i] {
      EntryRoundTrip(ks[i], m[ks[i]]);
    }
  }

  /** Such entries join to text that trim leaves alone and that is not ".". */
  lemma JoinedTrimmed(es: seq<string>)
    requires NamedEnds(es)
    ensures var s := Join(es, ';');
            Trim(s) == s && s != "."
  {
    JoinEnds(es, ';');
    var s := Join(es, ';');
    assert NameChar(s[0]);
    assert s[|s| - 1] > ' ';
  }

  /** The joined entries of a map split back into the entries. */
  lemma ValuesSplit(m: map<AlleleProperty, Float>)
    requires m != map[]
    ensures Split(Join(ValueEntries(m), ';'), ';') == ValueEntries(m)
  {
    ValueEntriesEnds(m);
    ValueEntriesShape(m);
    SplitJoin(ValueEntries(m), ';');
  }

  /** generateInfoField's "KEY=value" tokens for a non-empty map read back as
      that map: the value part of the INFO column round-trips. */
  lemma ValuesRoundTrip(m: map<AlleleProperty, Float>)
    requires m != map[]
    ensures ExomiserValues(Join(ValueEntries(m), ';')) == Ok(m)
  {
    ValueEntriesEnds(m);
    JoinedTrimmed(ValueEntries(m));
    ValuesSplit(m);
    EntriesRead(m);
    AssignAllPairs(OrderedKeys(m), m);
  }

  // ---------------------------------------------------------------------------
  // generateInfoField read back
  // ---------------------------------------------------------------------------

  /** Text whose last character, if any, is not removed by trim. */
  predicate NoTrailingBlank(s: string) {
    s == [] || s[|s| - 1] > ' '
  }

  /** The tokens of generateInfoField with a known rsId: the "RS=" token,
      then the values. */
  lemma RsEntry(r: AlleleRecord)
    requires r.rsId != UnknownRsId
    ensures Alleles.InfoEntries(r) == ["RS=" + r.rsId] + ValueEntries(r.values)
  {
  }

  /** The "RS=" token starts with 'R' and ends printed. */
  lemma RsTokenEnds(id: string)
    requires NoTrailingBlank(id)
    ensures var t := "RS=" + id; t != "" && t[0] == 'R' && t[|t| - 1] > ' '
  {
    var t := "RS=" + id;
    if id != [] {
      assert t[|t| - 1] == id[|id| - 1];
    }
  }

  /** The value entries are none, or end with a printed character. */
  lemma ValuesEnd(m: map<AlleleProperty, Float>)
    ensures var vs := ValueEntries(m);
      vs != [] ==> EndsPrintable(vs[|vs| - 1])
  {
    if m != map[] {
      ValueEntriesEnds(m);
    } else {
      ValueEntriesEmpty(m);
    }
  }

  /** An "RS=" token followed by tokens of which the last ends with a printed
      character joins to text that starts with 'R' and that trim leaves alone. */
  lemma TrimmedTokens(id: string, rest: seq<string>)
    requires NoTrailingBlank(id)
    requires rest != [] ==> EndsPrintable(rest[|rest| - 1])
    ensures var j := Join(["RS=" + id] + rest, ';');
      j != "" && j[0] == 'R' && Trim(j) == j
  {
    var es := ["RS=" + id] + rest;
    TokenEnds(id, rest);
    JoinEnds(es, ';');
  }

  /** The "RS=" token starts with 'R' and the last token ends printed. */
  lemma TokenEnds(id: string, rest: seq<string>)
    requires NoTrailingBlank(id)
    requires rest != [] ==> EndsPrintable(rest[|rest| - 1])
    ensures var es := ["RS=" + id] + rest;
      |es| >= 1 && es[0] != "" && es[0][0] == 'R' && EndsPrintable(es[|es| - 1])
  {
    var es := ["RS=" + id] + rest;
    RsTokenEnds(id);
    if rest != [] {
      assert es[|es| - 1] == rest[|rest| - 1];
    }
  }

  /** An "RS=" token before the value entries of `m` joins to text that
      starts with 'R' and that trim leaves alone. */
  lemma RsInfoTrimmed(id: string, m: map<AlleleProperty, Float>)
    requires NoTrailingBlank(id)
    ensures var j := Join(["RS=" + id] + ValueEntries(m), ';');
      j != "" && j[0] == 'R' && Trim(j) == j
  {
    ValuesEnd(m);
    TrimmedTokens(id, ValueEntries(m));
  }

  /** generateInfoField with a known rsId. */
  lemma RsInfoField(r: AlleleRecord)
    requires r.rsId != UnknownRsId
    ensures InfoField(r) == Join(["RS=" + r.rsId] + ValueEntries(r.values), ';')
  {
    RsEntry(r);
  }

  /** With a known rsId, trim leaves the INFO column alone: it starts with
      'R' and ends with the rsId's last character or a value's. */
  lemma KnownRsIdInfoTrimmed(r: AlleleRecord)
    requires r.rsId != UnknownRsId && NoTrailingBlank(r.rsId)
    ensures InfoField(r) != "" && InfoField(r)[0] == 'R' && Trim(InfoField(r)) == InfoField(r)
  {
    RsInfoTrimmed(r.rsId, r.values);
    RsInfoField(r);
  }

  /** Tokens that start with an "RS=" token fail the loop with
      IllegalArgumentException("RS"), whatever follows. */
  lemma RsTokensRejected(id: string, rest: seq<string>)
    ensures InfoValues(["RS=" + id] + rest) == Err(IllegalArgument("RS"))
  {
    var entries := InfoEntries(["RS=" + id] + rest);
    RsTokenRejected(id);
    assert entries[0] == InfoEntry("RS=" + id);
    assert entries[..0] == [];
    AssignBreaks(entries, 0);
  }

  /** generateInfoField with a known rsId fails this decoder with
      IllegalArgumentException("RS"): the first token's key is no property. */
  lemma KnownRsIdInfoRejected(r: AlleleRecord)
    requires ';' !in r.rsId && r.rsId != UnknownRsId && NoTrailingBlank(r.rsId)
    ensures ExomiserValues(InfoField(r)) == Err(IllegalArgument("RS"))
  {
    var info := InfoField(r);
    KnownRsIdInfoTrimmed(r);
    assert info != ".";
    InfoFieldSplit(r);
    RsEntry(r);
    RsTokensRejected(r.rsId, ValueEntries(r.values));
    assert ExomiserValues(info) == InfoValues(Split(info, ';'));
  }
}
