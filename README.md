# Allele store importer, modelled in Dafny

The Exomiser allele store importer reads variant files and writes one merged,
sorted allele file. Several sources are read:

- dbSNP, ESP, ExAC and Exomiser VCF lines;
- dbNSFP tab-separated lines.

Each data line becomes one `Allele` per ALT allele. An allele holds a
chromosome, a position, an rsId, REF and ALT, and a map from `AlleleProperty`
to a float. The map holds population frequencies and pathogenicity scores.

An `AlleleAppendingFileWriter` works in two stages:

1. It appends each allele, as a tab-separated line, to the partition file of
   its chromosome (1 to 25).
2. `mergeToFile` reads every partition back with the Exomiser parser. It
   merges alleles with the same key, sorts them, and writes them out in
   chromosome order.

The project models this core, module by module:

- `Alleles` (`allele.dfy`): the `Allele` class. Its value state is the
  `AlleleRecord` datatype. The module covers ordering, `generateKey` and
  `generateInfoField`.
- `AlleleProperties` (`allele_property.dfy`): the property enum, `valueOf`
  and the two property groups.
- `ChromosomeParser` (`allele_parser.dfy`): `AlleleParser.parseChr`.
- `VcfParser` (`vcf_parser.dfy`): the `VcfAlleleParser` template. It covers
  comment lines, the identity columns, and dispatch to a dialect's INFO
  decoder.
- INFO decoders: `DbSnpParser`, `EspParser`, `ExacParser` and
  `ExomiserParser`. Each decoder loop is a method, proved against the
  function that specifies it.
- `DbNsfpParser` (`dbnsfp_parser.dfy`): the stateful dbNSFP parser. It is a
  class whose column positions are set by the header line.
- `AlleleMerging` (`merging.dfy`): what the two writers share. This is the
  `Map.merge` of `readAndMergeAlleles`, the `mergeAlleles` lambda, sorting,
  and reading partitions back.
- `RootWriter` and `Writers`: the top-level writer and the `writers` package
  writer. Both are classes whose partition files are a `map<int, string>`
  field.
- Java's library behaviour the code relies on, in three modules:
  - `JavaText`: `String.split`, `trim`, `Integer.parseInt`,
    `Byte.parseByte`, `readLine` and `StringJoiner`;
  - `JavaFloat`: `Float.parseFloat`, `Float.toString`, `min` and `max`, as
    a decimal model;
  - `Folds`: the shape of the decoder loops.
- `Wrappers`: the `Option` and `Result` types. An exception the source
  throws is an `Err` carrying its Java class and message.

The main results:

- **Top-level writer round trip.** Every writable allele
  (`RootWriter.Writable`) the top-level writer saves reads back exactly
  (`RootWriter.LineRoundTrip`). A partition of saved writable alleles reads
  back as their merge (`RootWriter.SavedAllelesReadBack`). Other alleles,
  such as one with a lower-case REF or a ',' in its ALT, may not read back
  as themselves.
- **Merge and sort.** The output of the merge is sorted and holds one allele
  per key (`AlleleMerging.SortRecords`, `AlleleMerging.PartitionDistinct`).
- **`writers` package flaw.** That writer's lines for alleles with a known
  rsId cannot be read back (see Findings).

Source paths below are relative to the repository root.

## Model

| member | source | states |
|---|---|---|
| `Alleles.NewRecord` | src/main/java/org/monarchinitiative/exomiser/allelestore/model/Allele.java:20-28 | A new allele has rsId "." and no values. |
| `Alleles.Allele.constructor` | src/main/java/org/monarchinitiative/exomiser/allelestore/model/Allele.java:23-28 | The new object holds the four identity fields, rsId "." and an empty value map. |
| `Alleles.Allele.SetRsId` | src/main/java/org/monarchinitiative/exomiser/allelestore/model/Allele.java:50-52 | Only the rsId changes, to the given id. |
| `Alleles.Allele.AddValue` | src/main/java/org/monarchinitiative/exomiser/allelestore/model/Allele.java:58-60 | The key gets the value; every other key keeps its presence and value. |
| `Alleles.Allele.PutAll` | src/main/java/org/monarchinitiative/exomiser/allelestore/model/Allele.java:54-56 | getValues().putAll(m): the values become the old map overridden by `m`; nothing else changes. |
| `Alleles.CompareZeroIffSame` | src/main/java/org/monarchinitiative/exomiser/allelestore/model/Allele.java:87-109 | compareTo returns 0 exactly when equals holds (same chr, pos, ref, alt; rsId and values ignored). |
| `Alleles.CompareAntisymmetric` | src/main/java/org/monarchinitiative/exomiser/allelestore/model/Allele.java:87-98 | a < b exactly when b > a. |
| `Alleles.CompareTransitive` | src/main/java/org/monarchinitiative/exomiser/allelestore/model/Allele.java:87-98 | compareTo is transitive. |
| `Alleles.CompareSameLeft` | src/main/java/org/monarchinitiative/exomiser/allelestore/model/Allele.java:87-109 | Alleles equal under equals compare alike against any third allele. |
| `Alleles.KeyOfSame` | src/main/java/org/monarchinitiative/exomiser/allelestore/model/Allele.java:66-73 | Equal alleles have the same generateKey. |
| `Alleles.KeyJoin` | src/main/java/org/monarchinitiative/exomiser/allelestore/model/Allele.java:66-73 | generateKey is chr, pos, ref and alt with a '-' between neighbours. |
| `Alleles.KeyParts` | src/main/java/org/monarchinitiative/exomiser/allelestore/model/Allele.java:66-73 | With non-negative numbers and no '-' in the bases, the key splits at '-' into exactly its four parts. |
| `Alleles.KeyInjective` | src/main/java/org/monarchinitiative/exomiser/allelestore/model/Allele.java:66-73 | Under the same condition, equal keys mean equal alleles (generateKey identifies the allele). |
| `Alleles.KeyCollision` | src/main/java/org/monarchinitiative/exomiser/allelestore/model/Allele.java:66-73 | Without it the key is ambiguous: ref "A-C"/alt "G" and ref "A"/alt "C-G" at the same place share a key. |
| `Alleles.OrderedKeys` | src/main/java/org/monarchinitiative/exomiser/allelestore/model/Allele.java:21 | The EnumMap iteration order: exactly the keys of the map, in strictly increasing declaration order. |
| `Alleles.ValueEntries` | src/main/java/org/monarchinitiative/exomiser/allelestore/model/Allele.java:80-82 | One "KEY=value" entry per key of the map, in enum order, each built from that key and its value. |
| `Alleles.EntryShape` | src/main/java/org/monarchinitiative/exomiser/allelestore/model/Allele.java:81 | An entry is non-empty, holds an '=', and holds no ';', tab or line break. |
| `Alleles.ValueEntriesEmpty` | src/main/java/org/monarchinitiative/exomiser/allelestore/model/Allele.java:80-83 | There is no entry exactly when the map is empty. |
| `Alleles.ValueEntriesEnds` | src/main/java/org/monarchinitiative/exomiser/allelestore/model/Allele.java:80-83 | The entries of a non-empty map begin with a character of a property name and end with a printed character. |
| `Alleles.InfoEntriesShape` | src/main/java/org/monarchinitiative/exomiser/allelestore/model/Allele.java:75-84 | With an rsId free of ';', no token of generateInfoField is empty or holds a ';'. |
| `Alleles.InfoFieldEmpty` | src/main/java/org/monarchinitiative/exomiser/allelestore/model/Allele.java:75-84 | generateInfoField is empty exactly when the rsId is "." and there are no values. |
| `Alleles.InfoFieldSplit` | src/main/java/org/monarchinitiative/exomiser/allelestore/model/Allele.java:75-84 | A non-empty generateInfoField splits at ';' back into its tokens, "RS=<rsId>" first when the rsId is known. |
| `Alleles.PutAllEach` | src/main/java/org/monarchinitiative/exomiser/allelestore/parsers/EspAlleleParser.java:20-23 | The loop putting one map into every allele of a list of distinct alleles: each allele's values become its old values overridden by the map. |
| `Alleles.PutAllAt` | src/main/java/org/monarchinitiative/exomiser/allelestore/parsers/ExacAlleleParser.java:24-30 | putAll into the i-th allele of a list of distinct alleles changes that allele only. |
| `Alleles.AddValueAt` | src/main/java/org/monarchinitiative/exomiser/allelestore/parsers/DbSnpAlleleParser.java:23-29 | addValue on the i-th allele of a list of distinct alleles changes that allele only, by the one entry. |
| `AlleleProperties.ValuesInOrder` | src/main/java/org/monarchinitiative/exomiser/allelestore/model/AlleleProperty.java:9-26 | values() lists all fourteen constants, each at the index of its ordinal. |
| `AlleleProperties.NameShape` | src/main/java/org/monarchinitiative/exomiser/allelestore/model/AlleleProperty.java:10-26 | Every name is at least two characters of upper-case letters and '_'. |
| `AlleleProperties.ValueOf` | src/main/java/org/monarchinitiative/exomiser/allelestore/parsers/ExomiserAlleleParser.java:44 | valueOf returns the constant with that name, or IllegalArgumentException carrying the name when no constant has it. |
| `AlleleProperties.ValueOfName` | src/main/java/org/monarchinitiative/exomiser/allelestore/model/AlleleProperty.java:9-26 | valueOf(name(p)) is p for every constant. |
| `AlleleProperties.NameInjective` | src/main/java/org/monarchinitiative/exomiser/allelestore/model/AlleleProperty.java:9-26 | Distinct constants have distinct names. |
| `AlleleProperties.RangeMembers` | src/main/java/org/monarchinitiative/exomiser/allelestore/model/AlleleProperty.java:28-29 | EnumSet.range(from, to) holds exactly the constants whose ordinal lies between those of `from` and `to`. |
| `AlleleProperties.PathogenicPropertiesMembers` | src/main/java/org/monarchinitiative/exomiser/allelestore/model/AlleleProperty.java:29 | PATHOGENIC_PROPERTIES is exactly SIFT, POLYPHEN and MUT_TASTER. |
| `AlleleProperties.GroupsPartition` | src/main/java/org/monarchinitiative/exomiser/allelestore/model/AlleleProperty.java:28-29 | Every constant is in exactly one of FREQUENCY_PROPERTIES and PATHOGENIC_PROPERTIES; the first is KG up to EXAC_SAS. |
| `ChromosomeParser.ParseChr` | src/main/java/org/monarchinitiative/exomiser/allelestore/parsers/AlleleParser.java:19-41 | X and x give 23, Y and y give 24, M, MT and m give 25, and "." gives 0. Any other token gives its Byte.parseByte value, or 0 when that throws. The result is always a signed byte. |
| `ChromosomeParser.ParseChrOfNumber` | src/main/java/org/monarchinitiative/exomiser/allelestore/parsers/AlleleParser.java:19-41 | Every printed signed-byte number decodes to itself. |
| `ChromosomeParser.ParseChrZero` | src/main/java/org/monarchinitiative/exomiser/allelestore/parsers/AlleleParser.java:19-41 | The result is 0 exactly for ".", for a zero, and for unnamed tokens that are no signed byte. |
| `ChromosomeParser.ParseChrNotNumber` | src/main/java/org/monarchinitiative/exomiser/allelestore/parsers/AlleleParser.java:33-40 | A token that is neither named nor a sign followed by digits, such as "chr1" or a lower-case "mt", gives 0. |
| `ChromosomeParser.ParseChrNumber` | src/main/java/org/monarchinitiative/exomiser/allelestore/parsers/AlleleParser.java:33-40 | A sign followed by digits gives its value when it fits a signed byte, with no chromosome range check (so "26" gives 26), and 0 otherwise (so "300" gives 0). |
| `VcfParser.AdditionsLength` | src/main/java/org/monarchinitiative/exomiser/allelestore/parsers/VcfAlleleParser.java:37 | Each dialect's decoder, when it succeeds, gives one map per ALT. |
| `VcfParser.ParseInfoField` | src/main/java/org/monarchinitiative/exomiser/allelestore/parsers/VcfAlleleParser.java:29-30 | The dialect's decoder fails with its exception, or annotates each allele with its own map. |
| `VcfParser.CurrentRsId` | src/main/java/org/monarchinitiative/exomiser/allelestore/parsers/VcfAlleleParser.java:78-83 | The first id when there is one, "." otherwise. |
| `VcfParser.Position` | src/main/java/org/monarchinitiative/exomiser/allelestore/parsers/VcfAlleleParser.java:42 | POS read by Integer.parseInt; IndexOutOfBounds(1) when the column is missing, NumberFormatException when it is not an int. |
| `VcfParser.AltRecords` | src/main/java/org/monarchinitiative/exomiser/allelestore/parsers/VcfAlleleParser.java:62-67 | One new allele per ALT, all with the line's chr, pos, ref and rsId. |
| `VcfParser.NewAlleles` | src/main/java/org/monarchinitiative/exomiser/allelestore/parsers/VcfAlleleParser.java:62-68 | Fresh, distinct alleles whose states are AltRecords. |
| `VcfParser.ReadAlleles` | src/main/java/org/monarchinitiative/exomiser/allelestore/parsers/VcfAlleleParser.java:39-69 | Succeeds exactly with at least five columns and an int POS, giving one allele per ALT of the upper-cased ALT column, with ref upper-cased and the current rsId; otherwise the exception thrown first. |
| `VcfParser.ParseAlleles` | src/main/java/org/monarchinitiative/exomiser/allelestore/parsers/VcfAlleleParser.java:39-69 | The objects it creates have exactly the states ReadAlleles gives, and the same exception on failure. |
| `VcfParser.FieldsAnnotated` | src/main/java/org/monarchinitiative/exomiser/allelestore/parsers/VcfAlleleParser.java:26-30 | With an INFO column the decoder accepts, the line's alleles are annotated with the decoder's maps. |
| `VcfParser.FieldsRejected` | src/main/java/org/monarchinitiative/exomiser/allelestore/parsers/VcfAlleleParser.java:26-30 | With an INFO column the decoder rejects, the line fails with the decoder's exception. |
| `VcfParser.ExomiserFieldsRead` | src/main/java/org/monarchinitiative/exomiser/allelestore/parsers/VcfAlleleParser.java:26-30 | A single-ALT line with an Exomiser INFO column that decodes to `values` gives that allele with `values` added. |
| `VcfParser.ExomiserAdditionsOne` | src/main/java/org/monarchinitiative/exomiser/allelestore/parsers/ExomiserAlleleParser.java:27-34 | For one ALT, the Exomiser decoder gives exactly the decoded INFO map. |
| `VcfParser.ParseFields` | src/main/java/org/monarchinitiative/exomiser/allelestore/parsers/VcfAlleleParser.java:23-30 | The alleles of the columns, annotated when column 8 exists, with the same outcome as FieldsAlleles. |
| `VcfParser.ParseLine` | src/main/java/org/monarchinitiative/exomiser/allelestore/parsers/VcfAlleleParser.java:18-31 | parseLine: the same outcome and allele states as LineAlleles. |
| `VcfParser.CommentLineNoAlleles` | src/main/java/org/monarchinitiative/exomiser/allelestore/parsers/VcfAlleleParser.java:19-22 | A line starting with '#' gives no alleles. |
| `VcfParser.LineAllelesIdentity` | src/main/java/org/monarchinitiative/exomiser/allelestore/parsers/VcfAlleleParser.java:39-69 | Each allele of a data line has the line's chr, pos, first rsId, upper-cased ref and its own upper-cased ALT. |
| `VcfParser.NoInfoNoValues` | src/main/java/org/monarchinitiative/exomiser/allelestore/parsers/VcfAlleleParser.java:26-28 | A line of seven columns or fewer gives alleles without values. |
| `VcfParser.InfoAnnotates` | src/main/java/org/monarchinitiative/exomiser/allelestore/parsers/VcfAlleleParser.java:26-30 | With an INFO column, the line succeeds exactly when the decoder does; each allele then carries exactly its decoder map, and otherwise the line fails with the decoder's exception. |
| `VcfParser.MergedRsIdFirst` | src/main/java/org/monarchinitiative/exomiser/allelestore/parsers/VcfAlleleParser.java:71-83 | For every ID column "a;b" with a non-empty first id `a`, the current rsId is `a`. |
| `VcfParser.BadPositionFails` | src/main/java/org/monarchinitiative/exomiser/allelestore/parsers/VcfAlleleParser.java:42 | A POS that is not an int makes the line fail with NumberFormatException. |
| `DbSnpParser.ParseCafField` | src/main/java/org/monarchinitiative/exomiser/allelestore/parsers/DbSnpAlleleParser.java:47-56 | The CAF entries after the first one (the reference allele's), in order. |
| `DbSnpParser.ParseMinorAlleleFrequencies` | src/main/java/org/monarchinitiative/exomiser/allelestore/parsers/DbSnpAlleleParser.java:36-45 | The minor frequencies of the first CAF= token, or none when there is no such token. |
| `DbSnpParser.KgAddition` | src/main/java/org/monarchinitiative/exomiser/allelestore/parsers/DbSnpAlleleParser.java:24-31 | At most KG, set to 100 times the parsed entry; nothing for "." or without CAF entries; NumberFormatException for an unparsable entry; IndexOutOfBounds past the last entry. |
| `DbSnpParser.ParseInfoField` | src/main/java/org/monarchinitiative/exomiser/allelestore/parsers/DbSnpAlleleParser.java:20-34 | Fails with the first allele's exception, or gives each allele its own KG frequency. |
| `DbSnpParser.OnlyKg` | src/main/java/org/monarchinitiative/exomiser/allelestore/parsers/DbSnpAlleleParser.java:29 | dbSNP adds no key but KG. |
| `DbSnpParser.NoMinorEntriesNoValues` | src/main/java/org/monarchinitiative/exomiser/allelestore/parsers/DbSnpAlleleParser.java:25 | Without minor frequencies no allele gets a value. |
| `DbSnpParser.NoCafNoValues` | src/main/java/org/monarchinitiative/exomiser/allelestore/parsers/DbSnpAlleleParser.java:36-45 | An INFO column without a CAF= token adds nothing. |
| `DbSnpParser.ReferenceOnlyCaf` | src/main/java/org/monarchinitiative/exomiser/allelestore/parsers/DbSnpAlleleParser.java:47-56 | A CAF with only the reference entry adds nothing. |
| `DbSnpParser.CafAlignment` | src/main/java/org/monarchinitiative/exomiser/allelestore/parsers/DbSnpAlleleParser.java:24-31 | The i-th ALT gets KG from CAF entry i + 1: nothing for ".", 100 times its value otherwise. |
| `DbSnpParser.TooFewCafEntries` | src/main/java/org/monarchinitiative/exomiser/allelestore/parsers/DbSnpAlleleParser.java:26 | More ALTs than minor entries fail with IndexOutOfBounds at the first missing entry. |
| `EspParser.EspKeysAligned` | src/main/java/org/monarchinitiative/exomiser/allelestore/parsers/EspAlleleParser.java:50-53 | The MAF fields are ESP_EA, ESP_AA and ESP_ALL in that order, all distinct. |
| `EspParser.MafFieldNamesAreProperties` | src/main/java/org/monarchinitiative/exomiser/allelestore/parsers/EspAlleleParser.java:44 | valueOf of each MAF field's name is the matching property. |
| `EspParser.FieldProperty` | src/main/java/org/monarchinitiative/exomiser/allelestore/parsers/EspAlleleParser.java:44 | AlleleProperty.valueOf(field.name()) is the field's property. |
| `EspParser.MafEntry` | src/main/java/org/monarchinitiative/exomiser/allelestore/parsers/EspAlleleParser.java:42-45 | Entry k: nothing for "0.0", the parsed value otherwise; IndexOutOfBounds past the last entry, NumberFormatException when unparsable. |
| `EspParser.ParseMafField` | src/main/java/org/monarchinitiative/exomiser/allelestore/parsers/EspAlleleParser.java:37-48 | The loop over the three MAF fields builds exactly MafMap of the split entries. |
| `EspParser.ParseMinorAlleleFrequencies` | src/main/java/org/monarchinitiative/exomiser/allelestore/parsers/EspAlleleParser.java:27-35 | The map of the first MAF= token, or an empty map when there is none. |
| `EspParser.ParseInfoField` | src/main/java/org/monarchinitiative/exomiser/allelestore/parsers/EspAlleleParser.java:16-25 | Fails with the MAF exception, or puts the same map into every allele. |
| `EspParser.MafMapAt` | src/main/java/org/monarchinitiative/exomiser/allelestore/parsers/EspAlleleParser.java:37-48 | Each property is present exactly when its entry is not "0.0", with the parsed value; only ESP keys appear. |
| `EspParser.MafMapOk` | src/main/java/org/monarchinitiative/exomiser/allelestore/parsers/EspAlleleParser.java:41-46 | The map is built exactly when every one of the three entries decodes. |
| `EspParser.ShortMafIsError` | src/main/java/org/monarchinitiative/exomiser/allelestore/parsers/EspAlleleParser.java:42 | Fewer than three entries throw. |
| `EspParser.EspSameForEveryAlt` | src/main/java/org/monarchinitiative/exomiser/allelestore/parsers/EspAlleleParser.java:20-23 | Every ALT receives the same map, holding ESP keys only. |
| `EspParser.NoMafNoValues` | src/main/java/org/monarchinitiative/exomiser/allelestore/parsers/EspAlleleParser.java:27-35 | An INFO column without a MAF= token adds nothing. |
| `ExacParser.ExacKeysAligned` | src/main/java/org/monarchinitiative/exomiser/allelestore/parsers/ExacAlleleParser.java:82-89 | The seven ExAC fields map to distinct properties, in order. |
| `ExacParser.FieldNamesAreProperties` | src/main/java/org/monarchinitiative/exomiser/allelestore/parsers/ExacAlleleParser.java:67 | valueOf of each field's name is its property. |
| `ExacParser.FieldProperty` | src/main/java/org/monarchinitiative/exomiser/allelestore/parsers/ExacAlleleParser.java:67 | AlleleProperty.valueOf(field.name()) is the field's property. |
| `ExacParser.CountEntry` | src/main/java/org/monarchinitiative/exomiser/allelestore/parsers/ExacAlleleParser.java:52-55 | An AC/AN token puts its key and value; a token without '=' throws IndexOutOfBounds; other tokens are skipped. |
| `ExacParser.GetAlleleCountsFromInfoField` | src/main/java/org/monarchinitiative/exomiser/allelestore/parsers/ExacAlleleParser.java:47-58 | The loop builds exactly AlleleCounts of the INFO column. |
| `ExacParser.CountsErrorPersists` | src/main/java/org/monarchinitiative/exomiser/allelestore/parsers/ExacAlleleParser.java:50-55 | Once a token throws, the later tokens do not matter. |
| `ExacParser.AlleleCount` | src/main/java/org/monarchinitiative/exomiser/allelestore/parsers/ExacAlleleParser.java:73-76 | The count at the ALT's position of the comma-separated AC value; NullPointerException when AC is absent. |
| `ExacParser.ParseAlleleCount` | src/main/java/org/monarchinitiative/exomiser/allelestore/parsers/ExacAlleleParser.java:73-76 | Computes AlleleCount. |
| `ExacParser.AlleleNumber` | src/main/java/org/monarchinitiative/exomiser/allelestore/parsers/ExacAlleleParser.java:65 | Integer.parseInt of the AN value; NumberFormatException "null" when AN is absent. |
| `ExacParser.PopulationEntry` | src/main/java/org/monarchinitiative/exomiser/allelestore/parsers/ExacAlleleParser.java:62-68 | No entry for a zero count; otherwise the percentage of the count over the allele number. |
| `ExacParser.CalculateAllelePopulationFrequencies` | src/main/java/org/monarchinitiative/exomiser/allelestore/parsers/ExacAlleleParser.java:60-71 | The loop over the seven fields builds exactly PopulationFrequencies. |
| `ExacParser.ParseInfoField` | src/main/java/org/monarchinitiative/exomiser/allelestore/parsers/ExacAlleleParser.java:20-45 | Fails with the first exception, or gives each allele the frequencies at its own ALT position. |
| `ExacParser.AddPopulationFrequencies` | src/main/java/org/monarchinitiative/exomiser/allelestore/parsers/ExacAlleleParser.java:24-43 | The per-allele loop puts the i-th frequencies into the i-th allele, or stops at the first exception. |
| `ExacParser.ExacFrequency` | src/main/java/org/monarchinitiative/exomiser/allelestore/parsers/ExacAlleleParser.java:60-71 | For each field and ALT, the property is present exactly when the count is non-zero, and then holds Percentage(AC, AN). |
| `ExacParser.OnlyExac` | src/main/java/org/monarchinitiative/exomiser/allelestore/parsers/ExacAlleleParser.java:60-71 | ExAC adds only ExAC keys. |
| `ExacParser.MissingAlleleCountFails` | src/main/java/org/monarchinitiative/exomiser/allelestore/parsers/ExacAlleleParser.java:73-76 | An absent AC key makes the line fail. |
| `ExacParser.ZeroCountNoValue` | src/main/java/org/monarchinitiative/exomiser/allelestore/parsers/ExacAlleleParser.java:64 | A zero count adds no property. |
| `ExacParser.LaterCountWins` | src/main/java/org/monarchinitiative/exomiser/allelestore/parsers/ExacAlleleParser.java:54 | A later token with the same key overrides an earlier one. |
| `ExacParser.CountWithoutValueFails` | src/main/java/org/monarchinitiative/exomiser/allelestore/parsers/ExacAlleleParser.java:53-54 | An AC/AN token without '=' makes the decoding fail. |
| `JavaFloat.Percentage` | src/main/java/org/monarchinitiative/exomiser/allelestore/parsers/ExacAlleleParser.java:78-80 | Infinite, with the sign of the count, exactly when the allele number is 0. |
| `JavaFloat.PercentageWithinOneUnit` | src/main/java/org/monarchinitiative/exomiser/allelestore/parsers/ExacAlleleParser.java:78-80 | A finite percentage lies within one unit of its last decimal place of 100 · AC / AN. |
| `JavaFloat.Times100` | src/main/java/org/monarchinitiative/exomiser/allelestore/parsers/DbSnpAlleleParser.java:28 | Multiplies a finite value by exactly 100 and keeps infinities. |
| `JavaFloat.Min` | src/main/java/org/monarchinitiative/exomiser/allelestore/parsers/DbNsfpAlleleParser.java:139 | Float.min: one of the two, and not above either. |
| `JavaFloat.Max` | src/main/java/org/monarchinitiative/exomiser/allelestore/parsers/DbNsfpAlleleParser.java:178 | Float.max: one of the two, and not below either. |
| `JavaFloat.FormatParseRoundTrip` | src/main/java/org/monarchinitiative/exomiser/allelestore/parsers/ExomiserAlleleParser.java:44 | Parsing a printed float gives back the same value. |
| `JavaFloat.ParseFloat` | src/main/java/org/monarchinitiative/exomiser/allelestore/parsers/ExomiserAlleleParser.java:44 | Text that parses is non-empty after trim. The round trip of a printed float is `JavaFloat.FormatParseRoundTrip`. |
| `ExomiserParser.InfoEntry` | src/main/java/org/monarchinitiative/exomiser/allelestore/parsers/ExomiserAlleleParser.java:43-44 | "KEY=value" gives (valueOf(KEY), parseFloat(value)), or the first exception Java throws: IllegalArgument for an unknown key, IndexOutOfBounds without '=', NumberFormatException for the value. |
| `ExomiserParser.ParseInfoLine` | src/main/java/org/monarchinitiative/exomiser/allelestore/parsers/ExomiserAlleleParser.java:36-47 | The loop builds exactly InfoLine: an empty map for ".", otherwise every token put in order. |
| `ExomiserParser.ParseInfoField` | src/main/java/org/monarchinitiative/exomiser/allelestore/parsers/ExomiserAlleleParser.java:26-34 | Fails with the INFO exception, or puts the same map into every allele. |
| `ExomiserParser.DotGivesNothing` | src/main/java/org/monarchinitiative/exomiser/allelestore/parsers/ExomiserAlleleParser.java:36-40 | An INFO column that trims to "." adds nothing. |
| `ExomiserParser.ExomiserSameForEveryAlt` | src/main/java/org/monarchinitiative/exomiser/allelestore/parsers/ExomiserAlleleParser.java:29-32 | Every ALT receives the map of the trimmed INFO column. |
| `ExomiserParser.InfoValuesOk` | src/main/java/org/monarchinitiative/exomiser/allelestore/parsers/ExomiserAlleleParser.java:42-45 | The map is built exactly when every token decodes. |
| `ExomiserParser.InfoValuesKeys` | src/main/java/org/monarchinitiative/exomiser/allelestore/parsers/ExomiserAlleleParser.java:42-45 | The keys of the map are exactly the keys of the tokens. |
| `ExomiserParser.InfoValuesLast` | src/main/java/org/monarchinitiative/exomiser/allelestore/parsers/ExomiserAlleleParser.java:42-45 | A key holds the value of its last token. |
| `ExomiserParser.NotANameRefused` | src/main/java/org/monarchinitiative/exomiser/allelestore/parsers/ExomiserAlleleParser.java:44 | A key naming no property throws IllegalArgumentException. |
| `ExomiserParser.RsIsNoName` | src/main/java/org/monarchinitiative/exomiser/allelestore/model/AlleleProperty.java:9-26 | No property is named "RS". |
| `ExomiserParser.RsTokenRejected` | src/main/java/org/monarchinitiative/exomiser/allelestore/parsers/ExomiserAlleleParser.java:43-44 | "RS=<id>" throws IllegalArgumentException("RS"). |
| `ExomiserParser.EntryRoundTrip` | src/main/java/org/monarchinitiative/exomiser/allelestore/parsers/ExomiserAlleleParser.java:43-44 | An entry written as "KEY=value" decodes back to its key and value. |
| `ExomiserParser.EntriesRead` | src/main/java/org/monarchinitiative/exomiser/allelestore/parsers/ExomiserAlleleParser.java:41-45 | The entries of a map decode to its keys paired with their values, in enum order. |
| `ExomiserParser.JoinedTrimmed` | src/main/java/org/monarchinitiative/exomiser/allelestore/parsers/ExomiserAlleleParser.java:28 | Entries joined by ';' are unchanged by trim and are not ".". |
| `ExomiserParser.ValuesSplit` | src/main/java/org/monarchinitiative/exomiser/allelestore/parsers/ExomiserAlleleParser.java:41 | The joined entries of a non-empty map split back into those entries. |
| `ExomiserParser.ValuesRoundTrip` | src/main/java/org/monarchinitiative/exomiser/allelestore/parsers/ExomiserAlleleParser.java:36-47 | The joined entries of a non-empty map decode to exactly that map. |
| `ExomiserParser.KnownRsIdInfoTrimmed` | src/main/java/org/monarchinitiative/exomiser/allelestore/parsers/ExomiserAlleleParser.java:28 | generateInfoField of an allele with a known rsId starts with 'R' and is unchanged by trim. |
| `ExomiserParser.RsTokensRejected` | src/main/java/org/monarchinitiative/exomiser/allelestore/parsers/ExomiserAlleleParser.java:41-45 | Tokens starting with "RS=<id>" throw IllegalArgumentException("RS"). |
| `ExomiserParser.KnownRsIdInfoRejected` | src/main/java/org/monarchinitiative/exomiser/allelestore/parsers/ExomiserAlleleParser.java:36-47 | generateInfoField of an allele with a known rsId is rejected with IllegalArgumentException("RS"). |
| `DbNsfpParser.ColumnNamed` | src/main/java/org/monarchinitiative/exomiser/allelestore/parsers/DbNsfpAlleleParser.java:46-83 | The column whose header name is the token, or none when no column has that name. |
| `DbNsfpParser.ColumnNamesDistinct` | src/main/java/org/monarchinitiative/exomiser/allelestore/parsers/DbNsfpAlleleParser.java:46-83 | The nine header names are distinct. |
| `DbNsfpParser.ReadFloat` | src/main/java/org/monarchinitiative/exomiser/allelestore/parsers/DbNsfpAlleleParser.java:137 | Float.parseFloat: the parsed value, or NumberFormatException carrying the text. |
| `DbNsfpParser.ScoreEntry` | src/main/java/org/monarchinitiative/exomiser/allelestore/parsers/DbNsfpAlleleParser.java:133-137 | "." yields nothing, a parsable score yields its value, anything else throws. |
| `DbNsfpParser.SiftScore` | src/main/java/org/monarchinitiative/exomiser/allelestore/parsers/DbNsfpAlleleParser.java:126-145 | With several transcript scores, a stored SIFT is below 1. |
| `DbNsfpParser.PolyPhenScore` | src/main/java/org/monarchinitiative/exomiser/allelestore/parsers/DbNsfpAlleleParser.java:150-160 | With several transcript scores, a stored PolyPhen is above 0. |
| `DbNsfpParser.MTasterEntry` | src/main/java/org/monarchinitiative/exomiser/allelestore/parsers/DbNsfpAlleleParser.java:198-211 | Yields the parsed score only for a non-"." score with prediction "A" or "D"; nothing for "." or another prediction. |
| `DbNsfpParser.MTasterScore` | src/main/java/org/monarchinitiative/exomiser/allelestore/parsers/DbNsfpAlleleParser.java:184-218 | A stored MutationTaster score is above 0; nothing when the score and prediction counts differ. |
| `DbNsfpParser.Field` | src/main/java/org/monarchinitiative/exomiser/allelestore/parsers/DbNsfpAlleleParser.java:89-96 | fields[i], or IndexOutOfBounds(i) past the end. |
| `DbNsfpParser.PathScores` | src/main/java/org/monarchinitiative/exomiser/allelestore/parsers/DbNsfpAlleleParser.java:116-122 | Only SIFT, POLYPHEN and MUT_TASTER are stored. |
| `DbNsfpParser.LineIdentity` | src/main/java/org/monarchinitiative/exomiser/allelestore/parsers/DbNsfpAlleleParser.java:88-96 | A line that is not skipped has a non-zero chromosome. |
| `DbNsfpParser.LineAlleles` | src/main/java/org/monarchinitiative/exomiser/allelestore/parsers/DbNsfpAlleleParser.java:88-114 | At most one allele per line, and only when its rsId is not "." or it has a score. |
| `DbNsfpParser.DbNsfpAlleleParser.constructor` | src/main/java/org/monarchinitiative/exomiser/allelestore/parsers/DbNsfpAlleleParser.java:14-24 | Every column position starts at 0. |
| `DbNsfpParser.DbNsfpAlleleParser.SetPosition` | src/main/java/org/monarchinitiative/exomiser/allelestore/parsers/DbNsfpAlleleParser.java:46-83 | Only the given column's position changes. |
| `DbNsfpParser.DbNsfpAlleleParser.ParseColumnIndex` | src/main/java/org/monarchinitiative/exomiser/allelestore/parsers/DbNsfpAlleleParser.java:39-86 | The positions become those set by the header tokens in order: the last occurrence of a name wins and unnamed columns keep their positions. |
| `DbNsfpParser.DbNsfpAlleleParser.ParseSift` | src/main/java/org/monarchinitiative/exomiser/allelestore/parsers/DbNsfpAlleleParser.java:126-145 | Stores SiftScore of the field under SIFT when there is one; the same exception otherwise. |
| `DbNsfpParser.DbNsfpAlleleParser.ParsePolyPhen` | src/main/java/org/monarchinitiative/exomiser/allelestore/parsers/DbNsfpAlleleParser.java:150-160 | Stores PolyPhenScore of the field under POLYPHEN when there is one. |
| `DbNsfpParser.DbNsfpAlleleParser.ParseValue` | src/main/java/org/monarchinitiative/exomiser/allelestore/parsers/DbNsfpAlleleParser.java:162-167 | Stores the parsed value unless it is ".". |
| `DbNsfpParser.DbNsfpAlleleParser.ExtremeScore` | src/main/java/org/monarchinitiative/exomiser/allelestore/parsers/DbNsfpAlleleParser.java:169-181 | The loop skipping "." and folding Float.min/max over the parsed scores, or the first exception. |
| `DbNsfpParser.DbNsfpAlleleParser.ParseMutationTaster` | src/main/java/org/monarchinitiative/exomiser/allelestore/parsers/DbNsfpAlleleParser.java:184-218 | Stores MTasterScore under MUT_TASTER when there is one. |
| `DbNsfpParser.DbNsfpAlleleParser.ParsePathScores` | src/main/java/org/monarchinitiative/exomiser/allelestore/parsers/DbNsfpAlleleParser.java:116-122 | The three score parsers in turn compute exactly PathScores at the current positions. |
| `DbNsfpParser.DbNsfpAlleleParser.ReadIdentity` | src/main/java/org/monarchinitiative/exomiser/allelestore/parsers/DbNsfpAlleleParser.java:88-96 | Reads exactly LineIdentity at the current positions. |
| `DbNsfpParser.DbNsfpAlleleParser.ParseAllele` | src/main/java/org/monarchinitiative/exomiser/allelestore/parsers/DbNsfpAlleleParser.java:88-114 | Fresh alleles whose states are exactly LineAlleles, or the same exception. |
| `DbNsfpParser.DbNsfpAlleleParser.ParseLine` | src/main/java/org/monarchinitiative/exomiser/allelestore/parsers/DbNsfpAlleleParser.java:26-36 | A header line resets the positions and gives nothing; a data line leaves the positions alone and gives LineAlleles. |
| `DbNsfpParser.ColumnsAfterAt` | src/main/java/org/monarchinitiative/exomiser/allelestore/parsers/DbNsfpAlleleParser.java:43-84 | After the header, a column named in it sits at its last occurrence; any other column keeps its position. |
| `DbNsfpParser.HeaderPlacesColumns` | src/main/java/org/monarchinitiative/exomiser/allelestore/parsers/DbNsfpAlleleParser.java:39-86 | A name occurring once in the header places its column at that index, whatever the previous positions were. |
| `DbNsfpParser.ReduceMinBounds` | src/main/java/org/monarchinitiative/exomiser/allelestore/parsers/DbNsfpAlleleParser.java:131-140 | The min-fold is at most its start and at most every parsed score, and is the start or one of them. |
| `DbNsfpParser.ReduceMaxBounds` | src/main/java/org/monarchinitiative/exomiser/allelestore/parsers/DbNsfpAlleleParser.java:169-181 | The max-fold is at least its start and at least every parsed score, and is the start or one of them. |
| `DbNsfpParser.SiftIsSmallest` | src/main/java/org/monarchinitiative/exomiser/allelestore/parsers/DbNsfpAlleleParser.java:126-145 | With several transcripts, SIFT is the smallest parsed score when that is below 1, and is absent otherwise. |
| `DbNsfpParser.PolyPhenIsLargest` | src/main/java/org/monarchinitiative/exomiser/allelestore/parsers/DbNsfpAlleleParser.java:150-160 | With several transcripts, PolyPhen is the largest parsed score when that is above 0, and is absent otherwise. |
| `DbNsfpParser.MTasterEntryYields` | src/main/java/org/monarchinitiative/exomiser/allelestore/parsers/DbNsfpAlleleParser.java:198-211 | A pair yields v exactly when the score parses to v and the prediction trims to "A" or "D". |
| `DbNsfpParser.MTasterIsLargestCausing` | src/main/java/org/monarchinitiative/exomiser/allelestore/parsers/DbNsfpAlleleParser.java:193-216 | A stored MutationTaster score is the largest score among the disease-causing predictions. |
| `DbNsfpParser.ChromosomeZeroSkipped` | src/main/java/org/monarchinitiative/exomiser/allelestore/parsers/DbNsfpAlleleParser.java:89-92 | A line whose chromosome decodes to 0 gives no allele. |
| `DbNsfpParser.OneAllelePerLine` | src/main/java/org/monarchinitiative/exomiser/allelestore/parsers/DbNsfpAlleleParser.java:103-113 | A line gives one allele with its identity, rsId and scores, or none when it has neither an rsId nor a score. |
| `AlleleMerging.MergeRecords` | src/main/java/org/monarchinitiative/exomiser/allelestore/AlleleAppendingFileWriter.java:158-172 | The merged allele is the incoming one, taking the stored rsId when its own is "."; stored values win over incoming ones, and the keys are the union. |
| `AlleleMerging.MergeAlleles` | src/main/java/org/monarchinitiative/exomiser/allelestore/AlleleAppendingFileWriter.java:158-172 | The lambda updates the incoming object in place to MergeRecords and returns it. |
| `AlleleMerging.MergeInto` | src/main/java/org/monarchinitiative/exomiser/allelestore/AlleleAppendingFileWriter.java:145 | Map.merge under generateKey: only that key changes, becoming the merge with the stored allele, or the allele itself. |
| `AlleleMerging.MergeOne` | src/main/java/org/monarchinitiative/exomiser/allelestore/AlleleAppendingFileWriter.java:145 | Merging an allele object into the store has the records MergeInto gives. |
| `AlleleMerging.MergeLine` | src/main/java/org/monarchinitiative/exomiser/allelestore/AlleleAppendingFileWriter.java:143-149 | Merging a line's alleles one by one has the records MergeAll gives. |
| `AlleleMerging.ReadAndMergeAlleles` | src/main/java/org/monarchinitiative/exomiser/allelestore/AlleleAppendingFileWriter.java:135-156 | The store built from a partition's lines has exactly the records ReadPartition gives. |
| `AlleleMerging.MergeAllKeys` | src/main/java/org/monarchinitiative/exomiser/allelestore/AlleleAppendingFileWriter.java:145 | Every stored allele sits under its own key, and the keys are those of the merged alleles. |
| `AlleleMerging.ReadLinesKeys` | src/main/java/org/monarchinitiative/exomiser/allelestore/AlleleAppendingFileWriter.java:141-150 | Reading lines keeps every allele under its key and drops no key. |
| `AlleleMerging.PartitionDistinct` | src/main/java/org/monarchinitiative/exomiser/allelestore/AlleleAppendingFileWriter.java:135-156 | A merged partition holds one allele per key, and no two of them are equal. |
| `AlleleMerging.RejectedLineEndsPartition` | src/main/java/org/monarchinitiative/exomiser/allelestore/AlleleAppendingFileWriter.java:140-153 | A line that throws ends the read: the lines after it are lost. |
| `AlleleMerging.ReadLinesOfSingles` | src/main/java/org/monarchinitiative/exomiser/allelestore/AlleleAppendingFileWriter.java:141-150 | Lines of one allele each merge like the alleles in order. |
| `AlleleMerging.ReadPartitionUpTo` | src/main/java/org/monarchinitiative/exomiser/allelestore/AlleleAppendingFileWriter.java:140-153 | Lines of single alleles up to one that throws give the merge of the alleles before it. |
| `AlleleMerging.MergeTwo` | src/main/java/org/monarchinitiative/exomiser/allelestore/AlleleAppendingFileWriter.java:158-172 | Two alleles under one key become one stored allele, MergeRecords of the two. |
| `AlleleMerging.Insert` | src/main/java/org/monarchinitiative/exomiser/allelestore/AlleleAppendingFileWriter.java:127 | Insertion into a strictly sorted list keeps it strictly sorted and adds exactly the allele. |
| `AlleleMerging.SortRecords` | src/main/java/org/monarchinitiative/exomiser/allelestore/AlleleAppendingFileWriter.java:127 | sorted(): a strictly increasing list of exactly the given alleles. |
| `AlleleMerging.StoreValues` | src/main/java/org/monarchinitiative/exomiser/allelestore/AlleleAppendingFileWriter.java:127 | values(): exactly the stored alleles, no two equal. |
| `AlleleMerging.ListPartition` | src/main/java/org/monarchinitiative/exomiser/allelestore/AlleleAppendingFileWriter.java:125-127 | The sorted values of a partition's merged store. |
| `AlleleMerging.ListingUnique` | src/main/java/org/monarchinitiative/exomiser/allelestore/AlleleAppendingFileWriter.java:127 | There is only one strictly sorted list of a given set of alleles. |
| `AlleleMerging.SmallestFirst` | src/main/java/org/monarchinitiative/exomiser/allelestore/AlleleAppendingFileWriter.java:127 | A strictly sorted list starts with its smallest allele. |
| `AlleleMerging.Partitions` | src/main/java/org/monarchinitiative/exomiser/allelestore/AlleleAppendingFileWriter.java:49-63 | One partition for each chromosome 1 to 25, holding the text already there or nothing. |
| `AlleleMerging.WrittenText` | src/main/java/org/monarchinitiative/exomiser/allelestore/AlleleAppendingFileWriter.java:174-183 | Lines written one after another give the text of those lines. |
| `AlleleMerging.WriteListing` | src/main/java/org/monarchinitiative/exomiser/allelestore/AlleleAppendingFileWriter.java:174-183 | Writes exactly each listed allele's line, in order. |
| `AlleleMerging.MergeAllelesByChromosome` | src/main/java/org/monarchinitiative/exomiser/allelestore/AlleleAppendingFileWriter.java:119-133 | For each of the 25 partitions, its sorted merged alleles, written chromosome by chromosome. |
| `AlleleMerging.ListsPartitionsAppend` | src/main/java/org/monarchinitiative/exomiser/allelestore/AlleleAppendingFileWriter.java:122-128 | The next partition's listing extends the listings read so far. |
| `RootWriter.Columns` | src/main/java/org/monarchinitiative/exomiser/allelestore/AlleleAppendingFileWriter.java:77-80 | The eight columns: chr, pos, rsId, ref, alt, ".", "." and the INFO column. |
| `RootWriter.ToLineIsBody` | src/main/java/org/monarchinitiative/exomiser/allelestore/AlleleAppendingFileWriter.java:77-80 | toLine is the columns joined by tabs with a line break. |
| `RootWriter.InfoStringShape` | src/main/java/org/monarchinitiative/exomiser/allelestore/AlleleAppendingFileWriter.java:91-97 | infoString is empty exactly when there are no values, and holds no tab or line break. |
| `RootWriter.InfoRead` | src/main/java/org/monarchinitiative/exomiser/allelestore/AlleleAppendingFileWriter.java:83-89 | The Exomiser decoder reads makeInfoFields back as exactly the values. |
| `RootWriter.IdentityRead` | src/main/java/org/monarchinitiative/exomiser/allelestore/AlleleAppendingFileWriter.java:77-80 | The first five columns read back as the allele's identity and rsId. |
| `RootWriter.ColumnsSplit` | src/main/java/org/monarchinitiative/exomiser/allelestore/AlleleAppendingFileWriter.java:77-80 | The line of a writable allele splits back into its columns and is neither broken nor a comment. |
| `RootWriter.FieldsReadBack` | src/main/java/org/monarchinitiative/exomiser/allelestore/AlleleAppendingFileWriter.java:77-89 | Columns with the allele's identity and an INFO column holding its values read back as the allele. |
| `RootWriter.ColumnsRead` | src/main/java/org/monarchinitiative/exomiser/allelestore/AlleleAppendingFileWriter.java:77-89 | The columns of a writable allele read back as the allele. |
| `RootWriter.BodyLine` | src/main/java/org/monarchinitiative/exomiser/allelestore/AlleleAppendingFileWriter.java:77-80 | A saved allele's text is exactly one line. |
| `RootWriter.LineRoundTrip` | src/main/java/org/monarchinitiative/exomiser/allelestore/AlleleAppendingFileWriter.java:77-89 | The line of a writable allele reads back as exactly that allele. |
| `RootWriter.SavedAllelesReadBack` | src/main/java/org/monarchinitiative/exomiser/allelestore/AlleleAppendingFileWriter.java:135-156 | A partition of saved alleles reads back as the merge of all of them. |
| `RootWriter.SavedTwiceMerged` | src/main/java/org/monarchinitiative/exomiser/allelestore/AlleleAppendingFileWriter.java:158-172 | An allele saved twice comes back once, as the merge of the two. |
| `RootWriter.PrepareWriters` | src/main/java/org/monarchinitiative/exomiser/allelestore/AlleleAppendingFileWriter.java:49-63 | Each of the 25 partitions exists afterwards and every one has a writer. |
| `RootWriter.AlleleAppendingFileWriter.constructor` | src/main/java/org/monarchinitiative/exomiser/allelestore/AlleleAppendingFileWriter.java:44-47 | The partitions exist, every one has a writer, and the count is 0. |
| `RootWriter.AlleleAppendingFileWriter.Save` | src/main/java/org/monarchinitiative/exomiser/allelestore/AlleleAppendingFileWriter.java:65-75 | An allele on an open chromosome has its line appended and is counted; otherwise nothing changes. |
| `RootWriter.AlleleAppendingFileWriter.MergeToFile` | src/main/java/org/monarchinitiative/exomiser/allelestore/AlleleAppendingFileWriter.java:103-106 | Closes the writers and returns, chromosome by chromosome, the sorted merged alleles of each partition; the partitions are unchanged. |
| `Writers.Columns` | src/main/java/org/monarchinitiative/exomiser/allelestore/writers/AlleleAppendingFileWriter.java:80-91 | The eight columns, the INFO column being generateInfoField or ".". |
| `Writers.ToLineIsBody` | src/main/java/org/monarchinitiative/exomiser/allelestore/writers/AlleleAppendingFileWriter.java:80-91 | The StringJoiner line is the tab-joined columns with a line break. |
| `Writers.UnknownRsIdLineAsRoot` | src/main/java/org/monarchinitiative/exomiser/allelestore/writers/AlleleAppendingFileWriter.java:93-100 | Without an rsId, the line is the top-level writer's line. |
| `Writers.InfoFieldClean` | src/main/java/org/monarchinitiative/exomiser/allelestore/writers/AlleleAppendingFileWriter.java:93-100 | generateInfoField holds no tab or line break. |
| `Writers.ColumnsSplit` | src/main/java/org/monarchinitiative/exomiser/allelestore/writers/AlleleAppendingFileWriter.java:80-91 | The line of a writable allele splits back into its columns. |
| `Writers.ColumnsRejected` | src/main/java/org/monarchinitiative/exomiser/allelestore/writers/AlleleAppendingFileWriter.java:145 | Identity columns with an INFO column the decoder rejects fail with the decoder's exception. |
| `Writers.RsIdLineRejected` | src/main/java/org/monarchinitiative/exomiser/allelestore/writers/AlleleAppendingFileWriter.java:80-100 | The line of an allele with a known rsId is rejected with IllegalArgumentException("RS"). |
| `Writers.UnknownRsIdLineRead` | src/main/java/org/monarchinitiative/exomiser/allelestore/writers/AlleleAppendingFileWriter.java:80-100 | The line of an allele without an rsId reads back as that allele. |
| `Writers.PartitionReadUpToRsId` | src/main/java/org/monarchinitiative/exomiser/allelestore/writers/AlleleAppendingFileWriter.java:138-159 | A partition reads back only up to its first allele with a known rsId; that allele and all after it are lost. |
| `Writers.WrittenLines` | src/main/java/org/monarchinitiative/exomiser/allelestore/writers/AlleleAppendingFileWriter.java:67-78 | The written partition is one line per allele. |
| `Writers.PrepareWriters` | src/main/java/org/monarchinitiative/exomiser/allelestore/writers/AlleleAppendingFileWriter.java:50-65 | Every partition exists afterwards; only the ones created now have a writer. |
| `Writers.AlleleAppendingFileWriter.constructor` | src/main/java/org/monarchinitiative/exomiser/allelestore/writers/AlleleAppendingFileWriter.java:45-48 | The partitions exist, only newly created ones have writers, and the count is 0. |
| `Writers.AlleleAppendingFileWriter.Write` | src/main/java/org/monarchinitiative/exomiser/allelestore/writers/AlleleAppendingFileWriter.java:67-78 | An allele on a chromosome with a writer has its line appended and is counted; otherwise nothing changes. |
| `Writers.AlleleAppendingFileWriter.MergeToFile` | src/main/java/org/monarchinitiative/exomiser/allelestore/writers/AlleleAppendingFileWriter.java:106-109 | Closes the writers and returns the sorted merged alleles of each partition, chromosome by chromosome. |
| `JavaText.Split` | src/main/java/org/monarchinitiative/exomiser/allelestore/parsers/VcfAlleleParser.java:23 | String.split: the pieces between separators. Trailing pieces are dropped and each dropped piece is empty. The whole string comes back when there is no separator. |
| `JavaText.SplitJoin` | src/main/java/org/monarchinitiative/exomiser/allelestore/model/Allele.java:75-84 | Pieces without the separator, the last non-empty, split back out of their join. |
| `JavaText.Trim` | src/main/java/org/monarchinitiative/exomiser/allelestore/parsers/ExomiserAlleleParser.java:28 | String.trim: the result has no character at or below ' ' at either end, and text without such ends is unchanged. |
| `JavaText.TrimRemovesBlankEnds` | src/main/java/org/monarchinitiative/exomiser/allelestore/parsers/ExomiserAlleleParser.java:28 | trim keeps one contiguous part of the text and removes only characters at or below ' ' before and after it. |
| `JavaText.FirstWithPrefix` | src/main/java/org/monarchinitiative/exomiser/allelestore/parsers/DbSnpAlleleParser.java:38-44 | The first token with the prefix, or none exactly when no token has it. |
| `JavaText.FindFirstWithPrefix` | src/main/java/org/monarchinitiative/exomiser/allelestore/parsers/DbSnpAlleleParser.java:38-44 | The loop returning at the first token with the prefix computes FirstWithPrefix. |
| `JavaText.LinesOfText` | src/main/java/org/monarchinitiative/exomiser/allelestore/AlleleAppendingFileWriter.java:141 | readLine gives back the lines of text written with line breaks. |
| `JavaText.IntToStringRoundTrip` | src/main/java/org/monarchinitiative/exomiser/allelestore/AlleleAppendingFileWriter.java:78 | Integer.toString followed by parseInt or parseByte gives the number back, within range. |
| `JavaText.CompareStringsZero` | src/main/java/org/monarchinitiative/exomiser/allelestore/model/Allele.java:94-97 | String.compareTo is 0 exactly for equal strings. |
| `JavaText.CompareInts` | src/main/java/org/monarchinitiative/exomiser/allelestore/model/Allele.java:88-93 | Integer.compare orders like <. |
| `Folds.CollectAt` | src/main/java/org/monarchinitiative/exomiser/allelestore/parsers/EspAlleleParser.java:41-46 | With distinct keys, key j holds pass j's value and is absent when that pass stored none. |
| `Folds.CollectFirstError` | src/main/java/org/monarchinitiative/exomiser/allelestore/parsers/EspAlleleParser.java:41-46 | The first failing pass ends the loop with its exception. |
| `Folds.AssignLast` | src/main/java/org/monarchinitiative/exomiser/allelestore/parsers/ExomiserAlleleParser.java:42-45 | A key holds the value of the last pass that puts it. |
| `Folds.AssignAllPairs` | src/main/java/org/monarchinitiative/exomiser/allelestore/parsers/ExomiserAlleleParser.java:42-45 | Putting every key of a map with its value rebuilds the map. |

## Left out

- Floats: a `float` is modelled as a decimal value.
  - IEEE rounding to 24 bits is not modelled. Neither are NaN, negative zero,
    hexadecimal literals or the `f`/`d` suffixes of `Float.parseFloat`.
  - `Float.toString` is modelled by a printer with its own exact format,
    whose parse round trip is proved. Java's shortest-digits format is not
    modelled.
  - `frequencyAsPercentage` truncates to a fixed number of decimal places
    (`JavaFloat.Percentage`) instead of rounding to the nearest float.
- File system and I/O:
  - Paths, `Files.newBufferedWriter`, flushing and closing are left out.
    `IOException` and the logging of caught exceptions are left out too.
  - A partition file is the text it holds, and `mergeToFile` returns the
    merged text instead of its `Path`.
  - The files already in the working directory are a parameter.
- `RootWriter.AlleleAppendingFileWriter.MergeToFile`: returns only the new
  merged text. The source opens the output file with CREATE but not
  TRUNCATE, so an existing output file longer than the new text keeps its
  old tail after it. The model does not capture that tail.
- `Writers.AlleleAppendingFileWriter.MergeToFile`: returns only the new
  merged text. The same stale tail of an existing, longer output file is not
  modelled.
- Line endings: `JavaText.Lines` splits at '\n' only. `BufferedReader.readLine`
  also ends a line at '\r' and at "\r\n", and reading such a file is not
  modelled. An rsId, REF or ALT is written as it is, so the read-back lemmas
  require it to hold no '\r' (`RootWriter.Clean`).
- `JavaText.CompareStrings`: compares Unicode scalar values. `String.compareTo`
  compares UTF-16 code units, and the two orders differ when a supplementary
  character meets a character from U+E000 to U+FFFF.
- `JavaText.ParseInteger`: accepts ASCII digits only. `Integer.parseInt` and
  `Byte.parseByte` also accept digits of other scripts, such as Arabic-Indic
  digits.
- `count`: the alleles written are counted as a `nat`. A `long` counter
  cannot overflow in practice.
- `AlleleWriter`, `AlleleParser` as interfaces, `AlleleStoreApplication` and
  the command-line runners are not part of this model. Nor are the parsers'
  unused fields and constants.
- `String.toUpperCase` is modelled for ASCII letters only.
- `RootWriter.AlleleAppendingFileWriter.MergeToFile`: the top-level writer
  merges under `allele.getId()`, which `Allele` does not declare. It is
  modelled as `generateKey`, the key the `writers` package writer uses.
- `ExacParser.AlleleNumber`: a missing AN is modelled as
  `Integer.parseInt(null)`. That throws `NumberFormatException` with message
  "null", as in Java 8.
- `AlleleMerging.MergeAlleles`: the branch for a null incoming allele cannot
  be reached from `Map.merge`, so it is not modelled.
- The merge lambda follows `Map.merge`, which calls it as (stored,
  incoming):
  - the allele kept is the incoming one;
  - its rsId comes from the stored allele only when its own is ".";
  - on a shared key, the stored value wins.
- `Writers.RsIdLineRejected`: requires the rsId to have no blank at its end.
  Trimming the INFO column would otherwise change the rejected token. The
  lemma does not cover such an rsId.
- `Writers.PartitionReadUpToRsId`: requires the same of the first allele with
  a known rsId. It does not cover a partition where that allele's rsId ends
  in a blank.
- `RootWriter.SavedAllelesReadBack`: covers only alleles that can be written.
  Such an allele has a signed-byte chromosome and an int position. Its rsId,
  REF and ALT hold no tab, '\n' or '\r', and its rsId holds no ';'. REF and
  ALT are upper case and ALT has no ','. Other alleles may not read back as
  themselves.

## Findings

| source | as written | input that shows it | evidently intended | confidence | as-written member | corrected member |
|---|---|---|---|---|---|---|
| src/main/java/org/monarchinitiative/exomiser/allelestore/writers/AlleleAppendingFileWriter.java:95 | makeInfoFields writes `generateInfoField`, which starts with "RS=<rsId>" for an allele with a known rsId. mergeToFile reads the partition back with the Exomiser parser, whose `AlleleProperty.valueOf("RS")` throws. The catch in readAndMergeAlleles (lines 154-156) then drops that allele and every later line of the partition. | Two alleles written to chromosome 1: the first with rsId "rs123", the second with rsId ".". The merged output holds neither. | Every written allele reads back, as with the top-level writer, whose INFO column holds only the values. | not executed | Writers.PartitionReadUpToRsId | RootWriter.SavedAllelesReadBack |
