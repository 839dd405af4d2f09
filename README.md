# Namsor batch request builders and response normalizers

This project models the ten batch operations of the Namsor n8n connector. Each
operation has two hooks:

- **`preSendFunction`** (the builder) checks the size of the input batch
  ("Names to Analyze", "Proper Nouns to Analyze" or "Names to Parse"). It
  drops rows that lack the operation's required fields and serialises the
  rest, writing only the fields that are non-empty. It writes the body into the
  host's request options. Where the operation calls for it, it also writes the
  URL and the taxonomy header:
  - the four geo-switching operations switch the whole batch between a plain
    and a geo endpoint;
  - the two race operations add the taxonomy header.
- **`postReceiveFunction`** (the normalizer) passes the host items through
  unchanged, unless simplifying a response that holds the operation's list. In
  that case it maps every element of the list to one flat record. Ranked "Top"
  arrays become numbered fields: index 0 unsuffixed, index i suffixed `i+1`.
  The width is capped at 5 for caste, 6 for US race/ethnicity, and uncapped for
  country and ethnicity.

The modules:

- `Registry`: the ten operations and their constants. These are routed URLs,
  geo endpoint pairs, the body's list key, the taxonomy header, and the error
  messages.
- `Builder`: the builders, factored into one pipeline.
  - The pure specification is `Prepare`.
  - `RequestOptions` is the host's mutable request-options object.
  - `RequestOptions.PreSend` updates it in place and is proved against
    `Prepare`.
- `Normalizer`: the normalizers.
  - The pure specifications are `Simplified` and `Normalised`.
  - The loops of the source are the methods `AddRankedFields` (the rank loops
    and `forEach`), `SimplifyRecord` with its per-operation `Simplify*` steps,
    `SimplifyAll` (the `map` over the response list) and `PostReceive`. Each
    is proved against those specifications.
- `Json`, `Decimal` and `Wrappers` give JSON values with JavaScript
  truthiness, decimal numerals for template literals, and `Option`/`Result`.
- `Gender`, `UsRaceEthnicity`, `IndianCaste`, `Ethnicity`, `Country`,
  `NameType` and `NameParsing` state and prove what each source file promises.
  Each property is stated for its own operation.

Every builder checks the size of the raw batch before it filters. Only the two
caste builders refuse a batch that filtering empties, with their own
field-specific message. The others send an empty list in that case:
`properNouns` for name type, `personalNames` for the rest.
`UsRaceEthnicity.ByNameNoneKept` proves this for one of them.

## Model

| member | source | states |
|---|---|---|
| Registry.PlainEndpointIsRoute | nodes/Namsor/resources/gender/byName.ts:105-110 | exactly the four geo-switching operations have an endpoint pair; its plain URL is the one the routing table set, and the geo URL differs from it |
| Decimal.NatToString | nodes/Namsor/resources/usRaceEthnicity/byName.ts:165 | the numeral of `i + 1` in a field name is non-empty, made of digits, has no leading zero, and has at least two digits from 10 on |
| Decimal.NatToStringValue | nodes/Namsor/resources/usRaceEthnicity/byName.ts:165 | the numeral denotes its number: read back in decimal it gives `n` |
| Decimal.NatToStringInjective | nodes/Namsor/resources/ethnicity/byName.ts:147 | distinct numbers render as distinct numerals |
| Json.Truthy | nodes/Namsor/resources/usRaceEthnicity/byName.ts:154 | definition of JavaScript truthiness: undefined, null, false, 0 and the empty string are falsy; its uses are stated in the lemmas on `OptionalField`, `RacePrimary` and the rank loops |
| Json.Field | nodes/Namsor/resources/usRaceEthnicity/byName.ts:147-156 | definition of JavaScript `v.key`; its uses are stated in the `OptionalField`, `TopOf`, `RegionFields` and per-operation record lemmas |
| Builder.Keep | nodes/Namsor/resources/indianCaste/byName.ts:102 | definition of each operation's `filter` test; its properties are in `FilterMembership` and the per-operation `*Entries` lemmas |
| Builder.Filter | nodes/Namsor/resources/usRaceEthnicity/byName.ts:98-99 | filtering keeps no more rows than given, and every kept row passes the operation's test |
| Builder.FilterMembership | nodes/Namsor/resources/usRaceEthnicity/byName.ts:98-99 | a row is kept iff it is in the raw batch and passes the operation's test |
| Builder.FilterAppend | nodes/Namsor/resources/usRaceEthnicity/byName.ts:98-99 | filtering distributes over concatenation, so kept rows keep their original order |
| Builder.FilterEmptyIff | nodes/Namsor/resources/indianCaste/byName.ts:101-109 | filtering leaves nothing iff no raw row passes the test |
| Builder.PersonalNames | nodes/Namsor/resources/usRaceEthnicity/byName.ts:98-116 | the mapped list has exactly one entry per row that survives filtering |
| Builder.AnyCountry | nodes/Namsor/resources/gender/byName.ts:103 | definition of `nameValues.some(n => n.countryIso2)`; its properties are in `AnyCountryIff` |
| Builder.Serialise | nodes/Namsor/resources/gender/byName.ts:115-129 | definition of each operation's `map` callback; its properties are in `SerialiseFields` and `SerialiseField` |
| Builder.AnyCountryIff | nodes/Namsor/resources/gender/byName.ts:103 | geo mode holds iff some raw row, kept or not, has a non-empty country code |
| Builder.SerialiseFields | nodes/Namsor/resources/usRaceEthnicity/byName.ts:100-116 | a kept row's entry holds exactly the operation's forwarded fields that are non-empty, each with the row's own text, and never an empty string |
| Builder.SerialiseField | nodes/Namsor/resources/gender/byName.ts:115-128 | the same, for one key |
| Builder.EntryFields | nodes/Namsor/resources/usRaceEthnicity/byName.ts:98-116 | the i-th entry sent is the serialisation of the i-th kept row, which is a raw row passing the test |
| Builder.SentEntries | nodes/Namsor/resources/usRaceEthnicity/byName.ts:98-116 | one entry per kept row; kept rows are exactly the raw rows passing the test; each entry carries exactly the non-empty forwarded fields, with geo decided on the raw batch |
| Builder.GeoGuardRedundant | nodes/Namsor/resources/gender/byName.ts:124-126 | the per-entry `useGeo &&` guard never suppresses a code: the entries equal those built with geo always on |
| Builder.TargetUrlChoice | nodes/Namsor/resources/gender/byName.ts:103-110 | a geo-switching builder picks the geo URL iff some raw row has a country code, and otherwise the plain one; the others keep the routed URL |
| Builder.TargetUrl | nodes/Namsor/resources/gender/byName.ts:106-110 | definition of the URL write; its properties are in `TargetUrlChoice` |
| Builder.RequestBody | nodes/Namsor/resources/nameType/properNounType.ts:116-117 | the body's only key is the operation's list key, holding one JSON object per entry, in order |
| Builder.Headers | nodes/Namsor/resources/usRaceEthnicity/byName.ts:121-124 | every prior header except the taxonomy header is preserved; the race operations set the taxonomy header and the others leave the headers alone |
| Builder.Prepare | nodes/Namsor/resources/usRaceEthnicity/byName.ts:77-127 | definition of what every builder does to the request options; its properties are in `PrepareOutcome`, and `RequestOptions.PreSend` is proved against it |
| Builder.PrepareOutcome | nodes/Namsor/resources/usRaceEthnicity/byName.ts:84-124 | no rows fail with the empty-batch error, more than 200 with the too-large error; otherwise only a caste batch that filtering empties fails, with the missing-fields error; success yields target URL, body and headers |
| Builder.RequestOptions.constructor | nodes/Namsor/resources/usRaceEthnicity/index.ts:31 | the options start at the operation's routed URL, with no body and the given headers |
| Builder.RequestOptions.PreSend | nodes/Namsor/resources/usRaceEthnicity/byName.ts:77-127 | on success the options become the request `Prepare` describes and the outcome is a pass; on failure the error is `Prepare`'s and the options are unchanged |
| Normalizer.RankedFields | nodes/Namsor/resources/usRaceEthnicity/byName.ts:163-167 | definition of the numbered fields a rank loop or `forEach` writes; its properties are in `RankedLookup`, `RankedKeys`, `RankedFieldsKeys` and `RanksAmongFixed` |
| Normalizer.SuffixedKey | nodes/Namsor/resources/ethnicity/byName.ts:147 | definition of the field name for rank `i`; its properties are in `SuffixedKeyShape`, `SuffixedKeyDistinct` and `NoRankOneKey` |
| Normalizer.SuffixedKeyShape | nodes/Namsor/resources/ethnicity/byName.ts:147 | a numbered field name starts with its base, and from rank 1 on is longer than it |
| Normalizer.SuffixedKeyDistinct | nodes/Namsor/resources/usRaceEthnicity/byName.ts:165 | distinct ranks give distinct field names |
| Normalizer.RankedLookup | nodes/Namsor/resources/usRaceEthnicity/byName.ts:163-167 | rank i has a field iff it is in the loop's range, inside the array and (when tested) truthy, and that field holds the element |
| Normalizer.RankedKeys | nodes/Namsor/resources/usRaceEthnicity/byName.ts:163-167 | every numbered field comes from a rank in range |
| Normalizer.RankedFieldsKeys | nodes/Namsor/resources/indianCaste/byName.ts:150-154 | the numbered fields are exactly the in-range, truthy-when-tested ranks, each holding its element |
| Normalizer.ClearKeyAbsent | nodes/Namsor/resources/country/byName.ts:134-145 | a key that starts with another letter, is shorter than the base, or is the base itself when rank 0 is skipped, is never a numbered field |
| Normalizer.FixedFieldKept | nodes/Namsor/resources/indianCaste/byName.ts:138-154 | the rank loop never overwrites such a fixed field: it stays with its value |
| Normalizer.RanksAmongFixed | nodes/Namsor/resources/country/byName.ts:127-145 | fields written before and after the rank loop neither hide nor add a rank: from the first rank on, rank i has a field iff in range, holding its element |
| Normalizer.NoRankOneKey | nodes/Namsor/resources/ethnicity/byName.ts:147 | no rank is rendered with the suffix 1 |
| Normalizer.NoRankOneField | nodes/Namsor/resources/ethnicity/byName.ts:146-148 | so no numbered field is named `base1` |
| Normalizer.OptionalField | nodes/Namsor/resources/usRaceEthnicity/byName.ts:154-156 | definition of a copy made only when the value is truthy; its properties are in `CopyIfTruthy`, `Country.RegionFields` and the race record lemmas |
| Normalizer.ResponseList | nodes/Namsor/resources/usRaceEthnicity/byName.ts:140-144 | definition of the `items[0]?.json?.<list key>` array guard; its properties are in `Normalised` and the per-operation `Response` lemmas |
| Normalizer.TopOf | nodes/Namsor/resources/usRaceEthnicity/byName.ts:159 | definition of `(nameData.<key> as string[]) \|\| []` (also country/byName.ts:134 and ethnicity/byName.ts:145); its properties are in the rank lemmas `RankedFieldsKeys` and `RanksAmongFixed` and the per-operation rank lemmas |
| Normalizer.RacePrimary | nodes/Namsor/resources/usRaceEthnicity/byName.ts:159-161 | definition of `raceEthnicity \|\| raceTop[0]`; its properties are in `UsRaceEthnicity.PrimaryClass` |
| Normalizer.FirstLastName | nodes/Namsor/resources/nameParsing/splitFullNames.ts:137 | definition of `firstLastName \|\| {}`; its properties are in `NameParsing.SplitResponse` and `NameParsing.MissingFirstLastName` |
| Normalizer.FixedPart | nodes/Namsor/resources/usRaceEthnicity/byName.ts:146-161 | definition of the fields each record holds before its ranked fields; its properties are in the per-operation record lemmas |
| Normalizer.Regions | nodes/Namsor/resources/country/byName.ts:139-145 | definition of the `region` and `subRegion` copies; its properties are in `Country.RegionsKeys` and `Country.RegionFields` |
| Normalizer.Simplified | nodes/Namsor/resources/country/byName.ts:126-151 | definition of each normalizer's `map` callback; its properties are in the per-operation record lemmas, and `SimplifyRecord` is proved against it |
| Normalizer.Normalised | nodes/Namsor/resources/usRaceEthnicity/byName.ts:135-173 | without simplify or without the list the items pass through; otherwise one record per response element, in order, each paired with item 0 |
| Normalizer.Records | nodes/Namsor/resources/usRaceEthnicity/byName.ts:146-173 | definition of the mapped list; its properties are in `Normalised` and the per-operation `Response` lemmas |
| Normalizer.AddRankedFields | nodes/Namsor/resources/usRaceEthnicity/byName.ts:163-167 | the rank loop adds exactly the numbered fields of its range to the record |
| Normalizer.SimplifyRecord | nodes/Namsor/resources/usRaceEthnicity/byName.ts:146-173 | the per-element callback builds the operation's flat record |
| Normalizer.SimplifyRace | nodes/Namsor/resources/usRaceEthnicity/byName.ts:147-167 | literal, optional country code, primary class, then classes 2 to 6, as the record `Simplified` describes |
| Normalizer.SimplifyCaste | nodes/Namsor/resources/indianCaste/byName.ts:138-154 | literal with `castegroup`, then groups 2 to 5, as `Simplified` describes |
| Normalizer.SimplifyEthnicity | nodes/Namsor/resources/ethnicity/byName.ts:139-148 | literal, then every ranked ethnicity, as `Simplified` describes |
| Normalizer.SimplifyCountry | nodes/Namsor/resources/country/byName.ts:127-145 | literal, every ranked country, then the region fields, as `Simplified` describes |
| Normalizer.CopyIfTruthy | nodes/Namsor/resources/country/byName.ts:140-145 | a field is copied exactly when truthy in the response |
| Normalizer.SimplifyAll | nodes/Namsor/resources/usRaceEthnicity/byName.ts:146-173 | the loop over the response list returns exactly `Records`: one record per element, in order, each paired with item 0 |
| Normalizer.PostReceive | nodes/Namsor/resources/usRaceEthnicity/byName.ts:129-174 | the hook returns exactly `Normalised`'s output |
| Gender.ByNameOutcome | nodes/Namsor/resources/gender/byName.ts:86-110 | 1 to 200 raw rows succeed, whatever filtering keeps; URL `genderGeoBatch` iff some raw row has a country code, else `genderBatch`; headers unchanged |
| Gender.ByNameEntries | nodes/Namsor/resources/gender/byName.ts:113-129 | rows without a first name are dropped; each entry has the first name, the last name when non-empty, and the country code only in geo mode and only when non-empty |
| Gender.ByFullNameOutcome | nodes/Namsor/resources/gender/byFullName.ts:78-102 | 1 to 200 rows succeed; URL `genderFullGeoBatch` iff some raw row has a country code, else `genderFullBatch` |
| Gender.ByFullNameEntries | nodes/Namsor/resources/gender/byFullName.ts:105-117 | rows without a name are dropped; each entry has the name, and the country code only in geo mode and when non-empty |
| Gender.ByNameResponse | nodes/Namsor/resources/gender/byName.ts:142-162 | passthrough otherwise; each element becomes exactly {firstName, lastName, gender from likelyGender, probability from probabilityCalibrated} |
| Gender.ByFullNameResponse | nodes/Namsor/resources/gender/byFullName.ts:130-149 | passthrough otherwise; each element becomes exactly {name, gender, probability} |
| Gender.MixedBatch | nodes/Namsor/resources/gender/byName.ts:103-129 | a batch with one coded and one uncoded row goes to the geo endpoint, and only the coded entry carries `countryIso2` |
| Gender.JohnSmithRequest | nodes/Namsor/resources/gender/byName.ts:105-131 | one uncoded row yields exactly the plain URL and a body listing its two names |
| Gender.JohnSmithReply | nodes/Namsor/resources/gender/byName.ts:154-162 | a one-element reply simplifies to exactly one record with gender and probability |
| UsRaceEthnicity.ByNameOutcome | nodes/Namsor/resources/usRaceEthnicity/byName.ts:84-124 | 1 to 200 rows succeed, the routed URL is kept, and the taxonomy header joins the prior headers |
| UsRaceEthnicity.ByNameEntries | nodes/Namsor/resources/usRaceEthnicity/byName.ts:98-116 | rows with a first or last name are kept; each entry carries exactly the non-empty ones of first name, last name and country code |
| UsRaceEthnicity.ByNameSizeErrors | nodes/Namsor/resources/usRaceEthnicity/byName.ts:84-96 | no rows fail with the "at least one name" message, more than 200 with the "maximum 200 names" message |
| UsRaceEthnicity.ByNameNoneKept | nodes/Namsor/resources/usRaceEthnicity/byName.ts:98-118 | a batch of 1 to 200 rows with no names at all is still sent, with an empty `personalNames` |
| UsRaceEthnicity.ByFullNameOutcome | nodes/Namsor/resources/usRaceEthnicity/byFullName.ts:77-111 | 1 to 200 rows succeed with no endpoint switch, and the taxonomy header is added |
| UsRaceEthnicity.ByFullNameEntries | nodes/Namsor/resources/usRaceEthnicity/byFullName.ts:91-103 | rows with a name are kept; each entry has the name, and the country code exactly when non-empty |
| UsRaceEthnicity.Response | nodes/Namsor/resources/usRaceEthnicity/byName.ts:135-173 | passthrough when not simplifying or without a `personalNames` array; else one record per element, in order |
| UsRaceEthnicity.PrimaryClass | nodes/Namsor/resources/usRaceEthnicity/byName.ts:159-161 | `ethnicity` is `raceEthnicity` when truthy, else the first ranked class |
| UsRaceEthnicity.NoClassOne | nodes/Namsor/resources/usRaceEthnicity/byName.ts:161-167 | no record has an `ethnicity1` field |
| UsRaceEthnicity.FurtherClasses | nodes/Namsor/resources/usRaceEthnicity/byName.ts:163-167 | `ethnicity{i+1}` exists iff 1 <= i < 6 and the i-th ranked class is truthy, and holds it |
| UsRaceEthnicity.SixClassesAtMost | nodes/Namsor/resources/usRaceEthnicity/byFullName.ts:149-153 | a truthy sixth class becomes `ethnicity6`, and `ethnicity7` never appears |
| UsRaceEthnicity.ByNameRecordKeys | nodes/Namsor/resources/usRaceEthnicity/byName.ts:147-167 | a record's keys are exactly firstName, lastName, probability, ethnicity, countryIso2 when truthy, and the numbered classes |
| UsRaceEthnicity.ByNameRecordValues | nodes/Namsor/resources/usRaceEthnicity/byName.ts:147-156 | the fixed fields hold the response's values; countryIso2 is present iff truthy |
| UsRaceEthnicity.ByFullNameRecordKeys | nodes/Namsor/resources/usRaceEthnicity/byFullName.ts:133-153 | a record's keys are exactly name, probability, ethnicity, countryIso2 when truthy, and the numbered classes |
| UsRaceEthnicity.ByFullNameRecordValues | nodes/Namsor/resources/usRaceEthnicity/byFullName.ts:134-142 | the fixed fields hold the response's values; countryIso2 is present iff truthy |
| IndianCaste.ByNameOutcome | nodes/Namsor/resources/indianCaste/byName.ts:87-116 | 1 to 200 rows succeed iff some row has first name, last name and subdivision; otherwise the "First Name, Last Name, and Indian Subdivision" error |
| IndianCaste.ByNameEntries | nodes/Namsor/resources/indianCaste/byName.ts:101-107 | rows with all three fields are kept; each entry has exactly those three keys, with the row's text |
| IndianCaste.ByFullNameOutcome | nodes/Namsor/resources/indianCaste/byFullName.ts:78-106 | 1 to 200 rows succeed iff some row has a name and a subdivision; otherwise the "Full Name and Indian Subdivision" error |
| IndianCaste.ByFullNameEntries | nodes/Namsor/resources/indianCaste/byFullName.ts:92-97 | rows with both fields are kept; each entry has exactly those two keys |
| IndianCaste.Response | nodes/Namsor/resources/indianCaste/byName.ts:126-160 | passthrough when not simplifying or without the array; else one record per element, in order |
| IndianCaste.PrimaryGroup | nodes/Namsor/resources/indianCaste/byName.ts:142-154 | `castegroup` is the response's own field with no fallback to the ranked groups, and there is no `castegroup1` |
| IndianCaste.FurtherGroups | nodes/Namsor/resources/indianCaste/byName.ts:150-154 | `castegroup{i+1}` exists iff 1 <= i < 5 and the i-th ranked group is truthy, and holds it |
| IndianCaste.FiveGroupsAtMost | nodes/Namsor/resources/indianCaste/byFullName.ts:139-143 | a truthy fifth group becomes `castegroup5`, and `castegroup6` never appears |
| IndianCaste.ByNameRecordKeys | nodes/Namsor/resources/indianCaste/byName.ts:137-154 | a record's keys are exactly the five fixed fields and the numbered groups |
| IndianCaste.ByNameRecordValues | nodes/Namsor/resources/indianCaste/byName.ts:138-144 | the fixed fields hold the response's values |
| IndianCaste.ByFullNameRecordKeys | nodes/Namsor/resources/indianCaste/byFullName.ts:127-143 | a record's keys are exactly the four fixed fields and the numbered groups |
| IndianCaste.ByFullNameRecordValues | nodes/Namsor/resources/indianCaste/byFullName.ts:128-133 | the fixed fields hold the response's values |
| Ethnicity.ByNameOutcome | nodes/Namsor/resources/ethnicity/byName.ts:85-117 | 1 to 200 rows succeed under the routed URL and headers; the body's only key is `personalNames` |
| Ethnicity.ByNameEntries | nodes/Namsor/resources/ethnicity/byName.ts:99-115 | rows without a last name are dropped; each entry has the last name, and first name and country code exactly when non-empty |
| Ethnicity.Response | nodes/Namsor/resources/ethnicity/byName.ts:127-154 | passthrough when not simplifying or without the array; else one record per element, in order |
| Ethnicity.Ethnicities | nodes/Namsor/resources/ethnicity/byName.ts:145-148 | rank i has a field iff i is below the array's length, with no cap; it holds the element; there is no `ethnicity1` |
| Ethnicity.ByNameRecordKeys | nodes/Namsor/resources/ethnicity/byName.ts:138-148 | a record's keys are exactly firstName, lastName, probability and the numbered ethnicities |
| Ethnicity.ByNameRecordValues | nodes/Namsor/resources/ethnicity/byName.ts:139-143 | the fixed fields hold the response's values |
| Country.ByNameOutcome | nodes/Namsor/resources/country/byName.ts:75-105 | 1 to 200 rows succeed under the routed URL and headers |
| Country.ByNameEntries | nodes/Namsor/resources/country/byName.ts:89-103 | rows with a first or last name are kept; each entry holds exactly the non-empty ones of the two |
| Country.NoCountryCode | nodes/Namsor/resources/country/byName.ts:91-102 | no entry ever carries `countryIso2` |
| Country.Response | nodes/Namsor/resources/country/byName.ts:115-151 | passthrough when not simplifying or without the array; else one record per element, in order |
| Country.Countries | nodes/Namsor/resources/country/byName.ts:134-137 | rank i has a field iff i is below the array's length, with no cap; it holds the element; there is no `country1` |
| Country.ByNameRecordKeys | nodes/Namsor/resources/country/byName.ts:127-145 | a record's keys are exactly firstName, lastName, probability, the numbered countries, and region and subRegion when truthy |
| Country.ByNameRecordValues | nodes/Namsor/resources/country/byName.ts:127-131 | the fixed fields hold the response's values |
| Country.RegionFields | nodes/Namsor/resources/country/byName.ts:139-145 | region and subRegion appear iff truthy in the response, with its values |
| Country.RegionsKeys | nodes/Namsor/resources/country/byName.ts:139-145 | the region part holds `region` and `subRegion` exactly when each is truthy in the response |
| Country.ThreeCountries | nodes/Namsor/resources/country/byName.ts:134-137 | three ranked countries become `country`, `country2`, `country3`, with no `country1` or `country4` |
| NameType.EmptyBatchError | nodes/Namsor/resources/nameType/properNounType.ts:78-83 | no rows fail with the message asking for a proper noun |
| NameType.TooLargeError | nodes/Namsor/resources/nameType/properNounType.ts:85-90 | more than 200 rows fail with the "maximum 200 items" message |
| NameType.ProperNounsOutcome | nodes/Namsor/resources/nameType/properNounType.ts:78-100 | 1 to 200 rows succeed; URL `nameTypeGeoBatch` iff some raw row has a country code, else `nameTypeBatch` |
| NameType.ProperNounsEntries | nodes/Namsor/resources/nameType/properNounType.ts:102-114 | rows without a name are dropped; the country code is sent only in geo mode and when non-empty |
| NameType.BodyKey | nodes/Namsor/resources/nameType/properNounType.ts:116-117 | the body's only key is `properNouns`, never `personalNames`, with one element per kept row |
| NameType.EntriesNamed | nodes/Namsor/resources/nameType/properNounType.ts:102-108 | every entry sent has a name |
| NameType.ProperNounsResponse | nodes/Namsor/resources/nameType/properNounType.ts:127-145 | the normalizer reads `properNouns`; each element becomes exactly {name, commonType, commonTypeAlt}, in order |
| NameType.PersonalNamesIgnored | nodes/Namsor/resources/nameType/properNounType.ts:131-136 | a response with no `properNouns` is passed through even when simplifying |
| NameParsing.EmptyBatchError | nodes/Namsor/resources/nameParsing/splitFullNames.ts:77-82 | no rows fail with the message naming the "Names to Parse" parameter |
| NameParsing.SplitOutcome | nodes/Namsor/resources/nameParsing/splitFullNames.ts:77-99 | 1 to 200 rows succeed; URL `parseNameGeoBatch` iff some raw row has a country code, else `parseNameBatch` |
| NameParsing.SplitEntries | nodes/Namsor/resources/nameParsing/splitFullNames.ts:101-113 | rows without a name are dropped; the country code is sent only in geo mode and when non-empty |
| NameParsing.SplitResponse | nodes/Namsor/resources/nameParsing/splitFullNames.ts:125-147 | each element becomes exactly {name, firstName, lastName}, the last two from a truthy `firstLastName`, else undefined |
| NameParsing.MissingFirstLastName | nodes/Namsor/resources/nameParsing/splitFullNames.ts:137-143 | without `firstLastName` the record still forms, with both name parts undefined |

## Left out

- The `INodeProperties` field arrays are not modelled. They are display metadata for the host UI. The same goes for `Namsor.node.ts`, the credentials file, and the `index.ts` routing tables, which supply only the endpoint strings in `Registry.Route`.
- Host calls are not modelled: `getNodeParameter`, `getNode`, `NodeOperationError`, `async`. The parameter values become method arguments and the thrown errors become `Fail`/`Failure` values. A missing `nameValues` (`|| []`) is an empty argument sequence.
- HTTP transport and the remote API are left out. A response is an arbitrary JSON input.
- `probabilityCalibrated` is copied as an opaque value. The model does not reason about its number, and floating point and `NaN` are left out.
- `.toString()` coercions are left out. Row fields are strings, or absent.
- Builder.Serialise: a row field that is a non-empty string is truthy. A JavaScript value such as `0` or `false` in a row is not representable.
- Normalizer.TopOf: a truthy Top field that is not an array reads as no ranks. The source would index into a string, or fail.
- Normalizer.Simplified: a response element that is not an object reads every field as undefined. The source throws on `null` and reads properties of other primitives.
- Builder.Serialise: request entries are maps, so the key order of the JSON body sent is not modelled.
- Normalizer.Simplified: records are maps, so the key order of JavaScript objects is not modelled.
- Operations whose builders are not part of this model: origin, ethnicity by full name, and country by full name. Their code is not available.
