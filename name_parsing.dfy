/**
 * Splitting full names (nameParsing/splitFullNames.ts): a geo-switching
 * builder, and a normalizer that unpacks the response's `firstLastName`.
 */
module NameParsing {
  import opened Wrappers
  import opened Json
  import opened Registry
  import opened Builder
  import opened Normalizer

  /** The empty-batch error names the "Names to Parse" parameter. */
  lemma EmptyBatchError(raw: seq<NameInput>, current: Request)
    requires |raw| == 0
    ensures Prepare(SplitFullNames, raw, current) == Failure(EmptyBatch(NamesToParseEmpty))
  {
  }

  /**
   * A batch of 1 to 200 rows succeeds; the URL is the geo endpoint exactly
   * when some raw row, kept or not, has a country code.
   */
  lemma SplitOutcome(raw: seq<NameInput>, current: Request)
    ensures var r := Prepare(SplitFullNames, raw, current);
      && (r.Success? <==> 1 <= |raw| <= 200)
      && (r.Success? ==>
            && r.value.url == (if CountryInBatch(raw) then "/api2/json/parseNameGeoBatch" else "/api2/json/parseNameBatch")
            && r.value.headers == current.headers
            && r.value.body == RequestBody(SplitFullNames, raw))
  {
    TargetUrlChoice(SplitFullNames, raw, current.url);
    AnyCountryIff(raw);
  }

  /**
   * Rows without a full name are dropped; each entry has its name when
   * non-empty and, in geo mode only, its non-empty country code.
   */
  lemma SplitEntries(raw: seq<NameInput>)
    ensures forall x :: x in Filter(SplitFullNames, raw) <==> x in raw && HasText(x.name)
    ensures |Entries(SplitFullNames, raw)| == |Filter(SplitFullNames, raw)|
    ensures forall i :: 0 <= i < |Entries(SplitFullNames, raw)| ==>
      SentAs(Entries(SplitFullNames, raw)[i], Filter(SplitFullNames, raw)[i],
             {"name"} + (if CountryInBatch(raw) then {"countryIso2"} else {}))
  {
    SentEntries(SplitFullNames, raw);
  }

  /**
   * The normalizer reads `personalNames`; each element becomes exactly
   * {name, firstName, lastName}, the last two taken from its
   * `firstLastName` when that is truthy and undefined otherwise.
   */
  lemma SplitResponse(simplify: bool, items: seq<Item>)
    ensures var out := Normalised(SplitFullNames, simplify, items);
      && (!simplify || items == [] || !Field(Obj(items[0].json), "personalNames").Arr? ==> out == items)
      && (simplify && items != [] && Field(Obj(items[0].json), "personalNames").Arr? ==>
            var resp := Field(Obj(items[0].json), "personalNames").elems;
            && |out| == |resp|
            && forall j :: 0 <= j < |resp| ==>
                 var parts := Field(resp[j], "firstLastName");
                 && out[j].pairedItem == Some(0)
                 && out[j].json.Keys == {"name", "firstName", "lastName"}
                 && out[j].json["name"] == Field(resp[j], "name")
                 && out[j].json["firstName"] == (if Truthy(parts) then Field(parts, "firstName") else Undefined)
                 && out[j].json["lastName"] == (if Truthy(parts) then Field(parts, "lastName") else Undefined))
  {
  }

  /** An element without `firstLastName` still yields a record, with both name parts undefined. */
  lemma MissingFirstLastName(nd: Value)
    requires !Truthy(Field(nd, "firstLastName"))
    ensures Simplified(SplitFullNames, nd) ==
      map["name" := Field(nd, "name"), "firstName" := Undefined, "lastName" := Undefined]
  {
  }
}
