/**
 * Proper noun type (nameType/properNounType.ts): the one operation whose
 * body and response list live under `properNouns` instead of `personalNames`.
 */
module NameType {
  import opened Wrappers
  import opened Json
  import opened Registry
  import opened Builder
  import opened Normalizer

  /** An empty batch fails with the message asking for a proper noun. */
  lemma EmptyBatchError(raw: seq<NameInput>, current: Request)
    requires |raw| == 0
    ensures Prepare(ProperNounType, raw, current) == Failure(EmptyBatch(ProperNounsEmpty))
  {
  }

  /** A batch of more than 200 rows fails with the message counting items. */
  lemma TooLargeError(raw: seq<NameInput>, current: Request)
    requires |raw| > 200
    ensures Prepare(ProperNounType, raw, current) == Failure(BatchTooLarge(ProperNounsTooMany))
  {
  }

  /**
   * A batch of 1 to 200 rows succeeds; the URL is the geo endpoint exactly
   * when some raw row, kept or not, has a country code.
   */
  lemma ProperNounsOutcome(raw: seq<NameInput>, current: Request)
    ensures var r := Prepare(ProperNounType, raw, current);
      && (r.Success? <==> 1 <= |raw| <= 200)
      && (r.Success? ==>
            && r.value.url == (if CountryInBatch(raw) then "/api2/json/nameTypeGeoBatch" else "/api2/json/nameTypeBatch")
            && r.value.headers == current.headers
            && r.value.body == RequestBody(ProperNounType, raw))
  {
    TargetUrlChoice(ProperNounType, raw, current.url);
    AnyCountryIff(raw);
  }

  /**
   * Rows without a name are dropped; each entry has its name when
   * non-empty and, in geo mode only, its non-empty country code.
   */
  lemma ProperNounsEntries(raw: seq<NameInput>)
    ensures forall x :: x in Filter(ProperNounType, raw) <==> x in raw && HasText(x.name)
    ensures |Entries(ProperNounType, raw)| == |Filter(ProperNounType, raw)|
    ensures forall i :: 0 <= i < |Entries(ProperNounType, raw)| ==>
      SentAs(Entries(ProperNounType, raw)[i], Filter(ProperNounType, raw)[i],
             {"name"} + (if CountryInBatch(raw) then {"countryIso2"} else {}))
  {
    SentEntries(ProperNounType, raw);
  }

  /** The body's only key is `properNouns`, holding one entry per kept row. */
  lemma BodyKey(raw: seq<NameInput>)
    ensures var body := RequestBody(ProperNounType, raw);
      && body.fields.Keys == {"properNouns"}
      && "personalNames" !in body.fields
      && body.fields["properNouns"].Arr?
      && |body.fields["properNouns"].elems| == |Filter(ProperNounType, raw)|
  {
  }

  /** Every entry sent has the row's name. */
  lemma EntriesNamed(raw: seq<NameInput>)
    ensures forall i :: 0 <= i < |Entries(ProperNounType, raw)| ==> "name" in Entries(ProperNounType, raw)[i]
  {
    SentEntries(ProperNounType, raw);
    var es, kept := Entries(ProperNounType, raw), Filter(ProperNounType, raw);
    forall i | 0 <= i < |es| ensures "name" in es[i] {
      assert Keep(ProperNounType, kept[i]);
      assert HasText(FieldOf(kept[i], "name"));
    }
  }

  /**
   * The normalizer reads `properNouns`: without it (or without an array
   * there) the items pass through; otherwise each element becomes exactly
   * {name, commonType, commonTypeAlt}, in order.
   */
  lemma ProperNounsResponse(simplify: bool, items: seq<Item>)
    ensures var out := Normalised(ProperNounType, simplify, items);
      && (!simplify || items == [] || !Field(Obj(items[0].json), "properNouns").Arr? ==> out == items)
      && (simplify && items != [] && Field(Obj(items[0].json), "properNouns").Arr? ==>
            var resp := Field(Obj(items[0].json), "properNouns").elems;
            && |out| == |resp|
            && forall j :: 0 <= j < |resp| ==>
                 && out[j].pairedItem == Some(0)
                 && out[j].json.Keys == {"name", "commonType", "commonTypeAlt"}
                 && out[j].json["name"] == Field(resp[j], "name")
                 && out[j].json["commonType"] == Field(resp[j], "commonType")
                 && out[j].json["commonTypeAlt"] == Field(resp[j], "commonTypeAlt"))
  {
  }

  /** A response holding only a `personalNames` list is passed through untouched. */
  lemma PersonalNamesIgnored(items: seq<Item>)
    requires items != [] && "properNouns" !in items[0].json
    ensures Normalised(ProperNounType, true, items) == items
  {
  }
}
