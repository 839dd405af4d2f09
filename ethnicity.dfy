/**
 * Ethnicity (diaspora) by first and last name (ethnicity/byName.ts): the
 * last name is required, and every ranked ethnicity becomes a field.
 */
module Ethnicity {
  import opened Wrappers
  import opened Json
  import opened Registry
  import opened Builder
  import opened Normalizer

  /**
   * Any batch of 1 to 200 rows succeeds, under the routed URL and headers,
   * with its entries under `personalNames` and nothing else.
   */
  lemma ByNameOutcome(raw: seq<NameInput>, current: Request)
    ensures var r := Prepare(EthnicityByName, raw, current);
      && (r.Success? <==> 1 <= |raw| <= 200)
      && (r.Success? ==>
            && r.value.url == current.url
            && r.value.headers == current.headers
            && r.value.body == RequestBody(EthnicityByName, raw)
            && r.value.body.fields.Keys == {"personalNames"})
  {
  }

  /**
   * Rows without a last name are dropped; each entry has the last name, and
   * the first name and country code exactly when non-empty.
   */
  lemma ByNameEntries(raw: seq<NameInput>)
    ensures forall x :: x in Filter(EthnicityByName, raw) <==> x in raw && HasText(x.lastName)
    ensures |Entries(EthnicityByName, raw)| == |Filter(EthnicityByName, raw)|
    ensures forall i :: 0 <= i < |Entries(EthnicityByName, raw)| ==>
      && "lastName" in Entries(EthnicityByName, raw)[i]
      && SentAs(Entries(EthnicityByName, raw)[i], Filter(EthnicityByName, raw)[i],
                {"firstName", "lastName", "countryIso2"})
  {
    SentEntries(EthnicityByName, raw);
    var es, kept := Entries(EthnicityByName, raw), Filter(EthnicityByName, raw);
    forall i | 0 <= i < |es| ensures "lastName" in es[i] {
      assert Keep(EthnicityByName, kept[i]);
      assert HasText(FieldOf(kept[i], "lastName"));
    }
  }

  /** The normalizer reads `personalNames` and maps it element by element. */
  lemma Response(simplify: bool, items: seq<Item>)
    ensures var out := Normalised(EthnicityByName, simplify, items);
      && (!simplify || items == [] || !Field(Obj(items[0].json), "personalNames").Arr? ==> out == items)
      && (simplify && items != [] && Field(Obj(items[0].json), "personalNames").Arr? ==>
            var resp := Field(Obj(items[0].json), "personalNames").elems;
            && |out| == |resp|
            && forall j :: 0 <= j < |resp| ==> out[j] == Item(Simplified(EthnicityByName, resp[j]), Some(0)))
  {
  }

  /** None of them is a numbered ethnicity field. */
  lemma FixedPartClear(nd: Value)
    ensures Simplified(EthnicityByName, nd) ==
      FixedPart(EthnicityByName, nd) + RankedFields("ethnicity", TopOf(nd, "ethnicitiesTop"), 0, |TopOf(nd, "ethnicitiesTop")|, false)
    ensures forall k :: k in FixedPart(EthnicityByName, nd) ==> ClearOfRanks("ethnicity", 0, k)
  {
  }

  /**
   * Every ranked ethnicity has its field, with no cap: index 0 is
   * `ethnicity`, index i is `ethnicity{i+1}`, and there is no `ethnicity1`.
   */
  lemma Ethnicities(nd: Value)
    ensures var r := Simplified(EthnicityByName, nd); var top := TopOf(nd, "ethnicitiesTop");
      && (forall i: nat :: SuffixedKey("ethnicity", i) in r <==> i < |top|)
      && (forall i: nat :: i < |top| ==> r[SuffixedKey("ethnicity", i)] == top[i])
      && "ethnicity1" !in r
  {
    var top := TopOf(nd, "ethnicitiesTop");
    FixedPartClear(nd);
    assert Simplified(EthnicityByName, nd) == FixedPart(EthnicityByName, nd) + RankedFields("ethnicity", top, 0, |top|, false) + map[];
    RanksAmongFixed(FixedPart(EthnicityByName, nd), "ethnicity", top, 0, |top|, false, map[]);
    NoRankOneField("ethnicity", top, 0, |top|, false);
    assert "ethnicity1" == "ethnicity" + "1";
  }

  /**
   * One record holds exactly first name, last name and probability plus one
   * field per ranked ethnicity.
   */
  lemma ByNameRecordKeys(nd: Value)
    ensures var r := Simplified(EthnicityByName, nd); var top := TopOf(nd, "ethnicitiesTop");
      forall k :: k in r <==>
        || k in {"firstName", "lastName", "probability"}
        || exists i: nat :: i < |top| && k == SuffixedKey("ethnicity", i)
  {
    var top := TopOf(nd, "ethnicitiesTop");
    FixedPartClear(nd);
    RankedFieldsKeys("ethnicity", top, 0, |top|, false);
    forall k
      ensures k in Simplified(EthnicityByName, nd) <==>
        || k in {"firstName", "lastName", "probability"}
        || exists i: nat :: i < |top| && k == SuffixedKey("ethnicity", i)
    {
      assert k in FixedPart(EthnicityByName, nd) <==> k in {"firstName", "lastName", "probability"};
    }
  }

  /** The fixed fields of one record hold the response's values. */
  lemma ByNameRecordValues(nd: Value)
    ensures var r := Simplified(EthnicityByName, nd);
      && "firstName" in r && r["firstName"] == Field(nd, "firstName")
      && "lastName" in r && r["lastName"] == Field(nd, "lastName")
      && "probability" in r && r["probability"] == Field(nd, "probabilityCalibrated")
  {
    var top := TopOf(nd, "ethnicitiesTop");
    var fixed := FixedPart(EthnicityByName, nd);
    FixedPartClear(nd);
    FixedFieldKept(fixed, "ethnicity", top, 0, |top|, false, "firstName");
    FixedFieldKept(fixed, "ethnicity", top, 0, |top|, false, "lastName");
    FixedFieldKept(fixed, "ethnicity", top, 0, |top|, false, "probability");
  }
}
