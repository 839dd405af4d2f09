/**
 * Country of origin by first and last name (country/byName.ts): either name
 * suffices, no country code is ever sent, every ranked country becomes a
 * field, and the region fields are copied when present.
 */
module Country {
  import opened Wrappers
  import opened Json
  import opened Registry
  import opened Builder
  import opened Normalizer

  /** Any batch of 1 to 200 rows succeeds, under the routed URL and headers. */
  lemma ByNameOutcome(raw: seq<NameInput>, current: Request)
    ensures var r := Prepare(CountryByName, raw, current);
      && (r.Success? <==> 1 <= |raw| <= 200)
      && (r.Success? ==>
            && r.value.url == current.url
            && r.value.headers == current.headers
            && r.value.body == RequestBody(CountryByName, raw))
  {
  }

  /**
   * Rows with a first or a last name are kept; each entry holds exactly the
   * non-empty ones of the two.
   */
  lemma ByNameEntries(raw: seq<NameInput>)
    ensures forall x :: x in Filter(CountryByName, raw) <==>
      x in raw && (HasText(x.firstName) || HasText(x.lastName))
    ensures |Entries(CountryByName, raw)| == |Filter(CountryByName, raw)|
    ensures forall i :: 0 <= i < |Entries(CountryByName, raw)| ==>
      SentAs(Entries(CountryByName, raw)[i], Filter(CountryByName, raw)[i], {"firstName", "lastName"})
  {
    SentEntries(CountryByName, raw);
  }

  /** Unlike the other operations on first and last names, no entry ever carries a country code. */
  lemma NoCountryCode(raw: seq<NameInput>)
    ensures forall i :: 0 <= i < |Entries(CountryByName, raw)| ==> "countryIso2" !in Entries(CountryByName, raw)[i]
  {
    SentEntries(CountryByName, raw);
    var es, kept := Entries(CountryByName, raw), Filter(CountryByName, raw);
    forall i | 0 <= i < |es| ensures "countryIso2" !in es[i] {
      assert SentAs(es[i], kept[i], {"firstName", "lastName"});
    }
  }

  /** The normalizer reads `personalNames` and maps it element by element. */
  lemma Response(simplify: bool, items: seq<Item>)
    ensures var out := Normalised(CountryByName, simplify, items);
      && (!simplify || items == [] || !Field(Obj(items[0].json), "personalNames").Arr? ==> out == items)
      && (simplify && items != [] && Field(Obj(items[0].json), "personalNames").Arr? ==>
            var resp := Field(Obj(items[0].json), "personalNames").elems;
            && |out| == |resp|
            && forall j :: 0 <= j < |resp| ==> out[j] == Item(Simplified(CountryByName, resp[j]), Some(0)))
  {
  }

  /** One record is the fixed fields, then the ranked countries, then the regions. */
  lemma Parts(nd: Value)
    ensures Simplified(CountryByName, nd) ==
      FixedPart(CountryByName, nd) + RankedFields("country", TopOf(nd, "countriesTop"), 0, |TopOf(nd, "countriesTop")|, false) + Regions(nd)
  {
  }

  /** None of the fixed fields or regions is a numbered country field. */
  lemma PartsClear(nd: Value)
    ensures forall k :: k in FixedPart(CountryByName, nd) ==> ClearOfRanks("country", 0, k)
    ensures forall k :: k in Regions(nd) ==> ClearOfRanks("country", 0, k)
  {
  }

  /**
   * Every ranked country has its field, with no cap: index 0 is `country`,
   * index i is `country{i+1}`, and there is no `country1`.
   */
  lemma Countries(nd: Value)
    ensures var r := Simplified(CountryByName, nd); var top := TopOf(nd, "countriesTop");
      && (forall i: nat :: SuffixedKey("country", i) in r <==> i < |top|)
      && (forall i: nat :: i < |top| ==> r[SuffixedKey("country", i)] == top[i])
      && "country1" !in r
  {
    var top := TopOf(nd, "countriesTop");
    Parts(nd);
    PartsClear(nd);
    RanksAmongFixed(FixedPart(CountryByName, nd), "country", top, 0, |top|, false, Regions(nd));
    NoRankOneField("country", top, 0, |top|, false);
    assert "country1" == "country" + "1";
  }

  /**
   * The keys of one record: first name, last name and probability, one
   * field per ranked country, and `region` and `subRegion` exactly when
   * truthy in the response.
   */
  lemma ByNameRecordKeys(nd: Value)
    ensures var r := Simplified(CountryByName, nd); var top := TopOf(nd, "countriesTop");
      forall k :: k in r <==>
        || k in {"firstName", "lastName", "probability"}
        || (k == "region" && Truthy(Field(nd, "region")))
        || (k == "subRegion" && Truthy(Field(nd, "subRegion")))
        || exists i: nat :: i < |top| && k == SuffixedKey("country", i)
  {
    var top := TopOf(nd, "countriesTop");
    var fixed := FixedPart(CountryByName, nd);
    var ranked := RankedFields("country", top, 0, |top|, false);
    Parts(nd);
    RankedFieldsKeys("country", top, 0, |top|, false);
    RegionsKeys(nd);
    forall k
      ensures k in Simplified(CountryByName, nd) <==>
        || k in {"firstName", "lastName", "probability"}
        || (k == "region" && Truthy(Field(nd, "region")))
        || (k == "subRegion" && Truthy(Field(nd, "subRegion")))
        || exists i: nat :: i < |top| && k == SuffixedKey("country", i)
    {
      assert k in Simplified(CountryByName, nd) <==> k in fixed || k in ranked || k in Regions(nd);
      assert k in fixed <==> k in {"firstName", "lastName", "probability"};
    }
  }

  /** The fixed fields of one record hold the response's values. */
  lemma ByNameRecordValues(nd: Value)
    ensures var r := Simplified(CountryByName, nd);
      && "firstName" in r && r["firstName"] == Field(nd, "firstName")
      && "lastName" in r && r["lastName"] == Field(nd, "lastName")
      && "probability" in r && r["probability"] == Field(nd, "probabilityCalibrated")
  {
    var top := TopOf(nd, "countriesTop");
    var fixed := FixedPart(CountryByName, nd);
    var early := fixed + RankedFields("country", top, 0, |top|, false);
    Parts(nd);
    assert Simplified(CountryByName, nd) == early + Regions(nd);
    RegionsKeys(nd);
    FixedFieldKept(fixed, "country", top, 0, |top|, false, "firstName");
    FixedFieldKept(fixed, "country", top, 0, |top|, false, "lastName");
    FixedFieldKept(fixed, "country", top, 0, |top|, false, "probability");
  }

  /** The region part holds `region` and `subRegion` exactly when they are truthy. */
  lemma RegionsKeys(nd: Value)
    ensures forall k :: k in Regions(nd) <==>
      (k == "region" && Truthy(Field(nd, "region"))) || (k == "subRegion" && Truthy(Field(nd, "subRegion")))
  {
  }

  /** `region` and `subRegion` appear exactly when truthy in the response, with its values. */
  lemma RegionFields(nd: Value)
    ensures var r := Simplified(CountryByName, nd);
      && ("region" in r <==> Truthy(Field(nd, "region")))
      && ("region" in r ==> r["region"] == Field(nd, "region"))
      && ("subRegion" in r <==> Truthy(Field(nd, "subRegion")))
      && ("subRegion" in r ==> r["subRegion"] == Field(nd, "subRegion"))
  {
    var top := TopOf(nd, "countriesTop");
    Parts(nd);
    assert "region" !in FixedPart(CountryByName, nd) && "subRegion" !in FixedPart(CountryByName, nd);
    ClearKeyAbsent("country", top, 0, |top|, false, "region");
    ClearKeyAbsent("country", top, 0, |top|, false, "subRegion");
  }

  /**
   * The ranked countries FR, DE, IT become `country`, `country2` and
   * `country3`; there is no `country1` and no `country4`.
   */
  lemma ThreeCountries(nd: Value)
    requires TopOf(nd, "countriesTop") == [Str("FR"), Str("DE"), Str("IT")]
    ensures var r := Simplified(CountryByName, nd);
      && "country" in r && r["country"] == Str("FR")
      && "country2" in r && r["country2"] == Str("DE")
      && "country3" in r && r["country3"] == Str("IT")
      && "country1" !in r
      && "country4" !in r
  {
    Countries(nd);
    assert SuffixedKey("country", 0) == "country";
    assert SuffixedKey("country", 1) == "country2";
    assert SuffixedKey("country", 2) == "country3";
    assert SuffixedKey("country", 3) == "country4";
  }
}
