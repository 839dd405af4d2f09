/**
 * Gender by first and last name (gender/byName.ts) and by full name
 * (gender/byFullName.ts): the two builders that switch between the plain
 * and the geo endpoint for the whole batch.
 */
module Gender {
  import opened Wrappers
  import opened Json
  import opened Registry
  import opened Builder
  import opened Normalizer

  /**
   * By name: 1 to 200 raw rows succeed, whatever filtering keeps; the URL
   * is the geo endpoint exactly when some raw row, kept or not, has a
   * country code; the headers stay as they were.
   */
  lemma ByNameOutcome(raw: seq<NameInput>, current: Request)
    ensures var r := Prepare(GenderByName, raw, current);
      && (r.Success? <==> 1 <= |raw| <= 200)
      && (r.Success? ==>
            && r.value.url == (if CountryInBatch(raw) then "/api2/json/genderGeoBatch" else "/api2/json/genderBatch")
            && r.value.body == RequestBody(GenderByName, raw)
            && r.value.headers == current.headers)
  {
    TargetUrlChoice(GenderByName, raw, current.url);
    AnyCountryIff(raw);
  }

  /**
   * By name: rows without a first name are dropped, order kept; every entry
   * has its first name, its last name when non-empty, and its country code
   * only in geo mode and only when non-empty.
   */
  lemma ByNameEntries(raw: seq<NameInput>)
    ensures forall x :: x in Filter(GenderByName, raw) <==> x in raw && HasText(x.firstName)
    ensures |Entries(GenderByName, raw)| == |Filter(GenderByName, raw)|
    ensures forall i :: 0 <= i < |Entries(GenderByName, raw)| ==>
      && "firstName" in Entries(GenderByName, raw)[i]
      && SentAs(Entries(GenderByName, raw)[i], Filter(GenderByName, raw)[i],
                {"firstName", "lastName"} + (if CountryInBatch(raw) then {"countryIso2"} else {}))
  {
    SentEntries(GenderByName, raw);
  }

  /** By full name: as by name, with the full-name endpoints. */
  lemma ByFullNameOutcome(raw: seq<NameInput>, current: Request)
    ensures var r := Prepare(GenderByFullName, raw, current);
      && (r.Success? <==> 1 <= |raw| <= 200)
      && (r.Success? ==>
            && r.value.url == (if CountryInBatch(raw) then "/api2/json/genderFullGeoBatch" else "/api2/json/genderFullBatch")
            && r.value.body == RequestBody(GenderByFullName, raw)
            && r.value.headers == current.headers)
  {
    TargetUrlChoice(GenderByFullName, raw, current.url);
    AnyCountryIff(raw);
  }

  /**
   * By full name: rows without a full name are dropped; every entry has its
   * name, and its country code only in geo mode and only when non-empty.
   */
  lemma ByFullNameEntries(raw: seq<NameInput>)
    ensures forall x :: x in Filter(GenderByFullName, raw) <==> x in raw && HasText(x.name)
    ensures |Entries(GenderByFullName, raw)| == |Filter(GenderByFullName, raw)|
    ensures forall i :: 0 <= i < |Entries(GenderByFullName, raw)| ==>
      && "name" in Entries(GenderByFullName, raw)[i]
      && SentAs(Entries(GenderByFullName, raw)[i], Filter(GenderByFullName, raw)[i],
                {"name"} + (if CountryInBatch(raw) then {"countryIso2"} else {}))
  {
    SentEntries(GenderByFullName, raw);
    var es, kept := Entries(GenderByFullName, raw), Filter(GenderByFullName, raw);
    forall i | 0 <= i < |es| ensures "name" in es[i] {
      assert Keep(GenderByFullName, kept[i]);
      assert HasText(FieldOf(kept[i], "name"));
    }
  }

  /**
   * By name, simplified: the response is passed through unless simplifying a
   * `personalNames` array; then each element becomes exactly
   * {firstName, lastName, gender, probability}, in order.
   */
  lemma ByNameResponse(simplify: bool, items: seq<Item>)
    ensures var out := Normalised(GenderByName, simplify, items);
      && (!simplify || items == [] || !Field(Obj(items[0].json), "personalNames").Arr? ==> out == items)
      && (simplify && items != [] && Field(Obj(items[0].json), "personalNames").Arr? ==>
            var resp := Field(Obj(items[0].json), "personalNames").elems;
            && |out| == |resp|
            && forall j :: 0 <= j < |resp| ==>
                 && out[j].pairedItem == Some(0)
                 && out[j].json.Keys == {"firstName", "lastName", "gender", "probability"}
                 && out[j].json["firstName"] == Field(resp[j], "firstName")
                 && out[j].json["lastName"] == Field(resp[j], "lastName")
                 && out[j].json["gender"] == Field(resp[j], "likelyGender")
                 && out[j].json["probability"] == Field(resp[j], "probabilityCalibrated"))
  {
  }

  /** By full name, simplified: each element becomes exactly {name, gender, probability}. */
  lemma ByFullNameResponse(simplify: bool, items: seq<Item>)
    ensures var out := Normalised(GenderByFullName, simplify, items);
      && (!simplify || items == [] || !Field(Obj(items[0].json), "personalNames").Arr? ==> out == items)
      && (simplify && items != [] && Field(Obj(items[0].json), "personalNames").Arr? ==>
            var resp := Field(Obj(items[0].json), "personalNames").elems;
            && |out| == |resp|
            && forall j :: 0 <= j < |resp| ==>
                 && out[j].pairedItem == Some(0)
                 && out[j].json.Keys == {"name", "gender", "probability"}
                 && out[j].json["name"] == Field(resp[j], "name")
                 && out[j].json["gender"] == Field(resp[j], "likelyGender")
                 && out[j].json["probability"] == Field(resp[j], "probabilityCalibrated"))
  {
  }

  /**
   * A mixed batch, one row with a country code and one without: both go to
   * the geo endpoint, and only the first entry carries `countryIso2`.
   */
  lemma MixedBatch(current: Request)
    ensures var raw := [NameInput(Some("John"), Some("Smith"), None, Some("US"), None),
                        NameInput(Some("Maria"), None, None, None, None)];
      var r := Prepare(GenderByName, raw, current);
      && r.Success?
      && r.value.url == "/api2/json/genderGeoBatch"
      && Entries(GenderByName, raw) ==
           [map["firstName" := "John", "lastName" := "Smith", "countryIso2" := "US"],
            map["firstName" := "Maria"]]
  {
    var raw := [NameInput(Some("John"), Some("Smith"), None, Some("US"), None),
                NameInput(Some("Maria"), None, None, None, None)];
    assert AnyCountry(raw);
    assert Filter(GenderByName, raw) == raw by {
      assert raw[1..][1..] == [];
    }
  }

  /**
   * One row, John Smith, without a country code: the body lists his two
   * names and goes to the plain endpoint.
   */
  lemma JohnSmithRequest(headers: map<string, string>)
    ensures var raw := [NameInput(Some("John"), Some("Smith"), None, None, None)];
      Prepare(GenderByName, raw, Request(Route(GenderByName), Undefined, headers)) ==
        Success(Request("/api2/json/genderBatch",
          Obj(map["personalNames" := Arr([Obj(map["firstName" := Str("John"), "lastName" := Str("Smith")])])]),
          headers))
  {
    var raw := [NameInput(Some("John"), Some("Smith"), None, None, None)];
    var e := map["firstName" := "John", "lastName" := "Smith"];
    assert !AnyCountry(raw);
    assert Filter(GenderByName, raw) == raw;
    assert Entries(GenderByName, raw) == [e];
    assert EntryValue(e) == Obj(map["firstName" := Str("John"), "lastName" := Str("Smith")]);
    var es := Entries(GenderByName, raw);
    assert seq(|es|, i requires 0 <= i < |es| => EntryValue(es[i])) == [EntryValue(e)];
  }

  /** The reply for John Smith simplifies to one record with his gender and probability. */
  lemma JohnSmithReply()
    ensures var reply := Obj(map["firstName" := Str("John"), "lastName" := Str("Smith"),
                                 "likelyGender" := Str("male"), "probabilityCalibrated" := Num(0.98)]);
      Normalised(GenderByName, true, [Item(map["personalNames" := Arr([reply])], None)]) ==
        [Item(map["firstName" := Str("John"), "lastName" := Str("Smith"),
                  "gender" := Str("male"), "probability" := Num(0.98)], Some(0))]
  {
  }
}
