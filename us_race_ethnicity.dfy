/**
 * US race/ethnicity by first and last name (usRaceEthnicity/byName.ts) and
 * by full name (usRaceEthnicity/byFullName.ts): fixed endpoints, the
 * six-class taxonomy header, and up to six ranked classes per record.
 */
module UsRaceEthnicity {
  import opened Wrappers
  import opened Json
  import opened Registry
  import opened Builder
  import opened Normalizer

  /**
   * By name: any batch of 1 to 200 rows succeeds, even one filtering leaves
   * empty; the routed URL is kept and the taxonomy header joins the
   * existing headers.
   */
  lemma ByNameOutcome(raw: seq<NameInput>, current: Request)
    ensures var r := Prepare(RaceByName, raw, current);
      && (r.Success? <==> 1 <= |raw| <= 200)
      && (r.Success? ==>
            && r.value.url == current.url
            && r.value.body == RequestBody(RaceByName, raw)
            && r.value.headers == current.headers["X-OPTION-USRACEETHNICITY-TAXONOMY" := "USRACEETHNICITY-6CLASSES"])
  {
  }

  /**
   * By name: rows with a first or a last name are kept, order kept, and each
   * entry carries exactly the non-empty ones of first name, last name and
   * country code.
   */
  lemma ByNameEntries(raw: seq<NameInput>)
    ensures forall x :: x in Filter(RaceByName, raw) <==>
      x in raw && (HasText(x.firstName) || HasText(x.lastName))
    ensures |Entries(RaceByName, raw)| == |Filter(RaceByName, raw)|
    ensures forall i :: 0 <= i < |Entries(RaceByName, raw)| ==>
      SentAs(Entries(RaceByName, raw)[i], Filter(RaceByName, raw)[i], {"firstName", "lastName", "countryIso2"})
  {
    SentEntries(RaceByName, raw);
  }

  /** By name, the size errors carry the messages about names. */
  lemma ByNameSizeErrors(raw: seq<NameInput>, current: Request)
    ensures |raw| == 0 ==> Prepare(RaceByName, raw, current) == Failure(EmptyBatch(NamesEmpty))
    ensures |raw| > 200 ==> Prepare(RaceByName, raw, current) == Failure(BatchTooLarge(NamesTooMany))
  {
  }

  /** By name, a batch of 1 to 200 rows none of which has a name is still sent, with an empty list. */
  lemma ByNameNoneKept(raw: seq<NameInput>, current: Request)
    requires 1 <= |raw| <= 200
    requires forall i :: 0 <= i < |raw| ==> !HasText(raw[i].firstName) && !HasText(raw[i].lastName)
    ensures Prepare(RaceByName, raw, current).Success?
    ensures Prepare(RaceByName, raw, current).value.body == Obj(map["personalNames" := Arr([])])
  {
    FilterEmptyIff(RaceByName, raw);
    var es := Entries(RaceByName, raw);
    assert es == [];
    assert seq(|es|, i requires 0 <= i < |es| => EntryValue(es[i])) == [];
  }

  /**
   * By full name: as by name, 1 to 200 rows succeed with no endpoint switch,
   * and the taxonomy header is added.
   */
  lemma ByFullNameOutcome(raw: seq<NameInput>, current: Request)
    ensures var r := Prepare(RaceByFullName, raw, current);
      && (r.Success? <==> 1 <= |raw| <= 200)
      && (r.Success? ==>
            && r.value.url == current.url
            && r.value.body == RequestBody(RaceByFullName, raw)
            && r.value.headers == current.headers["X-OPTION-USRACEETHNICITY-TAXONOMY" := "USRACEETHNICITY-6CLASSES"])
  {
  }

  /**
   * By full name: rows with a full name are kept, each entry carrying the
   * name, and the country code exactly when non-empty, in either mode.
   */
  lemma ByFullNameEntries(raw: seq<NameInput>)
    ensures forall x :: x in Filter(RaceByFullName, raw) <==> x in raw && HasText(x.name)
    ensures |Entries(RaceByFullName, raw)| == |Filter(RaceByFullName, raw)|
    ensures forall i :: 0 <= i < |Entries(RaceByFullName, raw)| ==>
      && "name" in Entries(RaceByFullName, raw)[i]
      && SentAs(Entries(RaceByFullName, raw)[i], Filter(RaceByFullName, raw)[i], {"name", "countryIso2"})
  {
    SentEntries(RaceByFullName, raw);
    var es, kept := Entries(RaceByFullName, raw), Filter(RaceByFullName, raw);
    forall i | 0 <= i < |es| ensures "name" in es[i] {
      assert Keep(RaceByFullName, kept[i]);
      assert HasText(FieldOf(kept[i], "name"));
    }
  }

  /** Both normalizers read `personalNames` and map it element by element. */
  lemma Response(op: Operation, simplify: bool, items: seq<Item>)
    requires op == RaceByName || op == RaceByFullName
    ensures var out := Normalised(op, simplify, items);
      && (!simplify || items == [] || !Field(Obj(items[0].json), "personalNames").Arr? ==> out == items)
      && (simplify && items != [] && Field(Obj(items[0].json), "personalNames").Arr? ==>
            var resp := Field(Obj(items[0].json), "personalNames").elems;
            && |out| == |resp|
            && forall j :: 0 <= j < |resp| ==> out[j] == Item(Simplified(op, resp[j]), Some(0)))
  {
  }

  /** None of them is one of the numbered fields from rank 1 on. */
  lemma FixedPartClear(op: Operation, nd: Value)
    requires op == RaceByName || op == RaceByFullName
    ensures Simplified(op, nd) == FixedPart(op, nd) + RankedFields("ethnicity", TopOf(nd, "raceEthnicitiesTop"), 1, 6, true)
    ensures forall k :: k in FixedPart(op, nd) ==> ClearOfRanks("ethnicity", 1, k)
  {
  }

  /**
   * The primary class of one record: `ethnicity` is `raceEthnicity` when
   * truthy and the first ranked class otherwise.
   */
  lemma PrimaryClass(op: Operation, nd: Value)
    requires op == RaceByName || op == RaceByFullName
    ensures var r := Simplified(op, nd);
      && "ethnicity" in r
      && r["ethnicity"] == (if Truthy(Field(nd, "raceEthnicity")) then Field(nd, "raceEthnicity")
                            else At(TopOf(nd, "raceEthnicitiesTop"), 0))
  {
    FixedPartClear(op, nd);
    FixedFieldKept(FixedPart(op, nd), "ethnicity", TopOf(nd, "raceEthnicitiesTop"), 1, 6, true, "ethnicity");
  }

  /** There is no `ethnicity1`: the class after `ethnicity` is `ethnicity2`. */
  lemma NoClassOne(op: Operation, nd: Value)
    requires op == RaceByName || op == RaceByFullName
    ensures "ethnicity1" !in Simplified(op, nd)
  {
    FixedPartClear(op, nd);
    NoRankOneField("ethnicity", TopOf(nd, "raceEthnicitiesTop"), 1, 6, true);
    assert "ethnicity1" == "ethnicity" + "1";
  }

  /**
   * The further classes of one record: `ethnicity2` to `ethnicity6` hold the
   * truthy ranked classes at indices 1 to 5, and no rank beyond appears.
   */
  lemma FurtherClasses(op: Operation, nd: Value)
    requires op == RaceByName || op == RaceByFullName
    ensures var r := Simplified(op, nd); var top := TopOf(nd, "raceEthnicitiesTop");
      && (forall i: nat :: i >= 1 ==> (SuffixedKey("ethnicity", i) in r <==> i < 6 && i < |top| && Truthy(top[i])))
      && (forall i: nat :: 1 <= i < 6 && i < |top| && Truthy(top[i]) ==> r[SuffixedKey("ethnicity", i)] == top[i])
  {
    FixedPartClear(op, nd);
    var top := TopOf(nd, "raceEthnicitiesTop");
    assert Simplified(op, nd) == FixedPart(op, nd) + RankedFields("ethnicity", top, 1, 6, true) + map[];
    RanksAmongFixed(FixedPart(op, nd), "ethnicity", top, 1, 6, true, map[]);
  }

  /**
   * By name, the keys of one record: first name, last name, probability and
   * ethnicity always, the country code when truthy, and the ranked classes.
   */
  lemma ByNameRecordKeys(nd: Value)
    ensures var r := Simplified(RaceByName, nd); var top := TopOf(nd, "raceEthnicitiesTop");
      forall k :: k in r <==>
        || k in {"firstName", "lastName", "probability", "ethnicity"}
        || (k == "countryIso2" && Truthy(Field(nd, "countryIso2")))
        || exists i: nat :: 1 <= i < 6 && i < |top| && Truthy(top[i]) && k == SuffixedKey("ethnicity", i)
  {
    var top := TopOf(nd, "raceEthnicitiesTop");
    FixedPartClear(RaceByName, nd);
    RankedFieldsKeys("ethnicity", top, 1, 6, true);
    forall k
      ensures k in Simplified(RaceByName, nd) <==>
        || k in {"firstName", "lastName", "probability", "ethnicity"}
        || (k == "countryIso2" && Truthy(Field(nd, "countryIso2")))
        || exists i: nat :: 1 <= i < 6 && i < |top| && Truthy(top[i]) && k == SuffixedKey("ethnicity", i)
    {
      assert k in FixedPart(RaceByName, nd) <==>
        k in {"firstName", "lastName", "probability", "ethnicity"} || (k == "countryIso2" && Truthy(Field(nd, "countryIso2")));
    }
  }

  /** By name, the fixed fields hold the response's values. */
  lemma ByNameRecordValues(nd: Value)
    ensures var r := Simplified(RaceByName, nd);
      && "firstName" in r && r["firstName"] == Field(nd, "firstName")
      && "lastName" in r && r["lastName"] == Field(nd, "lastName")
      && "probability" in r && r["probability"] == Field(nd, "probabilityCalibrated")
      && ("countryIso2" in r <==> Truthy(Field(nd, "countryIso2")))
      && ("countryIso2" in r ==> r["countryIso2"] == Field(nd, "countryIso2"))
  {
    var top := TopOf(nd, "raceEthnicitiesTop");
    var fixed := FixedPart(RaceByName, nd);
    FixedPartClear(RaceByName, nd);
    FixedFieldKept(fixed, "ethnicity", top, 1, 6, true, "firstName");
    FixedFieldKept(fixed, "ethnicity", top, 1, 6, true, "lastName");
    FixedFieldKept(fixed, "ethnicity", top, 1, 6, true, "probability");
    if Truthy(Field(nd, "countryIso2")) {
      FixedFieldKept(fixed, "ethnicity", top, 1, 6, true, "countryIso2");
    } else {
      ClearKeyAbsent("ethnicity", top, 1, 6, true, "countryIso2");
    }
  }

  /**
   * By full name, the keys of one record: as by name, with the full name in
   * place of the two names.
   */
  lemma ByFullNameRecordKeys(nd: Value)
    ensures var r := Simplified(RaceByFullName, nd); var top := TopOf(nd, "raceEthnicitiesTop");
      forall k :: k in r <==>
        || k in {"name", "probability", "ethnicity"}
        || (k == "countryIso2" && Truthy(Field(nd, "countryIso2")))
        || exists i: nat :: 1 <= i < 6 && i < |top| && Truthy(top[i]) && k == SuffixedKey("ethnicity", i)
  {
    var top := TopOf(nd, "raceEthnicitiesTop");
    FixedPartClear(RaceByFullName, nd);
    RankedFieldsKeys("ethnicity", top, 1, 6, true);
    forall k
      ensures k in Simplified(RaceByFullName, nd) <==>
        || k in {"name", "probability", "ethnicity"}
        || (k == "countryIso2" && Truthy(Field(nd, "countryIso2")))
        || exists i: nat :: 1 <= i < 6 && i < |top| && Truthy(top[i]) && k == SuffixedKey("ethnicity", i)
    {
      assert k in FixedPart(RaceByFullName, nd) <==>
        k in {"name", "probability", "ethnicity"} || (k == "countryIso2" && Truthy(Field(nd, "countryIso2")));
    }
  }

  /** By full name, the fixed fields hold the response's values. */
  lemma ByFullNameRecordValues(nd: Value)
    ensures var r := Simplified(RaceByFullName, nd);
      && "name" in r && r["name"] == Field(nd, "name")
      && "probability" in r && r["probability"] == Field(nd, "probabilityCalibrated")
      && ("countryIso2" in r <==> Truthy(Field(nd, "countryIso2")))
      && ("countryIso2" in r ==> r["countryIso2"] == Field(nd, "countryIso2"))
  {
    var top := TopOf(nd, "raceEthnicitiesTop");
    var fixed := FixedPart(RaceByFullName, nd);
    FixedPartClear(RaceByFullName, nd);
    FixedFieldKept(fixed, "ethnicity", top, 1, 6, true, "name");
    FixedFieldKept(fixed, "ethnicity", top, 1, 6, true, "probability");
    if Truthy(Field(nd, "countryIso2")) {
      FixedFieldKept(fixed, "ethnicity", top, 1, 6, true, "countryIso2");
    } else {
      ClearKeyAbsent("ethnicity", top, 1, 6, true, "countryIso2");
    }
  }

  /**
   * The cap: a truthy sixth ranked class becomes `ethnicity6`, and there is
   * never an `ethnicity7`, however many classes the response ranks.
   */
  lemma SixClassesAtMost(op: Operation, nd: Value)
    requires op == RaceByName || op == RaceByFullName
    ensures var r := Simplified(op, nd); var top := TopOf(nd, "raceEthnicitiesTop");
      && (|top| >= 6 && Truthy(top[5]) ==> "ethnicity6" in r && r["ethnicity6"] == top[5])
      && "ethnicity7" !in r
  {
    FurtherClasses(op, nd);
    assert SuffixedKey("ethnicity", 5) == "ethnicity6";
    assert SuffixedKey("ethnicity", 6) == "ethnicity7";
  }
}
