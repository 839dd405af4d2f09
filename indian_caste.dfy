/**
 * Indian caste group by first and last name (indianCaste/byName.ts) and by
 * full name (indianCaste/byFullName.ts): every entry needs all its fields,
 * a batch filtering leaves empty is refused, and up to five ranked groups
 * are kept per record.
 */
module IndianCaste {
  import opened Wrappers
  import opened Json
  import opened Registry
  import opened Builder
  import opened Normalizer

  /**
   * By name: a batch of 1 to 200 rows succeeds exactly when some row has a
   * first name, a last name and a subdivision; otherwise it fails with the
   * field-specific message. URL and headers stay as routed.
   */
  lemma ByNameOutcome(raw: seq<NameInput>, current: Request)
    ensures var r := Prepare(CasteByName, raw, current);
      && (r.Success? <==>
            && 1 <= |raw| <= 200
            && exists i :: 0 <= i < |raw| &&
                 HasText(raw[i].firstName) && HasText(raw[i].lastName) && HasText(raw[i].subdivisionIso))
      && (1 <= |raw| <= 200 && r.Failure? ==>
            r == Failure(MissingRequiredFields(CasteNamesMissing)))
      && (r.Success? ==>
            && r.value.url == current.url
            && r.value.body == RequestBody(CasteByName, raw)
            && r.value.headers == current.headers)
  {
    FilterEmptyIff(CasteByName, raw);
  }

  /**
   * By name: kept rows are those with all three fields, and each entry has
   * exactly the keys first name, last name and subdivision, with the row's text.
   */
  lemma ByNameEntries(raw: seq<NameInput>)
    ensures forall x :: x in Filter(CasteByName, raw) <==>
      x in raw && HasText(x.firstName) && HasText(x.lastName) && HasText(x.subdivisionIso)
    ensures |Entries(CasteByName, raw)| == |Filter(CasteByName, raw)|
    ensures forall i :: 0 <= i < |Entries(CasteByName, raw)| ==>
      && Entries(CasteByName, raw)[i].Keys == {"firstName", "lastName", "subdivisionIso"}
      && SentAs(Entries(CasteByName, raw)[i], Filter(CasteByName, raw)[i], {"firstName", "lastName", "subdivisionIso"})
  {
    SentEntries(CasteByName, raw);
    var es, kept := Entries(CasteByName, raw), Filter(CasteByName, raw);
    forall i | 0 <= i < |es| ensures es[i].Keys == {"firstName", "lastName", "subdivisionIso"} {
      assert Keep(CasteByName, kept[i]);
      assert HasText(FieldOf(kept[i], "firstName"));
      assert HasText(FieldOf(kept[i], "lastName"));
      assert HasText(FieldOf(kept[i], "subdivisionIso"));
    }
  }

  /**
   * By full name: a batch of 1 to 200 rows succeeds exactly when some row
   * has a full name and a subdivision; otherwise it fails with the
   * field-specific message.
   */
  lemma ByFullNameOutcome(raw: seq<NameInput>, current: Request)
    ensures var r := Prepare(CasteByFullName, raw, current);
      && (r.Success? <==>
            && 1 <= |raw| <= 200
            && exists i :: 0 <= i < |raw| && HasText(raw[i].name) && HasText(raw[i].subdivisionIso))
      && (1 <= |raw| <= 200 && r.Failure? ==>
            r == Failure(MissingRequiredFields(CasteFullNameMissing)))
      && (r.Success? ==>
            && r.value.url == current.url
            && r.value.body == RequestBody(CasteByFullName, raw)
            && r.value.headers == current.headers)
  {
    FilterEmptyIff(CasteByFullName, raw);
  }

  /** By full name: kept rows have both fields, and each entry has exactly those two keys. */
  lemma ByFullNameEntries(raw: seq<NameInput>)
    ensures forall x :: x in Filter(CasteByFullName, raw) <==>
      x in raw && HasText(x.name) && HasText(x.subdivisionIso)
    ensures |Entries(CasteByFullName, raw)| == |Filter(CasteByFullName, raw)|
    ensures forall i :: 0 <= i < |Entries(CasteByFullName, raw)| ==>
      && Entries(CasteByFullName, raw)[i].Keys == {"name", "subdivisionIso"}
      && SentAs(Entries(CasteByFullName, raw)[i], Filter(CasteByFullName, raw)[i], {"name", "subdivisionIso"})
  {
    SentEntries(CasteByFullName, raw);
    var es, kept := Entries(CasteByFullName, raw), Filter(CasteByFullName, raw);
    forall i | 0 <= i < |es| ensures es[i].Keys == {"name", "subdivisionIso"} {
      assert Keep(CasteByFullName, kept[i]);
      assert HasText(FieldOf(kept[i], "name"));
      assert HasText(FieldOf(kept[i], "subdivisionIso"));
    }
  }

  /** Both normalizers read `personalNames` and map it element by element. */
  lemma Response(op: Operation, simplify: bool, items: seq<Item>)
    requires op == CasteByName || op == CasteByFullName
    ensures var out := Normalised(op, simplify, items);
      && (!simplify || items == [] || !Field(Obj(items[0].json), "personalNames").Arr? ==> out == items)
      && (simplify && items != [] && Field(Obj(items[0].json), "personalNames").Arr? ==>
            var resp := Field(Obj(items[0].json), "personalNames").elems;
            && |out| == |resp|
            && forall j :: 0 <= j < |resp| ==> out[j] == Item(Simplified(op, resp[j]), Some(0)))
  {
  }

  /** None of them is one of the numbered fields from rank 1 on. */
  lemma FixedPartClear(op: Operation, nd: Value)
    requires op == CasteByName || op == CasteByFullName
    ensures Simplified(op, nd) == FixedPart(op, nd) + RankedFields("castegroup", TopOf(nd, "castegroupTop"), 1, 5, true)
    ensures forall k :: k in FixedPart(op, nd) ==> ClearOfRanks("castegroup", 1, k)
  {
  }

  /**
   * The primary group of one record is the response's `castegroup`, with no
   * fallback to the first ranked group, and no `castegroup1` appears.
   */
  lemma PrimaryGroup(op: Operation, nd: Value)
    requires op == CasteByName || op == CasteByFullName
    ensures var r := Simplified(op, nd);
      && "castegroup" in r && r["castegroup"] == Field(nd, "castegroup")
      && "castegroup1" !in r
  {
    var top := TopOf(nd, "castegroupTop");
    FixedPartClear(op, nd);
    FixedFieldKept(FixedPart(op, nd), "castegroup", top, 1, 5, true, "castegroup");
    NoRankOneField("castegroup", top, 1, 5, true);
    assert "castegroup1" == "castegroup" + "1";
  }

  /**
   * The further groups of one record: `castegroup2` to `castegroup5` hold the
   * truthy ranked groups at indices 1 to 4; index 0 and indices from 5 on
   * are ignored.
   */
  lemma FurtherGroups(op: Operation, nd: Value)
    requires op == CasteByName || op == CasteByFullName
    ensures var r := Simplified(op, nd); var top := TopOf(nd, "castegroupTop");
      && (forall i: nat :: i >= 1 ==> (SuffixedKey("castegroup", i) in r <==> i < 5 && i < |top| && Truthy(top[i])))
      && (forall i: nat :: 1 <= i < 5 && i < |top| && Truthy(top[i]) ==> r[SuffixedKey("castegroup", i)] == top[i])
  {
    FixedPartClear(op, nd);
    var top := TopOf(nd, "castegroupTop");
    assert Simplified(op, nd) == FixedPart(op, nd) + RankedFields("castegroup", top, 1, 5, true) + map[];
    RanksAmongFixed(FixedPart(op, nd), "castegroup", top, 1, 5, true, map[]);
  }

  /**
   * The cap: a truthy fifth ranked group becomes `castegroup5`, and there is
   * never a `castegroup6`, however many groups the response ranks.
   */
  lemma FiveGroupsAtMost(op: Operation, nd: Value)
    requires op == CasteByName || op == CasteByFullName
    ensures var r := Simplified(op, nd); var top := TopOf(nd, "castegroupTop");
      && (|top| >= 5 && Truthy(top[4]) ==> "castegroup5" in r && r["castegroup5"] == top[4])
      && "castegroup6" !in r
  {
    FurtherGroups(op, nd);
    assert SuffixedKey("castegroup", 4) == "castegroup5";
    assert SuffixedKey("castegroup", 5) == "castegroup6";
  }

  /**
   * By name, the keys of one record: the fixed fields, plus one field per
   * truthy ranked group from the second to the fifth.
   */
  lemma ByNameRecordKeys(nd: Value)
    ensures var r := Simplified(CasteByName, nd); var top := TopOf(nd, "castegroupTop");
      forall k :: k in r <==>
        || k in {"firstName", "lastName", "subdivisionIso", "castegroup", "probability"}
        || exists i: nat :: 1 <= i < 5 && i < |top| && Truthy(top[i]) && k == SuffixedKey("castegroup", i)
  {
    var top := TopOf(nd, "castegroupTop");
    FixedPartClear(CasteByName, nd);
    RankedFieldsKeys("castegroup", top, 1, 5, true);
    forall k
      ensures k in Simplified(CasteByName, nd) <==>
        || k in {"firstName", "lastName", "subdivisionIso", "castegroup", "probability"}
        || exists i: nat :: 1 <= i < 5 && i < |top| && Truthy(top[i]) && k == SuffixedKey("castegroup", i)
    {
      assert k in FixedPart(CasteByName, nd) <==> k in {"firstName", "lastName", "subdivisionIso", "castegroup", "probability"};
    }
  }

  /** By name, the fixed fields of one record hold the response's values. */
  lemma ByNameRecordValues(nd: Value)
    ensures var r := Simplified(CasteByName, nd);
      && "firstName" in r && r["firstName"] == Field(nd, "firstName")
      && "lastName" in r && r["lastName"] == Field(nd, "lastName")
      && "subdivisionIso" in r && r["subdivisionIso"] == Field(nd, "subdivisionIso")
      && "probability" in r && r["probability"] == Field(nd, "probabilityCalibrated")
  {
    var top := TopOf(nd, "castegroupTop");
    var fixed := FixedPart(CasteByName, nd);
    FixedPartClear(CasteByName, nd);
    FixedFieldKept(fixed, "castegroup", top, 1, 5, true, "firstName");
    FixedFieldKept(fixed, "castegroup", top, 1, 5, true, "lastName");
    FixedFieldKept(fixed, "castegroup", top, 1, 5, true, "subdivisionIso");
    FixedFieldKept(fixed, "castegroup", top, 1, 5, true, "probability");
  }

  /**
   * By full name, the keys of one record: the fixed fields, plus one field per
   * truthy ranked group from the second to the fifth.
   */
  lemma ByFullNameRecordKeys(nd: Value)
    ensures var r := Simplified(CasteByFullName, nd); var top := TopOf(nd, "castegroupTop");
      forall k :: k in r <==>
        || k in {"name", "subdivisionIso", "castegroup", "probability"}
        || exists i: nat :: 1 <= i < 5 && i < |top| && Truthy(top[i]) && k == SuffixedKey("castegroup", i)
  {
    var top := TopOf(nd, "castegroupTop");
    FixedPartClear(CasteByFullName, nd);
    RankedFieldsKeys("castegroup", top, 1, 5, true);
    forall k
      ensures k in Simplified(CasteByFullName, nd) <==>
        || k in {"name", "subdivisionIso", "castegroup", "probability"}
        || exists i: nat :: 1 <= i < 5 && i < |top| && Truthy(top[i]) && k == SuffixedKey("castegroup", i)
    {
      assert k in FixedPart(CasteByFullName, nd) <==> k in {"name", "subdivisionIso", "castegroup", "probability"};
    }
  }

  /** By full name, the fixed fields of one record hold the response's values. */
  lemma ByFullNameRecordValues(nd: Value)
    ensures var r := Simplified(CasteByFullName, nd);
      && "name" in r && r["name"] == Field(nd, "name")
      && "subdivisionIso" in r && r["subdivisionIso"] == Field(nd, "subdivisionIso")
      && "probability" in r && r["probability"] == Field(nd, "probabilityCalibrated")
  {
    var top := TopOf(nd, "castegroupTop");
    var fixed := FixedPart(CasteByFullName, nd);
    FixedPartClear(CasteByFullName, nd);
    FixedFieldKept(fixed, "castegroup", top, 1, 5, true, "name");
    FixedFieldKept(fixed, "castegroup", top, 1, 5, true, "subdivisionIso");
    FixedFieldKept(fixed, "castegroup", top, 1, 5, true, "probability");
  }
}
