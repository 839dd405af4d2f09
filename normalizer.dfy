/**
 * The response normalizers (`postReceiveFunction` of every operation): pass
 * the host items through, or map every element of the response's list to
 * one flat record, expanding ranked "Top" arrays into numbered fields.
 */
module Normalizer {
  import opened Wrappers
  import opened Json
  import opened Decimal
  import opened Registry

  /** One host item: its JSON payload and the `pairedItem.item` index. */
  datatype Item = Item(json: Record, pairedItem: Option<nat>)

  /** The field for rank `i`: `base` at rank 0, then `base2`, `base3`, ... */
  function SuffixedKey(base: string, i: nat): string
  {
    if i == 0 then base else base + NatToString(i + 1)
  }

  /** Every rank key starts with its base; only rank 0 is the base itself. */
  lemma SuffixedKeyShape(base: string, i: nat)
    ensures |SuffixedKey(base, i)| >= |base| && SuffixedKey(base, i)[..|base|] == base
    ensures i >= 1 ==> |SuffixedKey(base, i)| > |base|
    ensures |base| > 0 ==> SuffixedKey(base, i)[0] == base[0]
  {
  }

  /** Distinct ranks get distinct field names: there is no `base1` to collide with. */
  lemma SuffixedKeyDistinct(base: string, i: nat, j: nat)
    requires i != j
    ensures SuffixedKey(base, i) != SuffixedKey(base, j)
  {
    if i != 0 && j != 0 && SuffixedKey(base, i) == SuffixedKey(base, j) {
      assert SuffixedKey(base, i)[|base|..] == NatToString(i + 1);
      assert SuffixedKey(base, j)[|base|..] == NatToString(j + 1);
      NatToStringInjective(i + 1, j + 1);
    }
  }

  /**
   * The numbered fields for ranks `lo <= i < hi` of `top` (only truthy
   * elements when `truthyOnly`), each holding its element.
   */
  function RankedFields(base: string, top: seq<Value>, lo: nat, hi: nat, truthyOnly: bool): Record
    decreases hi
  {
    if hi <= lo then map[]
    else
      var below := RankedFields(base, top, lo, hi - 1, truthyOnly);
      if hi - 1 < |top| && (truthyOnly ==> Truthy(top[hi - 1]))
      then below[SuffixedKey(base, hi - 1) := top[hi - 1]]
      else below
  }

  /**
   * Rank `i` has a field exactly when it is in range and (if required)
   * truthy, and that field holds the rank's element.
   */
  lemma {:induction false} RankedLookup(base: string, top: seq<Value>, lo: nat, hi: nat, truthyOnly: bool, i: nat)
    ensures SuffixedKey(base, i) in RankedFields(base, top, lo, hi, truthyOnly) <==>
      lo <= i < hi && i < |top| && (truthyOnly ==> Truthy(top[i]))
    ensures SuffixedKey(base, i) in RankedFields(base, top, lo, hi, truthyOnly) ==>
      RankedFields(base, top, lo, hi, truthyOnly)[SuffixedKey(base, i)] == top[i]
    decreases hi
  {
    if hi > lo {
      var below := RankedFields(base, top, lo, hi - 1, truthyOnly);
      var adds := hi - 1 < |top| && (truthyOnly ==> Truthy(top[hi - 1]));
      assert RankedFields(base, top, lo, hi, truthyOnly) ==
        if adds then below[SuffixedKey(base, hi - 1) := top[hi - 1]] else below;
      RankedLookup(base, top, lo, hi - 1, truthyOnly, i);
      if i != hi - 1 {
        SuffixedKeyDistinct(base, i, hi - 1);
      }
    }
  }

  /** Every numbered field comes from some rank in range. */
  lemma {:induction false} RankedKeys(base: string, top: seq<Value>, lo: nat, hi: nat, truthyOnly: bool, k: string)
    requires k in RankedFields(base, top, lo, hi, truthyOnly)
    ensures exists i: nat :: lo <= i < hi && i < |top| && k == SuffixedKey(base, i)
    decreases hi
  {
    if k != SuffixedKey(base, hi - 1) {
      RankedKeys(base, top, lo, hi - 1, truthyOnly, k);
    } else {
      RankedLookup(base, top, lo, hi, truthyOnly, hi - 1);
    }
  }

  /**
   * The numbered fields are exactly the ranks in range (and truthy, when
   * required), each holding its element of `top`.
   */
  lemma RankedFieldsKeys(base: string, top: seq<Value>, lo: nat, hi: nat, truthyOnly: bool)
    ensures forall k :: k in RankedFields(base, top, lo, hi, truthyOnly) <==>
      exists i: nat :: lo <= i < hi && i < |top| && (truthyOnly ==> Truthy(top[i])) && k == SuffixedKey(base, i)
    ensures forall i: nat :: lo <= i < hi && i < |top| && (truthyOnly ==> Truthy(top[i])) ==>
      SuffixedKey(base, i) in RankedFields(base, top, lo, hi, truthyOnly) &&
      RankedFields(base, top, lo, hi, truthyOnly)[SuffixedKey(base, i)] == top[i]
  {
    var r := RankedFields(base, top, lo, hi, truthyOnly);
    forall i: nat | lo <= i < hi && i < |top| && (truthyOnly ==> Truthy(top[i]))
      ensures SuffixedKey(base, i) in r && r[SuffixedKey(base, i)] == top[i]
    {
      RankedLookup(base, top, lo, hi, truthyOnly, i);
    }
    forall k | k in r
      ensures exists i: nat :: lo <= i < hi && i < |top| && (truthyOnly ==> Truthy(top[i])) && k == SuffixedKey(base, i)
    {
      RankedKeys(base, top, lo, hi, truthyOnly, k);
      var i: nat :| lo <= i < hi && i < |top| && k == SuffixedKey(base, i);
      RankedLookup(base, top, lo, hi, truthyOnly, i);
    }
  }

  /**
   * `k` is no rank key of `base` from rank `lo` on: it starts with another
   * letter, it is shorter than `base`, or it is `base` itself when rank 0 is
   * not expanded.
   */
  predicate ClearOfRanks(base: string, lo: nat, k: string)
  {
    || (|base| > 0 && |k| > 0 && k[0] != base[0])
    || |k| < |base|
    || (lo >= 1 && |k| == |base|)
  }

  /** A key clear of the numbered fields is none of them. */
  lemma ClearKeyAbsent(base: string, top: seq<Value>, lo: nat, hi: nat, truthyOnly: bool, k: string)
    requires ClearOfRanks(base, lo, k)
    ensures k !in RankedFields(base, top, lo, hi, truthyOnly)
  {
    if k in RankedFields(base, top, lo, hi, truthyOnly) {
      RankedKeys(base, top, lo, hi, truthyOnly, k);
      var i: nat :| lo <= i < hi && i < |top| && k == SuffixedKey(base, i);
      SuffixedKeyShape(base, i);
      assert false;
    }
  }

  /** The numbered fields never overwrite a key that is clear of them. */
  lemma FixedFieldKept(json: Record, base: string, top: seq<Value>, lo: nat, hi: nat, truthyOnly: bool, k: string)
    requires k in json
    requires ClearOfRanks(base, lo, k)
    ensures k !in RankedFields(base, top, lo, hi, truthyOnly)
    ensures k in json + RankedFields(base, top, lo, hi, truthyOnly)
    ensures (json + RankedFields(base, top, lo, hi, truthyOnly))[k] == json[k]
  {
    ClearKeyAbsent(base, top, lo, hi, truthyOnly, k);
  }

  /**
   * Fields written before and after the numbered ones, all clear of them,
   * neither hide nor add a rank: from `lo` on, rank `i` has a field in the
   * record exactly when it is in range (and truthy, when required), holding
   * its element.
   */
  lemma RanksAmongFixed(pre: Record, base: string, top: seq<Value>, lo: nat, hi: nat, truthyOnly: bool, post: Record)
    requires forall k :: k in pre ==> ClearOfRanks(base, lo, k)
    requires forall k :: k in post ==> ClearOfRanks(base, lo, k)
    ensures var r := pre + RankedFields(base, top, lo, hi, truthyOnly) + post;
      forall i: nat :: i >= lo ==>
        && (SuffixedKey(base, i) in r <==> i < hi && i < |top| && (truthyOnly ==> Truthy(top[i])))
        && (SuffixedKey(base, i) in r ==> r[SuffixedKey(base, i)] == top[i])
  {
    var r := pre + RankedFields(base, top, lo, hi, truthyOnly) + post;
    forall i: nat | i >= lo
      ensures SuffixedKey(base, i) in r <==> i < hi && i < |top| && (truthyOnly ==> Truthy(top[i]))
      ensures SuffixedKey(base, i) in r ==> r[SuffixedKey(base, i)] == top[i]
    {
      SuffixedKeyShape(base, i);
      assert !ClearOfRanks(base, lo, SuffixedKey(base, i));
      RankedLookup(base, top, lo, hi, truthyOnly, i);
    }
  }

  /** No rank is rendered with the suffix 1: rank 0 is unsuffixed and rank 1 is `base2`. */
  lemma NoRankOneKey(base: string)
    ensures forall i: nat :: SuffixedKey(base, i) != base + "1"
  {
    forall i: nat ensures SuffixedKey(base, i) != base + "1" {
      if i != 0 && SuffixedKey(base, i) == base + "1" {
        assert NatToString(i + 1) == (base + "1")[|base|..] == "1" == NatToString(1);
        NatToStringInjective(i + 1, 1);
      }
    }
  }

  /** Hence no numbered field is ever named `base1`. */
  lemma NoRankOneField(base: string, top: seq<Value>, lo: nat, hi: nat, truthyOnly: bool)
    ensures base + "1" !in RankedFields(base, top, lo, hi, truthyOnly)
  {
    if base + "1" in RankedFields(base, top, lo, hi, truthyOnly) {
      RankedKeys(base, top, lo, hi, truthyOnly, base + "1");
      NoRankOneKey(base);
    }
  }

  /** `if (nameData.key) json.key = nameData.key` */
  function OptionalField(nd: Value, key: string): Record
  {
    if Truthy(Field(nd, key)) then map[key := Field(nd, key)] else map[]
  }

  /** The ranked array `key` of a response element, or nothing. */
  function TopOf(nd: Value, key: string): seq<Value>
  {
    ListOr(Field(nd, key))
  }

  /** `nameData.raceEthnicity || raceTop[0]` */
  function RacePrimary(nd: Value): Value
  {
    if Truthy(Field(nd, "raceEthnicity")) then Field(nd, "raceEthnicity")
    else At(TopOf(nd, "raceEthnicitiesTop"), 0)
  }

  /** `(nameData.firstLastName as IDataObject) || {}` */
  function FirstLastName(nd: Value): Value
  {
    if Truthy(Field(nd, "firstLastName")) then Field(nd, "firstLastName") else Obj(map[])
  }

  /**
   * The fields of one record written before its ranked fields: the object
   * literal of the `map` callback, and for the race operations the optional
   * country code and the primary class written after it.
   */
  function FixedPart(op: Operation, nd: Value): Record
  {
    match op
    case GenderByName =>
      map["firstName" := Field(nd, "firstName"), "lastName" := Field(nd, "lastName"),
          "gender" := Field(nd, "likelyGender"), "probability" := Field(nd, "probabilityCalibrated")]
    case GenderByFullName =>
      map["name" := Field(nd, "name"), "gender" := Field(nd, "likelyGender"),
          "probability" := Field(nd, "probabilityCalibrated")]
    case ProperNounType =>
      map["name" := Field(nd, "name"), "commonType" := Field(nd, "commonType"),
          "commonTypeAlt" := Field(nd, "commonTypeAlt")]
    case SplitFullNames =>
      map["name" := Field(nd, "name"), "firstName" := Field(FirstLastName(nd), "firstName"),
          "lastName" := Field(FirstLastName(nd), "lastName")]
    case RaceByName =>
      (map["firstName" := Field(nd, "firstName"), "lastName" := Field(nd, "lastName"),
           "probability" := Field(nd, "probabilityCalibrated")]
       + OptionalField(nd, "countryIso2"))["ethnicity" := RacePrimary(nd)]
    case RaceByFullName =>
      (map["name" := Field(nd, "name"), "probability" := Field(nd, "probabilityCalibrated")]
       + OptionalField(nd, "countryIso2"))["ethnicity" := RacePrimary(nd)]
    case CasteByName =>
      map["firstName" := Field(nd, "firstName"), "lastName" := Field(nd, "lastName"),
          "subdivisionIso" := Field(nd, "subdivisionIso"), "castegroup" := Field(nd, "castegroup"),
          "probability" := Field(nd, "probabilityCalibrated")]
    case CasteByFullName =>
      map["name" := Field(nd, "name"), "subdivisionIso" := Field(nd, "subdivisionIso"),
          "castegroup" := Field(nd, "castegroup"), "probability" := Field(nd, "probabilityCalibrated")]
    case EthnicityByName =>
      map["firstName" := Field(nd, "firstName"), "lastName" := Field(nd, "lastName"),
          "probability" := Field(nd, "probabilityCalibrated")]
    case CountryByName =>
      map["firstName" := Field(nd, "firstName"), "lastName" := Field(nd, "lastName"),
          "probability" := Field(nd, "probabilityCalibrated")]
  }

  /** The region fields a country record gets after its ranked countries. */
  function Regions(nd: Value): Record
  {
    OptionalField(nd, "region") + OptionalField(nd, "subRegion")
  }

  /**
   * The flat record each operation makes of one response element: the fixed
   * fields, then the ranked fields, then the regions. Later writes in the
   * source are later operands of `+`, so a repeated key keeps the value
   * written last, as in the source.
   */
  function Simplified(op: Operation, nd: Value): Record
  {
    match op
    case RaceByName =>
      FixedPart(op, nd) + RankedFields("ethnicity", TopOf(nd, "raceEthnicitiesTop"), 1, 6, true)
    case RaceByFullName =>
      FixedPart(op, nd) + RankedFields("ethnicity", TopOf(nd, "raceEthnicitiesTop"), 1, 6, true)
    case CasteByName =>
      FixedPart(op, nd) + RankedFields("castegroup", TopOf(nd, "castegroupTop"), 1, 5, true)
    case CasteByFullName =>
      FixedPart(op, nd) + RankedFields("castegroup", TopOf(nd, "castegroupTop"), 1, 5, true)
    case EthnicityByName =>
      FixedPart(op, nd) + RankedFields("ethnicity", TopOf(nd, "ethnicitiesTop"), 0, |TopOf(nd, "ethnicitiesTop")|, false)
    case CountryByName =>
      FixedPart(op, nd) + RankedFields("country", TopOf(nd, "countriesTop"), 0, |TopOf(nd, "countriesTop")|, false)
      + Regions(nd)
    case _ => FixedPart(op, nd)
  }

  /** `items[0]?.json?.<list key>` when it is an array. */
  function ResponseList(op: Operation, items: seq<Item>): Option<seq<Value>>
  {
    if items == [] then None
    else match Field(Obj(items[0].json), ListKey(op))
      case Arr(elems) => Some(elems)
      case _ => None
  }

  /**
   * What a normalizer returns: the items themselves unless simplifying a
   * response that holds the operation's list, else one record per element.
   */
  function Normalised(op: Operation, simplify: bool, items: seq<Item>): (out: seq<Item>)
    ensures !simplify || ResponseList(op, items).None? ==> out == items
    ensures simplify && ResponseList(op, items).Some? ==>
      var resp := ResponseList(op, items).value;
      |out| == |resp| &&
      forall j :: 0 <= j < |resp| ==> out[j] == Item(Simplified(op, resp[j]), Some(0))
  {
    if !simplify then items
    else match ResponseList(op, items)
      case None => items
      case Some(resp) => Records(op, resp)
  }

  /** `responseData.map(...)`: one record per response element, each paired with item 0. */
  function Records(op: Operation, resp: seq<Value>): seq<Item>
  {
    seq(|resp|, j requires 0 <= j < |resp| => Item(Simplified(op, resp[j]), Some(0)))
  }

  /**
   * The rank loops: `for (i = lo; i < hi; i++) if (top[i]) json[key(i)] = top[i]`
   * when `truthyOnly`, and `top.forEach((x, i) => json[key(i)] = x)` with
   * `lo = 0, hi = |top|` otherwise.
   */
  method AddRankedFields(json: Record, base: string, top: seq<Value>, lo: nat, hi: nat, truthyOnly: bool)
    returns (out: Record)
    requires lo <= hi
    ensures out == json + RankedFields(base, top, lo, hi, truthyOnly)
  {
    out := json;
    var i := lo;
    while i < hi
      invariant lo <= i <= hi
      invariant out == json + RankedFields(base, top, lo, i, truthyOnly)
    {
      if i < |top| && (truthyOnly ==> Truthy(top[i])) {
        out := out[SuffixedKey(base, i) := top[i]];
      }
      i := i + 1;
    }
  }

  /** The `map` callback of each normalizer. */
  method SimplifyRecord(op: Operation, nd: Value) returns (json: Record)
    ensures json == Simplified(op, nd)
  {
    match op {
      case RaceByName => json := SimplifyRace(op, nd);
      case RaceByFullName => json := SimplifyRace(op, nd);
      case CasteByName => json := SimplifyCaste(op, nd);
      case CasteByFullName => json := SimplifyCaste(op, nd);
      case EthnicityByName => json := SimplifyEthnicity(nd);
      case CountryByName => json := SimplifyCountry(nd);
      case _ =>
        // the remaining operations build their record as one object literal
        json := Simplified(op, nd);
    }
  }

  /** US race/ethnicity: literal, optional country code, primary class, then classes 2 to 6. */
  method SimplifyRace(op: Operation, nd: Value) returns (json: Record)
    requires op == RaceByName || op == RaceByFullName
    ensures json == Simplified(op, nd)
  {
    if op == RaceByName {
      json := map["firstName" := Field(nd, "firstName"), "lastName" := Field(nd, "lastName"),
                  "probability" := Field(nd, "probabilityCalibrated")];
    } else {
      json := map["name" := Field(nd, "name"), "probability" := Field(nd, "probabilityCalibrated")];
    }
    json := CopyIfTruthy(json, nd, "countryIso2");
    var raceTop := TopOf(nd, "raceEthnicitiesTop");
    json := json["ethnicity" := RacePrimary(nd)];
    json := AddRankedFields(json, "ethnicity", raceTop, 1, 6, true);
  }

  /** Indian caste: literal with the singular `castegroup`, then groups 2 to 5. */
  method SimplifyCaste(op: Operation, nd: Value) returns (json: Record)
    requires op == CasteByName || op == CasteByFullName
    ensures json == Simplified(op, nd)
  {
    if op == CasteByName {
      json := map["firstName" := Field(nd, "firstName"), "lastName" := Field(nd, "lastName"),
                  "subdivisionIso" := Field(nd, "subdivisionIso"), "castegroup" := Field(nd, "castegroup"),
                  "probability" := Field(nd, "probabilityCalibrated")];
    } else {
      json := map["name" := Field(nd, "name"), "subdivisionIso" := Field(nd, "subdivisionIso"),
                  "castegroup" := Field(nd, "castegroup"), "probability" := Field(nd, "probabilityCalibrated")];
    }
    var castegroupTop := TopOf(nd, "castegroupTop");
    json := AddRankedFields(json, "castegroup", castegroupTop, 1, 5, true);
  }

  /** Ethnicity: literal, then every ranked ethnicity. */
  method SimplifyEthnicity(nd: Value) returns (json: Record)
    ensures json == Simplified(EthnicityByName, nd)
  {
    json := map["firstName" := Field(nd, "firstName"), "lastName" := Field(nd, "lastName"),
                "probability" := Field(nd, "probabilityCalibrated")];
    var ethnicities := TopOf(nd, "ethnicitiesTop");
    json := AddRankedFields(json, "ethnicity", ethnicities, 0, |ethnicities|, false);
  }

  /** Country: literal, every ranked country, then the region fields when present. */
  method SimplifyCountry(nd: Value) returns (json: Record)
    ensures json == Simplified(CountryByName, nd)
  {
    json := map["firstName" := Field(nd, "firstName"), "lastName" := Field(nd, "lastName"),
                "probability" := Field(nd, "probabilityCalibrated")];
    var countries := TopOf(nd, "countriesTop");
    json := AddRankedFields(json, "country", countries, 0, |countries|, false);
    json := CopyIfTruthy(json, nd, "region");
    json := CopyIfTruthy(json, nd, "subRegion");
  }

  /** `if (nameData.key) json.key = nameData.key` */
  method CopyIfTruthy(json: Record, nd: Value, key: string) returns (out: Record)
    ensures out == json + OptionalField(nd, key)
  {
    out := json;
    if Truthy(Field(nd, key)) {
      out := out[key := Field(nd, key)];
    }
  }

  /** `postReceiveFunction`: the items, or the response list mapped element by element. */
  method PostReceive(op: Operation, simplify: bool, items: seq<Item>) returns (out: seq<Item>)
    ensures out == Normalised(op, simplify, items)
  {
    if !simplify {
      return items;
    }
    var responseData := ResponseList(op, items);
    if responseData.None? {
      return items;
    }
    out := SimplifyAll(op, responseData.value);
  }

  /** The `map` over the response list, one callback per element, in order. */
  method SimplifyAll(op: Operation, resp: seq<Value>) returns (out: seq<Item>)
    ensures out == Records(op, resp)
  {
    ghost var expected := Records(op, resp);
    out := [];
    var j := 0;
    while j < |resp|
      invariant 0 <= j <= |resp|
      invariant out == expected[..j]
    {
      var json := SimplifyRecord(op, resp[j]);
      assert expected[j] == Item(json, Some(0));
      out := out + [Item(json, Some(0))];
      j := j + 1;
    }
    assert expected[..|resp|] == expected;
  }
}
