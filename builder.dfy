/**
 * The request builders (`preSendFunction` of every operation): validate the
 * batch size, pick the plain or geo endpoint, drop rows lacking the
 * operation's name fields, serialise the rest, and write URL, body and
 * headers into the host's request options.
 */
module Builder {
  import opened Wrappers
  import opened Json
  import opened Registry

  /**
   * One row of the "Names to Analyze" collection. Each operation reads only
   * some of these fields; a field the user left out is None.
   */
  datatype NameInput = NameInput(
    firstName: Option<string>,
    lastName: Option<string>,
    name: Option<string>,
    countryIso2: Option<string>,
    subdivisionIso: Option<string>)

  /** A field is truthy when present and not the empty string. */
  predicate HasText(f: Option<string>)
  {
    f.Some? && f.value != ""
  }

  /** `f?.toString() || ''` */
  function Text(f: Option<string>): string
  {
    if HasText(f) then f.value else ""
  }

  /** The row field that serialises under `key`. */
  function FieldOf(n: NameInput, key: string): Option<string>
  {
    if key == "firstName" then n.firstName
    else if key == "lastName" then n.lastName
    else if key == "name" then n.name
    else if key == "countryIso2" then n.countryIso2
    else if key == "subdivisionIso" then n.subdivisionIso
    else None
  }

  /** The operation's `filter` test: the row carries the name fields it needs. */
  predicate Keep(op: Operation, n: NameInput)
  {
    match op
    case GenderByName => HasText(n.firstName)
    case EthnicityByName => HasText(n.lastName)
    case CountryByName => HasText(n.firstName) || HasText(n.lastName)
    case RaceByName => HasText(n.firstName) || HasText(n.lastName)
    case CasteByName => HasText(n.firstName) && HasText(n.lastName) && HasText(n.subdivisionIso)
    case CasteByFullName => HasText(n.name) && HasText(n.subdivisionIso)
    case GenderByFullName => HasText(n.name)
    case RaceByFullName => HasText(n.name)
    case ProperNounType => HasText(n.name)
    case SplitFullNames => HasText(n.name)
  }

  /** `nameValues.filter(...)`: the kept rows, in their original order. */
  function Filter(op: Operation, raw: seq<NameInput>): (kept: seq<NameInput>)
    ensures |kept| <= |raw|
    ensures forall i :: 0 <= i < |kept| ==> Keep(op, kept[i])
  {
    if raw == [] then []
    else (if Keep(op, raw[0]) then [raw[0]] else []) + Filter(op, raw[1..])
  }

  /** `nameValues.some(n => n.countryIso2)`: geo mode, decided on the raw rows. */
  predicate AnyCountry(raw: seq<NameInput>)
  {
    raw != [] && (HasText(raw[0].countryIso2) || AnyCountry(raw[1..]))
  }

  /** `entry[key] = f.toString()` guarded by `if (when && f)`. */
  function PutIf(e: map<string, string>, key: string, f: Option<string>, when: bool): map<string, string>
  {
    if when && HasText(f) then e[key := f.value] else e
  }

  /** The `map` callback of each builder: one kept row as a JSON entry, field by field. */
  function Serialise(op: Operation, n: NameInput, geo: bool): map<string, string>
  {
    match op
    case GenderByName =>
      var e0 := map["firstName" := Text(n.firstName)];
      var e1 := PutIf(e0, "lastName", n.lastName, true);
      PutIf(e1, "countryIso2", n.countryIso2, geo)
    case GenderByFullName =>
      PutIf(map["name" := Text(n.name)], "countryIso2", n.countryIso2, geo)
    case ProperNounType =>
      PutIf(map["name" := Text(n.name)], "countryIso2", n.countryIso2, geo)
    case SplitFullNames =>
      PutIf(map["name" := Text(n.name)], "countryIso2", n.countryIso2, geo)
    case RaceByFullName =>
      PutIf(map["name" := Text(n.name)], "countryIso2", n.countryIso2, true)
    case EthnicityByName =>
      var e0 := map["lastName" := Text(n.lastName)];
      var e1 := PutIf(e0, "firstName", n.firstName, true);
      PutIf(e1, "countryIso2", n.countryIso2, true)
    case CountryByName =>
      var e0 := PutIf(map[], "firstName", n.firstName, true);
      PutIf(e0, "lastName", n.lastName, true)
    case RaceByName =>
      var e0 := PutIf(map[], "firstName", n.firstName, true);
      var e1 := PutIf(e0, "lastName", n.lastName, true);
      PutIf(e1, "countryIso2", n.countryIso2, true)
    case CasteByName =>
      map["firstName" := Text(n.firstName), "lastName" := Text(n.lastName),
          "subdivisionIso" := Text(n.subdivisionIso)]
    case CasteByFullName =>
      map["name" := Text(n.name), "subdivisionIso" := Text(n.subdivisionIso)]
  }

  /**
   * The fields each operation forwards from a row, when non-empty. In geo
   * mode the geo-switching operations also forward the country code.
   */
  function Forwarded(op: Operation, geo: bool): set<string>
  {
    match op
    case GenderByName => {"firstName", "lastName"} + (if geo then {"countryIso2"} else {})
    case GenderByFullName => {"name"} + (if geo then {"countryIso2"} else {})
    case ProperNounType => {"name"} + (if geo then {"countryIso2"} else {})
    case SplitFullNames => {"name"} + (if geo then {"countryIso2"} else {})
    case RaceByFullName => {"name", "countryIso2"}
    case EthnicityByName => {"firstName", "lastName", "countryIso2"}
    case RaceByName => {"firstName", "lastName", "countryIso2"}
    case CountryByName => {"firstName", "lastName"}
    case CasteByName => {"firstName", "lastName", "subdivisionIso"}
    case CasteByFullName => {"name", "subdivisionIso"}
  }

  /** The serialised entries for a given geo flag. */
  function PersonalNames(op: Operation, raw: seq<NameInput>, geo: bool): (es: seq<map<string, string>>)
    ensures |es| == |Filter(op, raw)|
  {
    var kept := Filter(op, raw);
    seq(|kept|, i requires 0 <= i < |kept| => Serialise(op, kept[i], geo))
  }

  /** The entries actually sent: geo mode is decided on the whole raw batch. */
  function Entries(op: Operation, raw: seq<NameInput>): seq<map<string, string>>
  {
    PersonalNames(op, raw, AnyCountry(raw))
  }

  function EntryValue(e: map<string, string>): Value
  {
    Obj(map k | k in e :: Str(e[k]))
  }

  /** `{ personalNames }` or `{ properNouns: ... }` around the given entries. */
  function BodyOf(op: Operation, es: seq<map<string, string>>): Value
  {
    Obj(map[ListKey(op) := Arr(seq(|es|, i requires 0 <= i < |es| => EntryValue(es[i])))])
  }

  /** The body sent for a raw batch: one list under the operation's key and nothing else. */
  function RequestBody(op: Operation, raw: seq<NameInput>): (body: Value)
    ensures body.Obj? && body.fields.Keys == {ListKey(op)}
    ensures body.fields[ListKey(op)].Arr?
    ensures var es := Entries(op, raw); var list := body.fields[ListKey(op)].elems;
      |list| == |es| && forall i :: 0 <= i < |es| ==> list[i] == EntryValue(es[i])
  {
    BodyOf(op, Entries(op, raw))
  }

  /** The URL after the builder ran, given the URL the routing table set. */
  function TargetUrl(op: Operation, raw: seq<NameInput>, current: string): string
  {
    match GeoEndpoints(op)
    case Some(ep) => if AnyCountry(raw) then ep.geo else ep.plain
    case None => current
  }

  /** `{ ...requestOptions.headers, 'X-OPTION-...': ... }` for the race operations. */
  function Headers(op: Operation, current: map<string, string>): (h: map<string, string>)
    ensures forall k :: k in current && k != TaxonomyHeader ==> k in h && h[k] == current[k]
    ensures AddsTaxonomy(op) ==> h == current[TaxonomyHeader := TaxonomyValue]
    ensures !AddsTaxonomy(op) ==> h == current
  {
    if AddsTaxonomy(op) then current[TaxonomyHeader := TaxonomyValue] else current
  }

  datatype BuildError =
    | EmptyBatch(message: string)
    | BatchTooLarge(message: string)
    | MissingRequiredFields(message: string)

  /** The parts of the host's request options a builder reads and writes. */
  datatype Request = Request(url: string, body: Value, headers: map<string, string>)

  /** What a builder does to the request options, or the error it raises. */
  function Prepare(op: Operation, raw: seq<NameInput>, current: Request): Result<Request, BuildError>
  {
    if |raw| == 0 then Failure(EmptyBatch(EmptyBatchMessage(op)))
    else if |raw| > MaxBatch then Failure(BatchTooLarge(TooLargeMessage(op)))
    else if MissingFieldsMessage(op).Some? && Entries(op, raw) == [] then
      Failure(MissingRequiredFields(MissingFieldsMessage(op).value))
    else Success(Request(TargetUrl(op, raw, current.url), RequestBody(op, raw), Headers(op, current.headers)))
  }

  /**
   * The size checks come first and look at the raw batch: none or more than
   * 200 rows fail. Otherwise only the caste builders can still fail, when
   * filtering leaves nothing; every other batch yields the target URL, the
   * body and the headers.
   */
  lemma PrepareOutcome(op: Operation, raw: seq<NameInput>, current: Request)
    ensures |raw| == 0 ==> Prepare(op, raw, current) == Failure(EmptyBatch(EmptyBatchMessage(op)))
    ensures |raw| > MaxBatch ==> Prepare(op, raw, current) == Failure(BatchTooLarge(TooLargeMessage(op)))
    ensures Prepare(op, raw, current).Success? <==>
      1 <= |raw| <= MaxBatch && (MissingFieldsMessage(op).Some? ==> Filter(op, raw) != [])
    ensures Prepare(op, raw, current).Failure? && 1 <= |raw| <= MaxBatch ==>
      && MissingFieldsMessage(op).Some?
      && Prepare(op, raw, current).error == MissingRequiredFields(MissingFieldsMessage(op).value)
    ensures Prepare(op, raw, current).Success? ==>
      Prepare(op, raw, current).value ==
        Request(TargetUrl(op, raw, current.url), RequestBody(op, raw), Headers(op, current.headers))
  {
    assert |Entries(op, raw)| == |Filter(op, raw)|;
  }

  /** A row is sent iff it is in the raw batch and passes the operation's test. */
  lemma {:induction false} FilterMembership(op: Operation, raw: seq<NameInput>)
    ensures forall x :: x in Filter(op, raw) <==> x in raw && Keep(op, x)
  {
    if raw != [] {
      FilterMembership(op, raw[1..]);
      assert raw == [raw[0]] + raw[1..];
    }
  }

  /** Filtering distributes over concatenation: kept rows stay in their original order. */
  lemma {:induction false} FilterAppend(op: Operation, a: seq<NameInput>, b: seq<NameInput>)
    ensures Filter(op, a + b) == Filter(op, a) + Filter(op, b)
  {
    if a == [] {
      assert a + b == b;
    } else {
      assert (a + b)[1..] == a[1..] + b;
      FilterAppend(op, a[1..], b);
    }
  }

  /** Filtering leaves nothing exactly when no raw row passes the operation's test. */
  lemma FilterEmptyIff(op: Operation, raw: seq<NameInput>)
    ensures Filter(op, raw) == [] <==> forall i :: 0 <= i < |raw| ==> !Keep(op, raw[i])
  {
    FilterMembership(op, raw);
    if Filter(op, raw) != [] {
      var x := Filter(op, raw)[0];
      assert x in Filter(op, raw);
      var i :| 0 <= i < |raw| && raw[i] == x;
      assert Keep(op, raw[i]);
    } else {
      forall i | 0 <= i < |raw| ensures !Keep(op, raw[i]) {
        assert raw[i] in raw;
      }
    }
  }

  /** Geo mode holds exactly when some raw row, kept or not, carries a country code. */
  lemma {:induction false} AnyCountryIff(raw: seq<NameInput>)
    ensures AnyCountry(raw) <==> exists i :: 0 <= i < |raw| && HasText(raw[i].countryIso2)
  {
    if raw != [] {
      AnyCountryIff(raw[1..]);
      if exists i :: 0 <= i < |raw| && HasText(raw[i].countryIso2) {
        var i :| 0 <= i < |raw| && HasText(raw[i].countryIso2);
        if i > 0 {
          assert HasText(raw[1..][i - 1].countryIso2);
        }
      }
      if AnyCountry(raw[1..]) {
        var j :| 0 <= j < |raw| - 1 && HasText(raw[1..][j].countryIso2);
        assert HasText(raw[j + 1].countryIso2);
      }
    }
  }

  /**
   * A kept row's entry holds exactly the forwarded fields that are non-empty,
   * each with the row's own text: no key is ever sent empty.
   */
  lemma SerialiseFields(op: Operation, n: NameInput, geo: bool)
    requires Keep(op, n)
    ensures var e := Serialise(op, n, geo);
      && (forall k :: k in e <==> k in Forwarded(op, geo) && HasText(FieldOf(n, k)))
      && (forall k :: k in e ==> e[k] != "" && FieldOf(n, k) == Some(e[k]))
  {
    var e := Serialise(op, n, geo);
    forall k
      ensures k in e <==> k in Forwarded(op, geo) && HasText(FieldOf(n, k))
      ensures k in e ==> e[k] != "" && FieldOf(n, k) == Some(e[k])
    {
      SerialiseField(op, n, geo, k);
    }
  }

  /** `SerialiseFields` for one key. */
  lemma SerialiseField(op: Operation, n: NameInput, geo: bool, k: string)
    requires Keep(op, n)
    ensures var e := Serialise(op, n, geo);
      && (k in e <==> k in Forwarded(op, geo) && HasText(FieldOf(n, k)))
      && (k in e ==> e[k] != "" && FieldOf(n, k) == Some(e[k]))
  {
    match op
    case GenderByName =>
    case GenderByFullName =>
    case ProperNounType =>
    case SplitFullNames =>
    case RaceByFullName =>
    case EthnicityByName =>
    case CountryByName =>
    case RaceByName =>
    case CasteByName =>
    case CasteByFullName =>
  }

  /** Some raw row, kept or not, carries a non-empty country code. */
  ghost predicate CountryInBatch(raw: seq<NameInput>)
  {
    exists i :: 0 <= i < |raw| && HasText(raw[i].countryIso2)
  }

  /** Entry `e` carries exactly the non-empty fields of `n` among `keys`, each with its own text. */
  ghost predicate SentAs(e: map<string, string>, n: NameInput, keys: set<string>)
  {
    && (forall k :: k in e <==> k in keys && HasText(FieldOf(n, k)))
    && (forall k :: k in e ==> FieldOf(n, k) == Some(e[k]))
  }

  /** The i-th entry sent is the i-th kept raw row, serialised field by field. */
  lemma EntryFields(op: Operation, raw: seq<NameInput>, i: nat)
    requires i < |Entries(op, raw)|
    ensures var n := Filter(op, raw)[i]; var e := Entries(op, raw)[i];
      && n in raw && Keep(op, n)
      && (forall k :: k in e <==> k in Forwarded(op, AnyCountry(raw)) && HasText(FieldOf(n, k)))
      && (forall k :: k in e ==> e[k] != "" && FieldOf(n, k) == Some(e[k]))
  {
    FilterMembership(op, raw);
    assert Filter(op, raw)[i] in Filter(op, raw);
    SerialiseFields(op, Filter(op, raw)[i], AnyCountry(raw));
  }

  /**
   * What a builder sends: one entry per kept row, kept rows being exactly
   * the raw rows that pass the operation's test, each entry carrying the
   * forwarded fields that are non-empty and nothing else.
   */
  lemma SentEntries(op: Operation, raw: seq<NameInput>)
    ensures |Entries(op, raw)| == |Filter(op, raw)|
    ensures forall x :: x in Filter(op, raw) <==> x in raw && Keep(op, x)
    ensures forall i :: 0 <= i < |Entries(op, raw)| ==>
      SentAs(Entries(op, raw)[i], Filter(op, raw)[i], Forwarded(op, CountryInBatch(raw)))
  {
    FilterMembership(op, raw);
    AnyCountryIff(raw);
    forall i | 0 <= i < |Entries(op, raw)|
      ensures SentAs(Entries(op, raw)[i], Filter(op, raw)[i], Forwarded(op, CountryInBatch(raw)))
    {
      EntryFields(op, raw, i);
    }
  }

  /**
   * The per-entry `useGeo &&` guard never suppresses a code: a kept row with a
   * country code puts the whole batch in geo mode, so the entries sent are
   * those built as if geo mode were always on.
   */
  lemma GeoGuardRedundant(op: Operation, raw: seq<NameInput>)
    ensures Entries(op, raw) == PersonalNames(op, raw, true)
  {
    var kept := Filter(op, raw);
    FilterMembership(op, raw);
    AnyCountryIff(raw);
    forall i | 0 <= i < |kept|
      ensures Serialise(op, kept[i], AnyCountry(raw)) == Serialise(op, kept[i], true)
    {
      assert kept[i] in raw;
      if HasText(kept[i].countryIso2) {
        var j :| 0 <= j < |raw| && raw[j] == kept[i];
        assert HasText(raw[j].countryIso2);
      }
    }
  }

  /**
   * The builders that switch endpoints choose the geo one exactly when some raw
   * row has a country code; the others leave the routed URL alone.
   */
  lemma TargetUrlChoice(op: Operation, raw: seq<NameInput>, current: string)
    ensures GeoEndpoints(op).None? ==> TargetUrl(op, raw, current) == current
    ensures GeoEndpoints(op).Some? ==>
      && TargetUrl(op, raw, current) in {GeoEndpoints(op).value.geo, GeoEndpoints(op).value.plain}
      && (TargetUrl(op, raw, current) == GeoEndpoints(op).value.geo <==>
          exists i :: 0 <= i < |raw| && HasText(raw[i].countryIso2))
  {
    AnyCountryIff(raw);
  }

  /** The host's request options, updated in place by `PreSend`. */
  class RequestOptions {
    var url: string
    var body: Value
    var headers: map<string, string>

    /** The options as the routing table of `op` sets them up. */
    constructor (op: Operation, headers: map<string, string>)
      ensures url == Route(op) && body == Undefined && this.headers == headers
    {
      url := Route(op);
      body := Undefined;
      this.headers := headers;
    }

    function Snapshot(): Request
      reads this
    {
      Request(url, body, headers)
    }

    /** `preSendFunction`: every error is raised before anything is written. */
    method PreSend(op: Operation, nameValues: seq<NameInput>) returns (outcome: Outcome<BuildError>)
      modifies this
      ensures Prepare(op, nameValues, old(Snapshot())).Success? ==>
        outcome == Pass && Snapshot() == Prepare(op, nameValues, old(Snapshot())).value
      ensures Prepare(op, nameValues, old(Snapshot())).Failure? ==>
        outcome == Fail(Prepare(op, nameValues, old(Snapshot())).error)
      ensures Prepare(op, nameValues, old(Snapshot())).Failure? ==> unchanged(this)
    {
      ghost var expected := Prepare(op, nameValues, Snapshot());
      if |nameValues| == 0 {
        assert expected == Failure(EmptyBatch(EmptyBatchMessage(op)));
        return Fail(EmptyBatch(EmptyBatchMessage(op)));
      }
      if |nameValues| > MaxBatch {
        assert expected == Failure(BatchTooLarge(TooLargeMessage(op)));
        return Fail(BatchTooLarge(TooLargeMessage(op)));
      }
      var useGeo := AnyCountry(nameValues);
      match GeoEndpoints(op) {
        case Some(ep) =>
          url := if useGeo then ep.geo else ep.plain;
        case None =>
      }
      var personalNames := PersonalNames(op, nameValues, useGeo);
      assert personalNames == Entries(op, nameValues);
      if MissingFieldsMessage(op).Some? && |personalNames| == 0 {
        assert GeoEndpoints(op).None?;
        assert url == old(url);
        assert expected == Failure(MissingRequiredFields(MissingFieldsMessage(op).value));
        return Fail(MissingRequiredFields(MissingFieldsMessage(op).value));
      }
      assert url == TargetUrl(op, nameValues, old(url));
      body := BodyOf(op, personalNames);
      if AddsTaxonomy(op) {
        headers := headers[TaxonomyHeader := TaxonomyValue];
      }
      assert expected == Success(Snapshot());
      outcome := Pass;
    }
  }
}
