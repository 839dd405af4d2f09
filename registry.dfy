/**
 * The operation registry: the ten (resource, operation) pairs whose request
 * builders and response normalizers are modelled, with the per-operation
 * constants the builders and normalizers differ in.
 */
module Registry {
  import opened Wrappers

  datatype Operation =
    | GenderByName       // gender/byName
    | GenderByFullName   // gender/byFullName
    | EthnicityByName    // ethnicity/byName
    | CountryByName      // country/byName
    | CasteByName        // indianCaste/byName
    | CasteByFullName    // indianCaste/byFullName
    | RaceByName         // usRaceEthnicity/byName
    | RaceByFullName     // usRaceEthnicity/byFullName
    | ProperNounType     // nameType/properNounType
    | SplitFullNames     // nameParsing/splitFullNames

  /** Largest number of raw rows one batch request may carry. */
  const MaxBatch: nat := 200

  /** The URL the routing table gives the request before the builder runs. */
  function Route(op: Operation): string
  {
    match op
    case GenderByName => "/api2/json/genderBatch"
    case GenderByFullName => "/api2/json/genderFullBatch"
    case EthnicityByName => "/api2/json/diasporaBatch"
    case CountryByName => "/api2/json/countryFnLnBatch"
    case CasteByName => "/api2/json/castegroupIndianBatch"
    case CasteByFullName => "/api2/json/castegroupIndianFullBatch"
    case RaceByName => "/api2/json/usRaceEthnicityBatch"
    case RaceByFullName => "/api2/json/usRaceEthnicityFullBatch"
    case ProperNounType => "/api2/json/nameTypeBatch"
    case SplitFullNames => "/api2/json/parseNameBatch"
  }

  datatype Endpoints = Endpoints(plain: string, geo: string)

  /** The plain/geo endpoint pair of the operations whose builder rewrites the URL. */
  function GeoEndpoints(op: Operation): Option<Endpoints>
  {
    match op
    case GenderByName => Some(Endpoints("/api2/json/genderBatch", "/api2/json/genderGeoBatch"))
    case GenderByFullName => Some(Endpoints("/api2/json/genderFullBatch", "/api2/json/genderFullGeoBatch"))
    case ProperNounType => Some(Endpoints("/api2/json/nameTypeBatch", "/api2/json/nameTypeGeoBatch"))
    case SplitFullNames => Some(Endpoints("/api2/json/parseNameBatch", "/api2/json/parseNameGeoBatch"))
    case _ => None
  }

  /** The top-level key of the request body and of the response. */
  function ListKey(op: Operation): string
  {
    if op == ProperNounType then "properNouns" else "personalNames"
  }

  /** The two US race/ethnicity operations ask for the six-class taxonomy. */
  predicate AddsTaxonomy(op: Operation)
  {
    op == RaceByName || op == RaceByFullName
  }

  const TaxonomyHeader: string := "X-OPTION-USRACEETHNICITY-TAXONOMY"
  const TaxonomyValue: string := "USRACEETHNICITY-6CLASSES"

  const NamesEmpty: string := "Please provide at least one name in the 'Names to Analyze' parameter."
  const ProperNounsEmpty: string :=
    "Please provide at least one proper noun in the 'Proper Nouns to Analyze' parameter."
  const NamesToParseEmpty: string := "Please provide at least one name in the 'Names to Parse' parameter."
  const NamesTooMany: string :=
    "Namsor API supports maximum 200 names per request. Please reduce the number of names to 200 or fewer."
  const ProperNounsTooMany: string :=
    "Namsor API supports maximum 200 items per request. Please reduce the number of proper nouns to 200 or fewer."

  /** The message of the error raised for an empty batch. */
  function EmptyBatchMessage(op: Operation): string
  {
    match op
    case ProperNounType => ProperNounsEmpty
    case SplitFullNames => NamesToParseEmpty
    case _ => NamesEmpty
  }

  /** The message of the error raised for more than 200 rows. */
  function TooLargeMessage(op: Operation): string
  {
    if op == ProperNounType then ProperNounsTooMany else NamesTooMany
  }

  const CasteNamesMissing: string :=
    "Please provide First Name, Last Name, and Indian Subdivision for each entry."
  const CasteFullNameMissing: string := "Please provide Full Name and Indian Subdivision for each entry."

  /** The caste operations refuse a batch that filtering leaves empty, with this message. */
  function MissingFieldsMessage(op: Operation): Option<string>
  {
    match op
    case CasteByName => Some(CasteNamesMissing)
    case CasteByFullName => Some(CasteFullNameMissing)
    case _ => None
  }

  /** Each geo-switching operation's plain endpoint is the one its routing table already holds. */
  lemma PlainEndpointIsRoute(op: Operation)
    ensures GeoEndpoints(op).Some? <==>
      op in {GenderByName, GenderByFullName, ProperNounType, SplitFullNames}
    ensures GeoEndpoints(op).Some? ==>
      GeoEndpoints(op).value.plain == Route(op) && GeoEndpoints(op).value.geo != Route(op)
  {
  }
}
