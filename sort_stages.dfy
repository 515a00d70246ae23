/** GET /sort-properties (index.js): the `sort` query token chosen into the
    `$sort` stage of the aggregation. */
module SortStages {
  import opened Wrappers

  /** The fields the stage can order by: the price converted to a number by
      the preceding `$addFields` stage, and the posting date. */
  datatype SortField = NumericPrice | PostedDate

  /** Mongo's 1 and -1. */
  datatype Direction = Ascending | Descending

  datatype SortStage = EmptyStage | SortBy(field: SortField, direction: Direction)

  const KnownTokens: set<string> := {"priceLow", "priceHigh", "dateNew", "dateOld"}

  /** The token that selects a stage; the empty stage is what an absent
      token selects. */
  function TokenOf(stage: SortStage): Option<string>
  {
    match stage
    case EmptyStage => None
    case SortBy(NumericPrice, Ascending) => Some("priceLow")
    case SortBy(NumericPrice, Descending) => Some("priceHigh")
    case SortBy(PostedDate, Descending) => Some("dateNew")
    case SortBy(PostedDate, Ascending) => Some("dateOld")
  }

  /** The stage a token selects; a token is compared with `===`, so an
      absent token or any unknown one selects the empty stage. */
  function StageFor(token: Option<string>): (stage: SortStage)
    ensures stage == EmptyStage <==> token == None || token.value !in KnownTokens
    ensures stage != EmptyStage ==> TokenOf(stage) == token
  {
    match token
    case None => EmptyStage
    case Some(t) =>
      if t == "priceLow" then SortBy(NumericPrice, Ascending)
      else if t == "priceHigh" then SortBy(NumericPrice, Descending)
      else if t == "dateNew" then SortBy(PostedDate, Descending)
      else if t == "dateOld" then SortBy(PostedDate, Ascending)
      else EmptyStage
  }

  function FieldName(field: SortField): string
  {
    match field
    case NumericPrice => "numericPrice"
    case PostedDate => "postedDate"
  }

  function DirectionValue(direction: Direction): int
  {
    match direction
    case Ascending => 1
    case Descending => -1
  }

  /** The stage as the sort document handed to `$sort`. */
  function SortDocument(stage: SortStage): (doc: map<string, int>)
    ensures stage == EmptyStage <==> doc == map[]
    ensures |doc| <= 1
    ensures forall key :: key in doc ==> key in {"numericPrice", "postedDate"} && (doc[key] == 1 || doc[key] == -1)
  {
    match stage
    case EmptyStage => map[]
    case SortBy(field, direction) =>
      var doc := map[FieldName(field) := DirectionValue(direction)];
      assert FieldName(field) in doc;
      doc
  }

  /** Reads a sort document back; only the documents SortDocument makes are
      recognised. */
  function StageOfDocument(doc: map<string, int>): Option<SortStage>
  {
    if doc == map[] then Some(EmptyStage)
    else if doc == map["numericPrice" := 1] then Some(SortBy(NumericPrice, Ascending))
    else if doc == map["numericPrice" := -1] then Some(SortBy(NumericPrice, Descending))
    else if doc == map["postedDate" := -1] then Some(SortBy(PostedDate, Descending))
    else if doc == map["postedDate" := 1] then Some(SortBy(PostedDate, Ascending))
    else None
  }

  /** The handler's selection: start from the empty stage and reassign it
      in the first branch whose token matches. */
  method SelectSortStage(sort: Option<string>) returns (sortStage: map<string, int>)
    ensures sortStage == SortDocument(StageFor(sort))
  {
    sortStage := map[];
    if sort == Some("priceLow") {
      sortStage := map["numericPrice" := 1];
    } else if sort == Some("priceHigh") {
      sortStage := map["numericPrice" := -1];
    } else if sort == Some("dateNew") {
      sortStage := map["postedDate" := -1];
    } else if sort == Some("dateOld") {
      sortStage := map["postedDate" := 1];
    }
  }

  /** The four named tokens and what they select. */
  lemma SortTokenTable()
    ensures SortDocument(StageFor(Some("priceLow"))) == map["numericPrice" := 1]
    ensures SortDocument(StageFor(Some("priceHigh"))) == map["numericPrice" := -1]
    ensures SortDocument(StageFor(Some("dateNew"))) == map["postedDate" := -1]
    ensures SortDocument(StageFor(Some("dateOld"))) == map["postedDate" := 1]
    ensures SortDocument(StageFor(None)) == map[]
  {
  }

  /** Every stage is selected by its own token. */
  lemma TokenRoundTrip(stage: SortStage)
    ensures StageFor(TokenOf(stage)) == stage
  {
  }

  /** The sort document loses nothing: the stage can be read back from it. */
  lemma DocumentRoundTrip(stage: SortStage)
    ensures StageOfDocument(SortDocument(stage)) == Some(stage)
  {
    match stage
    case EmptyStage =>
    case SortBy(field, direction) =>
      var doc := SortDocument(stage);
      assert "numericPrice" != "postedDate";
      assert FieldName(field) in doc && doc[FieldName(field)] == DirectionValue(direction);
  }

  /** Distinct known tokens select distinct sort documents. */
  lemma KnownTokensDistinct(a: string, b: string)
    requires a in KnownTokens && b in KnownTokens && a != b
    ensures SortDocument(StageFor(Some(a))) != SortDocument(StageFor(Some(b)))
  {
    DocumentRoundTrip(StageFor(Some(a)));
    DocumentRoundTrip(StageFor(Some(b)));
  }
}
