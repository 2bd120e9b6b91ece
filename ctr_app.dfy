/** The submission handling of the click-through-rate prediction app: a form
    submission is encoded into the feature record the classifier was trained
    on, the record is reindexed against the expected feature columns, and
    the classifier's click probability is classified into an insight tier.
    Loading the artifact bundle, the widgets and the classifier itself are
    outside this model; the bundle and the probability are parameters. */
module CtrApp {
  import opened Wrappers
  import opened Seqs
  import opened Encoders
  import opened Frames

  /** One submission of the prediction form, field by field. */
  datatype Submission = Submission(
    age: int,
    gender: string,
    areaIncome: real,
    dailyTimeSpent: real,
    dailyInternetUsage: real,
    city: string,
    country: string,
    adTopic: string,
    hourOfDay: int,
    dayOfMonth: int,
    dayOfWeek: int,
    month: int)

  /** The loaded artifact bundle, less the fitted classifier: label encoders
      and frequency tables keyed by categorical field, and the ordered list
      of feature columns the classifier expects. */
  datatype Artifacts = Artifacts(
    labelEncoders: map<string, LabelEncoder>,
    frequencyMaps: map<string, map<string, int>>,
    featureColumns: seq<string>)
  {
    /** Every label encoder in the bundle is fitted: its classes are distinct. */
    predicate Valid() {
      forall f :: f in labelEncoders ==> labelEncoders[f].Fitted()
    }
  }

  /** Why encoding a submission fails: a frequency table the bundle lacks. */
  datatype EncodeError = MissingFrequencyMap(field: string)

  // Categorical field names, as keys of the encoder and frequency maps.
  const CityField := "city"
  const CountryField := "country"
  const AdTopicField := "ad_topic"

  // Feature names written into the record.
  const DailyTimeSpentOnSite := "DailyTime_Spent_on_Site"
  const Age := "Age"
  const AreaIncome := "Area_Income"
  const DailyInternetUsage := "Daily_Internet_Usage"
  const DayOfMonth := "day_of_month"
  const HourOfDay := "hour_of_day"
  const DayOfWeek := "day_of_week"
  const Month := "month"
  const CityFrequency := "City_frequency"
  const CountryFrequency := "Country_frequency"
  const CityEncoded := "City_encoded"
  const CountryEncoded := "Country_encoded"
  const AdTopicEncoded := "Ad_Topic_encoded"
  const GenderEncoded := "Gender_encoded"

  /** Every feature name the record can hold. */
  const FeatureNames: set<string> := {
    DailyTimeSpentOnSite, Age, AreaIncome, DailyInternetUsage,
    DayOfMonth, HourOfDay, DayOfWeek, Month,
    CityFrequency, CountryFrequency,
    CityEncoded, CountryEncoded, AdTopicEncoded, GenderEncoded }

  // ---------------------------------------------------------------------------
  // The form

  /** The choices offered by the three categorical select boxes. */
  datatype Options = Options(cities: seq<string>, countries: seq<string>, adTopics: seq<string>)

  /** The hard-coded choices used when the vocabularies cannot be read. */
  const FallbackOptions := Options(
    ["New York", "Los Angeles", "Chicago"],
    ["United States", "Canada", "United Kingdom"],
    ["Technology", "Fashion", "Sports"])

  /** The select-box choices: the three encoders' vocabularies when all
      three encoders are in the bundle, and otherwise all three fallback
      lists, even for the fields whose encoders were read. */
  function AvailableOptions(encoders: map<string, LabelEncoder>): (o: Options)
    ensures CityField in encoders && CountryField in encoders && AdTopicField in encoders ==>
      o.cities == encoders[CityField].classes
      && o.countries == encoders[CountryField].classes
      && o.adTopics == encoders[AdTopicField].classes
    ensures !(CityField in encoders && CountryField in encoders && AdTopicField in encoders) ==>
      o == FallbackOptions
  {
    if CityField in encoders && CountryField in encoders && AdTopicField in encoders then
      Options(encoders[CityField].classes, encoders[CountryField].classes, encoders[AdTopicField].classes)
    else
      FallbackOptions
  }

  /** The bounds the widgets put on what can be submitted. */
  predicate InWidgetRanges(s: Submission) {
    && 18 <= s.age <= 100
    && s.gender in ["Male", "Female"]
    && 0.0 <= s.areaIncome <= 200000.0
    && 0.0 <= s.dailyTimeSpent <= 500.0
    && 0.0 <= s.dailyInternetUsage <= 500.0
    && 0 <= s.hourOfDay <= 23
    && 1 <= s.dayOfMonth <= 31
    && 0 <= s.dayOfWeek <= 6
    && 1 <= s.month <= 12
  }

  /** A submission the form can produce from the given bundle. */
  predicate FromForm(art: Artifacts, s: Submission) {
    var o := AvailableOptions(art.labelEncoders);
    InWidgetRanges(s) && s.city in o.cities && s.country in o.countries && s.adTopic in o.adTopics
  }

  /** The submission the form holds before the user changes anything: each
      widget's default value and the first choice of each select box. */
  function FormDefaults(o: Options): Submission
    requires |o.cities| > 0 && |o.countries| > 0 && |o.adTopics| > 0
  {
    Submission(30, "Male", 50000.0, 50.0, 150.0, o.cities[0], o.countries[0], o.adTopics[0], 12, 15, 3, 6)
  }

  /** The widgets' defaults lie within their bounds, so a form submitted
      untouched is a submission the form can produce. */
  lemma FormDefaultsFromForm(art: Artifacts)
    requires var o := AvailableOptions(art.labelEncoders);
      |o.cities| > 0 && |o.countries| > 0 && |o.adTopics| > 0
    ensures FromForm(art, FormDefaults(AvailableOptions(art.labelEncoders)))
  {
  }

  // ---------------------------------------------------------------------------
  // Encoding

  /** The label-encoded feature for a categorical value: its index in the
      field's encoder vocabulary, and 0 whenever that lookup fails (no encoder
      for the field, or a value the encoder has not seen). */
  function EncodedOrZero(encoders: map<string, LabelEncoder>, field: string, v: string): (r: nat)
    ensures field in encoders && v in encoders[field].classes ==>
      r < |encoders[field].classes| && encoders[field].classes[r] == v
    ensures !(field in encoders && v in encoders[field].classes) ==> r == 0
  {
    if field in encoders then encoders[field].Transform(v).GetOr(0) else 0
  }

  /** The gender flag: 1 for "Male" and 0 for anything else. */
  function GenderFlag(gender: string): (r: int)
    ensures r == 1 <==> gender == "Male"
    ensures r == 0 || r == 1
  {
    if gender == "Male" then 1 else 0
  }

  /** The feature record of a submission, or the error that aborts it: a
      missing city or country frequency table raises outside the encoders'
      own fallbacks. */
  function FeatureRecord(art: Artifacts, s: Submission): (r: Result<Record, EncodeError>)
    ensures r.Ok? <==> CityField in art.frequencyMaps && CountryField in art.frequencyMaps
    ensures CityField !in art.frequencyMaps ==> r == Err(MissingFrequencyMap(CityField))
    ensures CityField in art.frequencyMaps && CountryField !in art.frequencyMaps ==>
      r == Err(MissingFrequencyMap(CountryField))
    ensures r.Ok? ==> r.value.Keys == FeatureNames
  {
    if CityField !in art.frequencyMaps then Err(MissingFrequencyMap(CityField))
    else if CountryField !in art.frequencyMaps then Err(MissingFrequencyMap(CountryField))
    else Ok(map[
      DailyTimeSpentOnSite := FloatVal(s.dailyTimeSpent),
      Age := IntVal(s.age),
      AreaIncome := FloatVal(s.areaIncome),
      DailyInternetUsage := FloatVal(s.dailyInternetUsage),
      DayOfMonth := IntVal(s.dayOfMonth),
      HourOfDay := IntVal(s.hourOfDay),
      DayOfWeek := IntVal(s.dayOfWeek),
      Month := IntVal(s.month),
      CityFrequency := IntVal(FrequencyOf(art.frequencyMaps[CityField], s.city)),
      CountryFrequency := IntVal(FrequencyOf(art.frequencyMaps[CountryField], s.country)),
      CityEncoded := IntVal(EncodedOrZero(art.labelEncoders, CityField, s.city)),
      CountryEncoded := IntVal(EncodedOrZero(art.labelEncoders, CountryField, s.country)),
      AdTopicEncoded := IntVal(EncodedOrZero(art.labelEncoders, AdTopicField, s.adTopic)),
      GenderEncoded := IntVal(GenderFlag(s.gender))])
  }

  /** Builds the feature record the way the submission handler does: an
      empty dictionary filled feature by feature, abandoned when a frequency
      table is missing. */
  method AssembleRecord(art: Artifacts, s: Submission) returns (r: Result<Record, EncodeError>)
    ensures r == FeatureRecord(art, s)
  {
    var inputData: Record := map[];

    inputData := inputData[DailyTimeSpentOnSite := FloatVal(s.dailyTimeSpent)];
    inputData := inputData[Age := IntVal(s.age)];
    inputData := inputData[AreaIncome := FloatVal(s.areaIncome)];
    inputData := inputData[DailyInternetUsage := FloatVal(s.dailyInternetUsage)];

    inputData := inputData[DayOfMonth := IntVal(s.dayOfMonth)];
    inputData := inputData[HourOfDay := IntVal(s.hourOfDay)];
    inputData := inputData[DayOfWeek := IntVal(s.dayOfWeek)];
    inputData := inputData[Month := IntVal(s.month)];

    if CityField !in art.frequencyMaps {
      return Err(MissingFrequencyMap(CityField));
    }
    inputData := inputData[CityFrequency := IntVal(FrequencyOf(art.frequencyMaps[CityField], s.city))];
    if CountryField !in art.frequencyMaps {
      return Err(MissingFrequencyMap(CountryField));
    }
    inputData := inputData[CountryFrequency := IntVal(FrequencyOf(art.frequencyMaps[CountryField], s.country))];

    inputData := inputData[CityEncoded := IntVal(EncodedOrZero(art.labelEncoders, CityField, s.city))];
    inputData := inputData[CountryEncoded := IntVal(EncodedOrZero(art.labelEncoders, CountryField, s.country))];
    inputData := inputData[AdTopicEncoded := IntVal(EncodedOrZero(art.labelEncoders, AdTopicField, s.adTopic))];

    inputData := inputData[GenderEncoded := IntVal(GenderFlag(s.gender))];

    r := Ok(inputData);
  }

  /** The single row handed to the classifier: the feature record reindexed
      against the expected columns: one cell per expected column, in order,
      holding the record's value for a feature name and the fill value 0 for
      any other column. It fails exactly when the record does. */
  function PrepareRow(art: Artifacts, s: Submission): (r: Result<seq<Value>, EncodeError>)
    ensures r.Err? <==> FeatureRecord(art, s).Err?
    ensures r.Err? ==> r.error == FeatureRecord(art, s).error
    ensures r.Ok? ==>
      var cols := art.featureColumns;
      && |r.value| == |cols|
      && (forall i :: 0 <= i < |cols| && cols[i] in FeatureNames ==> r.value[i] == FeatureRecord(art, s).value[cols[i]])
      && (forall i :: 0 <= i < |cols| && cols[i] !in FeatureNames ==> r.value[i] == Fill)
  {
    match FeatureRecord(art, s)
    case Ok(rec) => Ok(Reindex(rec, art.featureColumns))
    case Err(e) => Err(e)
  }

  // ---------------------------------------------------------------------------
  // Properties of the encoding

  /** The numeric and time fields are copied into the record unchanged. */
  lemma RecordPassesThrough(art: Artifacts, s: Submission)
    requires FeatureRecord(art, s).Ok?
    ensures var rec := FeatureRecord(art, s).value;
      && rec[DailyTimeSpentOnSite] == FloatVal(s.dailyTimeSpent)
      && rec[Age] == IntVal(s.age)
      && rec[AreaIncome] == FloatVal(s.areaIncome)
      && rec[DailyInternetUsage] == FloatVal(s.dailyInternetUsage)
      && rec[DayOfMonth] == IntVal(s.dayOfMonth)
      && rec[HourOfDay] == IntVal(s.hourOfDay)
      && rec[DayOfWeek] == IntVal(s.dayOfWeek)
      && rec[Month] == IntVal(s.month)
  {
  }

  /** The frequency features are the training counts of the city and the
      country, and 1 for a value without a count. */
  lemma RecordFrequencies(art: Artifacts, s: Submission)
    requires FeatureRecord(art, s).Ok?
    ensures var rec := FeatureRecord(art, s).value;
      var cities := art.frequencyMaps[CityField];
      var countries := art.frequencyMaps[CountryField];
      && (s.city in cities ==> rec[CityFrequency] == IntVal(cities[s.city]))
      && (s.city !in cities ==> rec[CityFrequency] == IntVal(1))
      && (s.country in countries ==> rec[CountryFrequency] == IntVal(countries[s.country]))
      && (s.country !in countries ==> rec[CountryFrequency] == IntVal(1))
  {
  }

  /** A label-encoded feature is the value's position in the vocabulary when
      the encoder knows the value, and 0 otherwise. */
  lemma RecordLabelEncodings(art: Artifacts, s: Submission)
    requires FeatureRecord(art, s).Ok?
    ensures var rec := FeatureRecord(art, s).value;
      && LabelFeatureMeans(art.labelEncoders, CityField, s.city, rec[CityEncoded])
      && LabelFeatureMeans(art.labelEncoders, CountryField, s.country, rec[CountryEncoded])
      && LabelFeatureMeans(art.labelEncoders, AdTopicField, s.adTopic, rec[AdTopicEncoded])
  {
  }

  /** `feature` is the encoding of `v` as the source defines it: the index of
      `v` among the field's known classes, or 0 when `v` is not known. */
  predicate LabelFeatureMeans(encoders: map<string, LabelEncoder>, field: string, v: string, feature: Value) {
    if field in encoders && v in encoders[field].classes then
      feature.IntVal? && 0 <= feature.i < |encoders[field].classes| && encoders[field].classes[feature.i] == v
    else
      feature == IntVal(0)
  }

  /** The gender feature is 1 exactly for "Male". */
  lemma RecordGender(art: Artifacts, s: Submission)
    requires FeatureRecord(art, s).Ok?
    ensures var rec := FeatureRecord(art, s).value;
      && (rec[GenderEncoded] == IntVal(1) <==> s.gender == "Male")
      && rec[GenderEncoded] in {IntVal(0), IntVal(1)}
  {
  }

  /** An unseen city gets the same encoding as the first known city: the
      default 0 cannot be told apart from the encoding of `classes_[0]`. */
  lemma UnseenCityLooksLikeFirstClass(art: Artifacts, s: Submission, unseen: string)
    requires CityField in art.frequencyMaps && CountryField in art.frequencyMaps
    requires CityField in art.labelEncoders
    requires var known := art.labelEncoders[CityField].classes; |known| > 0 && unseen !in known
    ensures unseen != art.labelEncoders[CityField].classes[0]
    ensures FeatureRecord(art, s.(city := unseen)).value[CityEncoded]
         == FeatureRecord(art, s.(city := art.labelEncoders[CityField].classes[0])).value[CityEncoded]
  {
  }

  /** Among known cities the encoding is faithful: two known cities get the
      same feature only when they are the same city. */
  lemma KnownCitiesKeptApart(art: Artifacts, s: Submission, c1: string, c2: string)
    requires CityField in art.frequencyMaps && CountryField in art.frequencyMaps
    requires CityField in art.labelEncoders
    requires c1 in art.labelEncoders[CityField].classes && c2 in art.labelEncoders[CityField].classes
    requires FeatureRecord(art, s.(city := c1)).value[CityEncoded] == FeatureRecord(art, s.(city := c2)).value[CityEncoded]
    ensures c1 == c2
  {
  }

  /** With all three vocabularies readable, whatever the form lets the user
      pick is known to its encoder, so the 0 default never fires and each
      label feature is the encoder's own transform of the value. */
  lemma FormChoicesEncodeExactly(art: Artifacts, s: Submission)
    requires FeatureRecord(art, s).Ok? && FromForm(art, s)
    requires CityField in art.labelEncoders && CountryField in art.labelEncoders && AdTopicField in art.labelEncoders
    ensures var rec := FeatureRecord(art, s).value;
      && art.labelEncoders[CityField].Transform(s.city).Some?
      && rec[CityEncoded] == IntVal(art.labelEncoders[CityField].Transform(s.city).value)
      && art.labelEncoders[CountryField].Transform(s.country).Some?
      && rec[CountryEncoded] == IntVal(art.labelEncoders[CountryField].Transform(s.country).value)
      && art.labelEncoders[AdTopicField].Transform(s.adTopic).Some?
      && rec[AdTopicEncoded] == IntVal(art.labelEncoders[AdTopicField].Transform(s.adTopic).value)
  {
  }

  /** In a valid bundle, the class at position i of a field's vocabulary is
      encoded as exactly i. */
  lemma KnownClassEncodesToIndex(art: Artifacts, s: Submission, i: nat)
    requires art.Valid() && FeatureRecord(art, s).Ok?
    requires CityField in art.labelEncoders && i < |art.labelEncoders[CityField].classes|
    requires s.city == art.labelEncoders[CityField].classes[i]
    ensures FeatureRecord(art, s).value[CityEncoded] == IntVal(i)
  {
  }

  /** The worked example of a known submission: New York is class 2 with
      count 120, United States class 0 with count 300, Technology class 1. */
  lemma ExampleSubmission()
    ensures PrepareRow(ExampleArtifacts(), ExampleInput())
         == Ok([IntVal(30), IntVal(1), IntVal(2), IntVal(0), IntVal(120), IntVal(300), IntVal(1), Fill])
  {
    ExampleRecord();
    ExampleReindex(FeatureRecord(ExampleArtifacts(), ExampleInput()).value);
  }

  /** Reindexing a record with the worked example's features against its columns. */
  lemma ExampleReindex(rec: Record)
    requires ExampleFeatures(rec)
    ensures Reindex(rec, ExampleArtifacts().featureColumns)
         == [IntVal(30), IntVal(1), IntVal(2), IntVal(0), IntVal(120), IntVal(300), IntVal(1), Fill]
  {
  }

  /** The features of the worked example that its column list asks for. */
  lemma ExampleRecord()
    ensures FeatureRecord(ExampleArtifacts(), ExampleInput()).Ok?
    ensures ExampleFeatures(FeatureRecord(ExampleArtifacts(), ExampleInput()).value)
  {
    var art := ExampleArtifacts();
    assert art.labelEncoders[CityField].Transform("New York") == Some(2);
    assert art.labelEncoders[CountryField].Transform("United States") == Some(0);
    assert art.labelEncoders[AdTopicField].Transform("Technology") == Some(1);
  }

  /** The features the worked example's record provides for its columns. */
  predicate ExampleFeatures(rec: Record) {
    && Age in rec && rec[Age] == IntVal(30)
    && GenderEncoded in rec && rec[GenderEncoded] == IntVal(1)
    && CityEncoded in rec && rec[CityEncoded] == IntVal(2)
    && CountryEncoded in rec && rec[CountryEncoded] == IntVal(0)
    && CityFrequency in rec && rec[CityFrequency] == IntVal(120)
    && CountryFrequency in rec && rec[CountryFrequency] == IntVal(300)
    && AdTopicEncoded in rec && rec[AdTopicEncoded] == IntVal(1)
    && "Clicked_On_Ad" !in rec
  }

  /** The bundle of the worked example; its column list ends with a column
      the record does not provide. */
  function ExampleArtifacts(): Artifacts {
    Artifacts(
      map[CityField := LabelEncoder(["Chicago", "Los Angeles", "New York"]),
          CountryField := LabelEncoder(["United States", "Vietnam"]),
          AdTopicField := LabelEncoder(["Fashion", "Technology"])],
      map[CityField := map["New York" := 120, "Chicago" := 80],
          CountryField := map["United States" := 300]],
      [Age, GenderEncoded, CityEncoded, CountryEncoded, CityFrequency, CountryFrequency, AdTopicEncoded, "Clicked_On_Ad"])
  }

  /** The submission of the worked example. */
  function ExampleInput(): Submission {
    Submission(30, "Male", 50000.0, 50.0, 150.0, "New York", "United States", "Technology", 12, 15, 3, 6)
  }

  // ---------------------------------------------------------------------------
  // Insight tier

  /** The qualitative insight shown for a click probability. */
  datatype Insight = Excellent | Moderate | Poor

  /** The insight for probability `p`: excellent above 0.7, moderate above
      0.5 up to 0.7, poor at 0.5 and below. */
  function Tier(p: real): (t: Insight)
    ensures t == Excellent <==> p > 0.7
    ensures t == Moderate <==> 0.5 < p <= 0.7
    ensures t == Poor <==> p <= 0.5
  {
    if p > 0.7 then Excellent
    else if p > 0.5 then Moderate
    else Poor
  }

  /** The rank of a tier, from poor (0) to excellent (2). */
  function Rank(t: Insight): nat {
    match t
    case Poor => 0
    case Moderate => 1
    case Excellent => 2
  }

  /** A higher probability never gets a worse insight. */
  lemma TierMonotone(p: real, q: real)
    requires p <= q
    ensures Rank(Tier(p)) <= Rank(Tier(q))
  {
  }
}
