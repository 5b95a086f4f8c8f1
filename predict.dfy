/**
 * The /predict handler of app.py as a function of what it obtains from the
 * outside: the `city` query argument, the geocoding answer, the weather
 * answer and the answer of the scaler and classifier for the feature row.
 * The two HTTP lookups and the trained model are passed in as functions; the
 * handler's early returns are the branches below.
 */
module Predict {
  import opened Results
  import opened Frame
  import opened Features

  /** What get_coordinates yields: no usable first match (all its failures collapse here), or the first match. */
  datatype Geocode = NoMatch | Match(latitude: real, longitude: real, name: string)

  /** The classifier's answer for one row: the predicted class and the probability of class 1 (rain). */
  datatype Classification = Classification(predicted: int, probability: real)

  /** The `error` payload: a fixed message, or the exception raised while preparing or classifying. */
  datatype ErrorBody = Message(text: string) | Raised(failure: Failure) | InferenceRaised(text: string)

  datatype Response =
    | Forecast(city: string, temp: real, rainPredicted: bool, prob: real, desc: string)
    | Error(status: int, body: ErrorBody)

  const DefaultCity: string := "Moscow"
  const CityNotFound: string := "Город не найден"
  const NoWeatherData: string := "Нет данных о погоде"
  const RainLikely: string := "Высокая вероятность осадков"
  const NoRainExpected: string := "Осадков не ожидается"

  /** The city looked up: the query argument, or Moscow when it is absent. */
  function City(cityArg: Option<string>): (city: string)
    ensures cityArg.Some? ==> city == cityArg.value
    ensures cityArg.None? ==> city == "Moscow"
  {
    if cityArg.Some? then cityArg.value else DefaultCity
  }

  /** `not lat` is false only for a match whose latitude is non-zero (0.0 is falsy in Python). */
  predicate LatitudeTruthy(g: Geocode): (truthy: bool)
    ensures truthy ==> g.Match?
    ensures g.Match? ==> (truthy <==> g.latitude != 0.0)
  {
    g.Match? && g.latitude != 0.0
  }

  /** Python truthiness of a decoded JSON value: None, false, 0, "", [] and {} are falsy. */
  predicate Truthy(j: Json): (truthy: bool)
    ensures !truthy <==> j in {JNull, JBool(false), JNum(0.0), JStr(""), JArr([]), JObj(map[])}
  {
    match j
    case JNull => false
    case JBool(b) => b
    case JNum(x) => x != 0.0
    case JStr(s) => s != ""
    case JArr(items) => items != []
    case JObj(fields) => fields != map[]
  }

  /** The `desc` text, chosen by the predicted class alone. */
  function Description(rain: bool): (desc: string)
    ensures desc == RainLikely <==> rain
    ensures desc == NoRainExpected <==> !rain
  {
    if rain then RainLikely else NoRainExpected
  }

  /**
   * The handler. A falsy latitude answers 404; a falsy weather answer 500;
   * an exception while preparing the row or classifying it 500 with that
   * exception; otherwise the forecast, whose `desc` follows the predicted
   * class and never the probability.
   */
  function Predict(
    cityArg: Option<string>,
    geocode: string -> Geocode,
    fetchWeather: (real, real) -> Json,
    modelColumns: seq<string>,
    classify: Row -> Result<Classification, string>): (resp: Response)
    ensures resp.Error? ==> resp.status == 404 || resp.status == 500
    ensures (resp.Error? && resp.status == 404) <==> !LatitudeTruthy(geocode(City(cityArg)))
    ensures resp.Error? && resp.status == 404 ==> resp.body == Message(CityNotFound)
    ensures resp.Forecast? ==> resp.desc == Description(resp.rainPredicted)
    ensures resp.Forecast? ==> resp.city == geocode(City(cityArg)).name
  {
    var geo := geocode(City(cityArg));
    if !LatitudeTruthy(geo) then Error(404, Message(CityNotFound))
    else
      var w := fetchWeather(geo.latitude, geo.longitude);
      if !Truthy(w) then Error(500, Message(NoWeatherData))
      else
        match PrepareData(w, modelColumns)
        case Err(f) => Error(500, Raised(f))
        case Ok(p) =>
          match classify(p.features)
          case Err(msg) => Error(500, InferenceRaised(msg))
          case Ok(cl) =>
            var rain := cl.predicted != 0;
            Forecast(geo.name, RecordTemperature(p.record), rain, cl.probability * 100.0, Description(rain))
  }

  /**
   * Every outcome of the handler for a city found at (lat, lon): the weather
   * answer's truthiness, whether it carries readings, and the classifier's
   * answer on the feature row of those readings decide it.
   */
  lemma PredictOutcome(
    cityArg: Option<string>,
    geocode: string -> Geocode,
    fetchWeather: (real, real) -> Json,
    modelColumns: seq<string>,
    classify: Row -> Result<Classification, string>)
    requires LatitudeTruthy(geocode(City(cityArg)))
    ensures var geo := geocode(City(cityArg));
      var w := fetchWeather(geo.latitude, geo.longitude);
      var resp := Predict(cityArg, geocode, fetchWeather, modelColumns, classify);
      && (!Truthy(w) ==> resp == Error(500, Message(NoWeatherData)))
      && (Truthy(w) && (forall c :: !Carries(w, c)) ==> resp.Error? && resp.status == 500 && resp.body.Raised?)
      && (forall c :: Truthy(w) && Carries(w, c) ==>
            match classify(FeatureRow(c, modelColumns))
            case Err(msg) => resp == Error(500, InferenceRaised(msg))
            case Ok(cl) =>
              resp == Forecast(geo.name, c.temperature, cl.predicted != 0, cl.probability * 100.0, Description(cl.predicted != 0)))
  {
    var geo := geocode(City(cityArg));
    var w := fetchWeather(geo.latitude, geo.longitude);
    forall c | Truthy(w) && Carries(w, c)
      ensures var resp := Predict(cityArg, geocode, fetchWeather, modelColumns, classify);
        match classify(FeatureRow(c, modelColumns))
        case Err(msg) => resp == Error(500, InferenceRaised(msg))
        case Ok(cl) =>
          resp == Forecast(geo.name, c.temperature, cl.predicted != 0, cl.probability * 100.0, Description(cl.predicted != 0))
    {
      RecordTemperatureIsReading(c);
    }
  }

  /** A city geocoded onto the equator (latitude 0) is reported as not found. */
  lemma EquatorIsNotFound(
    cityArg: Option<string>,
    geocode: string -> Geocode,
    fetchWeather: (real, real) -> Json,
    modelColumns: seq<string>,
    classify: Row -> Result<Classification, string>)
    requires geocode(City(cityArg)).Match? && geocode(City(cityArg)).latitude == 0.0
    ensures Predict(cityArg, geocode, fetchWeather, modelColumns, classify) == Error(404, Message(CityNotFound))
  {
  }

  /** Without a `city` argument the handler answers as for Moscow. */
  lemma DefaultsToMoscow(
    geocode: string -> Geocode,
    fetchWeather: (real, real) -> Json,
    modelColumns: seq<string>,
    classify: Row -> Result<Classification, string>)
    ensures Predict(None, geocode, fetchWeather, modelColumns, classify)
         == Predict(Some("Moscow"), geocode, fetchWeather, modelColumns, classify)
  {
  }

  /**
   * Two classifiers that agree on the predicted class of every row (their
   * probabilities may differ) give the same status, the same rain flag and
   * the same description.
   */
  lemma DescriptionIgnoresProbability(
    cityArg: Option<string>,
    geocode: string -> Geocode,
    fetchWeather: (real, real) -> Json,
    modelColumns: seq<string>,
    classify: Row -> Result<Classification, string>,
    classify': Row -> Result<Classification, string>)
    requires forall row :: classify(row).Ok? <==> classify'(row).Ok?
    requires forall row :: classify(row).Ok? ==> classify(row).value.predicted == classify'(row).value.predicted
    requires forall row :: classify(row).Err? ==> classify(row) == classify'(row)
    ensures var r := Predict(cityArg, geocode, fetchWeather, modelColumns, classify);
      var r' := Predict(cityArg, geocode, fetchWeather, modelColumns, classify');
      && r.Forecast? == r'.Forecast?
      && (r.Error? ==> r == r')
      && (r.Forecast? ==> r.rainPredicted == r'.rainPredicted && r.desc == r'.desc && r.temp == r'.temp && r.city == r'.city)
  {
  }
}
