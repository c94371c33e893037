/** The `/predict` request handler: read the two measurements from the JSON
    request, reject the request when one is missing, otherwise ask the trained
    classifier for a probability and answer with its category and the
    probability rounded to three decimals. */
module WebApp {
  import opened Decision

  datatype Option<T> = None | Some(value: T)

  /** A value of the request's JSON object; only numbers and null are modelled. */
  datatype Value = Null | Number(x: real)

  /** A value of the response's JSON object. */
  datatype Field = Text(s: string) | Num(x: real)

  /** The JSON body of a response together with its HTTP status code. */
  datatype Response = Response(body: map<string, Field>, status: int)

  const SLKey: string := "S-L dimension (mm)"
  const APKey: string := "A-P Dimension (mm)"
  const MissingMessage: string := "Missing input values"

  /** Python's `dict.get`: None for an absent key and also for a JSON null. */
  function Get(data: map<string, Value>, key: string): (v: Option<real>)
    ensures v.None? <==> key !in data || data[key] == Null
    ensures v.Some? ==> data[key] == Number(v.value)
  {
    if key in data && data[key].Number? then Some(data[key].x) else None
  }

  /** Whether the request reaches the classifier. */
  predicate HasInputs(data: map<string, Value>) {
    Get(data, SLKey).Some? && Get(data, APKey).Some?
  }

  /** The handler; `estimate(sl, ap)` is the trained classifier's probability of
      the positive (screen-fail) class for the two measurements. */
  function Predict(data: map<string, Value>, estimate: (real, real) -> real): (resp: Response)
    ensures !HasInputs(data) ==>
      resp == Response(map["error" := Text(MissingMessage)], 400)
    ensures HasInputs(data) ==>
      var p := estimate(Get(data, SLKey).value, Get(data, APKey).value);
      && resp.status == 200
      && resp.body.Keys == {"prediction", "probability"}
      && resp.body["prediction"] == Text(Label(Classify(p)))
      && resp.body["probability"].Num?
      && -0.0005 <= resp.body["probability"].x - p <= 0.0005
      && IsThousandth(resp.body["probability"].x)
  {
    var sl := Get(data, SLKey);
    var ap := Get(data, APKey);
    if sl.None? || ap.None? then
      Response(map["error" := Text(MissingMessage)], 400)
    else
      var prob := estimate(sl.value, ap.value);
      Response(map["prediction" := Text(Label(Classify(prob))), "probability" := Num(Round3(prob))], 200)
  }

  /** The error branch does not depend on the classifier: whatever it would
      answer, a request with a missing value gets the same 400 response. */
  lemma MissingInputIgnoresClassifier(data: map<string, Value>, e1: (real, real) -> real, e2: (real, real) -> real)
    requires Get(data, SLKey).None? || Get(data, APKey).None?
    ensures Predict(data, e1) == Predict(data, e2)
    ensures Predict(data, e1).status == 400
    ensures "error" in Predict(data, e1).body && "prediction" !in Predict(data, e1).body
  {
  }

  /** Conversely, with both values present the answer is the classifier's:
      two classifiers that disagree on which side of 0.45 the pair lies get
      different responses. */
  lemma PresentInputsConsultClassifier(data: map<string, Value>, e1: (real, real) -> real, e2: (real, real) -> real)
    requires HasInputs(data)
    requires e1(Get(data, SLKey).value, Get(data, APKey).value) >= 0.45
    requires e2(Get(data, SLKey).value, Get(data, APKey).value) < 0.45
    ensures Predict(data, e1) != Predict(data, e2)
  {
    var sl, ap := Get(data, SLKey).value, Get(data, APKey).value;
    LabelInjective(Classify(e1(sl, ap)), Classify(e2(sl, ap)));
    assert Predict(data, e1).body["prediction"] != Predict(data, e2).body["prediction"];
  }

  /** A request that omits the A-P dimension is rejected. */
  lemma MissingAPExample(sl: real, estimate: (real, real) -> real)
    ensures Predict(map[SLKey := Number(sl)], estimate)
         == Response(map["error" := Text("Missing input values")], 400)
  {
  }

  /** The guard tests for None, not for falsiness: zero measurements are present. */
  lemma ZeroIsPresent(estimate: (real, real) -> real)
    ensures Predict(map[SLKey := Number(0.0), APKey := Number(0.0)], estimate).status == 200
  {
  }

  /** A successful response never carries the `error` key, and carries the
      category of the classifier's probability. */
  lemma SuccessShape(data: map<string, Value>, estimate: (real, real) -> real)
    requires HasInputs(data)
    ensures "error" !in Predict(data, estimate).body
    ensures |Predict(data, estimate).body| == 2
  {
    assert Predict(data, estimate).body.Keys == {"prediction", "probability"};
  }

  /** End to end: sl = 46, ap = 42 with a classifier answering 0.46 gives
      {"prediction": "Screen Fail", "probability": 0.46}. */
  lemma EndToEndExample()
    ensures Predict(map[SLKey := Number(46.0), APKey := Number(42.0)], (sl, ap) => 0.46)
         == Response(map["prediction" := Text("Screen Fail"), "probability" := Num(0.46)], 200)
  {
    Round3Unique(0.46, 0.46);
  }

  /** The category is decided on the unrounded probability, so the reported
      probability can sit on the other side of a threshold: 0.4496 is reported
      as 0.45 yet classified CT Recommended. */
  lemma RoundedProbabilityCanCrossThreshold()
    ensures Predict(map[SLKey := Number(46.0), APKey := Number(42.0)], (sl, ap) => 0.4496)
         == Response(map["prediction" := Text("CT Recommended"), "probability" := Num(0.45)], 200)
    ensures Classify(0.45) == ScreenFail
  {
    Round3Unique(0.4496, 0.45);
  }
}
