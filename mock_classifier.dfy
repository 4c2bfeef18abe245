/**
 * The mock disease result that the scan action fabricates
 * (project/src/App.tsx, inside `handleScan`). Every `Math.random()` call is
 * a parameter of type `Draw`; an index is taken as `Math.floor(draw * n)`.
 */
module MockClassifier {

  /** A value returned by `Math.random()`: a number in [0, 1). */
  type Draw = r: real | 0.0 <= r < 1.0

  const Healthy := "Healthy"
  const NoLevel := "None"

  const Diseases: seq<string> := ["Black Rot", "Downy Mildew", "Powdery Mildew", "Anthracnose", Healthy]
  const Severities: seq<string> := ["Mild", "Moderate", "Severe"]
  const Urgencies: seq<string> := ["Low", "Medium", "High"]

  const HealthyRecommendations: seq<string> := [
    "Leaf appears healthy",
    "Continue regular monitoring",
    "Maintain good vineyard hygiene",
    "Ensure proper air circulation"
  ]

  const TreatmentRecommendations: seq<string> := [
    "Apply copper-based fungicide immediately",
    "Remove and destroy affected leaves",
    "Improve air circulation around vines",
    "Monitor surrounding plants for spread",
    "Consider organic treatment options"
  ]

  /**
   * The fabricated prediction. `confidence` is the already formatted text
   * of a random value in [75, 100) with one decimal; it is carried as is.
   */
  datatype MockResult = MockResult(
    disease: string,
    confidence: string,
    severity: string,
    recommendations: seq<string>,
    treatmentUrgency: string)

  /** `Math.floor(draw * n)`: a uniformly drawn index into a list of `n` items. */
  function PickIndex(draw: Draw, n: nat): (k: nat)
    requires n > 0
    ensures k < n
    ensures k as real <= draw * n as real < (k + 1) as real
  {
    var x := draw * n as real;
    assert 0.0 <= x < n as real by {
      assert draw * n as real < 1.0 * n as real;
    }
    x.Floor
  }

  /** The shape every fabricated result has, whichever draws produced it. */
  predicate WellFormed(m: MockResult)
  {
    && m.disease in Diseases
    && (m.disease == Healthy ==>
          m.severity == NoLevel && m.treatmentUrgency == NoLevel
          && m.recommendations == HealthyRecommendations)
    && (m.disease != Healthy ==>
          m.severity in Severities && m.treatmentUrgency in Urgencies
          && m.recommendations == TreatmentRecommendations)
  }

  /**
   * The mock-result builder. The severity and urgency draws are consumed
   * only when the drawn disease is not "Healthy".
   */
  function BuildMockResult(diseaseDraw: Draw, confidence: string, severityDraw: Draw, urgencyDraw: Draw): (m: MockResult)
    ensures WellFormed(m)
    ensures m.disease == Diseases[PickIndex(diseaseDraw, |Diseases|)]
    ensures m.confidence == confidence
    ensures m.disease == Healthy <==> PickIndex(diseaseDraw, |Diseases|) == 4
  {
    var disease := Diseases[PickIndex(diseaseDraw, |Diseases|)];
    MockResult(
      disease,
      confidence,
      if disease == Healthy then NoLevel else Severities[PickIndex(severityDraw, |Severities|)],
      if disease == Healthy then HealthyRecommendations else TreatmentRecommendations,
      if disease == Healthy then NoLevel else Urgencies[PickIndex(urgencyDraw, |Urgencies|)])
  }

  /**
   * The disease draw splits [0, 1) into five equal parts: disease `k` is
   * produced exactly by the draws in [k/5, (k+1)/5).
   */
  lemma EveryDiseaseReachable(k: nat, d: Draw, confidence: string, severityDraw: Draw, urgencyDraw: Draw)
    requires k < |Diseases|
    ensures BuildMockResult(d, confidence, severityDraw, urgencyDraw).disease == Diseases[k]
            <==> k as real / 5.0 <= d < (k + 1) as real / 5.0
  {
    var j := PickIndex(d, |Diseases|);
    assert forall a, b :: 0 <= a < b < |Diseases| ==> Diseases[a] != Diseases[b] by {
      assert Diseases[0] != Diseases[1] && Diseases[0] != Diseases[2] && Diseases[0] != Diseases[3] && Diseases[0] != Diseases[4];
      assert Diseases[1] != Diseases[2] && Diseases[1] != Diseases[3] && Diseases[1] != Diseases[4];
      assert Diseases[2] != Diseases[3] && Diseases[2] != Diseases[4] && Diseases[3] != Diseases[4];
    }
    if k as real / 5.0 <= d < (k + 1) as real / 5.0 {
      assert k as real <= d * 5.0 < (k + 1) as real;
      assert j as real <= d * 5.0 < (j + 1) as real;
      assert j == k;
    } else {
      assert !(k as real <= d * 5.0 < (k + 1) as real);
      assert j != k;
    }
  }

  /**
   * For a diseased leaf, the severity and urgency follow their own draws:
   * every level of each is reachable, independently of the other.
   */
  lemma EverySeverityAndUrgencyReachable(diseaseDraw: Draw, confidence: string, s: nat, u: nat)
    requires PickIndex(diseaseDraw, |Diseases|) != 4
    requires s < 3 && u < 3
    ensures var m := BuildMockResult(diseaseDraw, confidence, s as real / 3.0, u as real / 3.0);
            m.severity == Severities[s] && m.treatmentUrgency == Urgencies[u]
  {
    var sd: Draw := s as real / 3.0;
    var ud: Draw := u as real / 3.0;
    assert sd * 3.0 == s as real && ud * 3.0 == u as real;
    assert PickIndex(sd, 3) == s && PickIndex(ud, 3) == u;
  }
}
