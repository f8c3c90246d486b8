/**
 * The demonstration driver: the bundled sample corpus, the per-plant
 * digitization result, the loop that builds one result per plant, and the
 * average cultural-preservation score of the summary.
 */
module Demo {
  import opened Wrappers
  import opened Text
  import opened Knowledge

  /** Everything recorded for one plant (the wall-clock timestamp is not modelled). */
  datatype DigitizationResult = DigitizationResult(
    plantName: string,
    scientificName: string,
    audioProcessing: AudioFeatures,
    visualProcessing: VisualFeatures,
    textualProcessing: TextualFeatures,
    knowledgeGraph: KnowledgeGraph,
    culturalPreservationScore: real,
    ethicalCompliance: string)

  const CulturalPreservationScore: real := 0.95
  const EthicalCompliance: string := "\U{2705} Public knowledge only"

  /** The result the loop body appends for one plant. */
  function DigitizePlant(plant: Plant): (r: DigitizationResult)
    ensures WellFormed(r)
    ensures PlantOf(r) == plant
  {
    AudioNamesItsPlant(plant.name, plant.audioDescription);
    VisualNamesItsPlant(plant.name, plant.visualDescription);
    TextualNamesItsPlant(plant.name, plant.uses);
    DigitizationResult(
      plant.name,
      plant.scientificName,
      ProcessAudioKnowledge(plant.name, plant.audioDescription),
      ProcessVisualKnowledge(plant.name, plant.visualDescription),
      ProcessTextualKnowledge(plant.name, plant.uses),
      CreateKnowledgeGraph(plant),
      CulturalPreservationScore,
      EthicalCompliance)
  }

  /**
   * The parts of one result agree with each other: every caption and the
   * graph name the same plant, the graph's uses are the documented uses,
   * and every score and fixed note is the source's constant.
   */
  predicate WellFormed(r: DigitizationResult)
  {
    && AudioSubject(r.audioProcessing) == Some(r.plantName)
    && VisualSubject(r.visualProcessing) == Some(r.plantName)
    && TextualSubject(r.textualProcessing) == Some(r.plantName)
    && r.knowledgeGraph.plantName == r.plantName
    && r.knowledgeGraph.traditionalUses == r.textualProcessing.documentedUses
    && r.audioProcessing.preservationQuality == AudioPreservationQuality
    && r.audioProcessing.audioClarity == AudioClarity
    && r.textualProcessing.knowledgeSource == KnowledgeSource
    && r.visualProcessing.visualAccuracy == VisualAccuracy
    && r.textualProcessing.textPreservation == TextPreservation
    && r.knowledgeGraph.relationshipIntegrity == RelationshipIntegrity
    && r.knowledgeGraph.culturalRelationships == CulturalRelationships
    && r.culturalPreservationScore == CulturalPreservationScore
    && r.ethicalCompliance == EthicalCompliance
  }

  /** The plant record a result was made from, read back out of the result. */
  function PlantOf(r: DigitizationResult): Plant
  {
    Plant(
      r.plantName,
      r.scientificName,
      r.textualProcessing.documentedUses,
      r.knowledgeGraph.preparationMethods,
      r.audioProcessing.spokenContent,
      r.visualProcessing.preparationMethods)
  }

  /** Digitization loses nothing: distinct plants give distinct results. */
  lemma DigitizeInjective(p: Plant, q: Plant)
    ensures DigitizePlant(p) == DigitizePlant(q) <==> p == q
  {
    if DigitizePlant(p) == DigitizePlant(q) {
      assert p == PlantOf(DigitizePlant(p));
    }
  }

  /** A well-formed result is exactly the digitization of the plant it records. */
  lemma WellFormedIsDigitized(r: DigitizationResult)
    requires WellFormed(r)
    ensures DigitizePlant(PlantOf(r)) == r
  {
    var p := PlantOf(r);
    var d := DigitizePlant(p);
    var a := r.audioProcessing;
    var sa := Subject(OralKnowledgePrefix, "", a.culturalContext);
    assert a.culturalContext == Fill(OralKnowledgePrefix, sa.value, "");
    assert d.audioProcessing == a;
    var v := r.visualProcessing;
    var si := Subject("", IdentificationSuffix, v.plantIdentification);
    var ss := Subject(PreparationTechniquesPrefix, "", v.culturalSignificance);
    assert v.plantIdentification == Fill("", si.value, IdentificationSuffix);
    assert v.culturalSignificance == Fill(PreparationTechniquesPrefix, ss.value, "");
    assert d.visualProcessing == v;
    var t := r.textualProcessing;
    var st := Subject(DocumentedApplicationsPrefix, "", t.culturalContext);
    assert t.culturalContext == Fill(DocumentedApplicationsPrefix, st.value, "");
    assert d.textualProcessing == t;
  }

  // ------------------------------------------------------------ summary

  /** Left-to-right sum of the cultural-preservation scores. */
  function SumScores(results: seq<DigitizationResult>): real
  {
    if |results| == 0 then 0.0
    else SumScores(results[..|results| - 1]) + results[|results| - 1].culturalPreservationScore
  }

  /** The summary's average score; None where the source divides by zero. */
  function MeanCulturalScore(results: seq<DigitizationResult>): (r: Option<real>)
    ensures r.None? <==> |results| == 0
  {
    if |results| == 0 then None else Some(SumScores(results) / (|results| as real))
  }

  /** Summing n equal scores c gives n * c. */
  lemma {:induction false} SumOfUniform(results: seq<DigitizationResult>, c: real)
    requires forall i :: 0 <= i < |results| ==> results[i].culturalPreservationScore == c
    ensures SumScores(results) == (|results| as real) * c
  {
    if |results| > 0 {
      SumOfUniform(results[..|results| - 1], c);
    }
  }

  /** Scores within [lo, hi] sum to a value within [n * lo, n * hi]. */
  lemma {:induction false} SumWithinBounds(results: seq<DigitizationResult>, lo: real, hi: real)
    requires forall i :: 0 <= i < |results| ==> lo <= results[i].culturalPreservationScore <= hi
    ensures (|results| as real) * lo <= SumScores(results) <= (|results| as real) * hi
  {
    if |results| > 0 {
      SumWithinBounds(results[..|results| - 1], lo, hi);
    }
  }

  /** The average of a non-empty list of equal scores is that score. */
  lemma MeanOfUniform(results: seq<DigitizationResult>, c: real)
    requires |results| > 0
    requires forall i :: 0 <= i < |results| ==> results[i].culturalPreservationScore == c
    ensures MeanCulturalScore(results) == Some(c)
  {
    SumOfUniform(results, c);
    var n := |results| as real;
    assert SumScores(results) / n == c by {
      assert SumScores(results) == n * c;
      assert n != 0.0;
    }
  }

  /** The average of a non-empty list lies between the least and greatest bound of its scores. */
  lemma MeanWithinBounds(results: seq<DigitizationResult>, lo: real, hi: real)
    requires |results| > 0
    requires forall i :: 0 <= i < |results| ==> lo <= results[i].culturalPreservationScore <= hi
    ensures lo <= MeanCulturalScore(results).value <= hi
  {
    SumWithinBounds(results, lo, hi);
    var n := |results| as real;
    assert SumScores(results) / n >= lo by {
      assert n * lo <= SumScores(results);
    }
    assert SumScores(results) / n <= hi by {
      assert SumScores(results) <= n * hi;
    }
  }

  /** Digitizing any non-empty corpus yields an average score of 0.95. */
  lemma DigitizedMeanIsPreservationScore(plants: seq<Plant>, results: seq<DigitizationResult>)
    requires |plants| > 0 && |results| == |plants|
    requires forall i :: 0 <= i < |plants| ==> results[i] == DigitizePlant(plants[i])
    ensures MeanCulturalScore(results) == Some(CulturalPreservationScore)
  {
    MeanOfUniform(results, CulturalPreservationScore);
  }

  // ------------------------------------------------------------ fixture

  const PublicPlantNames: seq<string> := ["Aloe Vera", "Chamomile", "Lavender"]

  /** The three bundled, publicly documented sample plants. */
  const SamplePlants: seq<Plant> := [
    Plant(
      "Aloe Vera",
      "Aloe barbadensis",
      ["Traditional wound healing", "Skin burn treatment", "Digestive support"],
      "Fresh gel extraction from leaves",
      "Traditional healers describe aloe as the burn plant - fresh gel applied directly to minor burns and cuts",
      "Thick succulent leaves split lengthwise to reveal clear healing gel"),
    Plant(
      "Chamomile",
      "Matricaria chamomilla",
      ["Traditional calming tea", "Sleep aid", "Digestive comfort"],
      "Dried flowers steeped in hot water for 5-10 minutes",
      "Chamomile tea brewing creates apple-like fragrance, traditionally used for evening relaxation",
      "Small white daisy-like flowers with yellow centers, dried and stored in airtight containers"),
    Plant(
      "Lavender",
      "Lavandula angustifolia",
      ["Traditional relaxation", "Sleep enhancement", "Stress relief"],
      "Essential oil extraction or dried flower sachets",
      "Lavender essential oil traditionally used in aromatherapy for calming effects",
      "Purple flower spikes harvested and dried, or steam-distilled for essential oil extraction")
  ]

  /** Every field of a plant is filled in. */
  predicate Complete(p: Plant)
  {
    && |p.name| > 0 && |p.scientificName| > 0 && |p.uses| > 0
    && |p.preparation| > 0 && |p.audioDescription| > 0 && |p.visualDescription| > 0
  }

  /** The sample corpus is the three public plants, in this order, each complete. */
  lemma SamplePlantsArePublic()
    ensures |SamplePlants| == |PublicPlantNames| == 3
    ensures forall i :: 0 <= i < |SamplePlants| ==> SamplePlants[i].name == PublicPlantNames[i]
    ensures forall i :: 0 <= i < |SamplePlants| ==> Complete(SamplePlants[i])
  {
  }

  // --------------------------------------------------------------- demo

  /** What a completed run of the demo yields: the results and the summary average. */
  datatype DemoReport = DemoReport(results: seq<DigitizationResult>, averageCulturalScore: real)

  class EthnoPathDemo {
    var processor: TraditionalKnowledgeProcessor
    var demoPlants: seq<Plant>

    constructor ()
      ensures fresh(processor) && processor.GuidelinesEnforced()
      ensures demoPlants == SamplePlants
    {
      processor := new TraditionalKnowledgeProcessor();
      demoPlants := SamplePlants;
    }

    /**
     * Processes the plants in order, one result each, then takes the
     * summary average. On an empty plant list the average divides by zero,
     * the source raises, and no results come back: None.
     */
    method RunDigitizationDemo() returns (outcome: Option<DemoReport>)
      ensures outcome.None? <==> |demoPlants| == 0
      ensures outcome.Some? ==> |outcome.value.results| == |demoPlants|
      ensures outcome.Some? ==> forall i :: 0 <= i < |demoPlants| ==>
        && outcome.value.results[i].plantName == demoPlants[i].name
        && outcome.value.results[i].knowledgeGraph == CreateKnowledgeGraph(demoPlants[i])
        && outcome.value.results[i] == DigitizePlant(demoPlants[i])
      ensures outcome.Some? ==> outcome.value.averageCulturalScore == CulturalPreservationScore
    {
      var digitizationResults: seq<DigitizationResult> := [];
      for i := 0 to |demoPlants|
        invariant |digitizationResults| == i
        invariant forall k :: 0 <= k < i ==> digitizationResults[k] == DigitizePlant(demoPlants[k])
      {
        var plant := demoPlants[i];
        var audioFeatures := ProcessAudioKnowledge(plant.name, plant.audioDescription);
        var visualFeatures := ProcessVisualKnowledge(plant.name, plant.visualDescription);
        var textualFeatures := ProcessTextualKnowledge(plant.name, plant.uses);
        var knowledgeGraph := CreateKnowledgeGraph(plant);
        var digitizationResult := DigitizationResult(
          plant.name,
          plant.scientificName,
          audioFeatures,
          visualFeatures,
          textualFeatures,
          knowledgeGraph,
          CulturalPreservationScore,
          EthicalCompliance);
        digitizationResults := digitizationResults + [digitizationResult];
      }
      var average := DisplayDemoSummary(digitizationResults);
      if average.None? {
        return None;
      }
      DigitizedMeanIsPreservationScore(demoPlants, digitizationResults);
      outcome := Some(DemoReport(digitizationResults, average.value));
    }

    /** The summary's average: sum the scores in order, then divide by the count. */
    method DisplayDemoSummary(results: seq<DigitizationResult>) returns (average: Option<real>)
      ensures average == MeanCulturalScore(results)
    {
      var total := 0.0;
      for i := 0 to |results|
        invariant total == SumScores(results[..i])
      {
        assert results[..i + 1][..i] == results[..i];
        total := total + results[i].culturalPreservationScore;
      }
      assert results[..|results|] == results;
      if |results| == 0 {
        return None;
      }
      average := Some(total / (|results| as real));
    }
  }

  /** A fresh demo reports an average of 0.95 over the three sample plants. */
  method RunSampleDemo() returns (report: DemoReport)
    ensures |report.results| == 3
    ensures forall i :: 0 <= i < 3 ==> report.results[i].plantName == PublicPlantNames[i]
    ensures report.averageCulturalScore == CulturalPreservationScore
  {
    var demo := new EthnoPathDemo();
    SamplePlantsArePublic();
    var outcome := demo.RunDigitizationDemo();
    report := outcome.value;
  }
}
