/**
 * The traditional-knowledge processor: one extractor per modality (audio,
 * visual, text), the knowledge-graph builder, and the processor object that
 * holds the ethical guidelines. Every extractor and the builder only build a
 * record from their arguments and constants, so they are functions here.
 */
module Knowledge {
  import opened Wrappers
  import opened Text

  /** One sample plant as the demo stores it. */
  datatype Plant = Plant(
    name: string,
    scientificName: string,
    uses: seq<string>,
    preparation: string,
    audioDescription: string,
    visualDescription: string)

  // ---------------------------------------------------------------- audio

  datatype AudioFeatures = AudioFeatures(
    spokenContent: string,
    culturalContext: string,
    preservationQuality: real,
    audioClarity: string)

  const OralKnowledgePrefix: string := "Traditional oral knowledge about "
  const AudioClarity: string := "22kHz recording quality"
  const AudioPreservationQuality: real := 0.94

  /** Simulated audio processing: the spoken content is the description as given. */
  function ProcessAudioKnowledge(plantName: string, audioDescription: string): (r: AudioFeatures)
    ensures r.spokenContent == audioDescription
    ensures StartsWith(r.culturalContext, OralKnowledgePrefix) && EndsWith(r.culturalContext, plantName)
    ensures |r.culturalContext| == |OralKnowledgePrefix| + |plantName|
    ensures r.preservationQuality == AudioPreservationQuality && 0.9 < r.preservationQuality <= 1.0
    ensures r.audioClarity == AudioClarity
  {
    AudioFeatures(
      audioDescription,
      Fill(OralKnowledgePrefix, plantName, ""),
      AudioPreservationQuality,
      AudioClarity)
  }

  /** The plant an audio record's cultural context speaks about. */
  function AudioSubject(r: AudioFeatures): Option<string>
  {
    Subject(OralKnowledgePrefix, "", r.culturalContext)
  }

  /** The audio record names the plant it was made for. */
  lemma AudioNamesItsPlant(plantName: string, audioDescription: string)
    ensures AudioSubject(ProcessAudioKnowledge(plantName, audioDescription)) == Some(plantName)
  {
    SubjectOfFill(OralKnowledgePrefix, plantName, "");
  }

  /** Equal audio records come from equal arguments, and only from them. */
  lemma AudioDeterminesInputs(n1: string, d1: string, n2: string, d2: string)
    ensures ProcessAudioKnowledge(n1, d1) == ProcessAudioKnowledge(n2, d2) <==> n1 == n2 && d1 == d2
  {
    AudioNamesItsPlant(n1, d1);
    AudioNamesItsPlant(n2, d2);
  }

  // --------------------------------------------------------------- visual

  datatype VisualFeatures = VisualFeatures(
    plantIdentification: string,
    preparationMethods: string,
    culturalSignificance: string,
    visualAccuracy: real)

  const IdentificationSuffix: string := " visual characteristics documented"
  const PreparationTechniquesPrefix: string := "Traditional preparation techniques for "
  const VisualAccuracy: real := 0.91

  /** Simulated visual processing: the preparation methods are the description as given. */
  function ProcessVisualKnowledge(plantName: string, visualDescription: string): (r: VisualFeatures)
    ensures StartsWith(r.plantIdentification, plantName) && EndsWith(r.plantIdentification, IdentificationSuffix)
    ensures |r.plantIdentification| == |plantName| + |IdentificationSuffix|
    ensures r.preparationMethods == visualDescription
    ensures StartsWith(r.culturalSignificance, PreparationTechniquesPrefix) && EndsWith(r.culturalSignificance, plantName)
    ensures |r.culturalSignificance| == |PreparationTechniquesPrefix| + |plantName|
    ensures r.visualAccuracy == VisualAccuracy && 0.9 < r.visualAccuracy <= 1.0
  {
    VisualFeatures(
      Fill("", plantName, IdentificationSuffix),
      visualDescription,
      Fill(PreparationTechniquesPrefix, plantName, ""),
      VisualAccuracy)
  }

  /** The plant a visual record identifies, when both captions agree on it. */
  function VisualSubject(r: VisualFeatures): Option<string>
  {
    var id := Subject("", IdentificationSuffix, r.plantIdentification);
    var sig := Subject(PreparationTechniquesPrefix, "", r.culturalSignificance);
    if id == sig then id else None
  }

  /** Both captions of the visual record name the plant it was made for. */
  lemma VisualNamesItsPlant(plantName: string, visualDescription: string)
    ensures VisualSubject(ProcessVisualKnowledge(plantName, visualDescription)) == Some(plantName)
  {
    SubjectOfFill("", plantName, IdentificationSuffix);
    SubjectOfFill(PreparationTechniquesPrefix, plantName, "");
  }

  /** Equal visual records come from equal arguments, and only from them. */
  lemma VisualDeterminesInputs(n1: string, d1: string, n2: string, d2: string)
    ensures ProcessVisualKnowledge(n1, d1) == ProcessVisualKnowledge(n2, d2) <==> n1 == n2 && d1 == d2
  {
    VisualNamesItsPlant(n1, d1);
    VisualNamesItsPlant(n2, d2);
  }

  // ----------------------------------------------------------------- text

  datatype TextualFeatures = TextualFeatures(
    documentedUses: seq<string>,
    culturalContext: string,
    knowledgeSource: string,
    textPreservation: real)

  const DocumentedApplicationsPrefix: string := "Publicly documented traditional applications of "
  const KnowledgeSource: string := "Ethnobotanical literature (public domain)"
  const TextPreservation: real := 0.96

  /** Textual processing: the documented uses are the given list, same length, same order. */
  function ProcessTextualKnowledge(plantName: string, traditionalUses: seq<string>): (r: TextualFeatures)
    ensures r.documentedUses == traditionalUses
    ensures StartsWith(r.culturalContext, DocumentedApplicationsPrefix) && EndsWith(r.culturalContext, plantName)
    ensures |r.culturalContext| == |DocumentedApplicationsPrefix| + |plantName|
    ensures r.knowledgeSource == KnowledgeSource
    ensures r.textPreservation == TextPreservation && 0.95 < r.textPreservation <= 1.0
  {
    TextualFeatures(
      traditionalUses,
      Fill(DocumentedApplicationsPrefix, plantName, ""),
      KnowledgeSource,
      TextPreservation)
  }

  /** The plant a textual record's cultural context is about. */
  function TextualSubject(r: TextualFeatures): Option<string>
  {
    Subject(DocumentedApplicationsPrefix, "", r.culturalContext)
  }

  /** The textual record names the plant it was made for. */
  lemma TextualNamesItsPlant(plantName: string, traditionalUses: seq<string>)
    ensures TextualSubject(ProcessTextualKnowledge(plantName, traditionalUses)) == Some(plantName)
  {
    SubjectOfFill(DocumentedApplicationsPrefix, plantName, "");
  }

  /** Equal textual records come from equal arguments, and only from them. */
  lemma TextualDeterminesInputs(n1: string, u1: seq<string>, n2: string, u2: seq<string>)
    ensures ProcessTextualKnowledge(n1, u1) == ProcessTextualKnowledge(n2, u2) <==> n1 == n2 && u1 == u2
  {
    TextualNamesItsPlant(n1, u1);
    TextualNamesItsPlant(n2, u2);
  }

  // ------------------------------------------------------ knowledge graph

  datatype KnowledgeGraph = KnowledgeGraph(
    plantName: string,
    traditionalUses: seq<string>,
    preparationMethods: string,
    culturalRelationships: map<string, string>,
    relationshipIntegrity: real)

  const HistoricalUseKey: string := "historical_use"
  const CulturalRespectKey: string := "cultural_respect"
  const ModernValidationKey: string := "modern_validation"

  const HistoricalUseNote: string := "Documented in ethnobotanical literature"
  const CulturalRespectNote: string := "Public knowledge only, no sacred content"
  const ModernValidationNote: string := "Cross-referenced with scientific literature"

  /** The three fixed relationship edges every graph carries. */
  const CulturalRelationships: map<string, string> := map[
    HistoricalUseKey := HistoricalUseNote,
    CulturalRespectKey := CulturalRespectNote,
    ModernValidationKey := ModernValidationNote]

  const RelationshipIntegrity: real := 0.93

  /** The knowledge graph of one plant: name, uses and preparation copied, fixed edges. */
  function CreateKnowledgeGraph(plantData: Plant): (r: KnowledgeGraph)
    ensures r.plantName == plantData.name
    ensures r.traditionalUses == plantData.uses
    ensures r.preparationMethods == plantData.preparation
    ensures r.culturalRelationships.Keys == {HistoricalUseKey, CulturalRespectKey, ModernValidationKey}
    ensures r.culturalRelationships[HistoricalUseKey] == HistoricalUseNote
    ensures r.culturalRelationships[CulturalRespectKey] == CulturalRespectNote
    ensures r.culturalRelationships[ModernValidationKey] == ModernValidationNote
    ensures r.relationshipIntegrity == RelationshipIntegrity && 0.9 < r.relationshipIntegrity <= 1.0
  {
    KnowledgeGraph(
      plantData.name,
      plantData.uses,
      plantData.preparation,
      CulturalRelationships,
      RelationshipIntegrity)
  }

  /** Every graph has exactly three relationship edges, whatever the plant. */
  lemma GraphHasThreeRelationships(plantData: Plant)
    ensures |CreateKnowledgeGraph(plantData).culturalRelationships| == 3
  {
    var keys := CreateKnowledgeGraph(plantData).culturalRelationships.Keys;
    assert keys == {HistoricalUseKey} + {CulturalRespectKey} + {ModernValidationKey};
    assert HistoricalUseKey != CulturalRespectKey && HistoricalUseKey != ModernValidationKey;
    assert CulturalRespectKey != ModernValidationKey;
  }

  /** The relationship edges and the integrity score do not depend on the plant. */
  lemma GraphRelationshipsIndependentOfPlant(p: Plant, q: Plant)
    ensures CreateKnowledgeGraph(p).culturalRelationships == CreateKnowledgeGraph(q).culturalRelationships
    ensures CreateKnowledgeGraph(p).relationshipIntegrity == CreateKnowledgeGraph(q).relationshipIntegrity
  {
  }

  /** Two plants get the same graph exactly when they agree on name, uses and preparation. */
  lemma GraphDeterminedByCopiedFields(p: Plant, q: Plant)
    ensures CreateKnowledgeGraph(p) == CreateKnowledgeGraph(q)
        <==> p.name == q.name && p.uses == q.uses && p.preparation == q.preparation
  {
  }

  // --------------------------------------------------- ethical guidelines

  const PublicKnowledgeOnly: string := "public_knowledge_only"
  const CulturalRespect: string := "cultural_respect"
  const AttributionRequired: string := "attribution_required"
  const SacredKnowledgeExcluded: string := "sacred_knowledge_excluded"

  const GuidelineNames: set<string> :=
    {PublicKnowledgeOnly, CulturalRespect, AttributionRequired, SacredKnowledgeExcluded}

  /**
   * The processor object. Its only state is the guideline map set by the
   * constructor; no extractor reads it, so the extractors above are
   * functions of their arguments alone.
   */
  class TraditionalKnowledgeProcessor {
    var ethicalGuidelines: map<string, bool>

    /** All four named guidelines are present and switched on. */
    predicate GuidelinesEnforced()
      reads this
    {
      && ethicalGuidelines.Keys == GuidelineNames
      && forall g :: g in ethicalGuidelines ==> ethicalGuidelines[g]
    }

    constructor ()
      ensures ethicalGuidelines.Keys == GuidelineNames
      ensures ethicalGuidelines[PublicKnowledgeOnly] && ethicalGuidelines[CulturalRespect]
      ensures ethicalGuidelines[AttributionRequired] && ethicalGuidelines[SacredKnowledgeExcluded]
      ensures GuidelinesEnforced()
    {
      ethicalGuidelines := map[
        PublicKnowledgeOnly := true,
        CulturalRespect := true,
        AttributionRequired := true,
        SacredKnowledgeExcluded := true];
    }
  }
}
