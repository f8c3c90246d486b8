# EthnoPath traditional-knowledge digitization, modelled in Dafny

EthnoPath's demo digitizes publicly documented knowledge about medicinal
plants. For each plant it runs three simulated extractors: audio (a spoken
description), visual (a description of the plant and how it is prepared)
and text (the documented uses). It then builds a small knowledge graph and
records one digitization result. A summary averages the
cultural-preservation scores of all results. A processor object carries four
ethical-guideline flags, all switched on.

The model follows `demo/traditional_knowledge_demo.py`:

- `wrappers.dfy`, module `Wrappers`: an `Option` type. `None` stands for the
  exception the source raises when it divides by zero.
- `text.dfy`, module `Text`: the captions the source builds with f-strings,
  written as `prefix + plant name + suffix` (`Fill`). `Subject` reads the
  plant name back out of a caption, and the two are proved to round-trip.
- `knowledge.dfy`, module `Knowledge`: the `Plant` record, one record type
  and one pure function per extractor, the knowledge-graph builder, and the
  class `TraditionalKnowledgeProcessor` with its guideline map.
- `demo.dfy`, module `Demo`: the three-plant sample corpus as a constant,
  the `DigitizationResult` record, and the class `EthnoPathDemo`. Its
  `RunDigitizationDemo` method is the loop that appends one result per
  plant. Its `DisplayDemoSummary` method is the loop that sums the scores
  and divides by the count.

The extractors and the graph builder only build records from their arguments
and constants, so they are functions. The Python `self` they receive is never
read, so the functions do not take it. The two loops and the constructors are
imperative Dafny.

Beyond the copy and threshold properties the source's tests check, the model
proves the following:

- Each extractor's captions name the plant they were made for.
- Each extractor record is equal for two calls exactly when the arguments are equal.
- A digitization result can be turned back into the plant it came from
  (`PlantOf`), so digitization loses no field.
- A result whose parts are mutually consistent (`WellFormed`) is exactly the
  digitization of that plant.
- The average score of any non-empty run is 0.95. More generally, the
  average always lies between a lower and an upper bound of the scores.

The code has no compliance gate, no fallback for empty payloads, no merging
of region maps and no computed integrity score. Every score is a constant and
nothing is rejected, so none of these is modelled.

Some behaviour worth knowing:

- The visual record's `preparation_methods` field holds the plant's *visual
  description*. The knowledge graph's `preparation_methods` field holds the
  plant's `preparation` field. The two are different strings for every
  sample plant.
- On an empty plant list, the summary divides by zero and the source raises
  `ZeroDivisionError`, so the run returns no results. The model returns `None`.
- The source prints the summary average and returns only the result list.
  The model returns that printed average too: `DisplayDemoSummary` returns
  it, and `RunDigitizationDemo` returns it in a `DemoReport` beside the
  results.

## Model

| member | source | states |
|---|---|---|
| `Knowledge.ProcessAudioKnowledge` | demo/traditional_knowledge_demo.py:31-39 | spoken content is the description unchanged; the cultural context starts with "Traditional oral knowledge about " and ends with the plant name; preservation quality is exactly 0.94, so it lies in (0.9, 1]; audio clarity is the fixed note |
| `Knowledge.AudioNamesItsPlant` | demo/traditional_knowledge_demo.py:35 | reading the plant name back out of the audio record's cultural context gives the name passed in |
| `Knowledge.AudioDeterminesInputs` | demo/traditional_knowledge_demo.py:31-39 | two audio records are equal if and only if their plant names and descriptions are equal (the record depends on its two arguments and nothing else, and loses neither) |
| `Knowledge.ProcessVisualKnowledge` | demo/traditional_knowledge_demo.py:41-49 | preparation methods are the description unchanged; the identification caption starts with the plant name and the significance caption ends with it; visual accuracy is exactly 0.91, so it lies in (0.9, 1] |
| `Knowledge.VisualNamesItsPlant` | demo/traditional_knowledge_demo.py:44-46 | both visual captions give back the plant name passed in |
| `Knowledge.VisualDeterminesInputs` | demo/traditional_knowledge_demo.py:41-49 | two visual records are equal if and only if their plant names and descriptions are equal |
| `Knowledge.ProcessTextualKnowledge` | demo/traditional_knowledge_demo.py:51-59 | documented uses are the input list itself, so it has the same elements in the same order; the cultural context ends with the plant name; the knowledge source is the fixed literature note; text preservation is exactly 0.96, so it lies in (0.95, 1] |
| `Knowledge.TextualNamesItsPlant` | demo/traditional_knowledge_demo.py:55 | the textual record's cultural context gives back the plant name passed in |
| `Knowledge.TextualDeterminesInputs` | demo/traditional_knowledge_demo.py:51-59 | two textual records are equal if and only if their plant names and use lists are equal |
| `Knowledge.CreateKnowledgeGraph` | demo/traditional_knowledge_demo.py:61-74 | name, uses and preparation are copied unchanged; the relationship map has exactly the keys historical_use, cultural_respect, modern_validation with their fixed notes; relationship integrity is exactly 0.93, so it lies in (0.9, 1] |
| `Knowledge.GraphHasThreeRelationships` | demo/traditional_knowledge_demo.py:67-71 | every graph has exactly three relationship edges |
| `Knowledge.GraphRelationshipsIndependentOfPlant` | demo/traditional_knowledge_demo.py:67-72 | the relationship edges and the integrity score are the same for every plant |
| `Knowledge.GraphDeterminedByCopiedFields` | demo/traditional_knowledge_demo.py:63-66 | two plants get equal graphs if and only if they agree on name, uses and preparation |
| `Knowledge.TraditionalKnowledgeProcessor.constructor` | demo/traditional_knowledge_demo.py:23-29 | the guideline map has exactly the four keys public_knowledge_only, cultural_respect, attribution_required, sacred_knowledge_excluded, and every one is true |
| `Demo.DigitizePlant` | demo/traditional_knowledge_demo.py:144-168 | the result for one plant is well-formed (every caption and the graph name the plant, the graph's uses are the documented uses, all scores and notes are the constants) and the plant can be read back out of it |
| `Demo.DigitizeInjective` | demo/traditional_knowledge_demo.py:158-168 | two plants give equal results if and only if they are equal plants |
| `Demo.WellFormedIsDigitized` | demo/traditional_knowledge_demo.py:158-168 | every well-formed result is the digitization of the plant read back out of it |
| `Demo.MeanCulturalScore` | demo/traditional_knowledge_demo.py:194 | the average is undefined exactly when the result list is empty |
| `Demo.SumOfUniform` | demo/traditional_knowledge_demo.py:194 | n equal scores c sum to n * c |
| `Demo.SumWithinBounds` | demo/traditional_knowledge_demo.py:194 | n scores within [lo, hi] sum to a value within [n * lo, n * hi] |
| `Demo.MeanOfUniform` | demo/traditional_knowledge_demo.py:194 | the average of a non-empty list of equal scores c is c |
| `Demo.MeanWithinBounds` | demo/traditional_knowledge_demo.py:194 | the average of a non-empty list lies within any bounds of its scores |
| `Demo.DigitizedMeanIsPreservationScore` | demo/traditional_knowledge_demo.py:166 | the results of digitizing a non-empty corpus average to 0.95 |
| `Demo.SamplePlantsArePublic` | demo/traditional_knowledge_demo.py:85-124 | the sample corpus holds Aloe Vera, Chamomile and Lavender in that order, each with every field filled in |
| `Demo.EthnoPathDemo.constructor` | demo/traditional_knowledge_demo.py:81-83 | a new demo has a new processor with every guideline on, and the sample corpus as its plants |
| `Demo.EthnoPathDemo.RunDigitizationDemo` | demo/traditional_knowledge_demo.py:126-181 | for an empty plant list, no outcome (the summary divides by zero); otherwise exactly one result per plant in input order, with `results[i].plant_name == plants[i].name`, `results[i].knowledge_graph == CreateKnowledgeGraph(plants[i])`, every result the digitization of its plant, and a summary average of 0.95 |
| `Demo.EthnoPathDemo.DisplayDemoSummary` | demo/traditional_knowledge_demo.py:183-194 | the loop's total over the scores, divided by the count, is the average; undefined for an empty list |
| `Demo.RunSampleDemo` | demo/traditional_knowledge_demo.py:220-224 | a fresh demo run on the bundled corpus gives three results named Aloe Vera, Chamomile, Lavender and an average of 0.95 |

## Left out

- Console output: every `print` and the percentage formatting, at demo/traditional_knowledge_demo.py:128-134, 139-140, 172-178, 185-193 and 195-216. It is reporting only.
- `time.sleep(1)` at demo/traditional_knowledge_demo.py:142: it is simulated latency with no effect on the results.
- The `timestamp` field of each result (`datetime.now().isoformat()`, line 159): it depends on the wall clock, so `DigitizationResult` has no such field.
- `main`'s export with `open` and `json.dump`, and its catch-all exception handler (lines 226-233): file I/O and command-line glue. `RunSampleDemo` models only the construction and the run.
- Floating point: scores are exact `real`s. In IEEE doubles, 0.95 + 0.95 + 0.95 divided by 3 is 0.9499999999999998, not 0.95. The model's average of exactly 0.95 therefore holds for the exact arithmetic the source evidently means. The source's one-decimal percentage display shows 95.0% either way.
- Aliasing: Python's textual record and knowledge graph hold the same list object as the plant's `uses`. Here they hold an equal value, so a later change to that list through one alias is not modelled. The source never makes one.
- Missing dictionary keys: the source indexes plain dictionaries, which raise `KeyError` when a key is absent. The typed `Plant` record excludes that case. For example, `create_knowledge_graph` needs only `name`, `uses` and `preparation` from its input, while `Plant` always has all six fields.
- The guideline flags are set but never read by any processing step in the source, so no operation of the model consults them.
- Compliance gating, rejection logs, context merging, empty-payload fallbacks and computed integrity scores: the code has none of these.
- `tests/test_digitization.py` contains no logic of its own. Its assertions are the properties stated above.
