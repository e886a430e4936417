# Sycamore elements and image summarisation, modelled in Dafny

This project models two pieces of the sycamore document-processing library.

**The Element record** (`lib/sycamore/sycamore/data/element.py`). An element is a dictionary `data`
from field names to Python values. Typed views read and write reserved keys:

- `type`, `text_representation` and `binary_representation` are plain reads and writes.
- `bbox` is stored as a tuple of four coordinates and rebuilt into a BoundingBox when read.
- Through these accessors `properties` is always present; deleting it resets it to `{}`.

A TableElement forces `type = "table"` and seeds `properties.title`, `properties.columns`,
`properties.rows` and the top-level `table` and `tokens` keys. `create_element` builds a
TableElement when the `type` tag lower-cases to `"table"`.

In the model, `Elements.Element` is a class with a `const kind` (the Python class: plain, table or
image) and a `var data: map<string, Value>`. `Values.Value` stands for the Python values stored in
it. Python exceptions become `Values.Error` inside a `Result`.

**The image-summarisation transform** (`lib/sycamore/sycamore/transforms/summarize_images.py`).
`summarize_all_images` walks a document's elements in order. For each image element it:

1. takes context text from the element just before (Section-header, Caption or Text) and the element
   just after (Caption or Text);
2. sends the model one message list: instruction, preceding context, image, following context;
3. parses the answer as JSON;
4. writes the result into `properties["summary"]` and `text_representation`.

`ImageSummaries.RunFrom` specifies the loop as a function over element records. The imperative
`ImageSummarizer.SummarizeAllImages` is proved to produce exactly its result, in place, on the
document's element objects. The loop works in place, so the preceding context of an image is read from
the neighbour as the loop has already left it. The following context is read from a neighbour not yet
visited. `ImageSummaryProperties.Processed` states this precisely.

The instruction message is kept symbolic (`ImageSummaries.Content.Instruction`). Its text,
`ImageSummaries.ContentText(Instruction)`, is the constant `ImageSummaries.Prompt`, with the whitespace
of the source's triple-quoted string.

The following-context message reuses the wording "The text preceding the image is {}". The model
keeps this wording (`ImageSummaries.ContextTemplate`).

`Transforms.SummarizeImages.Execute` runs its child node exactly once. It then maps the summariser
over the child's rows in order, turning each row into fresh element objects first.

Stand-ins for code outside the model:

- `ImageSummaries.ModelClient` answers a message list with a fixed function and logs every call.
- `Transforms.ChildNode` counts its executions.
- `ImageSummaries.Collaborators` holds `as_image`, `base64url` and `extract_json` as function
  parameters. `as_image` may give None and `extract_json` may fail to parse. Otherwise these calls
  and the model client never raise in the model; the API, network and decoding errors they can raise
  in Python, which would fail the whole map, are not modelled.

## Model

| member | source | states |
|---|---|---|
| `Elements.WithProperties` | lib/sycamore/sycamore/data/element.py:16-19 | after construction `properties` is present; it is `{}` when none was supplied; every supplied entry, `properties` included, is kept as given; no other key appears |
| `Elements.Element.constructor` | lib/sycamore/sycamore/data/element.py:16-19 | `Element(element, **kwargs)` holds `element` overlaid by `kwargs`, with `properties` defaulted; the object is a plain Element |
| `Elements.Element.SetType` | lib/sycamore/sycamore/data/element.py:21-27 | the `type` setter writes only the `type` key, and the getter then returns the written value |
| `Elements.Element.SetTextRepresentation` | lib/sycamore/sycamore/data/element.py:29-35 | the `text_representation` setter writes only its key, and the getter then returns the written value |
| `Elements.Element.SetBinaryRepresentation` | lib/sycamore/sycamore/data/element.py:37-43 | the `binary_representation` setter writes only its key, and the getter then returns the written value |
| `Elements.BboxOf` | lib/sycamore/sycamore/data/element.py:45-53 | the `bbox` getter gives None for an absent or None entry and returns a stored BoundingBox unchanged |
| `Elements.Element.SetBbox` | lib/sycamore/sycamore/data/element.py:55-57 | the `bbox` setter stores the coordinate tuple, never the BoundingBox object, changes no other key, and the getter then returns a box with the same four coordinates |
| `Elements.BboxRoundTrip` | lib/sycamore/sycamore/data/element.py:45-57 | reading `bbox` after writing coordinates gives back the same BoundingBox |
| `Elements.Element.SetProperties` | lib/sycamore/sycamore/data/element.py:59-65 | the `properties` setter writes only `properties`, and the getter then returns the written dictionary |
| `Elements.Element.DeleteProperties` | lib/sycamore/sycamore/data/element.py:67-69 | deleting `properties` leaves the key present with value `{}` and changes nothing else |
| `Elements.Element.SetProperty` | lib/sycamore/sycamore/transforms/summarize_images.py:93 | `element.properties[key] = x` adds or replaces one entry of the `properties` dictionary; it raises TypeError, changing nothing, when `properties` is not a dictionary |
| `Elements.TableData` | lib/sycamore/sycamore/data/element.py:83-89 | after the TableElement constructor, `type` is `"table"` whatever was supplied; `properties` holds `title`, `columns` and `rows` besides the supplied entries; `table` and `tokens` exist; every other supplied key is kept |
| `Elements.Element.TableElement` | lib/sycamore/sycamore/data/element.py:72-89 | the TableElement constructor builds exactly the dictionary `TableData` describes, inserting keys step by step |
| `Elements.Element.SetRows` | lib/sycamore/sycamore/data/element.py:91-97 | the `rows` setter writes `properties["rows"]` only, after which the `rows` getter returns it; it raises TypeError and changes nothing when `properties` is not a dictionary |
| `Elements.Element.SetColumns` | lib/sycamore/sycamore/data/element.py:99-105 | the `columns` setter writes `properties["columns"]` only, after which the `columns` getter returns it; it raises TypeError and changes nothing when `properties` is not a dictionary |
| `Elements.Element.SetTable` | lib/sycamore/sycamore/data/element.py:107-113 | the `table` setter writes the top-level `table` key only, and the getter then returns it |
| `Elements.Element.SetTokens` | lib/sycamore/sycamore/data/element.py:115-121 | the `tokens` setter writes the top-level `tokens` key only, and the getter then returns it |
| `Elements.Dispatch` | lib/sycamore/sycamore/data/element.py:124-128 | the factory's choice depends on the tag alone: TableElement exactly when the tag is a string whose lower case is `"table"`; AttributeError when the tag has no `.lower()`; a plain Element otherwise |
| `Elements.DispatchIgnoresCase` | lib/sycamore/sycamore/data/element.py:125 | the tag selects TableElement exactly when it spells "table" in any mix of upper and lower case |
| `Elements.DispatchExamples` | lib/sycamore/sycamore/data/element.py:124-128 | "Table", "TABLE" and "table" give a TableElement; "Text", bytes and a missing tag give an Element; a None tag raises |
| `Elements.BindTableCall` | lib/sycamore/sycamore/data/element.py:73-83 | `TableElement(**kwargs)` binds `element`, `title`, `columns`, `rows`, `table` and `tokens` as parameters, defaulting to None, and passes the rest as `**kwargs`; it raises TypeError on a `self` keyword, which collides with the constructor's own first parameter, and on a non-dictionary `element` or `properties` |
| `Elements.CreateElement` | lib/sycamore/sycamore/data/element.py:124-128 | `create_element` returns a fresh TableElement built from the bound arguments when the tag selects it, a fresh Element holding `kwargs` otherwise, and propagates the dispatch and binding errors |
| `Values.MemberOf` | lib/sycamore/sycamore/transforms/summarize_images.py:77 | `t in {...}` is true exactly for a string in the set and raises TypeError for an unhashable `t` |
| `ImageSummaries.ImageSummarizer.SummarizeImage` | lib/sycamore/sycamore/transforms/summarize_images.py:49-67 | `summarize_image` calls the model exactly once with `Messages(preceding, base64url(image), following)` and returns the parsed answer, or the parse failure |
| `ImageSummaryProperties.MessagesLayout` | lib/sycamore/sycamore/transforms/summarize_images.py:52-62 | the list has 2 messages, plus one per non-None context; the order is instruction (whose text is `Prompt`), preceding, image, following; both context messages use the wording "The text preceding the image is {}"; no context message carries None |
| `ImageSummaryProperties.ExactlyOneImage` | lib/sycamore/sycamore/transforms/summarize_images.py:52-62 | every message list carries exactly one image message |
| `ImageSummaries.PrecedingContext` | lib/sycamore/sycamore/transforms/summarize_images.py:74-78 | the preceding context is element `i-1`'s text when `i > 0` and its type is Section-header, Caption or Text, and None otherwise |
| `ImageSummaries.FollowingContext` | lib/sycamore/sycamore/transforms/summarize_images.py:80-84 | the following context is element `i+1`'s text when `i` is not last and its type is Caption or Text, and None otherwise |
| `ImageSummaryProperties.PrecedingIsLocal` | lib/sycamore/sycamore/transforms/summarize_images.py:74-78 | the preceding context depends on the immediate predecessor only |
| `ImageSummaryProperties.FollowingIsLocal` | lib/sycamore/sycamore/transforms/summarize_images.py:80-84 | the following context depends on the immediate successor only |
| `ImageSummaryProperties.TextAndCaptionAreContext` | lib/sycamore/sycamore/transforms/summarize_images.py:74-84 | in `[Text "A", image, Caption "B"]` the contexts are "A" and "B" |
| `ImageSummaryProperties.TableAndHeaderAreNotContext` | lib/sycamore/sycamore/transforms/summarize_images.py:74-84 | in `[table, image, Section-header "C"]` both contexts are None |
| `ImageSummaryProperties.HeaderOnlyPrecedes` | lib/sycamore/sycamore/transforms/summarize_images.py:77-83 | a Section-header is taken as preceding context and never as following context |
| `ImageSummaries.Enrich` | lib/sycamore/sycamore/transforms/summarize_images.py:91-94 | annotating the image at `i` makes exactly one model call, touches no other element and keeps the element's class |
| `ImageSummaries.Step` | lib/sycamore/sycamore/transforms/summarize_images.py:70-94 | one iteration changes at most element `i` and makes at most one call; non-image elements pass unchanged; an undecodable image makes no call and changes nothing, and when its neighbours' types are hashable it raises nothing, so the loop goes on |
| `ImageSummaries.RunFrom` | lib/sycamore/sycamore/transforms/summarize_images.py:69-95 | the loop keeps the element count, leaves already visited elements alone and makes at most one call per remaining element |
| `ImageSummaries.ImageSummarizer.Annotate` | lib/sycamore/sycamore/transforms/summarize_images.py:91-94 | on the element objects, the summarise-and-write step has exactly the effect `Enrich` describes, including the partial write before a KeyError |
| `ImageSummaries.ImageSummarizer.SummarizeAt` | lib/sycamore/sycamore/transforms/summarize_images.py:70-94 | one loop iteration on the element objects has exactly the effect `Step` describes |
| `ImageSummaries.ImageSummarizer.SummarizeAllImages` | lib/sycamore/sycamore/transforms/summarize_images.py:69-95 | `summarize_all_images` updates the document's element objects in place to `RunFrom`'s result, logs exactly its model calls, and returns the same document or the first exception |
| `ImageSummaryProperties.StepOnlyAnnotates` | lib/sycamore/sycamore/transforms/summarize_images.py:70-94 | one iteration changes nothing but `properties["summary"]` and `text_representation` |
| `ImageSummaryProperties.RunKeepsElements` | lib/sycamore/sycamore/transforms/summarize_images.py:69-95 | the same count, order and class of elements; non-image elements untouched, even when the run raises |
| `ImageSummaryProperties.RunOnlyAnnotates` | lib/sycamore/sycamore/transforms/summarize_images.py:69-95 | every element differs from its original at most in `properties["summary"]` and `text_representation`, even when the run raises |
| `ImageSummaryProperties.StepCalls` | lib/sycamore/sycamore/transforms/summarize_images.py:86-91 | an iteration that raises nothing calls the model once for a decodable image element and never otherwise |
| `ImageSummaryProperties.UndecodableIsSkipped` | lib/sycamore/sycamore/transforms/summarize_images.py:86-89 | an image whose `as_image()` is None is skipped without an exception or a call, and the loop from it gives exactly what the loop from the next element gives |
| `ImageSummaryProperties.OneCallPerImage` | lib/sycamore/sycamore/transforms/summarize_images.py:86-91 | a run that raises nothing calls the model exactly once per decodable image element |
| `ImageSummaryProperties.RunProcessesAll` | lib/sycamore/sycamore/transforms/summarize_images.py:70-94 | after a run that raises nothing, each decodable image holds the model's parsed answer in `properties["summary"]` and its "summary" field in `text_representation`; the answer is to the messages built from the neighbours as the loop saw them; every other element is unchanged |
| `ImageSummaryProperties.OneImageEndToEnd` | lib/sycamore/sycamore/transforms/summarize_images.py:86-94 | one image answered `{"is_graph": false, "summary": "a cat"}` ends with text "a cat" and that dictionary as its summary property |
| `ImageSummaryProperties.ParseFailureFails` | lib/sycamore/sycamore/transforms/summarize_images.py:91-93 | for an image at any index, an answer `extract_json` cannot parse fails the run with the decode error after one call, before anything is written: every element is left as it was |
| `ImageSummaryProperties.MissingSummaryFails` | lib/sycamore/sycamore/transforms/summarize_images.py:91-94 | for an image at any index, an answer without "summary" fails the run with KeyError after one call; `properties["summary"]` already holds the answer, `text_representation` and every other element are unchanged |
| `ImageSummaryProperties.SecondAnswerOverwrites` | lib/sycamore/sycamore/transforms/summarize_images.py:93-94 | enriching an element twice leaves exactly the second answer, as if the first had never been written |
| `Transforms.MapDocuments` | lib/sycamore/sycamore/transforms/summarize_images.py:105 | a map over the rows from index `i` that raises nothing returns one row per input row |
| `Transforms.SummarizeImages.SummarizeRow` | lib/sycamore/sycamore/transforms/summarize_images.py:105 | the wrapped map function turns a row into a Document of fresh element objects, summarises it, and returns its element records as `RunFrom` computes them, or the exception it raised |
| `ImageSummaryProperties.MapIsElementwise` | lib/sycamore/sycamore/transforms/summarize_images.py:103-106 | a map that raises nothing is `summarize_all_images` applied to each row on its own, in order |
| `Transforms.SummarizeImages.Execute` | lib/sycamore/sycamore/transforms/summarize_images.py:103-106 | `execute` runs the child exactly once and returns `MapDocuments` of its rows, making exactly the model calls the map makes |

## Left out

- Python's `str.lower()` is modelled for ASCII letters only; other characters are left unchanged.
- `ImageElement.as_image`, `base64url`, `extract_json` and the model client are parameters; the model's
  answer is taken to be a fixed function of the message list.
- Exceptions from the model client's `generate`, from `base64url` and from `as_image` (API, network,
  decoding errors) are not modelled: these calls always return in the model.
- `"...{}".format(context)` is kept symbolic (`Content.Formatted`); the rendering of non-string
  values by `str()` is not modelled.
- `Elements.Element.TableElement`: requires a supplied `properties` to be a dictionary; Python raises
  TypeError there, and a Dafny constructor cannot. `Elements.CreateElement` returns that TypeError.
- `Elements.BindTableCall`: a non-dictionary `element` is always a TypeError; Python's `update` also
  accepts an iterable of key/value pairs.
- `Elements.Element.constructor`: `element` is a dictionary or absent. The iterable of key/value pairs
  that `UserDict.update` also accepts, and the other values on which it raises, are not modelled.
- `Elements.Element.SetProperties`: takes a dictionary, while the Python setter stores any value. In the
  model a non-dictionary `properties` can arise only through the constructors' `element` and `kwargs`.
- The dictionary interface `Element` inherits from UserDict (`element[key]`, `del element[key]`) is not
  modelled. Deleting `properties` that way would remove the key, which `Elements.Element.Valid` rules out.
- `Elements.Unpack` rebuilds a BoundingBox only from a tuple or list of four numbers. The BoundingBox
  class is not part of this model.
- `Values.Hashable` treats dictionaries and lists, and tuples holding them, as the only unhashable values.
- Aliasing is not modelled. The TableElement constructor mutates the caller's `properties` dictionary
  in Python; here values are copied. A document must list each element object once (`Documents.Document.Valid`).
- Ray's `Dataset.map` is modelled as an eager, ordered, sequential map in which the first failing row
  fails the whole map. Laziness, partitioning and parallelism are not modelled.
- `Transforms.SummarizeImages.SummarizeRow` stands for `generate_map_function`: it rebuilds a row as fresh
  element objects (`Documents.Document.FromRecords`) and reads them back afterwards. The Document class
  and `generate_map_function` are not part of this model beyond that wrapping.
- The `OpenAIImageSummarizer` constructor, its model choice, and the eager default argument of
  `SummarizeImages` are client set-up. The Transform's `resource_args` do not affect the result.
  None of these is modelled.
- `crop_to_bbox`, `image_to_bytes` and `base64url` in `lib/sycamore/sycamore/utils/image_utils.py` are
  image codec work (floating-point pixel arithmetic, PNG and base64 encoding). `base64url` is an
  opaque function here.
- `python/shannon/tests/integration/job.py` (job submission) and
  `gen/response_processor_service_pb2_grpc.py` (generated RPC scaffolding) are I/O and transport.
