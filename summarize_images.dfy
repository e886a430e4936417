/**
 * The image-summarisation transform: for each image element of a
 * document, pick text context from its immediate neighbours, ask a
 * multimodal model for a JSON summary, and write it back into the element.
 */
module ImageSummaries {
  import opened Wrappers
  import opened Values
  import opened Elements
  import opened Documents

  /** The content of one chat message. */
  datatype Content =
    | Instruction                             // the summariser's `prompt`, whose text is `Prompt`
    | Formatted(template: string, arg: Value) // `template.format(arg)`
    | ImageUrl(url: string)                   // `[{"type": "image_url", "image_url": {"url": url}}]`

  /** The content as a literal string, where it is one: only the instruction is. */
  function ContentText(c: Content): (t: Option<string>)
    ensures t.Some? <==> c.Instruction?
  {
    match c
    case Instruction => Some(Prompt)
    case _ => None
  }

  /** One `{"role": ..., "content": ...}` entry of the message list. */
  datatype Message = Message(role: string, content: Content)

  /** A decoded image, as `as_image()` returns it. */
  datatype DecodedImage = DecodedImage(pixels: seq<bv8>)

  const User: string := "user"

  /** The fixed instruction, with the whitespace of its triple-quoted source. */
  const Prompt: string :=
    "You are given an image from a PDF document along with with some snippets of text preceding\n"
    + "            and following the image on the page. Based on this context, please decide whether the image is a\n"
    + "            graph or not. An image is a graph if it is a bar chart or a line graph. If the image is a graph,\n"
    + "            please summarize the axes, including their units, and provide a summary of the results in no more\n"
    + "            than 5 sentences.\n"
    + "\n"
    + "            Return the results in the following JSON schema:\n"
    + "\n"
    + "            {\n"
    + "              \"is_graph\": true,\n"
    + "              \"x-axis\": string,\n"
    + "              \"y-axis\": string,\n"
    + "              \"summary\": string\n"
    + "            }\n"
    + "\n"
    + "            If the image is not a graph, please summarize the contents of the image in no more than five sentences\n"
    + "            in the following JSON format:\n"
    + "\n"
    + "            {\n"
    + "              \"is_graph\": false,\n"
    + "              \"summary\": string\n"
    + "            }\n"
    + "\n"
    + "            In all cases return only JSON and check your work.\n"
    + "            "

  /** The wording of both context messages: the following-context message reuses "preceding". */
  const ContextTemplate: string := "The text preceding the image is {}"

  /** Neighbour types whose text may precede an image as context. */
  const PrecedingTypes: set<string> := {"Section-header", "Caption", "Text"}

  /** Neighbour types whose text may follow an image as context (no headers). */
  const FollowingTypes: set<string> := {"Caption", "Text"}

  /**
   * The message list `summarize_image` sends: the instruction, the
   * preceding context when it is not None, the image, the following
   * context when it is not None.
   */
  function Messages(preceding: Value, url: string, following: Value): seq<Message>
  {
    [Message(User, Instruction)]
    + (if preceding.Null? then [] else [Message(User, Formatted(ContextTemplate, preceding))])
    + [Message(User, ImageUrl(url))]
    + (if following.Null? then [] else [Message(User, Formatted(ContextTemplate, following))])
  }

  /** The number of messages that carry an image. */
  function CountImages(msgs: seq<Message>): nat
  {
    if msgs == [] then 0
    else (if msgs[0].content.ImageUrl? then 1 else 0) + CountImages(msgs[1..])
  }

  /** The element's `type`, as `element.type` reads it. */
  function TypeOf(r: Rec): Value
  {
    Get(r.data, "type")
  }

  /** The element's `text_representation`, as `element.text_representation` reads it. */
  function TextOf(r: Rec): Value
  {
    Get(r.data, "text_representation")
  }

  /**
   * The preceding context of the image at `i`: the text of element `i-1`
   * when its type is a header, caption or text, None otherwise.
   */
  function PrecedingContext(st: seq<Rec>, i: nat): (r: Result<Value, Error>)
    requires i < |st|
    ensures i == 0 ==> r == Ok(Null)
    ensures i > 0 ==> (r.Err? <==> !Hashable(TypeOf(st[i - 1])))
    ensures r.Ok? && !r.value.Null? ==>
      i > 0 && TypeOf(st[i - 1]).Str? && TypeOf(st[i - 1]).s in PrecedingTypes && r.value == TextOf(st[i - 1])
    ensures i > 0 && TypeOf(st[i - 1]).Str? && TypeOf(st[i - 1]).s in PrecedingTypes ==> r == Ok(TextOf(st[i - 1]))
  {
    if i > 0 then
      match MemberOf(TypeOf(st[i - 1]), PrecedingTypes)
      case Err(e) => Err(e)
      case Ok(b) => Ok(if b then TextOf(st[i - 1]) else Null)
    else
      Ok(Null)
  }

  /**
   * The following context of the image at `i`: the text of element `i+1`
   * when its type is a caption or text, None otherwise.
   */
  function FollowingContext(st: seq<Rec>, i: nat): (r: Result<Value, Error>)
    requires i < |st|
    ensures i == |st| - 1 ==> r == Ok(Null)
    ensures i < |st| - 1 ==> (r.Err? <==> !Hashable(TypeOf(st[i + 1])))
    ensures r.Ok? && !r.value.Null? ==>
      i < |st| - 1 && TypeOf(st[i + 1]).Str? && TypeOf(st[i + 1]).s in FollowingTypes && r.value == TextOf(st[i + 1])
    ensures i < |st| - 1 && TypeOf(st[i + 1]).Str? && TypeOf(st[i + 1]).s in FollowingTypes ==> r == Ok(TextOf(st[i + 1]))
  {
    if i < |st| - 1 then
      match MemberOf(TypeOf(st[i + 1]), FollowingTypes)
      case Err(e) => Err(e)
      case Ok(b) => Ok(if b then TextOf(st[i + 1]) else Null)
    else
      Ok(Null)
  }

  /**
   * The code the summariser calls but that is not part of this model:
   * `ImageElement.as_image`, `base64url`, `extract_json` and the model's
   * answer to a message list.
   */
  datatype Collaborators = Collaborators(
    asImage: map<string, Value> -> Option<DecodedImage>,
    base64url: DecodedImage -> string,
    extractJson: string -> Option<Value>,
    respond: seq<Message> -> string)

  /** The element records after a run, the message lists sent to the model, and the exception raised, if any. */
  datatype Outcome = Outcome(elems: seq<Rec>, calls: seq<seq<Message>>, failure: Option<Error>)

  /** The JSON answer `summarize_image` returns for a message list. */
  function Answer(c: Collaborators, msgs: seq<Message>): Result<Value, Error>
  {
    var raw := c.respond(msgs);
    match c.extractJson(raw)
    case Some(json) => Ok(json)
    case None => Err(JsonDecodeError(raw))
  }

  /**
   * Sends `msgs` for the image at `i` and writes the answer back:
   * `properties["summary"]` first, then `text_representation` from the
   * answer's "summary" field. A missing field raises after the first write.
   */
  function Enrich(c: Collaborators, st: seq<Rec>, i: nat, msgs: seq<Message>): (o: Outcome)
    requires i < |st|
    ensures |o.elems| == |st| && o.calls == [msgs]
    ensures forall j :: 0 <= j < |st| && j != i ==> o.elems[j] == st[j]
    ensures o.elems[i].kind == st[i].kind
  {
    match Answer(c, msgs)
    case Err(e) => Outcome(st, [msgs], Some(e))
    case Ok(json) =>
      match SetPropertyIn(st[i].data, "summary", json)
      case Err(e) => Outcome(st, [msgs], Some(e))
      case Ok(d) =>
        match Subscript(json, "summary")
        case Err(e) => Outcome(st[i := Rec(st[i].kind, d)], [msgs], Some(e))
        case Ok(summary) => Outcome(st[i := Rec(st[i].kind, d["text_representation" := summary])], [msgs], None)
  }

  /** One iteration of the loop of `summarize_all_images`, at index `i`. */
  function Step(c: Collaborators, st: seq<Rec>, i: nat): (o: Outcome)
    requires i < |st|
    ensures |o.elems| == |st| && |o.calls| <= 1
    ensures forall j :: 0 <= j < |st| && j != i ==> o.elems[j] == st[j]
    ensures o.elems[i].kind == st[i].kind
    ensures o.calls == [] ==> o.elems == st
    ensures !st[i].kind.ImageKind? ==> o == Outcome(st, [], None)
    ensures st[i].kind.ImageKind? && c.asImage(st[i].data).None? ==> o.calls == [] && o.elems == st
    ensures st[i].kind.ImageKind? && PrecedingContext(st, i).Ok? && FollowingContext(st, i).Ok? &&
            c.asImage(st[i].data).None? ==>
              o == Outcome(st, [], None)
  {
    if !st[i].kind.ImageKind? then Outcome(st, [], None)
    else
      match PrecedingContext(st, i)
      case Err(e) => Outcome(st, [], Some(e))
      case Ok(preceding) =>
        match FollowingContext(st, i)
        case Err(e) => Outcome(st, [], Some(e))
        case Ok(following) =>
          match c.asImage(st[i].data)
          case None => Outcome(st, [], None)
          case Some(image) => Enrich(c, st, i, Messages(preceding, c.base64url(image), following))
  }

  /** The loop of `summarize_all_images` from index `i` on, stopping at the first exception. */
  function RunFrom(c: Collaborators, st: seq<Rec>, i: nat): (o: Outcome)
    requires i <= |st|
    ensures |o.elems| == |st| && |o.calls| <= |st| - i
    ensures forall j :: 0 <= j < i ==> o.elems[j] == st[j]
    decreases |st| - i, 1
  {
    if i == |st| then Outcome(st, [], None) else Continue(c, Step(c, st, i), i)
  }

  /** After the step at `i` produced `s`: stop on its exception, otherwise run on from `i + 1`. */
  function Continue(c: Collaborators, s: Outcome, i: nat): (o: Outcome)
    requires i < |s.elems|
    ensures |o.elems| == |s.elems| && |o.calls| <= |s.calls| + |s.elems| - i - 1
    ensures forall j :: 0 <= j <= i ==> o.elems[j] == s.elems[j]
    decreases |s.elems| - i, 0
  {
    if s.failure.Some? then s
    else
      var rest := RunFrom(c, s.elems, i + 1);
      Outcome(rest.elems, s.calls + rest.calls, rest.failure)
  }

  /** The model client: answers a message list and keeps a log of the calls made. */
  class ModelClient {
    const respond: seq<Message> -> string
    var calls: seq<seq<Message>>

    constructor (respond: seq<Message> -> string)
      ensures this.respond == respond && calls == []
    {
      this.respond := respond;
      calls := [];
    }

    /** `generate(messages)`: one call, logged, answered by `respond`. */
    method Generate(messages: seq<Message>) returns (content: string)
      modifies this
      ensures calls == old(calls) + [messages] && content == respond(messages)
    {
      calls := calls + [messages];
      content := respond(messages);
    }
  }

  /** `OpenAIImageSummarizer`. */
  class ImageSummarizer {
    const client: ModelClient
    const asImage: map<string, Value> -> Option<DecodedImage>
    const base64url: DecodedImage -> string
    const extractJson: string -> Option<Value>

    constructor (client: ModelClient, asImage: map<string, Value> -> Option<DecodedImage>,
                 base64url: DecodedImage -> string, extractJson: string -> Option<Value>)
      ensures this.client == client && this.asImage == asImage
      ensures this.base64url == base64url && this.extractJson == extractJson
    {
      this.client := client;
      this.asImage := asImage;
      this.base64url := base64url;
      this.extractJson := extractJson;
    }

    /** The collaborators this summariser calls. */
    function Collab(): Collaborators
    {
      Collaborators(asImage, base64url, extractJson, client.respond)
    }

    /** `summarize_image`: builds the message list, calls the model once, parses the answer. */
    method SummarizeImage(image: DecodedImage, preceding: Value, following: Value) returns (r: Result<Value, Error>)
      modifies client
      ensures client.calls == old(client.calls) + [Messages(preceding, base64url(image), following)]
      ensures r == Answer(Collab(), Messages(preceding, base64url(image), following))
    {
      var messages := [Message(User, Instruction)];
      if !preceding.Null? {
        messages := messages + [Message(User, Formatted(ContextTemplate, preceding))];
      }
      messages := messages + [Message(User, ImageUrl(base64url(image)))];
      if !following.Null? {
        messages := messages + [Message(User, Formatted(ContextTemplate, following))];
      }
      assert messages == Messages(preceding, base64url(image), following);
      var raw := client.Generate(messages);
      var json := extractJson(raw);
      if json.None? {
        r := Err(JsonDecodeError(raw));
      } else {
        r := Ok(json.value);
      }
    }

    /**
     * The second half of one iteration: summarise the decoded image, then
     * write the answer into `properties["summary"]` and its "summary"
     * field into `text_representation`.
     */
    method Annotate(elements: seq<Element>, i: nat, image: DecodedImage, preceding: Value, following: Value)
      returns (failure: Option<Error>)
      requires i < |elements| && elements[i].Valid()
      requires forall j :: 0 <= j < |elements| && j != i ==> elements[j] != elements[i]
      modifies elements[i], client
      ensures elements[i].Valid()
      ensures var o := Enrich(Collab(), old(Records(elements)), i, Messages(preceding, base64url(image), following));
        Records(elements) == o.elems && client.calls == old(client.calls) + o.calls && failure == o.failure
    {
      ghost var cur := Records(elements);
      ghost var msgs := Messages(preceding, base64url(image), following);
      var element := elements[i];
      var json := SummarizeImage(image, preceding, following);
      assert Records(elements) == cur;
      if json.Err? {
        failure := Some(json.error);
        return;
      }
      var written := element.SetProperty("summary", json.value);
      assert Records(elements) == cur[i := element.Record()];
      if written.Err? {
        failure := Some(written.error);
        return;
      }
      var summary := Subscript(json.value, "summary");
      if summary.Err? {
        failure := Some(summary.error);
        return;
      }
      ghost var mid := Records(elements);
      element.SetTextRepresentation(summary.value);
      assert Records(elements) == mid[i := element.Record()];
      failure := None;
    }

    /** One iteration of the loop of `summarize_all_images`, at index `i`. */
    method SummarizeAt(elements: seq<Element>, i: nat) returns (failure: Option<Error>)
      requires i < |elements| && forall e | e in elements :: e.Valid()
      requires forall j :: 0 <= j < |elements| && j != i ==> elements[j] != elements[i]
      modifies elements[i], client
      ensures forall e | e in elements :: e.Valid()
      ensures var o := Step(Collab(), old(Records(elements)), i);
        Records(elements) == o.elems && client.calls == old(client.calls) + o.calls && failure == o.failure
    {
      ghost var cur := Records(elements);
      var element := elements[i];
      if !element.kind.ImageKind? {
        return None;
      }
      var preceding := Null;
      if i > 0 {
        var allowed := MemberOf(elements[i - 1].Type(), PrecedingTypes);
        if allowed.Err? {
          return Some(allowed.error);
        }
        if allowed.value {
          preceding := elements[i - 1].TextRepresentation();
        }
      }
      assert PrecedingContext(cur, i) == Ok(preceding);
      var following := Null;
      if i < |elements| - 1 {
        var allowed := MemberOf(elements[i + 1].Type(), FollowingTypes);
        if allowed.Err? {
          return Some(allowed.error);
        }
        if allowed.value {
          following := elements[i + 1].TextRepresentation();
        }
      }
      assert FollowingContext(cur, i) == Ok(following);
      var image := element.data;
      var decoded := asImage(image);
      if decoded.None? {
        return None;
      }
      failure := Annotate(elements, i, decoded.value, preceding, following);
    }

    /**
     * One iteration of the loop of `summarize_all_images` on a whole
     * document, stated as how the rest of the loop from `i` continues;
     * `made` are the model calls of this iteration.
     */
    method SummarizeInDocument(doc: Document, i: nat) returns (failure: Option<Error>, ghost made: seq<seq<Message>>)
      requires doc.Valid() && i < |doc.elements|
      modifies doc.elements, client
      ensures doc.Valid() && client.calls == old(client.calls) + made
      ensures failure.Some? ==>
        RunFrom(Collab(), old(Records(doc.elements)), i) == Outcome(Records(doc.elements), made, failure)
      ensures failure.None? ==>
        var rest := RunFrom(Collab(), Records(doc.elements), i + 1);
        RunFrom(Collab(), old(Records(doc.elements)), i) == Outcome(rest.elems, made + rest.calls, rest.failure)
    {
      ghost var cur := Records(doc.elements);
      failure := SummarizeAt(doc.elements, i);
      made := Step(Collab(), cur, i).calls;
      if failure.None? {
        RunFromStep(Collab(), cur, i);
      } else {
        RunFromStops(Collab(), cur, i);
      }
    }

    /**
     * `summarize_all_images`: annotates each decodable image element of
     * `doc` in place, in order, and returns the same document.
     */
    method SummarizeAllImages(doc: Document) returns (r: Result<Document, Error>)
      requires doc.Valid()
      modifies doc.elements, client
      ensures doc.Valid()
      ensures var o := RunFrom(Collab(), old(Records(doc.elements)), 0);
        Records(doc.elements) == o.elems
        && client.calls == old(client.calls) + o.calls
        && r == (if o.failure.None? then Ok(doc) else Err(o.failure.value))
    {
      ghost var c := Collab();
      ghost var total := RunFrom(c, Records(doc.elements), 0);
      ghost var calls0 := client.calls;
      ghost var done: seq<seq<Message>> := [];
      var i := 0;
      while i < |doc.elements|
        invariant 0 <= i <= |doc.elements| && doc.Valid()
        invariant client.calls == calls0 + done
        invariant var rest := RunFrom(c, Records(doc.elements), i);
          total == Outcome(rest.elems, done + rest.calls, rest.failure)
      {
        var failure;
        ghost var made;
        failure, made := SummarizeInDocument(doc, i);
        ConcatAssoc(calls0, done, made);
        if failure.Some? {
          return Err(failure.value);
        }
        ConcatAssoc(done, made, RunFrom(c, Records(doc.elements), i + 1).calls);
        done := done + made;
        i := i + 1;
      }
      r := Ok(doc);
    }
  }

  /** The loop from `i` is one step followed by the loop from `i + 1`. */
  lemma RunFromStep(c: Collaborators, st: seq<Rec>, i: nat)
    requires i < |st| && Step(c, st, i).failure.None?
    ensures var s := Step(c, st, i); var rest := RunFrom(c, s.elems, i + 1);
      RunFrom(c, st, i) == Outcome(rest.elems, s.calls + rest.calls, rest.failure)
  {
  }

  /** The loop from `i` stops with the step at `i` when that step raises. */
  lemma RunFromStops(c: Collaborators, st: seq<Rec>, i: nat)
    requires i < |st| && Step(c, st, i).failure.Some?
    ensures RunFrom(c, st, i) == Step(c, st, i)
  {
  }

  /** Sequence concatenation is associative. */
  lemma ConcatAssoc<T>(a: seq<T>, b: seq<T>, c: seq<T>)
    ensures (a + b) + c == a + (b + c)
  {
  }
}
