/** What `summarize_image`, `summarize_all_images` and `execute` guarantee, stated over the model. */
module ImageSummaryProperties {
  import opened Wrappers
  import opened Values
  import opened Elements
  import opened ImageSummaries
  import opened Transforms

  // ---------------------------------------------------------------- messages

  /** Counting image messages distributes over concatenation. */
  lemma {:induction false} CountImagesConcat(a: seq<Message>, b: seq<Message>)
    ensures CountImages(a + b) == CountImages(a) + CountImages(b)
  {
    if a == [] {
      assert a + b == b;
    } else {
      assert (a + b)[1..] == a[1..] + b;
      CountImagesConcat(a[1..], b);
    }
  }

  /** Every message list holds exactly one image. */
  lemma ExactlyOneImage(preceding: Value, url: string, following: Value)
    ensures CountImages(Messages(preceding, url, following)) == 1
  {
    var first := [Message(User, Instruction)];
    var pre := if preceding.Null? then [] else [Message(User, Formatted(ContextTemplate, preceding))];
    var image := [Message(User, ImageUrl(url))];
    var fol := if following.Null? then [] else [Message(User, Formatted(ContextTemplate, following))];
    assert CountImages(first) == 0 by { assert first[1..] == []; }
    assert CountImages(pre) == 0 by { if pre != [] { assert pre[1..] == []; } }
    assert CountImages(image) == 1 by { assert image[1..] == []; }
    assert CountImages(fol) == 0 by { if fol != [] { assert fol[1..] == []; } }
    CountImagesConcat(first, pre);
    CountImagesConcat(first + pre, image);
    CountImagesConcat(first + pre + image, fol);
  }

  /**
   * The layout of the message list: the instruction first, the preceding
   * context (if any) before the image, the following context (if any)
   * last, both context messages in the same wording, and an absent
   * context adding no message.
   */
  lemma MessagesLayout(preceding: Value, url: string, following: Value)
    ensures var msgs := Messages(preceding, url, following);
      var p := if preceding.Null? then 0 else 1;
      var f := if following.Null? then 0 else 1;
      && |msgs| == 2 + p + f
      && msgs[0] == Message(User, Instruction) && ContentText(msgs[0].content) == Some(Prompt)
      && msgs[1 + p] == Message(User, ImageUrl(url))
      && (p == 1 ==> msgs[1] == Message(User, Formatted("The text preceding the image is {}", preceding)))
      && (f == 1 ==> msgs[2 + p] == Message(User, Formatted("The text preceding the image is {}", following)))
      && (forall m | m in msgs :: m.role == User)
      && (forall m | m in msgs && m.content.Formatted? :: !m.content.arg.Null?)
  {
  }

  // ---------------------------------------------------------------- context

  /** Only the element just before decides the preceding context of the image at `i`. */
  lemma PrecedingIsLocal(st: seq<Rec>, other: seq<Rec>, i: nat)
    requires i < |st| && i < |other|
    requires i > 0 ==> st[i - 1] == other[i - 1]
    ensures PrecedingContext(st, i) == PrecedingContext(other, i)
  {
  }

  /** Only the element just after decides the following context of the image at `i`. */
  lemma FollowingIsLocal(st: seq<Rec>, other: seq<Rec>, i: nat)
    requires i < |st| == |other|
    requires i + 1 < |st| ==> st[i + 1] == other[i + 1]
    ensures FollowingContext(st, i) == FollowingContext(other, i)
  {
  }

  /** An element of the given type and text. */
  function Elem(kind: Kind, t: string, text: string): Rec
  {
    Rec(kind, map["type" := Str(t), "text_representation" := Str(text), "properties" := Dict(map[])])
  }

  /** Text before and a caption after an image are both taken. */
  lemma TextAndCaptionAreContext(image: Rec)
    ensures var st := [Elem(PlainKind, "Text", "A"), image, Elem(PlainKind, "Caption", "B")];
      PrecedingContext(st, 1) == Ok(Str("A")) && FollowingContext(st, 1) == Ok(Str("B"))
  {
    var st := [Elem(PlainKind, "Text", "A"), image, Elem(PlainKind, "Caption", "B")];
    assert TypeOf(st[0]) == Str("Text") && TextOf(st[0]) == Str("A");
    assert TypeOf(st[2]) == Str("Caption") && TextOf(st[2]) == Str("B");
  }

  /** A table before an image, and a section header after it, give no context. */
  lemma TableAndHeaderAreNotContext(image: Rec)
    ensures var st := [Elem(TableKind, "table", "t"), image, Elem(PlainKind, "Section-header", "C")];
      PrecedingContext(st, 1) == Ok(Null) && FollowingContext(st, 1) == Ok(Null)
  {
    var st := [Elem(TableKind, "table", "t"), image, Elem(PlainKind, "Section-header", "C")];
    assert TypeOf(st[0]) == Str("table");
    assert TypeOf(st[2]) == Str("Section-header");
  }

  /** A section header is context before an image but never after it. */
  lemma HeaderOnlyPrecedes(st: seq<Rec>, i: nat)
    requires 0 < i && i + 1 < |st|
    requires TypeOf(st[i - 1]) == Str("Section-header") && TypeOf(st[i + 1]) == Str("Section-header")
    ensures PrecedingContext(st, i) == Ok(TextOf(st[i - 1]))
    ensures FollowingContext(st, i) == Ok(Null)
  {
  }

  // ---------------------------------------------------------------- annotation

  /** An element with the two fields the summariser writes taken out. */
  function Strip(r: Rec): Rec
  {
    var d := r.data - {"text_representation"};
    if "properties" in d && d["properties"].Dict? then
      Rec(r.kind, d["properties" := Dict(d["properties"].entries - {"summary"})])
    else
      Rec(r.kind, d)
  }

  /** Writing `properties["summary"]`, and then `text_representation`, changes nothing else. */
  lemma StripAnnotated(r: Rec, json: Value, summary: Value)
    requires SetPropertyIn(r.data, "summary", json).Ok?
    ensures var d := SetPropertyIn(r.data, "summary", json).value;
      Strip(Rec(r.kind, d)) == Strip(r) && Strip(Rec(r.kind, d["text_representation" := summary])) == Strip(r)
  {
    var p := r.data["properties"].entries;
    var d := SetPropertyIn(r.data, "summary", json).value;
    assert p["summary" := json] - {"summary"} == p - {"summary"};
    var base := r.data - {"text_representation"};
    assert d - {"text_representation"} == base["properties" := Dict(p["summary" := json])];
    assert d["text_representation" := summary] - {"text_representation"} == base["properties" := Dict(p["summary" := json])];
  }

  /** One loop step keeps every element's class and everything but the two summary fields. */
  lemma StepOnlyAnnotates(c: Collaborators, st: seq<Rec>, i: nat)
    requires i < |st|
    ensures forall j :: 0 <= j < |st| ==> Strip(Step(c, st, i).elems[j]) == Strip(st[j])
  {
    var o := Step(c, st, i);
    if o.elems != st {
      var json := Answer(c, o.calls[0]).value;
      StripAnnotated(st[i], json, Get(o.elems[i].data, "text_representation"));
    }
  }

  /**
   * `summarize_all_images` keeps the element count and order and every
   * element's class, and leaves non-image elements untouched - also when
   * it raises part-way.
   */
  lemma {:induction false} RunKeepsElements(c: Collaborators, st: seq<Rec>, i: nat)
    requires i <= |st|
    ensures var out := RunFrom(c, st, i).elems;
      |out| == |st|
      && forall j :: 0 <= j < |st| ==> out[j].kind == st[j].kind && (!st[j].kind.ImageKind? ==> out[j] == st[j])
    decreases |st| - i
  {
    if i < |st| {
      var s := Step(c, st, i);
      if s.failure.None? {
        RunFromStep(c, st, i);
        RunKeepsElements(c, s.elems, i + 1);
      } else {
        RunFromStops(c, st, i);
      }
    }
  }

  /**
   * `summarize_all_images` changes an element at most in
   * `properties["summary"]` and `text_representation` - also when it
   * raises part-way.
   */
  lemma {:induction false} RunOnlyAnnotates(c: Collaborators, st: seq<Rec>, i: nat)
    requires i <= |st|
    ensures var out := RunFrom(c, st, i).elems;
      forall j :: 0 <= j < |st| ==> Strip(out[j]) == Strip(st[j])
    decreases |st| - i
  {
    if i < |st| {
      var s := Step(c, st, i);
      StepOnlyAnnotates(c, st, i);
      if s.failure.None? {
        RunFromStep(c, st, i);
        RunOnlyAnnotates(c, s.elems, i + 1);
      } else {
        RunFromStops(c, st, i);
      }
    }
  }

  /** The number of decodable image elements from index `i` on. */
  function CountDecodable(c: Collaborators, st: seq<Rec>, i: nat): nat
    decreases |st| - i
  {
    if i >= |st| then 0
    else (if st[i].kind.ImageKind? && c.asImage(st[i].data).Some? then 1 else 0) + CountDecodable(c, st, i + 1)
  }

  /** CountDecodable only looks at the elements from `i` on. */
  lemma {:induction false} CountDecodableSuffix(c: Collaborators, a: seq<Rec>, b: seq<Rec>, i: nat)
    requires |a| == |b| && forall j :: i <= j < |a| ==> a[j] == b[j]
    ensures CountDecodable(c, a, i) == CountDecodable(c, b, i)
    decreases |a| - i
  {
    if i < |a| {
      CountDecodableSuffix(c, a, b, i + 1);
    }
  }

  /** A step that raises nothing calls the model once for a decodable image and never otherwise. */
  lemma StepCalls(c: Collaborators, st: seq<Rec>, i: nat)
    requires i < |st| && Step(c, st, i).failure.None?
    ensures |Step(c, st, i).calls| == if st[i].kind.ImageKind? && c.asImage(st[i].data).Some? then 1 else 0
  {
  }

  /**
   * An image element that does not decode is skipped: nothing is raised,
   * nothing is called, and the loop goes on with the next element exactly
   * as if the image were not there.
   */
  lemma UndecodableIsSkipped(c: Collaborators, st: seq<Rec>, i: nat)
    requires i < |st| && st[i].kind.ImageKind? && c.asImage(st[i].data).None?
    requires PrecedingContext(st, i).Ok? && FollowingContext(st, i).Ok?
    ensures Step(c, st, i) == Outcome(st, [], None)
    ensures RunFrom(c, st, i) == RunFrom(c, st, i + 1)
  {
    RunFromStep(c, st, i);
    assert [] + RunFrom(c, st, i + 1).calls == RunFrom(c, st, i + 1).calls;
  }

  /** A run that raises nothing calls the model exactly once per decodable image element. */
  lemma {:induction false} OneCallPerImage(c: Collaborators, st: seq<Rec>, i: nat)
    requires i <= |st| && RunFrom(c, st, i).failure.None?
    ensures |RunFrom(c, st, i).calls| == CountDecodable(c, st, i)
    decreases |st| - i
  {
    if i < |st| {
      var s := Step(c, st, i);
      RunFromStep(c, st, i);
      StepCalls(c, st, i);
      OneCallPerImage(c, s.elems, i + 1);
      CountDecodableSuffix(c, s.elems, st, i + 1);
    }
  }

  /**
   * What the loop did to element `j` of `orig`, ending in `final`: a
   * non-image or undecodable element is unchanged; otherwise the model was
   * asked with the context of the neighbours as the loop saw them - the
   * already processed element before, the untouched element after - and
   * the answer is in `properties["summary"]`, its "summary" field in
   * `text_representation`.
   */
  ghost predicate Processed(c: Collaborators, orig: seq<Rec>, final: seq<Rec>, j: int)
  {
    |orig| == |final| && 0 <= j < |orig|
    && if !orig[j].kind.ImageKind? || c.asImage(orig[j].data).None? then final[j] == orig[j]
       else
         PrecedingContext(final, j).Ok? && FollowingContext(orig, j).Ok?
         && var msgs := Messages(PrecedingContext(final, j).value, c.base64url(c.asImage(orig[j].data).value),
                                 FollowingContext(orig, j).value);
         Answer(c, msgs).Ok?
         && PropertyOf(final[j].data, "summary") == Ok(Answer(c, msgs).value)
         && Subscript(Answer(c, msgs).value, "summary") == Ok(TextOf(final[j]))
  }

  /** A run that raises nothing has processed every element from `i` on. */
  lemma {:induction false} RunProcessesAll(c: Collaborators, st: seq<Rec>, i: nat)
    requires i <= |st| && RunFrom(c, st, i).failure.None?
    ensures forall j :: i <= j < |st| ==> Processed(c, st, RunFrom(c, st, i).elems, j)
    decreases |st| - i
  {
    if i < |st| {
      var s := Step(c, st, i);
      var out := RunFrom(c, st, i).elems;
      RunProcessesAll(c, s.elems, i + 1);
      assert out == RunFrom(c, s.elems, i + 1).elems;
      forall j | i + 1 <= j < |st|
        ensures Processed(c, st, out, j)
      {
        assert Processed(c, s.elems, out, j);
        if j + 1 < |st| {
          assert s.elems[j + 1] == st[j + 1];
        }
        FollowingIsLocal(s.elems, st, j);
      }
      assert out[i] == s.elems[i];
      if i > 0 {
        assert out[i - 1] == s.elems[i - 1] == st[i - 1];
      }
      PrecedingIsLocal(out, st, i);
    }
  }

  /**
   * The end-to-end case: one image whose answer is
   * `{"is_graph": false, "summary": "a cat"}` ends with that text and that
   * summary property.
   */
  lemma OneImageEndToEnd(c: Collaborators, data: map<string, Value>, image: DecodedImage)
    requires "properties" in data && data["properties"].Dict?
    requires c.asImage(data) == Some(image)
    requires c.extractJson(c.respond(Messages(Null, c.base64url(image), Null)))
             == Some(Dict(map["is_graph" := Bool(false), "summary" := Str("a cat")]))
    ensures var o := RunFrom(c, [Rec(ImageKind, data)], 0);
      o.failure.None? && |o.calls| == 1
      && TextOf(o.elems[0]) == Str("a cat")
      && PropertyOf(o.elems[0].data, "summary") == Ok(Dict(map["is_graph" := Bool(false), "summary" := Str("a cat")]))
  {
    var st := [Rec(ImageKind, data)];
    assert PrecedingContext(st, 0) == Ok(Null);
    assert FollowingContext(st, 0) == Ok(Null);
    assert RunFrom(c, Step(c, st, 0).elems, 1).calls == [];
  }

  /**
   * An answer that `extract_json` cannot parse fails the run at the image
   * at `i`, before anything is written: the document is left as it was.
   */
  lemma ParseFailureFails(c: Collaborators, st: seq<Rec>, i: nat, image: DecodedImage)
    requires i < |st| && st[i].kind.ImageKind? && c.asImage(st[i].data) == Some(image)
    requires PrecedingContext(st, i).Ok? && FollowingContext(st, i).Ok?
    requires var msgs := Messages(PrecedingContext(st, i).value, c.base64url(image), FollowingContext(st, i).value);
      c.extractJson(c.respond(msgs)).None?
    ensures var msgs := Messages(PrecedingContext(st, i).value, c.base64url(image), FollowingContext(st, i).value);
      RunFrom(c, st, i) == Outcome(st, [msgs], Some(JsonDecodeError(c.respond(msgs))))
  {
    RunFromStops(c, st, i);
  }

  /**
   * An answer without a "summary" field fails the run at the image at `i`
   * with KeyError, after `properties["summary"]` was already written; its
   * text and every other element are left as they were.
   */
  lemma MissingSummaryFails(c: Collaborators, st: seq<Rec>, i: nat, image: DecodedImage, json: map<string, Value>)
    requires i < |st| && st[i].kind.ImageKind? && c.asImage(st[i].data) == Some(image)
    requires "properties" in st[i].data && st[i].data["properties"].Dict?
    requires PrecedingContext(st, i).Ok? && FollowingContext(st, i).Ok? && "summary" !in json
    requires var msgs := Messages(PrecedingContext(st, i).value, c.base64url(image), FollowingContext(st, i).value);
      c.extractJson(c.respond(msgs)) == Some(Dict(json))
    ensures var msgs := Messages(PrecedingContext(st, i).value, c.base64url(image), FollowingContext(st, i).value);
      var o := RunFrom(c, st, i);
      o.failure == Some(KeyError("summary")) && o.calls == [msgs] && |o.elems| == |st|
      && PropertyOf(o.elems[i].data, "summary") == Ok(Dict(json))
      && TextOf(o.elems[i]) == TextOf(st[i])
      && (forall j :: 0 <= j < |st| && j != i ==> o.elems[j] == st[j])
  {
    RunFromStops(c, st, i);
  }

  /** Enriching an element again overwrites both fields with the second answer. */
  lemma SecondAnswerOverwrites(c: Collaborators, d: Collaborators, st: seq<Rec>, i: nat, m1: seq<Message>, m2: seq<Message>)
    requires i < |st| && Enrich(c, st, i, m1).failure.None?
    requires Enrich(d, Enrich(c, st, i, m1).elems, i, m2).failure.None?
    ensures var once := Enrich(c, st, i, m1).elems;
      var twice := Enrich(d, once, i, m2).elems;
      Subscript(Answer(d, m2).value, "summary") == Ok(TextOf(twice[i]))
      && PropertyOf(twice[i].data, "summary") == Ok(Answer(d, m2).value)
      && twice == Enrich(d, st, i, m2).elems
  {
    var once := Enrich(c, st, i, m1).elems;
    var j1 := Answer(c, m1).value;
    var j2 := Answer(d, m2).value;
    var s2 := Subscript(j2, "summary").value;
    var data := st[i].data;
    var p := data["properties"].entries;
    assert once[i].data == data["properties" := Dict(p["summary" := j1])]["text_representation" := Subscript(j1, "summary").value];
    assert p["summary" := j1]["summary" := j2] == p["summary" := j2];
    assert once[i].data["properties" := Dict(p["summary" := j1]["summary" := j2])]["text_representation" := s2]
        == data["properties" := Dict(p["summary" := j2])]["text_representation" := s2];
  }

  // ---------------------------------------------------------------- execute

  /** A map that raises nothing is `summarize_all_images` applied to each row on its own, in order. */
  lemma {:induction false} MapIsElementwise(c: Collaborators, rows: seq<Row>, i: nat)
    requires i <= |rows| && MapDocuments(c, rows, i).failure.None?
    ensures var o := MapDocuments(c, rows, i);
      |o.rows| == |rows| - i
      && forall k :: i <= k < |rows| ==> RunFrom(c, rows[k], 0).failure.None? && o.rows[k - i] == RunFrom(c, rows[k], 0).elems
    decreases |rows| - i
  {
    if i < |rows| {
      MapIsElementwise(c, rows, i + 1);
    }
  }
}
