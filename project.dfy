/**
 The caller-facing annotate entry point of a vision project, with its aliases
 `mark` and `detect`. One call builds the feature list, assembles one batch
 for all images, and correlates the batch's responses with the images.

 The remote call itself is not modelled: `responses` is what the service
 answered to the batch, one entry per request entry.
 */
module Project {
  import opened Features
  import opened Batch
  import opened Annotations

  /** What one call sends and what it hands back to the caller. */
  datatype Call = Call(sent: BatchRequest, result: AnnotateResult)

  /** `annotate image, ..., labels: option`, with the default label count read at call time. */
  function Annotate(images: seq<ImagePayload>, opts: Options, defaultMaxLabels: int,
                    responses: seq<ResponseEntry>): (r: Result<Call>)
    requires Specified(opts.labels)
    requires |responses| == |images|
    ensures r.Err? <==> |images| == 0
    ensures r.Ok? ==> |r.value.sent.requests| == |images|
    ensures r.Ok? ==> Uniform(r.value.sent, BuildFeatures(opts, defaultMaxLabels))
    ensures r.Ok? ==> (r.value.result.Single? <==> |images| == 1)
    ensures r.Ok? ==> |AsSeq(r.value.result)| == |images|
  {
    match Assemble(images, BuildFeatures(opts, defaultMaxLabels))
    case Err(e) => Err(e)
    case Ok(batch) => Ok(Call(batch, Correlate(responses)))
  }

  /** `mark`: another name for `annotate`. */
  function Mark(images: seq<ImagePayload>, opts: Options, defaultMaxLabels: int,
                responses: seq<ResponseEntry>): Result<Call>
    requires Specified(opts.labels)
    requires |responses| == |images|
  {
    Annotate(images, opts, defaultMaxLabels, responses)
  }

  /** `detect`: another name for `annotate`. */
  function Detect(images: seq<ImagePayload>, opts: Options, defaultMaxLabels: int,
                  responses: seq<ResponseEntry>): Result<Call>
    requires Specified(opts.labels)
    requires |responses| == |images|
  {
    Annotate(images, opts, defaultMaxLabels, responses)
  }

  /** The three names send the same batch and return the same result. */
  lemma AliasesAgree(images: seq<ImagePayload>, opts: Options, defaultMaxLabels: int,
                     responses: seq<ResponseEntry>)
    requires Specified(opts.labels)
    requires |responses| == |images|
    ensures Mark(images, opts, defaultMaxLabels, responses) == Annotate(images, opts, defaultMaxLabels, responses)
    ensures Detect(images, opts, defaultMaxLabels, responses) == Annotate(images, opts, defaultMaxLabels, responses)
  {
  }

  /**
   Entry i of the batch carries image i and exactly one LABEL_DETECTION
   feature with the resolved count, for every i, first and last alike.
   */
  lemma EveryEntryCarriesTheLabelFeature(images: seq<ImagePayload>, opts: Options, defaultMaxLabels: int,
                                         responses: seq<ResponseEntry>, i: int)
    requires Specified(opts.labels)
    requires |responses| == |images|
    requires 0 <= i < |images|
    ensures Annotate(images, opts, defaultMaxLabels, responses).Ok?
    ensures var entry := Annotate(images, opts, defaultMaxLabels, responses).value.sent.requests[i];
      && entry.image == images[i]
      && |entry.features| == 1
      && TypeName(entry.features[0].kind) == "LABEL_DETECTION"
      && entry.features[0].maxResults == ResolveMaxResults(opts.labels, defaultMaxLabels)
  {
    BuildFeaturesIsOneLabelFeature(opts, defaultMaxLabels);
  }

  /** The batch gives back the caller's images in the caller's order. */
  lemma BatchPreservesImageOrder(images: seq<ImagePayload>, opts: Options, defaultMaxLabels: int,
                                 responses: seq<ResponseEntry>)
    requires Specified(opts.labels)
    requires |responses| == |images|
    requires |images| > 0
    ensures ImagesOf(Annotate(images, opts, defaultMaxLabels, responses).value.sent.requests) == images
  {
    AssembleKeepsImages(images, BuildFeatures(opts, defaultMaxLabels));
  }

  /** One image: the caller gets one annotation, whose label is present when the service found one. */
  lemma SingleImageGivesSingleAnnotation(image: ImagePayload, opts: Options, defaultMaxLabels: int,
                                         response: ResponseEntry)
    requires Specified(opts.labels)
    ensures Annotate([image], opts, defaultMaxLabels, [response]).Ok?
    ensures var result := Annotate([image], opts, defaultMaxLabels, [response]).value.result;
      && result == Single(FromResponse(response))
      && (result.annotation.Label().Some? <==> |response.labelAnnotations| > 0)
  {
    LabelPresentIffDetected(response);
  }

  /** K > 1 images: the caller gets K annotations, annotation i built from response i. */
  lemma ManyImagesGiveOrderedAnnotations(images: seq<ImagePayload>, opts: Options, defaultMaxLabels: int,
                                         responses: seq<ResponseEntry>)
    requires Specified(opts.labels)
    requires |responses| == |images|
    requires |images| > 1
    ensures Annotate(images, opts, defaultMaxLabels, responses).Ok?
    ensures var result := Annotate(images, opts, defaultMaxLabels, responses).value.result;
      && result.Many?
      && |result.annotations| == |images|
      && forall i :: 0 <= i < |images| ==> result.annotations[i] == FromResponse(responses[i])
  {
  }

  /**
   Changing the default between two calls changes the count every entry sends
   for a non-Integer option: each call sends the default it is given.
   */
  lemma UpdatedDefaultTakesEffect(images: seq<ImagePayload>, opts: Options, d1: int, d2: int,
                                  responses: seq<ResponseEntry>, i: int)
    requires Specified(opts.labels) && !opts.labels.IntCount?
    requires |responses| == |images|
    requires 0 <= i < |images|
    ensures Annotate(images, opts, d1, responses).value.sent.requests[i].features
         == [Feature(LabelDetection, d1)]
    ensures Annotate(images, opts, d2, responses).value.sent.requests[i].features
         == [Feature(LabelDetection, d2)]
  {
  }

  /** A response with one label detection, as the single-image tests answer. */
  function OneLabelResponse(data: EntityData): ResponseEntry
  {
    ResponseEntry([data])
  }

  /** One image with `labels: 1`: one entry, one LABEL_DETECTION feature of 1, one labelled annotation. */
  lemma LabelsOneOnOneImage(image: ImagePayload, defaultMaxLabels: int, data: EntityData)
    ensures var r := Annotate([image], Options(IntCount(1)), defaultMaxLabels, [OneLabelResponse(data)]);
      && r.Ok?
      && r.value.sent == BatchRequest([AnnotateRequest(image, [Feature(LabelDetection, 1)])])
      && r.value.result.Single?
      && r.value.result.annotation.Label() == Some(Entity(data))
  {
  }

  /** Two images with `labels: 1`: two entries alike, and two labelled annotations, first and last. */
  lemma LabelsOneOnTwoImages(image: ImagePayload, defaultMaxLabels: int, data: EntityData)
    ensures var r := Annotate([image, image], Options(IntCount(1)), defaultMaxLabels,
                              [OneLabelResponse(data), OneLabelResponse(data)]);
      && r.Ok?
      && r.value.sent.requests == [AnnotateRequest(image, [Feature(LabelDetection, 1)]),
                                   AnnotateRequest(image, [Feature(LabelDetection, 1)])]
      && r.value.result.Many?
      && |r.value.result.annotations| == 2
      && r.value.result.annotations[0].Label().Some?
      && r.value.result.annotations[1].Label().Some?
  {
  }

  /** `labels: "9999"` while the default is 25 sends 25, not 9999. */
  lemma TruthyStringUsesUpdatedDefault(image: ImagePayload, data: EntityData)
    ensures var r := Annotate([image], Options(StringCount("9999")), 25, [OneLabelResponse(data)]);
      && r.Ok?
      && r.value.sent.requests[0].features == [Feature(LabelDetection, 25)]
      && r.value.result.annotation.Label().Some?
  {
  }
}
