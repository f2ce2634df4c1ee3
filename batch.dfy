/**
 The batch request assembler: N image payloads and one feature list become a
 single batch of N request entries, entry i holding image i and the shared
 feature list.
 */
module Batch {
  import opened Features

  /** The image content of one entry; loading and encoding it happen outside the model. */
  type ImagePayload = string

  /** One entry of the batch: `{image: {content}, features: [...]}`. */
  datatype AnnotateRequest = AnnotateRequest(image: ImagePayload, features: seq<Feature>)

  /** The body of the one batch-annotate call: `{requests: [...]}`. */
  datatype BatchRequest = BatchRequest(requests: seq<AnnotateRequest>)

  /** Failures found before anything is sent. */
  datatype Error = EmptyImageSet

  datatype Result<T> = Ok(value: T) | Err(error: Error)

  /** One entry per image, in the order the images were given, each with the same features. */
  function Entries(images: seq<ImagePayload>, features: seq<Feature>): (r: seq<AnnotateRequest>)
    ensures |r| == |images|
    ensures forall i :: 0 <= i < |r| ==> r[i].image == images[i]
    ensures forall i :: 0 <= i < |r| ==> r[i].features == features
  {
    if images == [] then []
    else [AnnotateRequest(images[0], features)] + Entries(images[1..], features)
  }

  /** The images a list of entries carries, in entry order. */
  function ImagesOf(reqs: seq<AnnotateRequest>): seq<ImagePayload>
  {
    if reqs == [] then [] else [reqs[0].image] + ImagesOf(reqs[1..])
  }

  /** Every entry of the batch asks for the same feature list. */
  predicate Uniform(b: BatchRequest, features: seq<Feature>)
  {
    forall i :: 0 <= i < |b.requests| ==> b.requests[i].features == features
  }

  /** Builds the batch for one call; an empty image list is refused before anything is sent. */
  function Assemble(images: seq<ImagePayload>, features: seq<Feature>): (r: Result<BatchRequest>)
    ensures r.Err? <==> |images| == 0
    ensures r.Err? ==> r.error == EmptyImageSet
    ensures r.Ok? ==> |r.value.requests| == |images| && Uniform(r.value, features)
  {
    if |images| == 0 then Err(EmptyImageSet)
    else Ok(BatchRequest(Entries(images, features)))
  }

  /** Reading the images back out of the entries gives the input list, order and all. */
  lemma {:induction false} ImagesOfEntries(images: seq<ImagePayload>, features: seq<Feature>)
    ensures ImagesOf(Entries(images, features)) == images
  {
    if images != [] {
      ImagesOfEntries(images[1..], features);
      assert Entries(images, features)[1..] == Entries(images[1..], features);
    }
  }

  /** The assembled batch gives back exactly the caller's images, in order. */
  lemma AssembleKeepsImages(images: seq<ImagePayload>, features: seq<Feature>)
    requires |images| > 0
    ensures Assemble(images, features).Ok?
    ensures ImagesOf(Assemble(images, features).value.requests) == images
  {
    ImagesOfEntries(images, features);
  }
}
