/**
 The response correlator and annotation factory: the per-image responses of a
 batch, index-aligned with its entries, become one annotation each; a single
 annotation is handed back alone, several as an ordered sequence.
 */
module Annotations {

  datatype Option<T> = None | Some(value: T)

  /** One raw `labelAnnotations` element; its inner structure is not modelled. */
  type EntityData = string

  /** The service's result for one image: `{labelAnnotations: [...]}`. */
  datatype ResponseEntry = ResponseEntry(labelAnnotations: seq<EntityData>)

  /** A detected label, built from one raw element. */
  datatype Entity = Entity(data: EntityData)

  /** The result object for one image. */
  datatype Annotation = Annotation(labels: seq<Entity>)
  {
    /** The `label` accessor: the first label, or nil when none was detected. */
    function Label(): (r: Option<Entity>)
      ensures r.Some? <==> |labels| > 0
      ensures r.Some? ==> r.value == labels[0]
    {
      if |labels| > 0 then Some(labels[0]) else None
    }
  }

  /** The annotation for one response entry: one label per raw element, in order. */
  function FromResponse(e: ResponseEntry): (a: Annotation)
    ensures |a.labels| == |e.labelAnnotations|
    ensures forall i :: 0 <= i < |a.labels| ==> a.labels[i].data == e.labelAnnotations[i]
  {
    Annotation(seq(|e.labelAnnotations|, i requires 0 <= i < |e.labelAnnotations| => Entity(e.labelAnnotations[i])))
  }

  /** One annotation per response entry, in response order. */
  function AnnotationsOf(responses: seq<ResponseEntry>): (r: seq<Annotation>)
    ensures |r| == |responses|
    ensures forall i :: 0 <= i < |r| ==> r[i] == FromResponse(responses[i])
  {
    if responses == [] then []
    else [FromResponse(responses[0])] + AnnotationsOf(responses[1..])
  }

  /** What the caller gets back: one annotation, or an ordered sequence of them. */
  datatype AnnotateResult = Single(annotation: Annotation) | Many(annotations: seq<Annotation>)

  /** The annotations a result holds, in order, whichever shape it has. */
  function AsSeq(r: AnnotateResult): seq<Annotation>
  {
    match r
    case Single(a) => [a]
    case Many(s) => s
  }

  /** Arity collapse: exactly one annotation is returned bare, any other number as a sequence. */
  function Collapse(annotations: seq<Annotation>): (r: AnnotateResult)
    ensures r.Single? <==> |annotations| == 1
    ensures AsSeq(r) == annotations
  {
    if |annotations| == 1 then Single(annotations[0]) else Many(annotations)
  }

  /** Correlates a batch response with the images that produced it. */
  function Correlate(responses: seq<ResponseEntry>): (r: AnnotateResult)
    ensures r.Single? <==> |responses| == 1
    ensures |AsSeq(r)| == |responses|
  {
    Collapse(AnnotationsOf(responses))
  }

  /** The label of an annotation is present exactly when its response detected at least one label. */
  lemma LabelPresentIffDetected(e: ResponseEntry)
    ensures FromResponse(e).Label().Some? <==> |e.labelAnnotations| > 0
    ensures |e.labelAnnotations| > 0 ==> FromResponse(e).Label().value == Entity(e.labelAnnotations[0])
  {
  }

  /** Annotation i of the result comes from response i. */
  lemma CorrelateIsIndexAligned(responses: seq<ResponseEntry>, i: int)
    requires 0 <= i < |responses|
    ensures AsSeq(Correlate(responses))[i] == FromResponse(responses[i])
  {
  }
}
