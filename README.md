# Vision annotate: label detection requests and results

A model of the client side of the batched image-annotate call of a
`Gcloud::Vision::Project`, as its label-detection tests pin it down:

- **Feature resolution** (`Features`): the `labels:` option of a call becomes
  one `LABEL_DETECTION` feature. An Integer is sent verbatim as `maxResults`;
  `true` or any String, such as `"9999"`, sends the process-wide
  `default_max_labels` as it stands at the moment of the call.
  The option is a tagged variant (`IntCount | BoolCount | StringCount`), and the
  default is an explicit parameter `defaultMaxLabels`.
- **Batch assembly** (`Batch`): N images become one batch of N request
  entries, entry i holding image i and the one shared feature list.
- **Response correlation** (`Annotations`): response i becomes annotation i,
  whose `label` is the first detected label or nil. Exactly one annotation is
  returned bare; more are returned as an ordered sequence.
- **Entry point** (`Project`): `annotate`, and its aliases `mark` and
  `detect`, tie the three together. `responses` stands for the service's
  answer to the one batch.

The behaviour modelled is what the label-detection tests of `annotate`
(test/gcloud/vision/project/annotate_labels_test.rb) assert. Two points go
beyond them. First, an empty image list is an `EmptyImageSet` error, which the
tests never exercise. Second, the collapse is
decided by the number of annotations, which equals the number of images
because equal lengths are a precondition.

## Model

| member | source | states |
|---|---|---|
| `Features.ResolveMaxResults` | test/gcloud/vision/project/annotate_labels_test.rb:104-109 | the resolved count is positive whenever the default is |
| `Features.BuildFeatures` | test/gcloud/vision/project/annotate_labels_test.rb:26-28 | every feature of a call is well formed (maxResults > 0) when the default is positive |
| `Features.ExplicitCountIsVerbatim` | test/gcloud/vision/project/annotate_labels_test.rb:28-33 | `labels: n` with an Integer n sends exactly n, whatever the default |
| `Features.TrueUsesDefault` | test/gcloud/vision/project/annotate_labels_test.rb:104-109 | `labels: true` sends the current default |
| `Features.StringUsesDefault` | test/gcloud/vision/project/annotate_labels_test.rb:122-127 | any String, numeric or not, sends the current default and is never parsed |
| `Features.DefaultReadAtCallTime` | test/gcloud/vision/project/annotate_labels_test.rb:140-147 | two calls differing only in the default send different counts if and only if the option is not an Integer, and then each sends its own default |
| `Features.BuildFeaturesIsOneLabelFeature` | test/gcloud/vision/project/annotate_labels_test.rb:26-28 | the feature list is exactly one feature, typed `LABEL_DETECTION`, carrying the Integer or else the default |
| `Batch.Entries` | test/gcloud/vision/project/annotate_labels_test.rb:77-85 | one entry per image; entry i carries image i and the shared feature list |
| `Batch.Assemble` | test/gcloud/vision/project/annotate_labels_test.rb:22-23 | the batch fails with EmptyImageSet if and only if there are no images; otherwise it has one entry per image, all with the same features |
| `Batch.ImagesOfEntries` | test/gcloud/vision/project/annotate_labels_test.rb:78-82 | reading the images back out of the entries gives the input list in order |
| `Batch.AssembleKeepsImages` | test/gcloud/vision/project/annotate_labels_test.rb:78-82 | a non-empty image list is accepted and the batch holds exactly those images, in order |
| `Annotations.Annotation.Label` | test/gcloud/vision/project/annotate_labels_test.rb:35 | the label is present if and only if at least one label was detected, and it is the first one |
| `Annotations.FromResponse` | test/gcloud/vision/project/annotate_labels_test.rb:153-158 | an annotation holds one label per `labelAnnotations` element, in order |
| `Annotations.AnnotationsOf` | test/gcloud/vision/project/annotate_labels_test.rb:161-168 | one annotation per response entry; annotation i is built from response i |
| `Annotations.Collapse` | test/gcloud/vision/project/annotate_labels_test.rb:90-91 | the result is a bare annotation if and only if there is exactly one; either shape holds the same annotations in order |
| `Annotations.Correlate` | test/gcloud/vision/project/annotate_labels_test.rb:90-93 | the result is bare if and only if there is one response, and holds as many annotations as there are responses |
| `Annotations.LabelPresentIffDetected` | test/gcloud/vision/project/annotate_labels_test.rb:33-35 | an annotation's label is non-nil if and only if its response detected a label, and it is built from the first one |
| `Annotations.CorrelateIsIndexAligned` | test/gcloud/vision/project/annotate_labels_test.rb:92-93 | annotation i of the result comes from response i |
| `Project.Annotate` | test/gcloud/vision/project/annotate_labels_test.rb:33-35 | the call fails if and only if there are no images; otherwise it sends one entry per image with the same features, and returns a bare annotation if and only if there is one image, holding one annotation per image |
| `Project.AliasesAgree` | test/gcloud/vision/project/annotate_labels_test.rb:38-72 | `mark` and `detect` send the same batch and return the same result as `annotate` |
| `Project.EveryEntryCarriesTheLabelFeature` | test/gcloud/vision/project/annotate_labels_test.rb:79-85 | entry i carries image i and exactly one `LABEL_DETECTION` feature with the resolved count, first and last entry alike |
| `Project.BatchPreservesImageOrder` | test/gcloud/vision/project/annotate_labels_test.rb:78-82 | the sent batch gives back the caller's images in the caller's order |
| `Project.SingleImageGivesSingleAnnotation` | test/gcloud/vision/project/annotate_labels_test.rb:33-35 | one image gives one bare annotation, whose label is non-nil if and only if the service found a label |
| `Project.ManyImagesGiveOrderedAnnotations` | test/gcloud/vision/project/annotate_labels_test.rb:90-93 | K > 1 images give a sequence of K annotations, annotation i built from response i |
| `Project.UpdatedDefaultTakesEffect` | test/gcloud/vision/project/annotate_labels_test.rb:132-151 | for a non-Integer option, every entry of a call sends the default that call is given, so a changed default takes effect on the next call |
| `Project.LabelsOneOnOneImage` | test/gcloud/vision/project/annotate_labels_test.rb:20-36 | one image with `labels: 1` sends one entry with one `LABEL_DETECTION` feature of 1 and returns one annotation with a label |
| `Project.LabelsOneOnTwoImages` | test/gcloud/vision/project/annotate_labels_test.rb:74-94 | two images with `labels: 1` send two identical entries and return two annotations, first and last labelled |
| `Project.TruthyStringUsesUpdatedDefault` | test/gcloud/vision/project/annotate_labels_test.rb:132-151 | `labels: "9999"` with the default at 25 sends 25, and the annotation is labelled |

## Left out

- The HTTP exchange with `/v1/images:annotate`: transport, so a call's answer is the parameter `responses`, and the model cannot count that one call is made per batch.
- JSON parsing and serialisation of requests and responses: library calls outside the model.
- Reading the image file and its Base64 encoding: file I/O and a library encoder, so the image payload is an opaque string copied into its entry.
- The stubbing of `default_max_labels`: replaced by the explicit parameter `defaultMaxLabels`.
- Feature kinds other than labels: the implementation of the other options is not part of this model.
- The options `false`, `nil` and Integers below one: the tests do not say what they do, so `Specified` excludes them.
- A response count that differs from the image count: a precondition of `Project.Annotate`, not an error path.
- Per-image errors in a response: the tests never return one, and the code that handles them is not part of this model.
- The inner structure of a label annotation and its accessors: a label is an opaque string.
