/**
 The feature request builder of the image-annotate call: a caller's `labels:`
 option becomes one LABEL_DETECTION feature whose maxResults is either the
 integer the caller gave or the process-wide default label count, read at the
 moment of the call (here: passed in as `defaultMaxLabels`).
 */
module Features {

  /** The detection kinds a feature entry can name; only label detection is modelled. */
  datatype FeatureKind = LabelDetection

  /** The upper-snake-case type string a feature carries on the wire. */
  function TypeName(k: FeatureKind): string
  {
    match k
    case LabelDetection => "LABEL_DETECTION"
  }

  /** One entry of a request's feature list: `{type, maxResults}`. */
  datatype Feature = Feature(kind: FeatureKind, maxResults: int)

  /** A feature entry is well formed when it asks for at least one result. */
  predicate ValidFeature(f: Feature)
  {
    f.maxResults > 0
  }

  /** The value a caller passes as `labels:`; the call accepts an Integer, a boolean or a String. */
  datatype CountOption = IntCount(n: int) | BoolCount(b: bool) | StringCount(s: string)

  /** Ruby truthiness: every value is truthy except `false` (and `nil`, which has no case here). */
  predicate Truthy(o: CountOption)
  {
    !(o.BoolCount? && !o.b)
  }

  /**
   The option values whose meaning is pinned down: a positive integer, or a
   truthy value that is not an integer. `false` and integers below one are
   left unspecified.
   */
  predicate Specified(o: CountOption)
  {
    if o.IntCount? then o.n > 0 else Truthy(o)
  }

  /** The option once normalised: an explicit count, or "use the default". */
  datatype CountRequest = Explicit(count: int) | UseDefault

  /** Converts the loosely typed option into a count request; only an Integer is an explicit count. */
  function Normalize(o: CountOption): CountRequest
    requires Specified(o)
  {
    match o
    case IntCount(n) => Explicit(n)
    case _ => UseDefault
  }

  /** The maxResults a count request stands for, given the default read at call time. */
  function MaxResultsOf(req: CountRequest, defaultMaxLabels: int): int
  {
    match req
    case Explicit(n) => n
    case UseDefault => defaultMaxLabels
  }

  /** The maxResults sent for a `labels:` option. */
  function ResolveMaxResults(o: CountOption, defaultMaxLabels: int): (r: int)
    requires Specified(o)
    ensures defaultMaxLabels > 0 ==> r > 0
  {
    MaxResultsOf(Normalize(o), defaultMaxLabels)
  }

  /** The options of one call; only `labels:` is modelled. */
  datatype Options = Options(labels: CountOption)

  /** The feature list every request entry of one call carries. */
  function BuildFeatures(opts: Options, defaultMaxLabels: int): (r: seq<Feature>)
    requires Specified(opts.labels)
    ensures defaultMaxLabels > 0 ==> forall f :: f in r ==> ValidFeature(f)
  {
    [Feature(LabelDetection, ResolveMaxResults(opts.labels, defaultMaxLabels))]
  }

  /** `labels: n` with an Integer n sends n verbatim, whatever the default is. */
  lemma ExplicitCountIsVerbatim(n: int, defaultMaxLabels: int)
    requires n > 0
    ensures ResolveMaxResults(IntCount(n), defaultMaxLabels) == n
  {
  }

  /** `labels: true` sends the current default. */
  lemma TrueUsesDefault(defaultMaxLabels: int)
    ensures ResolveMaxResults(BoolCount(true), defaultMaxLabels) == defaultMaxLabels
  {
  }

  /**
   Any String, numeric or not, sends the current default: `"9999"` is a truthy
   marker and is never parsed as a number.
   */
  lemma StringUsesDefault(s: string, defaultMaxLabels: int)
    ensures ResolveMaxResults(StringCount(s), defaultMaxLabels) == defaultMaxLabels
  {
  }

  /**
   The default is read at call time: two calls that differ only in the
   default send different counts exactly when the option is not an Integer.
   */
  lemma DefaultReadAtCallTime(o: CountOption, d1: int, d2: int)
    requires Specified(o)
    requires d1 != d2
    ensures ResolveMaxResults(o, d1) != ResolveMaxResults(o, d2) <==> !o.IntCount?
    ensures !o.IntCount? ==> ResolveMaxResults(o, d1) == d1 && ResolveMaxResults(o, d2) == d2
  {
  }

  /**
   The feature list is exactly one LABEL_DETECTION feature, carrying the
   resolved count.
   */
  lemma BuildFeaturesIsOneLabelFeature(opts: Options, defaultMaxLabels: int)
    requires Specified(opts.labels)
    ensures |BuildFeatures(opts, defaultMaxLabels)| == 1
    ensures TypeName(BuildFeatures(opts, defaultMaxLabels)[0].kind) == "LABEL_DETECTION"
    ensures BuildFeatures(opts, defaultMaxLabels)[0].maxResults
         == (if opts.labels.IntCount? then opts.labels.n else defaultMaxLabels)
  {
  }
}
