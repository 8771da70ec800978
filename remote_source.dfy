/**
 * Which image sources are fetched and cached (image.js, `_processSource`,
 * lines 168-177). Everything else is a local or bundled image.
 */
module RemoteSource {
  import opened Wrappers

  /**
   * An image source as JavaScript sees it. An array of sources is an object
   * without an own `uri`. `isPropsSource` says whether the object is the very
   * one held in `this.props.source` (reference identity).
   */
  datatype Source =
    | Null
    | Undefined
    | Text(text: string)
    | Number(n: int)
    | Object(hasUri: bool, uri: string, isPropsSource: bool)

  /** `source == ''` with JavaScript's loose equality. */
  predicate LooselyEqualsEmptyString(source: Source)
  {
    match source
    case Null => false
    case Undefined => false
    case Text(t) => t == ""
    case Number(n) => n == 0
    case Object(_, _, _) => false  // its string form is "[object Object]"
  }

  /**
   * The condition of image.js:168-177; `skipSourceCheck` is `None` when the
   * argument is left out.
   */
  function IsRemoteSource(source: Source, skipSourceCheck: Option<bool>): (remote: bool)
    ensures remote <==> source.Object? && source.hasUri
                        && (skipSourceCheck == Some(false) ==> !source.isPropsSource)
  {
    source != Null
    && !LooselyEqualsEmptyString(source)
    && source.Object?
    && source.hasUri
    && match skipSourceCheck
       case None => true  // `typeof skipSourceCheck === 'undefined'`
       case Some(skip) => skip || (!skip && !source.isPropsSource)
  }
}
