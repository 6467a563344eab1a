/** The exceptions and fatal errors the bundle's core can raise. */
module FeedErrors {

  datatype Error =
    /** Calling an accessor the item does not define (PHP fatal Error). */
    | UndefinedMethod(accessor: string)
    /** A value of the wrong type for a typed parameter: a `\DateTime` or an
        array where DOM expects a string, a non-array where an array is
        declared, a field that is not an item field (PHP TypeError). */
    | TypeError
    /** `'attribute'` option set without `'attribute_name'`. */
    | AttributeNameRequired
    /** `'date_format'` option set on a value that is not a `\DateTime`. */
    | NotADateTime(field: string)
    /** A media descriptor lacking `type`, `length` or `value`. */
    | InvalidMedia
    /** Second argument of a group field neither an array nor an item field. */
    | InvalidGroupArgument
    /** No feed of that name under `feeds` in the configuration. */
    | FeedNotDefined(feed: string)
    /** The reader was queried before any feed was loaded. */
    | FeedNotLoaded
    /** The entity class given to the reader does not exist. */
    | EntityNotFound(entity: string)
    /** The entity class does not implement the reader item interface. */
    | NotAReaderItem(entity: string)
    /** `orderBy` set with a direction other than ASC or DESC. */
    | InvalidDirection
    /** `$v['key']`, even under `isset`, on an object that is not
        array-accessible, such as a `\DateTime` (PHP fatal Error). */
    | ObjectAsArray
    /** An array or object used as an array key. */
    | IllegalOffset
    /** The feed parser rejected the document. */
    | ImportFailed(source: string)
    /** A method called on a collaborator that was never set (null). */
    | CallOnNull
    /** `new $name()` for a class that does not exist (PHP fatal Error). */
    | UndefinedClass(name: string)
  {
    /** The exception message the source attaches, where it has one. */
    function Message(): string {
      match this
      case UndefinedMethod(m) => "Call to undefined method " + m + "()"
      case AttributeNameRequired => "'attribute' parameter required an 'attribute_name' parameter."
      case NotADateTime(f) => "Field \"" + f + "\" should be a DateTime instance."
      case ObjectAsArray => "Cannot use object of type DateTime as array"
      case InvalidMedia => "Item media method must returns an array with following keys: type, length & value."
      case InvalidGroupArgument => "GroupItemField second arguments should be an array or a single ItemField instance"
      case FeedNotDefined(f) => "Specified feed '" + f + "' is not defined in your configuration."
      case FeedNotLoaded => "There is not feed loaded. Please make sure to load a feed before using the get() method."
      case EntityNotFound(e) => "Entity " + e + " does not exists."
      case NotAReaderItem(e) => "Entity \"" + e + "\" does not implement required Eko\\FeedBundle\\Item\\Reader\\ItemInterface."
      case InvalidDirection => "\"direction\" option should be set with \"orderBy\" and should be ASC or DESC"
      case _ => ""
    }
  }
}
