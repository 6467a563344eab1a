/** `Formatter\FormatterRegistry`: the formatter registered for each format name. */
module Registry {

  class FormatterRegistry {
    var formatters: map<string, object?>

    /** A new registry supports no format. */
    constructor ()
      ensures formatters == map[]
      ensures forall f :: !Supports(f)
    {
      formatters := map[];
    }

    /** `isset($this->formatters[$format])`. */
    predicate Supports(format: string)
      reads this
    {
      format in formatters && formatters[format] != null
    }

    /** `addFormatter($format, $formatter)`: registers or replaces the
        formatter of one format; the others are unchanged. */
    method AddFormatter(format: string, formatter: object?)
      modifies this
      ensures formatters == old(formatters)[format := formatter]
      ensures Supports(format) <==> formatter != null
      ensures forall f :: f != format ==> (Supports(f) <==> old(Supports(f)))
    {
      formatters := formatters[format := formatter];
    }

    /** `supportsFormat($format)`. */
    method SupportsFormat(format: string) returns (r: bool)
      ensures r <==> format in formatters && formatters[format] != null
    {
      r := format in formatters && formatters[format] != null;
    }

    /** `getFormatter($format)`: the very object registered under the
        format; an unregistered format reads as null (after a warning). */
    method GetFormatter(format: string) returns (r: object?)
      ensures format in formatters ==> r == formatters[format]
      ensures format !in formatters ==> r == null
      ensures r != null <==> Supports(format)
    {
      if format in formatters {
        r := formatters[format];
      } else {
        r := null;
      }
    }
  }
}
