/**
 The exception taxonomy: the ETL exception record with its defaults, the six
 subclasses that each fix a (code, category) pair, the dictionary projection,
 and the failures that are not ETL exceptions at all.
 */
module Exceptions {
  import opened Base
  import opened Dicts
  import opened Values

  /** The free-form context map an exception carries. */
  type Context = Dict<Value>

  /**
   A creation instant in the two renderings the code uses: `isoformat()` for the
   dictionary projection, and `str()` for the text the error id is hashed from.
   */
  datatype Timestamp = Timestamp(iso: string, text: string)

  const GenericCode := "ETL_GENERIC_ERROR"
  const UnknownCategory := "UNKNOWN"

  const ConnectionCode := "ETL_CONNECTION_ERROR"
  const ConfigurationCode := "ETL_CONFIG_ERROR"
  const ExtractionCode := "ETL_EXTRACTION_ERROR"
  const TransformationCode := "ETL_TRANSFORMATION_ERROR"
  const ValidationCode := "ETL_VALIDATION_ERROR"
  const LoadingCode := "ETL_LOADING_ERROR"

  const ConnectionCategory := "CONNECTION"
  const ConfigurationCategory := "CONFIGURATION"
  const ExtractionCategory := "EXTRACTION"
  const TransformationCategory := "TRANSFORMATION"
  const ValidationCategory := "VALIDATION"
  const LoadingCategory := "LOADING"

  /** The Python class an ETL exception was constructed as. */
  datatype ErrorClass =
    | EtlBase
    | ConnectionClass
    | ConfigurationClass
    | ExtractionClass
    | TransformationClass
    | ValidationClass
    | LoadingClass

  /** An `ETLException` (or subclass) instance. */
  datatype EtlError = EtlError(
    cls: ErrorClass,
    message: string,
    code: string,
    category: string,
    context: Context,
    timestamp: Timestamp)

  /** The class of an exception that is not an `ETLException`. */
  datatype ForeignKind =
    | DatabaseError                  // the driver's `oracledb.DatabaseError`
    | ConfigurationError             // `config_manager.ConfigurationError`, not an ETL exception
    | Builtin(fault: PyFault)        // TypeError, AttributeError, KeyError
    | OtherKind(name: string)

  /** Anything the modelled code can raise. */
  datatype Failure =
    | Etl(err: EtlError)
    | Foreign(kind: ForeignKind, text: string)

  /**
   `str(e)`. An ETL exception prints its message. A built-in error is modelled
   by its class name, except `KeyError`, which prints the quoted key.
   */
  function Text(f: Failure): string {
    match f
    case Etl(e) => e.message
    case Foreign(_, t) => t
  }

  function FaultText(p: PyFault): string {
    match p
    case TypeError => "TypeError"
    case AttributeError => "AttributeError"
    case KeyError(k) => "'" + k + "'"
  }

  function FromFault(p: PyFault): (f: Failure)
    ensures f.Foreign? && f.kind == Builtin(p)
  {
    Foreign(Builtin(p), FaultText(p))
  }

  /** A Python string argument used as `arg or default`: `None` and `""` are falsy. */
  function OrDefault(arg: Option<string>, default: string): string {
    if arg.Some? && arg.value != "" then arg.value else default
  }

  /**
   `ETLException(message, error_code, error_category, context)` at instant `now`.
   Missing or empty code and category fall back to the generic ones; a missing
   context becomes an empty map.
   */
  function NewEtlError(message: string, code: Option<string>, category: Option<string>,
                       context: Option<Context>, now: Timestamp): (e: EtlError)
    ensures e.cls == EtlBase
    ensures e.message == message
    ensures e.timestamp == now
    ensures code.Some? && code.value != "" ==> e.code == code.value
    ensures code.None? || code.value == "" ==> e.code == GenericCode
    ensures category.Some? && category.value != "" ==> e.category == category.value
    ensures category.None? || category.value == "" ==> e.category == UnknownCategory
    ensures context.Some? ==> e.context == context.value
    ensures context.None? ==> e.context == []
  {
    EtlError(EtlBase, message, OrDefault(code, GenericCode), OrDefault(category, UnknownCategory),
             context.GetOr([]), now)
  }

  /** The subclass constructor shape: fixed code and category, caller's message and context. */
  function Subclass(cls: ErrorClass, code: string, category: string, message: string,
                    context: Option<Context>, now: Timestamp): EtlError
  {
    NewEtlError(message, Some(code), Some(category), context, now).(cls := cls)
  }

  /** `ConnectionException(message, context)`. */
  function NewConnectionError(message: string, context: Option<Context>, now: Timestamp): (e: EtlError)
    ensures e.cls == ConnectionClass
    ensures e.code == "ETL_CONNECTION_ERROR" && e.category == "CONNECTION"
    ensures e.message == message && e.timestamp == now
    ensures e.context == context.GetOr([])
  {
    Subclass(ConnectionClass, ConnectionCode, ConnectionCategory, message, context, now)
  }

  /** `ConfigurationException(message, context)`. */
  function NewConfigurationError(message: string, context: Option<Context>, now: Timestamp): (e: EtlError)
    ensures e.cls == ConfigurationClass
    ensures e.code == "ETL_CONFIG_ERROR" && e.category == "CONFIGURATION"
    ensures e.message == message && e.timestamp == now
    ensures e.context == context.GetOr([])
  {
    Subclass(ConfigurationClass, ConfigurationCode, ConfigurationCategory, message, context, now)
  }

  /** `ExtractionException(message, context)`. */
  function NewExtractionError(message: string, context: Option<Context>, now: Timestamp): (e: EtlError)
    ensures e.cls == ExtractionClass
    ensures e.code == "ETL_EXTRACTION_ERROR" && e.category == "EXTRACTION"
    ensures e.message == message && e.timestamp == now
    ensures e.context == context.GetOr([])
  {
    Subclass(ExtractionClass, ExtractionCode, ExtractionCategory, message, context, now)
  }

  /** `TransformationException(message, context)`. */
  function NewTransformationError(message: string, context: Option<Context>, now: Timestamp): (e: EtlError)
    ensures e.cls == TransformationClass
    ensures e.code == "ETL_TRANSFORMATION_ERROR" && e.category == "TRANSFORMATION"
    ensures e.message == message && e.timestamp == now
    ensures e.context == context.GetOr([])
  {
    Subclass(TransformationClass, TransformationCode, TransformationCategory, message, context, now)
  }

  /** `ValidationException(message, context)`. */
  function NewValidationError(message: string, context: Option<Context>, now: Timestamp): (e: EtlError)
    ensures e.cls == ValidationClass
    ensures e.code == "ETL_VALIDATION_ERROR" && e.category == "VALIDATION"
    ensures e.message == message && e.timestamp == now
    ensures e.context == context.GetOr([])
  {
    Subclass(ValidationClass, ValidationCode, ValidationCategory, message, context, now)
  }

  /** `LoadingException(message, context)`. */
  function NewLoadingError(message: string, context: Option<Context>, now: Timestamp): (e: EtlError)
    ensures e.cls == LoadingClass
    ensures e.code == "ETL_LOADING_ERROR" && e.category == "LOADING"
    ensures e.message == message && e.timestamp == now
    ensures e.context == context.GetOr([])
  {
    Subclass(LoadingClass, LoadingCode, LoadingCategory, message, context, now)
  }

  /** The category each class is constructed with (the base class defaults to UNKNOWN). */
  function CategoryOf(cls: ErrorClass): string {
    match cls
    case EtlBase => UnknownCategory
    case ConnectionClass => ConnectionCategory
    case ConfigurationClass => ConfigurationCategory
    case ExtractionClass => ExtractionCategory
    case TransformationClass => TransformationCategory
    case ValidationClass => ValidationCategory
    case LoadingClass => LoadingCategory
  }

  /** Raises an exception of class `cls` with the class's own constructor. */
  function NewOfClass(cls: ErrorClass, message: string, context: Option<Context>, now: Timestamp): (e: EtlError)
    ensures e.cls == cls && e.message == message && e.timestamp == now
    ensures e.category == CategoryOf(cls)
    ensures e.context == context.GetOr([])
  {
    match cls
    case EtlBase => NewEtlError(message, None, None, context, now)
    case ConnectionClass => NewConnectionError(message, context, now)
    case ConfigurationClass => NewConfigurationError(message, context, now)
    case ExtractionClass => NewExtractionError(message, context, now)
    case TransformationClass => NewTransformationError(message, context, now)
    case ValidationClass => NewValidationError(message, context, now)
    case LoadingClass => NewLoadingError(message, context, now)
  }

  /** The five keys of `to_dict()`, in order. */
  const DictKeys: seq<string> := ["message", "error_code", "error_category", "context", "timestamp"]

  /** `to_dict()`: message, code, category, context and ISO timestamp. */
  function ToDict(e: EtlError): (r: Value)
    ensures r.Obj? && Keys(r.fields) == DictKeys
    ensures UniqueKeys(r.fields)
  {
    Obj([("message", Str(e.message)),
         ("error_code", Str(e.code)),
         ("error_category", Str(e.category)),
         ("context", Obj(e.context)),
         ("timestamp", Str(e.timestamp.iso))])
  }

  /** The fields a serialised exception carries. */
  datatype ErrorFields = ErrorFields(message: string, code: string, category: string,
                                     context: Context, iso: string)

  /** Reads a `to_dict()` projection back. */
  function FromDict(v: Value): Option<ErrorFields> {
    if !v.Obj? then None
    else
      var m: Option<Value> := Get(v.fields, "message");
      var c: Option<Value> := Get(v.fields, "error_code");
      var g: Option<Value> := Get(v.fields, "error_category");
      var x: Option<Value> := Get(v.fields, "context");
      var t: Option<Value> := Get(v.fields, "timestamp");
      if m.Some? && m.value.Str? && c.Some? && c.value.Str? && g.Some? && g.value.Str?
         && x.Some? && x.value.Obj? && t.Some? && t.value.Str?
      then Some(ErrorFields(m.value.s, c.value.s, g.value.s, x.value.fields, t.value.s))
      else None
  }

  /** The projection loses nothing but the class and the `str()` rendering of the instant. */
  lemma ToDictRoundTrip(e: EtlError)
    ensures FromDict(ToDict(e)) == Some(ErrorFields(e.message, e.code, e.category, e.context, e.timestamp.iso))
  {
    var fs := ToDict(e).fields;
    GetAtIndex(fs, 0);
    GetAtIndex(fs, 1);
    GetAtIndex(fs, 2);
    GetAtIndex(fs, 3);
    GetAtIndex(fs, 4);
  }
}
