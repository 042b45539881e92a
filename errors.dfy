/**
 * The error record every client returns instead of raising, and the
 * `Result` wrapper around it.
 */
module Errors {
  import opened JsonValues

  datatype Severity = Low | Medium | High | Critical

  /**
   * The categories the modelled code names. `DefaultCategory` stands for the
   * value an `ErrorContext` gets when its creator passes no category.
   */
  datatype Category = Network | Authentication | System | Validation | DefaultCategory

  datatype ErrorContext = ErrorContext(
    code: string,
    message: string,
    severity: Severity,
    category: Category,
    details: map<string, Json>)

  datatype Result<T> = Success(value: T) | Failure(error: ErrorContext)

  function SeverityName(s: Severity): string
  {
    match s
    case Low => "LOW"
    case Medium => "MEDIUM"
    case High => "HIGH"
    case Critical => "CRITICAL"
  }

  function CategoryName(c: Category): string
  {
    match c
    case Network => "NETWORK"
    case Authentication => "AUTHENTICATION"
    case System => "SYSTEM"
    case Validation => "VALIDATION"
    case DefaultCategory => "DEFAULT"
  }

  /** `vars(context)`: the error record as a dictionary of its fields. */
  function ContextFields(e: ErrorContext): (r: map<string, Json>)
    ensures r.Keys == {"code", "message", "severity", "category", "details"}
    ensures r["code"] == JStr(e.code) && r["message"] == JStr(e.message)
    ensures r["details"] == JObj(e.details)
  {
    map["code" := JStr(e.code), "message" := JStr(e.message),
        "severity" := JStr(SeverityName(e.severity)),
        "category" := JStr(CategoryName(e.category)),
        "details" := JObj(e.details)]
  }
}
