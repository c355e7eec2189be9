// The value records and string enumerations of the error contract
// (errors/types.go:55-133).
module ErrorTypes {
  import opened Wrappers

  /** Go `type ErrorCategory string` (errors/types.go:113-123). */
  type ErrorCategory = string

  const CategoryValidation: ErrorCategory := "validation"
  const CategoryAuth: ErrorCategory := "auth"
  const CategorySystem: ErrorCategory := "system"
  const CategoryAI: ErrorCategory := "ai"
  const CategoryMedia: ErrorCategory := "media"
  const CategoryBilling: ErrorCategory := "billing"
  const CategoryRate: ErrorCategory := "rate_limit"

  /** Go `type Severity string` (errors/types.go:126-133). */
  type Severity = string

  const SeverityLow: Severity := "low"
  const SeverityMedium: Severity := "medium"
  const SeverityHigh: Severity := "high"
  const SeverityCritical: Severity := "critical"

  /** One failed field check (errors/types.go:80-92). `Provided` and `Expected`
      are `interface{}` in Go; here they carry the value's textual rendering. */
  datatype ValidationDetail = ValidationDetail(
    field: string,
    provided: Option<string>,
    expected: Option<string>,
    reason: string)

  /** One content-policy violation (errors/types.go:95-110). */
  datatype ViolationDetail = ViolationDetail(
    violationType: string,
    description: string,
    severity: Severity,
    confidence: Option<real>,
    providerCode: string)

  /** A time.Duration, in nanoseconds. */
  type Duration = int
}
