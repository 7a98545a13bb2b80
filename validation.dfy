/** `validateClientIdentifier` of server/utils/validation.ts. */
module Validation {
  import opened JsText
  import opened Formatting

  datatype ValidationResult = ValidationResult(isValid: bool, errors: seq<string>)

  const EmptyIdentifier := "Identificador no puede estar vac\U{ED}o"
  const InvalidRut := "RUT inv\U{E1}lido"
  const NameTooShort := "Nombre debe tener al menos 3 caracteres"

  /** `/^[\d\-kK\.]+$/`: one or more digits, dashes, k or K, and dots. */
  predicate LooksLikeRut(s: string) {
    |s| > 0 && forall i :: 0 <= i < |s| ==> IsRutShapeChar(s[i])
  }

  predicate IsRutShapeChar(c: char) {
    IsDigit(c) || c == '-' || c == 'k' || c == 'K' || c == '.'
  }

  /**
   * An identifier is either RUT-shaped, and then must pass the check digit, or a
   * name, and then must be at least three UTF-16 code units long once trimmed (JavaScript's
   * `length`, so one character outside the Basic Multilingual Plane counts twice). The two checks
   * exclude each other, so at most one error is reported. An identifier that trims to
   * nothing is one made only of white space (`TrimEmptyIffAllWhitespace`).
   */
  method ValidateClientIdentifier(identifier: string) returns (result: ValidationResult)
    ensures result.isValid <==> result.errors == []
    ensures |result.errors| <= 1
    ensures Trim(identifier) == [] ==> result.errors == [EmptyIdentifier]
    ensures Trim(identifier) != [] && LooksLikeRut(Trim(identifier)) ==>
      && (result.isValid <==> IsValidRut(Trim(identifier)))
      && (result.errors == [] || result.errors == [InvalidRut])
    ensures Trim(identifier) != [] && !LooksLikeRut(Trim(identifier)) ==>
      && (result.isValid <==> |Utf16(Trim(identifier))| >= 3)
      && (result.errors == [] || result.errors == [NameTooShort])
  {
    var errors: seq<string> := [];
    if identifier == [] || |Trim(identifier)| == 0 {
      errors := errors + [EmptyIdentifier];
      return ValidationResult(false, errors);
    }
    var trimmed := Trim(identifier);
    var rutShaped := LooksLikeRut(trimmed);
    if rutShaped {
      var ok := ValidateRut(trimmed);
      if !ok {
        errors := errors + [InvalidRut];
      }
    }
    if !rutShaped && |Utf16(trimmed)| < 3 {
      errors := errors + [NameTooShort];
    }
    result := ValidationResult(|errors| == 0, errors);
  }
}
