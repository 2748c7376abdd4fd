/** The identifier value object. Identifiers are opaque strings; the
    library's validity check is modelled by the canonical textual form of a
    UUID: 36 characters, hyphens at positions 8, 13, 18 and 23, hexadecimal
    digits elsewhere. */
module Uuids {
  import opened Wrappers

  datatype Uuid = Uuid(text: string)

  predicate IsHexDigit(c: char) {
    '0' <= c <= '9' || 'a' <= c <= 'f' || 'A' <= c <= 'F'
  }

  predicate IsHyphenPosition(i: int) {
    i == 8 || i == 13 || i == 18 || i == 23
  }

  predicate WellFormed(s: string) {
    |s| == 36 &&
    forall i :: 0 <= i < |s| ==> (if IsHyphenPosition(i) then s[i] == '-' else IsHexDigit(s[i]))
  }

  const InvalidFormatPrefix: string := "Invalid UUID format: "

  function InvalidFormat(s: string): string {
    InvalidFormatPrefix + s
  }

  /** `Uuid::fromString`: accepts exactly the well-formed texts and keeps them;
      anything else raises an invalid-argument error naming the text. */
  function FromString(s: string): (r: Result<Uuid>)
    ensures r.Ok? <==> WellFormed(s)
    ensures r.Ok? ==> r.value.text == s
    ensures r.Err? ==> r.error == InvalidFormat(s)
  {
    if WellFormed(s) then Ok(Uuid(s)) else Err(InvalidFormat(s))
  }
}
