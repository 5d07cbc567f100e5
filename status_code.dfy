/**
 * StatusCode: a 32-bit code whose two most significant bits give its severity
 * (OPC UA Part 4 (Services), section 7.34 "StatusCode", 1.04 edition):
 * 00 Good, 01 Uncertain, 10 Bad; 11 is reserved and classified as Bad.
 */
module StatusCodes {
  import opened Primitives

  type StatusCode = uint32

  /** The default-constructed status code. */
  const GOOD: StatusCode := 0

  /** A few concrete codes, used by the scenarios. */
  const BAD_UNEXPECTED_ERROR: StatusCode := 0x8001_0000
  const UNCERTAIN_INITIAL_VALUE: StatusCode := 0x4092_0000

  datatype Severity = Good | Uncertain | Bad

  /** The severity band encoded in the top two bits. */
  function SeverityOf(c: StatusCode): Severity {
    var top := c as int / 0x4000_0000;
    if top == 0 then Good else if top == 1 then Uncertain else Bad
  }

  predicate IsGood(c: StatusCode) { SeverityOf(c) == Good }
  predicate IsUncertain(c: StatusCode) { SeverityOf(c) == Uncertain }
  predicate IsBad(c: StatusCode) { SeverityOf(c) == Bad }

  /** Outcome of throwIfBad: nothing happens, or a BadStatus exception carrying the code is thrown. */
  datatype Check = Pass | Throw(code: StatusCode)

  /** throwIfBad: throws exactly for Bad codes, and the exception carries the code. */
  function ThrowIfBad(c: StatusCode): (o: Check)
    ensures o.Throw? <==> IsBad(c)
    ensures o.Throw? ==> o.code == c
  {
    if IsBad(c) then Throw(c) else Pass
  }

  /** The severity bands, as ranges of the code: exclusive, exhaustive and ordered. */
  lemma SeverityRanges(c: StatusCode)
    ensures IsGood(c) <==> c < 0x4000_0000
    ensures IsUncertain(c) <==> 0x4000_0000 <= c < 0x8000_0000
    ensures IsBad(c) <==> 0x8000_0000 <= c
    ensures IsGood(c) || IsUncertain(c) || IsBad(c)
    ensures !(IsGood(c) && IsUncertain(c)) && !(IsGood(c) && IsBad(c)) && !(IsUncertain(c) && IsBad(c))
  {
  }

  /** The default code is Good; the sample codes sit in the bands their names say. */
  lemma SampleCodes()
    ensures IsGood(GOOD)
    ensures IsBad(BAD_UNEXPECTED_ERROR)
    ensures IsUncertain(UNCERTAIN_INITIAL_VALUE)
  {
  }
}
