/**
 * The API error record shared by every layer: an immutable value built at the point
 * where a failure is detected, its HTTP status as a numeric string, and two
 * well-known singleton values.
 */
module Herr {
  import opened Strconv

  /** Where an error comes from: a JSON pointer into the body, or a query/path parameter name. */
  datatype ErrorSource = ErrorSource(pointer: string, parameter: string)

  /**
   * The error record. `linksAbout` is the Links.About field. Meta, an opaque
   * interface value, is not part of this model.
   */
  datatype Error = Error(
    id: string,
    linksAbout: string,
    status: string,
    code: string,
    title: string,
    detail: string,
    source: ErrorSource)

  const UnmatchingIDsError: Error := Error(
    "unmatching-ids", "", "400", "", "IDs do not match",
    "The URL ID does not match the input ID", ErrorSource("/data/id", ""))

  const DuplicateEntryError: Error := Error(
    "duplicate-entry", "", "409", "", "Duplicate Entry",
    "Trying to create a resource with an existing ID", ErrorSource("/data/id", ""))

  /** Error(): "HTTP <code>: <title> (<id>)". */
  function Message(e: Error): (m: string)
    ensures |m| == 10 + |e.code| + |e.title| + |e.id|
    ensures m[..5] == "HTTP " && m[5..5 + |e.code|] == e.code && m[|m| - 1] == ')'
    ensures m[|m| - 1 - |e.id|..|m| - 1] == e.id
    ensures m[5 + |e.code|..|m| - 1 - |e.id|] == ": " + e.title + " ("
  {
    "HTTP " + e.code + ": " + e.title + " (" + e.id + ")"
  }

  /**
   * StatusCode(): the integer value of `status` when it is a decimal integer in the
   * 64-bit range; 500 otherwise. There is no check that the value is an HTTP status.
   */
  function StatusCode(e: Error): (code: int)
    ensures IsDecimal(e.status) && InInt64(DecimalValue(e.status)) ==> code == DecimalValue(e.status)
    ensures !IsDecimal(e.status) ==> code == 500
    ensures IsDecimal(e.status) && !InInt64(DecimalValue(e.status)) ==> code == 500
  {
    match Atoi(e.status)
    case Success(n) => n
    case Failure(_) => 500
  }

  /** Formatting any 64-bit integer into `status` makes StatusCode return it, without range checks. */
  lemma StatusCodeOfFormatted(e: Error, n: int)
    requires InInt64(n) && e.status == FormatInt(n)
    ensures StatusCode(e) == n
  {
    AtoiFormatInt(n);
  }

  /** An empty or overflowing status falls back to 500. */
  lemma StatusCodeFallback(e: Error)
    requires e.status == "" || e.status == FormatInt(MaxInt64 + 1)
    ensures StatusCode(e) == 500
  {
    if e.status != "" {
      AtoiFormatInt(MaxInt64 + 1);
    }
  }

  /** "999" yields 999 and "-1" yields -1: no range check. */
  lemma StatusCodeNoRangeCheck(e: Error)
    ensures e.status == "999" ==> StatusCode(e) == 999
    ensures e.status == "-1" ==> StatusCode(e) == -1
  {
    if e.status == "999" {
      assert FormatInt(999) == "999";
      StatusCodeOfFormatted(e, 999);
    } else if e.status == "-1" {
      assert FormatInt(-1) == "-1";
      StatusCodeOfFormatted(e, -1);
    }
  }

  /** The two singletons: id, status, pointer, unset parameter, and their status codes. */
  lemma SingletonErrors()
    ensures DuplicateEntryError.id == "duplicate-entry" && DuplicateEntryError.status == "409"
    ensures DuplicateEntryError.source == ErrorSource("/data/id", "")
    ensures StatusCode(DuplicateEntryError) == 409
    ensures UnmatchingIDsError.id == "unmatching-ids" && UnmatchingIDsError.status == "400"
    ensures UnmatchingIDsError.source == ErrorSource("/data/id", "")
    ensures StatusCode(UnmatchingIDsError) == 400
  {
    assert FormatInt(409) == "409";
    StatusCodeOfFormatted(DuplicateEntryError, 409);
    assert FormatInt(400) == "400";
    StatusCodeOfFormatted(UnmatchingIDsError, 400);
  }

  /**
   * Error() reads Code, never Status, Detail or Source; the singletons leave Code empty,
   * so their text starts with "HTTP : ".
   */
  lemma MessageIgnoresStatus(e: Error, status: string, detail: string, source: ErrorSource)
    ensures Message(e.(status := status, detail := detail, source := source)) == Message(e)
  {
  }

  lemma MessageWithoutCode(e: Error)
    requires e.code == ""
    ensures Message(e) == "HTTP : " + e.title + " (" + e.id + ")"
  {
  }
}
