/**
 * Request parameter parsing: the path id and the JSON:API pagination query
 * (page[size], page[number]) turned into an offset and a limit.
 */
module Requests {
  import opened Wrappers
  import opened Strconv
  import opened Herr

  const DefaultPageSize: int := 50

  /** Path variables captured by the route pattern; a missing variable reads as "". */
  type Vars = map<string, string>

  /** A parsed URL query: key/value pairs in the order they appear in the URL. */
  type Query = seq<(string, string)>

  /** The first value given for key, as url.Values[key][0] reads it. */
  function First(q: Query, key: string): (v: Option<string>)
    ensures v.Some? <==> exists i :: 0 <= i < |q| && q[i].0 == key
    ensures v.Some? ==> exists i :: 0 <= i < |q| && q[i] == (key, v.value) &&
                                    forall j :: 0 <= j < i ==> q[j].0 != key
  {
    if q == [] then None
    else if q[0].0 == key then Some(q[0].1)
    else
      var v := First(q[1..], key);
      assert forall i :: 0 < i < |q| ==> q[i] == q[1..][i - 1];
      v
  }

  /** Go's int arithmetic: a result reduced into the signed 64-bit range, two's complement. */
  function Wrap64(x: int): (r: int)
    ensures InInt64(r)
    ensures InInt64(x) ==> r == x
    ensures (r - x) % 0x1_0000_0000_0000_0000 == 0
  {
    (x - MinInt64) % 0x1_0000_0000_0000_0000 + MinInt64
  }

  function IntegerConversionError(detail: string): Error
  {
    Error("integer-conversion", "", "400", "", "Integer Conversion Error", detail, ErrorSource("", "id"))
  }

  function InvalidParameterError(parameter: string): Error
  {
    Error("invalid-parameter", "", "400", "", "Invalid query parameter", "", ErrorSource("", parameter))
  }

  /**
   * ParseID: the "id" path variable as an integer, or id 0 with an integer-conversion
   * error whose detail is the conversion error's text.
   */
  function ParseID(vars: Vars): (r: (int, Option<Error>))
    ensures r.1.None? <==> var s := if "id" in vars then vars["id"] else "";
                           IsDecimal(s) && InInt64(DecimalValue(s))
    ensures r.1.None? ==> r.0 == DecimalValue(vars["id"])
    ensures r.1.Some? ==> r.0 == 0 && r.1.value.id == "integer-conversion" && r.1.value.status == "400"
                          && r.1.value.source.parameter == "id"
  {
    var s := if "id" in vars then vars["id"] else "";
    match Atoi(s)
    case Success(id) => (id, None)
    case Failure(e) => (0, Some(IntegerConversionError(NumErrorText(s, e))))
  }

  /** Every in-range id written in decimal parses back; one past the 64-bit range does not. */
  lemma ParseIDFormatted(n: int)
    ensures InInt64(n) ==> ParseID(map["id" := FormatInt(n)]) == (n, None)
    ensures !InInt64(n) ==>
      ParseID(map["id" := FormatInt(n)]) == (0, Some(IntegerConversionError(NumErrorText(FormatInt(n), ErrRange))))
  {
    AtoiFormatInt(n);
  }

  datatype Pagination = Pagination(offset: int, limit: int)

  /**
   * Paginate, as written. `count` is what counting the model's rows returned.
   * The page size is validated by an inner declaration that shadows the outer size,
   * so a valid page[size] is never applied; and the offset is computed with
   * wrapping 64-bit arithmetic. Only the first value of each parameter is read.
   */
  function Paginate(count: Result<int, Error>, q: Query): (r: Result<Pagination, Error>)
    ensures count.Success? && r.Failure? ==>
      r.error == InvalidParameterError("page[size]") || r.error == InvalidParameterError("page[number]")
    ensures r.Success? ==> count.Success? && InInt64(r.value.offset)
    ensures r.Success? && First(q, "page[number]").Some? ==> r.value.offset <= count.value
  {
    PaginateParams(count, First(q, "page[size]"), First(q, "page[number]"))
  }

  /** The body of Paginate, given the first page[size] and page[number] values. */
  function PaginateParams(count: Result<int, Error>, sizeq: Option<string>, pageq: Option<string>): Result<Pagination, Error>
  {
    match count
    case Failure(e) => Failure(e)
    case Success(total) =>
      var size := DefaultPageSize;
      if sizeq.Some? && (var inner := Atoi(sizeq.value); inner.Failure? || inner.value <= 0) then
        Failure(InvalidParameterError("page[size]"))
      else if pageq.None? then Success(Pagination(0, size))
      else
        var page := Atoi(pageq.value);
        var p := if page.Success? then page.value else 0;
        var offset := Wrap64(Wrap64(p - 1) * size);
        if page.Failure? || p < 1 || offset > total then
          Failure(InvalidParameterError("page[number]"))
        else
          Success(Pagination(offset, size))
  }

  /** A count error is returned unchanged, whatever the query says. */
  lemma PaginateCountError(e: Error, q: Query)
    ensures Paginate(Failure(e), q) == Failure(e)
  {
  }

  /** A present page[size] that is not a positive 64-bit integer is rejected first. */
  lemma PaginateSizeRejected(total: int, q: Query)
    requires First(q, "page[size]").Some?
    ensures var s := First(q, "page[size]").value;
      (Paginate(Success(total), q) == Failure(InvalidParameterError("page[size]"))) <==>
      !(IsDecimal(s) && InInt64(DecimalValue(s)) && DecimalValue(s) > 0)
  {
  }

  /** Whatever valid page[size] is given, every success has limit 50. */
  lemma PaginateLimitIsDefault(count: Result<int, Error>, q: Query)
    requires Paginate(count, q).Success?
    ensures Paginate(count, q).value.limit == DefaultPageSize
  {
  }

  /** Largest page number whose offset (p - 1) * 50 still fits in 64 bits. */
  const MaxSafePage: int := MaxInt64 / DefaultPageSize + 1

  /**
   * With a valid size (or none) and a page[number] text whose value, if it is decimal,
   * is within the range where (p - 1) * 50 does not overflow: the call fails on
   * page[number] iff the text is not an in-range decimal, its value p is below 1, or the
   * offset exceeds total; on success the offset is (p - 1) * 50, between 0 and total.
   */
  lemma PaginatePageNumber(total: int, q: Query)
    requires First(q, "page[size]").None? ||
             (var s := First(q, "page[size]").value; IsDecimal(s) && InInt64(DecimalValue(s)) && DecimalValue(s) > 0)
    requires First(q, "page[number]").Some?
    requires var s := First(q, "page[number]").value; IsDecimal(s) ==> DecimalValue(s) <= MaxSafePage
    ensures var s := First(q, "page[number]").value;
      Paginate(Success(total), q).Failure? <==>
        !(IsDecimal(s) && InInt64(DecimalValue(s))) || DecimalValue(s) < 1
        || (DecimalValue(s) - 1) * DefaultPageSize > total
    ensures Paginate(Success(total), q).Failure? ==>
      Paginate(Success(total), q) == Failure(InvalidParameterError("page[number]"))
    ensures Paginate(Success(total), q).Success? ==>
      var pg := Paginate(Success(total), q).value;
      pg.offset == (DecimalValue(First(q, "page[number]").value) - 1) * DefaultPageSize && 0 <= pg.offset <= total
  {
    var s := First(q, "page[number]").value;
    if IsDecimal(s) && InInt64(DecimalValue(s)) && DecimalValue(s) >= 1 {
      assert 0 <= (DecimalValue(s) - 1) * DefaultPageSize <= MaxInt64;
    }
  }

  /** Without page[number], the offset is 0 (when the size check passes). */
  lemma PaginateNoPageNumber(total: int, q: Query)
    requires First(q, "page[number]").None?
    requires Paginate(Success(total), q).Success?
    ensures Paginate(Success(total), q).value == Pagination(0, DefaultPageSize)
  {
  }

  /** The last page may start exactly at total: the comparison is strict. */
  lemma PaginateOffsetEqualsTotal(k: nat)
    requires k < MaxSafePage
    ensures Paginate(Success(k * DefaultPageSize), [("page[number]", FormatInt(k + 1))]) ==
      Success(Pagination(k * DefaultPageSize, DefaultPageSize))
  {
    AtoiFormatInt(k + 1);
    PaginatePageNumber(k * DefaultPageSize, [("page[number]", FormatInt(k + 1))]);
  }

  /** Appending pairs whose keys already occur leaves every first value as it was. */
  lemma FirstOfAppend(q: Query, extra: Query, key: string)
    requires forall i :: 0 <= i < |extra| ==> First(q, extra[i].0).Some?
    ensures First(q + extra, key) == First(q, key)
  {
    if First(q, key).Some? {
      FirstPrefix(q, extra, key);
    } else {
      forall i | 0 <= i < |q + extra| ensures (q + extra)[i].0 != key {
        if i < |q| {
          assert (q + extra)[i] == q[i];
        } else {
          assert (q + extra)[i] == extra[i - |q|];
          assert First(q, extra[i - |q|].0).Some?;
        }
      }
    }
  }

  lemma FirstPrefix(q: Query, extra: Query, key: string)
    requires First(q, key).Some?
    ensures First(q + extra, key) == First(q, key)
  {
    if q[0].0 != key {
      assert (q + extra)[1..] == q[1..] + extra;
      FirstPrefix(q[1..], extra, key);
    }
  }

  /** Only the first value of a repeated query key is consulted. */
  lemma PaginateFirstValueOnly(count: Result<int, Error>, q: Query, extra: Query)
    requires forall i :: 0 <= i < |extra| ==> First(q, extra[i].0).Some?
    ensures Paginate(count, q + extra) == Paginate(count, q)
  {
    FirstOfAppend(q, extra, "page[size]");
    FirstOfAppend(q, extra, "page[number]");
  }

  /**
   * Paginate as evidently intended: a valid page[size] becomes the limit, and the
   * offset (page - 1) * size is compared with total without wrapping.
   */
  function PaginateIntended(count: Result<int, Error>, q: Query): (r: Result<Pagination, Error>)
    ensures count.Failure? ==> r == Failure(count.error)
  {
    PaginateIntendedParams(count, First(q, "page[size]"), First(q, "page[number]"))
  }

  /** The body of PaginateIntended, given the first page[size] and page[number] values. */
  function PaginateIntendedParams(count: Result<int, Error>, sizeq: Option<string>, pageq: Option<string>): Result<Pagination, Error>
  {
    match count
    case Failure(e) => Failure(e)
    case Success(total) =>
      var sized := if sizeq.Some? then Atoi(sizeq.value) else Success(DefaultPageSize);
      if sized.Failure? || sized.value <= 0 then
        Failure(InvalidParameterError("page[size]"))
      else
        var size := sized.value;
        if pageq.None? then Success(Pagination(0, size))
        else
          var page := Atoi(pageq.value);
          if page.Failure? || page.value < 1 || (page.value - 1) * size > total then
            Failure(InvalidParameterError("page[number]"))
          else
            Success(Pagination((page.value - 1) * size, size))
  }

  /**
   * Every page the intended version grants starts inside the collection, uses the
   * requested size, and starts at (page - 1) * size.
   */
  lemma PaginateIntendedBounds(total: int, q: Query)
    requires PaginateIntended(Success(total), q).Success?
    ensures var pg := PaginateIntended(Success(total), q).value;
      && pg.limit > 0
      && (First(q, "page[size]").Some? ==> pg.limit == DecimalValue(First(q, "page[size]").value))
      && (First(q, "page[size]").None? ==> pg.limit == DefaultPageSize)
      && (First(q, "page[number]").None? ==> pg.offset == 0)
      && (First(q, "page[number]").Some? ==> pg.offset == (DecimalValue(First(q, "page[number]").value) - 1) * pg.limit)
      && 0 <= pg.offset
      && (First(q, "page[number]").Some? ==> pg.offset <= total)
  {
    IntendedParamsBounds(total, First(q, "page[size]"), First(q, "page[number]"));
  }

  lemma IntendedParamsBounds(total: int, sizeq: Option<string>, pageq: Option<string>)
    requires PaginateIntendedParams(Success(total), sizeq, pageq).Success?
    ensures var pg := PaginateIntendedParams(Success(total), sizeq, pageq).value;
      && pg.limit > 0
      && (sizeq.Some? ==> pg.limit == DecimalValue(sizeq.value))
      && (sizeq.None? ==> pg.limit == DefaultPageSize)
      && (pageq.None? ==> pg.offset == 0)
      && (pageq.Some? ==> pg.offset == (DecimalValue(pageq.value) - 1) * pg.limit && pg.offset <= total)
      && 0 <= pg.offset
  {
    var pg := PaginateIntendedParams(Success(total), sizeq, pageq).value;
    var sized := if sizeq.Some? then Atoi(sizeq.value) else Success(DefaultPageSize);
    assert sized.Success? && sized.value > 0 && pg.limit == sized.value;
    if pageq.Some? {
      var page := Atoi(pageq.value);
      assert page.Success? && page.value >= 1;
      ProductNonNegative(page.value - 1, sized.value);
    }
  }

  lemma ProductNonNegative(a: int, b: int)
    requires 0 <= a && 0 <= b
    ensures 0 <= a * b
  {
  }

  /**
   * Where neither quirk can show (no page[size], and no page[number] value large enough
   * to overflow), both versions agree, for absent, malformed and well-formed page[number].
   */
  lemma PaginateAgreesWithIntended(total: int, q: Query)
    requires First(q, "page[size]").None?
    requires First(q, "page[number]").Some? ==>
      var s := First(q, "page[number]").value; IsDecimal(s) ==> DecimalValue(s) <= MaxSafePage
    ensures Paginate(Success(total), q) == PaginateIntended(Success(total), q)
  {
    if First(q, "page[number]").Some? {
      var s := First(q, "page[number]").value;
      if IsDecimal(s) && InInt64(DecimalValue(s)) && DecimalValue(s) >= 1 {
        assert 0 <= (DecimalValue(s) - 1) * DefaultPageSize <= MaxInt64;
      }
    }
  }

  /** Finding: page[size]=10 is accepted but the limit stays 50; the intended limit is 10. */
  lemma ShadowedPageSize()
    ensures Paginate(Success(100), [("page[size]", FormatInt(10))]) == Success(Pagination(0, 50))
    ensures PaginateIntended(Success(100), [("page[size]", FormatInt(10))]) == Success(Pagination(0, 10))
  {
    AtoiFormatInt(10);
  }

  const OverflowingPage: int := 288230376151711745

  /**
   * Finding: with page[number] = 2^58 + 1, (page - 1) * 50 wraps to a negative
   * number, which passes the "offset > total" check even on an empty collection;
   * the intended version rejects it.
   */
  lemma OverflowedOffset()
    ensures Paginate(Success(0), [("page[number]", FormatInt(OverflowingPage))]) ==
      Success(Pagination(-4035225266123964416, 50))
    ensures PaginateIntended(Success(0), [("page[number]", FormatInt(OverflowingPage))]) ==
      Failure(InvalidParameterError("page[number]"))
  {
    var s := FormatInt(OverflowingPage);
    var q := [("page[number]", s)];
    assert First(q, "page[size]") == None && First(q, "page[number]") == Some(s);
    AtoiFormatInt(OverflowingPage);
    OverflowedOffsetArithmetic();
  }

  lemma OverflowedOffsetArithmetic()
    ensures Wrap64(Wrap64(OverflowingPage - 1) * DefaultPageSize) == -4035225266123964416
    ensures (OverflowingPage - 1) * DefaultPageSize > 0
  {
    assert Wrap64(OverflowingPage - 1) == 288230376151711744;
    assert 288230376151711744 * 50 == 14411518807585587200;
    assert (14411518807585587200 - MinInt64) % 0x1_0000_0000_0000_0000 == 5188146770730811392;
  }
}
