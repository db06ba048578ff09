/**
 * The native code's shared vocabulary (src/native/common.h): HRESULT
 * checking with `throwIfFail`, the `DataAndSize` token passed between stages,
 * and the fixed-width integer arithmetic of the C++ sources written out.
 */
module Common {
  import opened Text

  newtype byte = b: int | 0 <= b < 0x100

  const TwoTo16: int := 0x1_0000
  const TwoTo32: int := 0x1_0000_0000

  type u16 = x: int | 0 <= x < 0x1_0000
  type u32 = x: int | 0 <= x < 0x1_0000_0000

  /** A Windows `HRESULT`: a signed 32-bit value, negative on failure. */
  type HResult = x: int | -0x8000_0000 <= x < 0x8000_0000

  /** Conversion to an unsigned 16-bit or 32-bit C++ integer (wrap-around). */
  function U16(x: int): u16 { x % TwoTo16 }
  function U32(x: int): u32 { x % TwoTo32 }

  /** A value that already fits is its own 32-bit truncation. */
  lemma U32Small(x: int)
    requires 0 <= x < TwoTo32
    ensures U32(x) == x
  {
  }

  /** C++ integer division of signed values: the quotient is truncated toward zero. */
  function TruncDiv(a: int, b: int): int
    requires b != 0
  {
    var q := (if a < 0 then -a else a) / (if b < 0 then -b else b);
    if (a < 0) != (b < 0) then -q else q
  }

  /** An operation that either returns a value or throws `std::runtime_error(message)`. */
  datatype Outcome<T> = Ok(value: T) | Threw(message: string)

  /** A `void` operation that either returns or throws. */
  datatype Status = Pass | Fail(message: string)

  /** HRESULT codes the stages compare against, as signed 32-bit values. */
  const EAccessDenied: HResult := -2147024891            // E_ACCESSDENIED, 0x80070005
  const DxgiErrorInvalidCall: HResult := -2005270527     // DXGI_ERROR_INVALID_CALL, 0x887A0001
  const DxgiErrorNotFound: HResult := -2005270526        // DXGI_ERROR_NOT_FOUND, 0x887A0002
  const DxgiErrorUnsupported: HResult := -2005270524     // DXGI_ERROR_UNSUPPORTED, 0x887A0004
  const DxgiErrorAccessLost: HResult := -2005270490      // DXGI_ERROR_ACCESS_LOST, 0x887A0026
  const DxgiErrorWaitTimeout: HResult := -2005270489     // DXGI_ERROR_WAIT_TIMEOUT, 0x887A0027

  /** `FAILED(hr)`. */
  predicate Failed(hr: HResult)
  {
    hr < 0
  }

  /** The text `throwIfFail` and `throwIfFailAmd` put in the exception: printf's "%s error code=%x". */
  function ErrorCodeMessage(prefix: string, code: int): string
  {
    prefix + " error code=" + Hex(U32(code))
  }

  /** `throwIfFail(hr, prefix)`: throws exactly when the code is a failure code. */
  function ThrowIfFail(hr: HResult, prefix: string): (r: Status)
    ensures r.Fail? <==> hr < 0
    ensures r.Fail? ==> StartsWith(r.message, prefix + " error code=")
  {
    if Failed(hr) then Fail(ErrorCodeMessage(prefix, hr)) else Pass
  }

  /**
   * The code in a `throwIfFail` message can be read back: its hexadecimal
   * digits are the HRESULT's 32-bit two's-complement pattern.
   */
  lemma ThrowIfFailCodeReadable(hr: HResult, prefix: string)
    requires hr < 0
    ensures var m := ThrowIfFail(hr, prefix).message;
            var digits := m[|prefix| + 12..];
            && (forall i :: 0 <= i < |digits| ==> IsDigit(digits[i], 16))
            && ParseRadix(digits, 16) == hr + TwoTo32
  {
    var m := ThrowIfFail(hr, prefix).message;
    assert m == prefix + " error code=" + Hex(hr + TwoTo32);
    assert m[|prefix| + 12..] == Hex(hr + TwoTo32);
    RadixRoundTrip(hr + TwoTo32, 16);
  }

  /** Success codes, including positive ones such as `S_FALSE`, pass silently. */
  lemma SuccessCodesPass(hr: HResult)
    requires hr >= 0
    ensures ThrowIfFail(hr, "") == Pass
  {
  }

  /**
   * `DataAndSize`: the token audio and encoder stages hand downstream, the
   * address of bytes the producing stage owns plus an unsigned byte count.
   */
  datatype DataAndSize = DataAndSize(rawData: seq<byte>, size: u32)
  {
    /** The size does not run past the bytes at that address. */
    predicate Readable()
    {
      size <= |rawData|
    }

    /** The bytes a consumer reads: `size` bytes from `rawData`. */
    function Payload(): seq<byte>
      requires Readable()
    {
      rawData[..size]
    }
  }

  /** The payloads of a run of tokens, concatenated in order. */
  function Payloads(tokens: seq<DataAndSize>): seq<byte>
    requires forall i :: 0 <= i < |tokens| ==> tokens[i].Readable()
  {
    if |tokens| == 0 then [] else Payloads(tokens[..|tokens| - 1]) + tokens[|tokens| - 1].Payload()
  }

  /** Payloads of a run of tokens are its first tokens' payloads followed by the rest's: a sink only ever appends. */
  lemma {:induction false} PayloadsAppend(first: seq<DataAndSize>, rest: seq<DataAndSize>)
    requires forall i :: 0 <= i < |first| ==> first[i].Readable()
    requires forall i :: 0 <= i < |rest| ==> rest[i].Readable()
    ensures forall i :: 0 <= i < |first + rest| ==> (first + rest)[i].Readable()
    ensures Payloads(first + rest) == Payloads(first) + Payloads(rest)
    decreases |rest|
  {
    if |rest| == 0 {
      assert first + rest == first;
    } else {
      var init, last := rest[..|rest| - 1], rest[|rest| - 1];
      var all := first + rest;
      assert all[..|all| - 1] == first + init && all[|all| - 1] == last;
      PayloadsAppend(first, init);
      SeqAppendAssociates(Payloads(first), Payloads(init), last.Payload());
    }
  }

  /**
   * `size` zero bytes: a `memset(buffer, 0, size)`, and also the model's
   * stand-in for the contents of a fresh `new char[size]`, which C++ leaves
   * indeterminate. The model fixes them at zero; what a stage hands on from
   * such a buffer before writing it is therefore not modelled.
   */
  function Zeros(size: nat): (r: seq<byte>)
    ensures |r| == size && forall i :: 0 <= i < size ==> r[i] == 0
  {
    seq(size, _ => 0)
  }

  /** Multiplying by the same factor keeps the order. */
  lemma MulMonotone(a: nat, x: nat, y: nat)
    requires x <= y
    ensures a * x <= a * y
  {
  }

  /** A positive factor can be cancelled from a strict inequality. */
  lemma MulCancel(f: nat, x: nat, y: nat)
    requires f * x < f * y
    ensures x < y
  {
  }
}
