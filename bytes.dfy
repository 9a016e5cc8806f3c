/**
 * Byte-level vocabulary shared by every decoder of the model: buffers of
 * bytes, the little-endian readers of the `byte_stream_copy_to_uint*_little_endian`
 * macros, the return convention of libwrc (a result or an error), the
 * encodings that libwrc hands to its text-conversion libraries, and the
 * allocation limits that the decoders check sizes against.
 */
module Bytes {

  newtype byte = b: int | 0 <= b < 0x100

  /** The largest allocation libwrc accepts (MEMORY_MAXIMUM_ALLOCATION_SIZE). */
  const MaxAllocationSize: nat := 128 * 1024 * 1024

  /** SSIZE_MAX on a host with a 64-bit `ssize_t`. */
  const SsizeMax: nat := 0x7fff_ffff_ffff_ffff

  /** The kinds of failure libwrc reports through its `libcerror_error_t`. */
  datatype Error =
    | InvalidArgument     // a NULL pointer or an argument value refused
    | ValueMissing        // a NULL element where a value is expected
    | ValueOutOfBounds    // a size or offset outside what the buffer allows
    | AlreadySet          // a set-once field that holds a value
    | UnsupportedValue    // a value the decoder does not accept (signature, flags)
    | ReadFailed          // the byte source delivered fewer bytes than asked
    | ReadBeyondData      // a read the buffer cannot satisfy
    | MemoryFailure       // memory_allocate or memory_copy failed
    | OpenFailed          // a file IO handle that could not be opened or read from
    | CloseFailed         // a file IO handle that could not be closed or released

  /** The `1` / `-1` return convention of libwrc, with the value delivered on success. */
  datatype Result<T> = Ok(value: T) | Err(error: Error)

  /** Optional values: a pointer that is NULL or not. */
  datatype Option<T> = None | Some(value: T)

  /**
   * The values a decoder appends to its array, and the error it stops with,
   * if any; values appended before an error stay appended.
   */
  datatype Parsed<T> = Parsed(items: seq<T>, failure: Option<Error>)

  /** The values of `p` preceded by `items`. */
  function Prepend<T>(items: seq<T>, p: Parsed<T>): (q: Parsed<T>)
    ensures |q.items| == |items| + |p.items| && q.failure == p.failure
  {
    Parsed(items + p.items, p.failure)
  }

  /** Concatenation of sequences is associative. */
  lemma ConcatAssociative<T>(a: seq<T>, b: seq<T>, c: seq<T>)
    ensures a + (b + c) == (a + b) + c
  {
  }

  /** Prepending twice is prepending the concatenation. */
  lemma PrependTwice<T>(a: seq<T>, b: seq<T>, p: Parsed<T>)
    ensures Prepend(a, Prepend(b, p)) == Prepend(a + b, p)
  {
    ConcatAssociative(a, b, p.items);
  }

  /** One more value appended to a decoder's array keeps the array a prefix of the whole parse. */
  lemma AppendStep<T>(whole: Parsed<T>, before: seq<T>, appended: seq<T>, value: T, rest: Parsed<T>)
    requires whole == Prepend(appended, Prepend([value], rest))
    ensures whole == Prepend(appended + [value], rest)
    ensures before + appended + [value] == before + (appended + [value])
  {
    PrependTwice(appended, [value], rest);
  }

  /** The status a decoder returns for what it parsed. */
  function StatusOf<T>(p: Parsed<T>): Result<()>
  {
    if p.failure.None? then Ok(()) else Err(p.failure.value)
  }

  /** The outcome of a front-to-back search of an array by identifier. */
  datatype Lookup = Found(index: nat) | NotFound | NullEntry(index: nat)

  /** The three answers of the `*_compare` functions (LIBCDATA_COMPARE_*). */
  datatype Ordering = Less | Equal | Greater

  /** The `*_compare` functions that order their arguments by an unsigned identifier. */
  function CompareIdentifiers(first: nat, second: nat): (o: Ordering)
    ensures o == Less <==> first < second
    ensures o == Greater <==> first > second
    ensures o == Equal <==> first == second
  {
    if first < second then Less else if first > second then Greater else Equal
  }

  /** Swapping the arguments swaps Less and Greater, and keeps Equal. */
  lemma CompareIdentifiersSwap(first: nat, second: nat)
    ensures CompareIdentifiers(first, second) == Less <==> CompareIdentifiers(second, first) == Greater
    ensures CompareIdentifiers(first, second) == Equal <==> CompareIdentifiers(second, first) == Equal
  {
  }

  /**
   * The encoding under which a byte string is handed to libuna or libfvalue.
   * `ByteStream(codepage)` is a single-byte or multi-byte codepage stream,
   * `Utf16LittleEndian` is LIBUNA_CODEPAGE_UTF16_LITTLE_ENDIAN.
   */
  datatype Encoding = ByteStream(codepage: int) | Utf16LittleEndian | Utf8Stream

  /** A byte string together with the encoding it is to be converted from. */
  datatype TextData = TextData(bytes: seq<byte>, encoding: Encoding)

  /** The little-endian 16-bit value at `offset`. */
  function U16(data: seq<byte>, offset: nat): (v: nat)
    requires offset + 2 <= |data|
    ensures v < 0x1_0000
  {
    data[offset] as nat + 256 * data[offset + 1] as nat
  }

  /** The little-endian 32-bit value at `offset`. */
  function U32(data: seq<byte>, offset: nat): (v: nat)
    requires offset + 4 <= |data|
    ensures v < 0x1_0000_0000
  {
    U16(data, offset) + 0x1_0000 * U16(data, offset + 2)
  }

  /** `v` as two little-endian bytes. */
  function LE16(v: nat): (r: seq<byte>)
    requires v < 0x1_0000
    ensures |r| == 2
  {
    [(v % 256) as byte, (v / 256) as byte]
  }

  /** `v` as four little-endian bytes. */
  function LE32(v: nat): (r: seq<byte>)
    requires v < 0x1_0000_0000
    ensures |r| == 4
  {
    LE16(v % 0x1_0000) + LE16(v / 0x1_0000)
  }

  /** Reading back two written bytes at any offset gives the value written. */
  lemma U16OfLE16(prefix: seq<byte>, v: nat, rest: seq<byte>)
    requires v < 0x1_0000
    ensures U16(prefix + LE16(v) + rest, |prefix|) == v
  {
    var d := prefix + LE16(v) + rest;
    assert d[|prefix|] == LE16(v)[0] && d[|prefix| + 1] == LE16(v)[1];
  }

  /** Reading back four written bytes at any offset gives the value written. */
  lemma U32OfLE32(prefix: seq<byte>, v: nat, rest: seq<byte>)
    requires v < 0x1_0000_0000
    ensures U32(prefix + LE32(v) + rest, |prefix|) == v
  {
    var low, high := v % 0x1_0000, v / 0x1_0000;
    assert prefix + LE32(v) + rest == prefix + LE16(low) + (LE16(high) + rest);
    U16OfLE16(prefix, low, LE16(high) + rest);
    assert prefix + LE32(v) + rest == (prefix + LE16(low)) + LE16(high) + rest;
    U16OfLE16(prefix + LE16(low), high, rest);
  }

  /** Truncation to an unsigned 16-bit integer (an assignment to `uint16_t`). */
  function ToUint16(v: nat): (r: nat)
    ensures r < 0x1_0000
    ensures v < 0x1_0000 ==> r == v
    ensures (v - r) % 0x1_0000 == 0
  {
    v % 0x1_0000
  }

  /** The bitwise OR of two unsigned integers, bit by bit from the lowest. */
  function BitOr(a: nat, b: nat): nat
    decreases a + b
  {
    if a == 0 then b
    else if b == 0 then a
    else 2 * BitOr(a / 2, b / 2) + (if a % 2 == 1 || b % 2 == 1 then 1 else 0)
  }

  /** Shifting the left operand up one bit moves the lowest bit of the right operand out. */
  lemma BitOrShift(a: nat, b: nat)
    ensures BitOr(2 * a, b) == 2 * BitOr(a, b / 2) + b % 2
  {
    if a == 0 {
      assert BitOr(a, b / 2) == b / 2;
    }
  }

  /** 2 to the power `k`. */
  function Pow2(k: nat): (p: nat)
    ensures p >= 1
  {
    if k == 0 then 1 else 2 * Pow2(k - 1)
  }

  /** OR-ing a value below 2^k into a multiple of 2^k is adding it: the bits do not overlap. */
  lemma {:induction false} BitOrLowBits(x: nat, s: nat, k: nat)
    requires s < Pow2(k)
    ensures BitOr(Pow2(k) * x, s) == Pow2(k) * x + s
  {
    if k == 0 {
      assert s == 0;
      assert BitOr(x, 0) == x;
    } else {
      var h := Pow2(k - 1) * x;
      assert Pow2(k) * x == 2 * h;
      BitOrShift(h, s);
      BitOrLowBits(x, s / 2, k - 1);
    }
  }

  /** Unsigned 32-bit addition with wrap-around. */
  function AddUint32(a: nat, b: nat): (r: nat)
    requires a < 0x1_0000_0000 && b < 0x1_0000_0000
    ensures r < 0x1_0000_0000
    ensures a + b < 0x1_0000_0000 ==> r == a + b
    ensures a + b >= 0x1_0000_0000 ==> r == a + b - 0x1_0000_0000 && r < a
  {
    (a + b) % 0x1_0000_0000
  }
}
