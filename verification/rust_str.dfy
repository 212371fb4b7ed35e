/**
 The slice of Rust's `str` and integer semantics that the stats loop relies on:
 the byte representation of a `String`, the `usize` subtraction `len - 2` under
 the two build profiles, and the range-from slice `&s[start..]` with its
 character-boundary check. A panic is modelled as an `Err` value.
 */
module RustStr {

  /** One byte of a UTF-8 encoded `String`. */
  type byte = x: int | 0 <= x < 0x100

  /** 2^64: `usize` is modelled as 64 bits wide. On a 32-bit target the
      wrapped `len - 2` is likewise past the end, so it panics the same way. */
  const USIZE_LIMIT: int := 0x1_0000_0000_0000_0000

  /** No Rust allocation, hence no `String`, exceeds `isize::MAX` bytes. */
  const ISIZE_MAX: int := 0x7FFF_FFFF_FFFF_FFFF

  type usize = x: int | 0 <= x < USIZE_LIMIT

  /** The visitor count as deserialized: a `u64`. */
  type u64 = x: int | 0 <= x < 0x1_0000_0000_0000_0000

  /** The bytes of a `String`. */
  type Bytes = s: seq<byte> | |s| <= ISIZE_MAX

  /** Debug builds check integer overflow and panic; release builds wrap. */
  datatype Profile = Debug | Release

  /** The panics the stats loop can raise. */
  datatype Panic =
    | SubtractOverflow   // `len - 2` below zero in a debug build
    | IndexOutOfBounds   // slice start past the end of the string
    | NotCharBoundary    // slice start inside a multi-byte character

  datatype Result<+T> = Ok(value: T) | Err(panic: Panic)

  /** `a - b` on `usize` under the given profile. */
  function Sub(profile: Profile, a: usize, b: usize): (r: Result<usize>)
    ensures r.Err? <==> a < b && profile == Debug
    ensures r.Err? ==> r.panic == SubtractOverflow
    ensures r.Ok? ==> (r.value + b) % USIZE_LIMIT == a
    ensures r.Ok? && b <= a ==> r.value == a - b
  {
    if b <= a then Ok(a - b)
    else match profile
      case Debug => Err(SubtractOverflow)
      case Release => Ok(a - b + USIZE_LIMIT)
  }

  /**
   Rust's `str::is_char_boundary`: index 0 and the length are boundaries,
   an index past the end is not, and an index inside the string is one
   unless its byte is a UTF-8 continuation byte (0x80..0xBF).
   */
  predicate IsCharBoundary(s: seq<byte>, index: nat) {
    if index == 0 then true
    else if index < |s| then !(0x80 <= s[index] < 0xC0)
    else index == |s|
  }

  /** `&s[start..]`: the bytes from `start` on, or the panic the slice raises. */
  function SliceFrom(s: seq<byte>, start: usize): (r: Result<seq<byte>>)
    ensures r.Ok? <==> start <= |s| && (start == 0 || start == |s| || !(0x80 <= s[start] < 0xC0))
    ensures r.Ok? ==> |r.value| == |s| - start && s == s[..start] + r.value
    ensures r == Err(IndexOutOfBounds) <==> start > |s|
    ensures r.Err? && start <= |s| ==> r.panic == NotCharBoundary
  {
    if IsCharBoundary(s, start) then Ok(s[start..])
    else if start > |s| then Err(IndexOutOfBounds)
    else Err(NotCharBoundary)
  }
}
