/** Field values, message headers and the x-retry-count codec (src/subscriber.rs:532-549). */
module Amqp {
  import opened Wrappers

  newtype byte = x: int | 0 <= x < 0x100
  newtype i8 = x: int | -0x80 <= x < 0x80
  newtype i16 = x: int | -0x8000 <= x < 0x8000
  newtype i32 = x: int | -0x8000_0000 <= x < 0x8000_0000
  newtype i64 = x: int | -0x8000_0000_0000_0000 <= x < 0x8000_0000_0000_0000

  const U32 := 0x1_0000_0000
  type u32 = x: nat | x < 0x1_0000_0000
  const RETRY_COUNT := "x-retry-count"

  datatype Value =
    | Boolean(b: bool)
    | ShortShortInt(n8: i8)
    | ShortInt(n16: i16)
    | LongInt(n32: i32)
    | LongLongInt(n64: i64)
    | Unsigned(u: nat)
    | LongString(text: string)
    | Void

  type Headers = Option<map<string, Value>>

  /** The integer a signed value carries; the source reads no other variant. */
  function Signed(v: Value): Option<int> {
    match v
    case LongLongInt(n) => Some(n as int)
    case ShortShortInt(n) => Some(n as int)
    case ShortInt(n) => Some(n as int)
    case LongInt(n) => Some(n as int)
    case _ => None
  }

  /** The decode chain: absent table, absent key and unread variants all give 0; `as u32` wraps. */
  function RetryCount(h: Headers): u32 {
    if h.None? || RETRY_COUNT !in h.value then 0
    else
      match Signed(h.value[RETRY_COUNT])
      case Some(n) => n % U32
      case None => 0
  }

  /** The header table of a retry publish: a fresh table holding the incremented counter alone. */
  function RetryHeaders(c: u32): Headers
    requires c < U32 - 1
  {
    Some(map[RETRY_COUNT := LongLongInt((c + 1) as i64)])
  }

  /** For every limit a u32 can hold, the header written below the limit reads back as one more. */
  lemma RetryCountRoundTrip(c: u32, limit: u32)
    requires c < limit
    ensures RetryCount(RetryHeaders(c)) == c + 1 <= limit
    ensures RetryHeaders(c).value.Keys == {"x-retry-count"}
  {
  }

  /** Decoding is total: congruent to the signed value carried, and 0 for anything else. */
  lemma RetryCountMeaning(h: Headers)
    ensures h.None? || RETRY_COUNT !in h.value || Signed(h.value[RETRY_COUNT]).None? ==> RetryCount(h) == 0
    ensures h.Some? && RETRY_COUNT in h.value && Signed(h.value[RETRY_COUNT]).Some? ==>
              var n := Signed(h.value[RETRY_COUNT]).value;
              exists k: int :: n == RetryCount(h) + k * U32
  {
    if h.Some? && RETRY_COUNT in h.value && Signed(h.value[RETRY_COUNT]).Some? {
      var n := Signed(h.value[RETRY_COUNT]).value;
      assert n == RetryCount(h) + (n / U32) * U32;
    }
  }

  /** Every integer variant is read as the u32 its low 32 bits spell; text, flags and unsigned values count as no
      retry. */
  lemma RetryCountOfVariants(n8: i8, n16: i16, n32: i32, n64: i64, u: nat, b: bool, text: string)
    ensures RetryCount(Some(map["x-retry-count" := ShortShortInt(n8)])) == if n8 < 0 then n8 as int + U32 else n8 as int
    ensures RetryCount(Some(map["x-retry-count" := ShortInt(n16)])) == if n16 < 0 then n16 as int + U32 else n16 as int
    ensures RetryCount(Some(map["x-retry-count" := LongInt(n32)])) == if n32 < 0 then n32 as int + U32 else n32 as int
    ensures exists k: int ::
              n64 as int == RetryCount(Some(map["x-retry-count" := LongLongInt(n64)])) + k * 0x1_0000_0000
    ensures RetryCount(Some(map["x-retry-count" := Unsigned(u)]))
            == RetryCount(Some(map["x-retry-count" := Boolean(b)])) == 0
    ensures RetryCount(Some(map["x-retry-count" := LongString(text)]))
            == RetryCount(Some(map["x-retry-count" := Void])) == 0
    ensures RetryCount(None) == RetryCount(Some(map[])) == 0
  {
    var h := Some(map[RETRY_COUNT := LongLongInt(n64)]);
    assert n64 as int == RetryCount(h) + (n64 as int / U32) * U32;
  }

  /** A signed value reads back as itself exactly when a u32 can hold it; negative ones down to -2^32 wrap to the top,
      and all others keep their remainder. */
  lemma RetryCountOfSigned(h: Headers, n: int)
    requires h.Some? && RETRY_COUNT in h.value && Signed(h.value[RETRY_COUNT]) == Some(n)
    ensures RetryCount(h) == n <==> 0 <= n < U32
    ensures -U32 <= n < 0 ==> RetryCount(h) == n + U32
    ensures exists k: int :: n == RetryCount(h) + k * U32
  {
    assert n == RetryCount(h) + (n / U32) * U32;
    if -U32 <= n < 0 {
      assert (n + U32) % U32 == n % U32;
    }
  }
}
