/**
 * GzipUtil.decompressGzip. Inflating is a library call and stays abstract:
 * `inflated` is what the GZIP stream yields for these bytes, or None when it
 * throws an IOException. Only the "" fallbacks are modelled.
 */
module GzipUtil {
  import opened Wrappers

  type byte = bv8

  function DecompressGzip(compressed: Option<seq<byte>>, inflated: Option<string>): (r: string)
    ensures compressed.None? || |compressed.value| == 0 ==> r == ""
    ensures inflated.None? ==> r == ""
    ensures compressed.Some? && |compressed.value| > 0 && inflated.Some? ==> r == inflated.value
  {
    if compressed.None? || |compressed.value| == 0 then ""
    else inflated.GetOr("")
  }
}
