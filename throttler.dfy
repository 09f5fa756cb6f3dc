/**
 * The image panel: it keeps the full bytes of its image and, on every
 * SET_PROGRESS event, shows only the first bytes of it as a base64 data URL.
 */
module Throttler {
  import opened Common
  import opened Events
  import opened Base64

  /** What the panel puts before the base64 payload of its `img` source. */
  const DataUrlPrefix: string := "data:image/whatever;base64,"

  /** The `img` source that shows exactly the octets `shown`. */
  function DataUrl(shown: seq<uint8>): (r: string)
    ensures |DataUrlPrefix| <= |r| && r[..|DataUrlPrefix|] == DataUrlPrefix
    ensures Decode(r[|DataUrlPrefix|..]) == Some(shown)
  {
    var payload := Encode(shown);
    DecodeEncode(shown);
    assert (DataUrlPrefix + payload)[..|DataUrlPrefix|] == DataUrlPrefix;
    assert (DataUrlPrefix + payload)[|DataUrlPrefix|..] == payload;
    DataUrlPrefix + payload
  }

  /** The string of one character per octet whose code is that octet (`String.fromCharCode`). */
  function BinaryString(bytes: seq<uint8>): (s: string)
    ensures |s| == |bytes|
    ensures forall i :: 0 <= i < |s| ==> s[i] as int == bytes[i]
  {
    seq(|bytes|, i requires 0 <= i < |bytes| => bytes[i] as char)
  }

  /** A binary string of octets is what `btoa` accepts, and `btoa` reads the octets back from it. */
  lemma BtoaOfBinaryString(bytes: seq<uint8>)
    ensures Btoa(BinaryString(bytes)) == Some(Encode(bytes))
  {
    var s := BinaryString(bytes);
    assert IsBinaryString(s);
    assert Codes(s) == bytes;
  }

  /** How many octets `arrayBufferToBase64` copies: `min(length, maxNumBytes)`, or none when that is negative. */
  function PrefixLength(length: nat, maxNumBytes: int): (n: nat)
    ensures n <= length
    ensures maxNumBytes <= 0 ==> n == 0
    ensures 0 <= maxNumBytes <= length ==> n == maxNumBytes
    ensures maxNumBytes >= length ==> n == length
  {
    Max(0, Min(length, maxNumBytes))
  }

  /**
   * `arrayBufferToBase64`: copies the first `min(length, maxNumBytes)` octets
   * into a binary string, one character per octet, and base64-encodes it.
   */
  method ArrayBufferToBase64(buffer: seq<uint8>, maxNumBytes: int) returns (encoded: string)
    ensures Btoa(BinaryString(buffer[..PrefixLength(|buffer|, maxNumBytes)])) == Some(encoded)
    ensures Decode(encoded) == Some(buffer[..PrefixLength(|buffer|, maxNumBytes)])
  {
    var binary := "";
    var length := Min(|buffer|, maxNumBytes);
    var i := 0;
    while i < length
      invariant 0 <= i <= PrefixLength(|buffer|, maxNumBytes)
      invariant binary == BinaryString(buffer[..i])
    {
      assert buffer[..i + 1] == buffer[..i] + [buffer[i]];
      binary := binary + [buffer[i] as char];
      i := i + 1;
    }
    assert i == PrefixLength(|buffer|, maxNumBytes);
    ghost var copied := buffer[..i];
    BtoaOfBinaryString(copied);
    DecodeEncode(copied);
    encoded := Btoa(binary).value;
  }

  /** One `image-throttler` element: an image whose displayed bytes follow the global offset. */
  class ImageThrottler {
    const imageUrl: string
    /** The fetched image file, `null` until `initialize` succeeds. */
    var arrayBuffer: Option<seq<uint8>>
    var width: nat
    var height: nat
    /** The number of octets last rendered. */
    var numBytes: nat
    /** The `src` of the `img` element. */
    var src: string
    /** The octets behind `src`, once it is a data URL. */
    ghost var shown: Option<seq<uint8>>
    /** The SET_MAX_PROGRESS events this panel dispatched, in order. */
    ghost var log: seq<Event>

    ghost predicate Valid()
      reads this
    {
      && (arrayBuffer.None? ==> shown.None?)
      && (shown.None? ==> src == imageUrl && numBytes == 0)
      && (shown.Some? ==> |shown.value| == numBytes && src == DataUrl(shown.value))
    }

    constructor (imageUrl: string)
      ensures Valid()
      ensures this.imageUrl == imageUrl && src == imageUrl
      ensures arrayBuffer.None? && width == 0 && height == 0 && numBytes == 0
      ensures shown.None? && log == []
    {
      this.imageUrl := imageUrl;
      arrayBuffer := None;
      width, height := 0, 0;
      numBytes := 0;
      src := imageUrl;
      shown := None;
      log := [];
    }

    /**
     * `initialize`, run on the image's load event with the `img` element's
     * rendered width and height and the outcome of fetching `imageUrl`
     * (`None` when the fetch or the conversion to an array buffer fails).
     */
    method Initialize(imageWidth: nat, imageHeight: nat, fetched: Option<seq<uint8>>)
      requires Valid()
      modifies this
      ensures Valid()
      ensures width == imageWidth && height == imageHeight
      ensures numBytes == old(numBytes) && src == old(src) && shown == old(shown)
      ensures imageWidth == 0 || imageHeight == 0 || fetched.None? ==>
        arrayBuffer == old(arrayBuffer) && log == old(log)
      ensures imageWidth != 0 && imageHeight != 0 && fetched.Some? ==>
        arrayBuffer == fetched && log == old(log) + [SetMaxProgress(|fetched.value|)]
    {
      width := imageWidth;
      height := imageHeight;
      if width == 0 || height == 0 {
        return;
      }
      if fetched.Some? {
        arrayBuffer := fetched;
        log := log + [SetMaxProgress(|fetched.value|)];
      }
    }

    /**
     * The SET_PROGRESS listener: ignored until a buffer is loaded; otherwise
     * clamps the offset to the buffer and re-renders only when the clamped
     * count changed.
     */
    method OnSetProgress(n: nat)
      requires Valid()
      modifies this
      ensures Valid()
      ensures arrayBuffer == old(arrayBuffer) && width == old(width) && height == old(height)
      ensures log == old(log)
      ensures arrayBuffer.None? ==> numBytes == old(numBytes) && src == old(src) && shown == old(shown)
      ensures arrayBuffer.Some? ==> numBytes == Min(n, |arrayBuffer.value|)
      ensures arrayBuffer.Some? && numBytes == old(numBytes) ==> src == old(src) && shown == old(shown)
      ensures arrayBuffer.Some? && numBytes != old(numBytes) ==>
        shown == Some(arrayBuffer.value[..numBytes]) && src == DataUrl(arrayBuffer.value[..numBytes])
    {
      if arrayBuffer.None? {
        return;
      }
      var bytes := arrayBuffer.value;
      var clamped := Min(n, |bytes|);
      if numBytes != clamped {
        numBytes := clamped;
        var encoded := ArrayBufferToBase64(bytes, numBytes);
        src := DataUrlPrefix + encoded;
        BtoaOfBinaryString(bytes[..numBytes]);
        shown := Some(bytes[..numBytes]);
      }
    }
  }
}
