/** `hardenAlpha` of src/components/Game/CanvasGame.tsx: the sprite canvas's
    RGBA bytes are walked pixel by pixel and every partly transparent alpha
    byte is pushed to fully opaque or fully transparent. The canvas read and
    write-back are left out; the method works on the pixel buffer. */
module Alpha {

  /** A pixel channel value. */
  type Byte = b: int | 0 <= b < 256

  /** The alpha byte after hardening: 0 and 255 are kept, anything between
      becomes 255 from the threshold up and 0 below it. */
  function HardenByte(a: Byte, threshold: int): Byte {
    if a == 0 || a == 255 then a else if a >= threshold then 255 else 0
  }

  /** Whether index `k` is the alpha byte of a pixel the loop visits: the
      loop starts each pixel at a multiple of 4 and reads its fourth byte. */
  predicate IsAlpha(k: int) {
    k % 4 == 3
  }

  /** The buffer after hardening. */
  function Hardened(d: seq<Byte>, threshold: int): (r: seq<Byte>)
    ensures |r| == |d|
  {
    seq(|d|, k requires 0 <= k < |d| => if IsAlpha(k) then HardenByte(d[k], threshold) else d[k])
  }

  /** Only alpha bytes change, and only those strictly between 0 and 255;
      each such byte becomes 255 exactly when it reaches the threshold and 0
      otherwise. Afterwards every alpha byte is 0 or 255. */
  lemma HardenedSpec(d: seq<Byte>, threshold: int)
    ensures forall k :: 0 <= k < |d| && Hardened(d, threshold)[k] != d[k] ==> IsAlpha(k) && 0 < d[k] < 255
    ensures forall k :: 0 <= k < |d| && IsAlpha(k) && 0 < d[k] < 255 ==>
      (Hardened(d, threshold)[k] == 255 <==> d[k] >= threshold) &&
      (Hardened(d, threshold)[k] == 0 <==> d[k] < threshold)
    ensures forall k :: 0 <= k < |d| && IsAlpha(k) ==> Hardened(d, threshold)[k] in {0, 255}
  {
  }

  /** Hardening twice is hardening once, whatever the two thresholds. */
  lemma HardenedIdempotent(d: seq<Byte>, t1: int, t2: int)
    ensures Hardened(Hardened(d, t1), t2) == Hardened(d, t1)
  {
  }

  /** A threshold of 0 or below makes every partly transparent pixel opaque;
      one above 255 makes it transparent. */
  lemma HardenedExtremes(d: seq<Byte>, threshold: int)
    ensures threshold <= 0 ==> forall k :: 0 <= k < |d| && IsAlpha(k) && d[k] != 0 ==> Hardened(d, threshold)[k] == 255
    ensures threshold > 255 ==> forall k :: 0 <= k < |d| && IsAlpha(k) && d[k] != 255 ==> Hardened(d, threshold)[k] == 0
  {
  }

  /** The loop: `i` steps over pixel starts; the alpha byte `i + 3` is read
      (a read past the end is `undefined`, which is neither 0 nor 255 and
      compares false with the threshold, so it would be written as 0 at an
      index past the end, which a typed array ignores). */
  method HardenAlpha(data: array<Byte>, threshold: int)
    modifies data
    ensures data[..] == Hardened(old(data[..]), threshold)
  {
    ghost var d := data[..];
    var i := 0;
    while i < data.Length
      invariant 0 <= i && i % 4 == 0
      invariant i <= data.Length + 3
      invariant forall k :: 0 <= k < data.Length ==>
        data[k] == (if k < i && IsAlpha(k) then HardenByte(d[k], threshold) else d[k])
      decreases data.Length - i
    {
      if i + 3 < data.Length {
        var a := data[i + 3];
        if !(a == 0 || a == 255) {
          var on := if a >= threshold then 255 else 0;
          data[i + 3] := on;
        }
      }
      i := i + 4;
    }
    assert forall k :: 0 <= k < data.Length ==> data[k] == Hardened(d, threshold)[k];
  }
}
