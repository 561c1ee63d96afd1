/** The host's numeric buffer, as glMatrix uses it: a fixed-length typed array
    of numbers. Slots are `real`s; a store past the end of a typed array is
    silently ignored, which is how the model gives a meaning to the two places
    where glMatrix.js writes one slot beyond its buffer. */
module Buffer {

  /** A buffer of `n` zeros, the contents of a freshly allocated typed array. */
  function Zeros(n: nat): (r: seq<real>)
    ensures |r| == n
    ensures forall k | 0 <= k < n :: r[k] == 0.0
  {
    seq(n, _ => 0.0)
  }

  /** Reads slot `i`. A read past the end yields JavaScript's `undefined`;
      every such read in glMatrix.js only feeds a store that is dropped, so
      the model returns 0.0 there. */
  function Load(buf: seq<real>, i: nat): real
  {
    if i < |buf| then buf[i] else 0.0
  }

  /** Writes `x` to slot `i`; a store past the end leaves the buffer as it was. */
  function Store(buf: seq<real>, i: nat, x: real): (r: seq<real>)
    ensures |r| == |buf|
    ensures i < |buf| ==> r[i] == x
    ensures forall k | 0 <= k < |buf| && k != i :: r[k] == buf[k]
  {
    if i < |buf| then buf[i := x] else buf
  }

  /** The unrolled copy loop `dest[0] = src[0]; ...; dest[n-1] = src[n-1]`
      that `vec3.set`, `mat3.create`, `mat4.set` and friends perform. */
  function CopySlots(src: seq<real>, dest: seq<real>, n: nat): (r: seq<real>)
    ensures |r| == |dest|
    ensures forall k | 0 <= k < |dest| :: r[k] == (if k < n then Load(src, k) else dest[k])
    decreases n
  {
    if n == 0 then dest else Store(CopySlots(src, dest, n - 1), n - 1, Load(src, n - 1))
  }

  /** Copying at least as many slots as the destination holds, from a source
      that is at least as long, yields the source's prefix: the extra stores
      are lost. */
  lemma CopySlotsPrefix(src: seq<real>, dest: seq<real>, n: nat)
    requires |dest| <= n && |dest| <= |src|
    ensures CopySlots(src, dest, n) == src[..|dest|]
  {
  }
}
