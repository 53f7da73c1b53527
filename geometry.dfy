/** Pocket geometry: where the magazine holds a given tool. */
module Geometry {
  import opened Config

  datatype Point = Point(x: real, y: real, z: real)

  const Wrap32: int := 0x1_0000_0000

  /** Distance of a tool's pocket from pocket 1, evaluated as the C expression
      `(tool_id - 1) * pocket_offset` is: in unsigned 32-bit arithmetic. */
  function PocketDistance(s: Settings, toolId: U32): U32
  {
    ((toolId - 1) * s.pocketOffset) % Wrap32
  }

  /** The XY centre of a tool's pocket; Z is left at 0 as the zeroed coordinate is. */
  function ToolLocation(s: Settings, toolId: U32): (p: Point)
    ensures p.z == 0.0
    ensures s.alignment == 0 ==> p.y == s.pocket1Y
    ensures s.alignment != 0 ==> p.x == s.pocket1X
  {
    var d := PocketDistance(s, toolId) as real;
    if s.alignment == 0 then
      Point(if s.direction == 0 then s.pocket1X + d else s.pocket1X - d, s.pocket1Y, 0.0)
    else
      Point(s.pocket1X, if s.direction == 0 then s.pocket1Y + d else s.pocket1Y - d, 0.0)
  }

  /** Signed distance from one pocket to the next along the alignment axis. */
  function Stride(s: Settings): real
  {
    if s.direction == 0 then s.pocketOffset as real else -(s.pocketOffset as real)
  }

  /** The point one pocket further along the magazine. */
  function Advance(s: Settings, p: Point): Point
  {
    if s.alignment == 0 then p.(x := p.x + Stride(s)) else p.(y := p.y + Stride(s))
  }

  /** Reference definition: start at pocket 1 and step `n` pockets along the magazine. */
  function WalkToPocket(s: Settings, n: nat): Point
  {
    if n == 0 then Point(s.pocket1X, s.pocket1Y, 0.0) else Advance(s, WalkToPocket(s, n - 1))
  }

  /** Tool 1 sits exactly at the configured first-pocket position. */
  lemma ToolOneAtFirstPocket(s: Settings)
    ensures ToolLocation(s, 1) == Point(s.pocket1X, s.pocket1Y, 0.0)
  {
  }

  /** One more pocket adds one spacing: `(n + 1) * o == n * o + o`. */
  lemma StepProduct(n: int, o: int)
    ensures (n + 1) * o == n * o + o
  {
  }

  /** Products of a spacing grow with the pocket index. */
  lemma {:induction false} ProductMonotone(a: nat, b: nat, o: nat)
    requires a <= b
    ensures a * o <= b * o
  {
    if a < b {
      ProductMonotone(a, b - 1, o);
      StepProduct(b - 1, o);
    }
  }

  /** Without overflow the pocket distance is the plain product. */
  lemma ExactDistance(s: Settings, t: U32)
    requires 1 <= t && (t - 1) * s.pocketOffset < Wrap32
    ensures PocketDistance(s, t) == (t - 1) * s.pocketOffset
  {
    ProductMonotone(0, t - 1, s.pocketOffset);
  }

  /** Without overflow, each tool is one spacing further than the tool before it. */
  lemma DistanceStep(s: Settings, t: U32)
    requires 2 <= t && (t - 1) * s.pocketOffset < Wrap32
    ensures (t - 2) * s.pocketOffset < Wrap32
    ensures PocketDistance(s, t) == PocketDistance(s, t - 1) + s.pocketOffset
  {
    StepProduct(t - 2, s.pocketOffset);
    ProductMonotone(0, t - 2, s.pocketOffset);
    ExactDistance(s, t);
    ExactDistance(s, t - 1);
  }

  /** One more spacing of distance is one step along the magazine. */
  lemma LocationStep(s: Settings, t: U32, u: U32)
    requires PocketDistance(s, u) == PocketDistance(s, t) + s.pocketOffset
    ensures ToolLocation(s, u) == Advance(s, ToolLocation(s, t))
  {
  }

  /** Every tool whose offset does not overflow 32 bits sits where walking
      `id - 1` pockets from pocket 1 arrives. */
  lemma {:induction false} LocationIsWalk(s: Settings, t: U32)
    requires 1 <= t
    requires (t - 1) * s.pocketOffset < Wrap32
    ensures ToolLocation(s, t) == WalkToPocket(s, t - 1)
  {
    if t > 1 {
      DistanceStep(s, t);
      LocationIsWalk(s, t - 1);
      LocationStep(s, t - 1, t);
    }
  }

  /** Consecutive tools are exactly one stride apart on the alignment axis and
      agree on the other axis. */
  lemma NextPocket(s: Settings, t: U32)
    requires 1 <= t && t + 1 < Wrap32
    requires t * s.pocketOffset < Wrap32
    ensures ToolLocation(s, t + 1) == Advance(s, ToolLocation(s, t))
  {
    DistanceStep(s, t + 1);
    LocationStep(s, t, t + 1);
  }

  /** Every pocket of the magazine is computed without 32-bit wrap-around. */
  lemma MagazineFitsInWord(s: Settings, t: U32)
    requires 1 <= t <= s.numberOfPockets
    ensures (t - 1) * s.pocketOffset < Wrap32
  {
    ProductMonotone(t - 1, 0xFF, s.pocketOffset);
    ProductMonotone(s.pocketOffset, 0xFFFF, 0xFF);
  }

  /** Two tools share a pocket position exactly when their pocket distances agree. */
  lemma SameLocationSameDistance(s: Settings, t: U32, u: U32)
    ensures ToolLocation(s, t) == ToolLocation(s, u) <==> PocketDistance(s, t) == PocketDistance(s, u)
  {
  }

  /** A tool inside the magazine has the plain product as its pocket distance. */
  lemma InMagazineDistance(s: Settings, t: U32)
    requires 1 <= t <= s.numberOfPockets
    ensures PocketDistance(s, t) == (t - 1) * s.pocketOffset
  {
    MagazineFitsInWord(s, t);
    ExactDistance(s, t);
  }

  /** Within the magazine a later tool lies strictly further from pocket 1. */
  lemma DistanceGrows(s: Settings, lo: U32, hi: U32)
    requires 1 <= lo < hi <= s.numberOfPockets && s.pocketOffset > 0
    ensures PocketDistance(s, lo) < PocketDistance(s, hi)
  {
    InMagazineDistance(s, lo);
    InMagazineDistance(s, hi);
    ProductMonotone(lo - 1, hi - 2, s.pocketOffset);
    StepProduct(hi - 2, s.pocketOffset);
  }

  /** With a non-zero spacing, distinct tools of the magazine have distinct pockets. */
  lemma DistinctPockets(s: Settings, t: U32, u: U32)
    requires 1 <= t <= s.numberOfPockets && 1 <= u <= s.numberOfPockets
    requires s.pocketOffset > 0 && t != u
    ensures ToolLocation(s, t) != ToolLocation(s, u)
  {
    if t < u {
      DistanceGrows(s, t, u);
    } else {
      DistanceGrows(s, u, t);
    }
    SameLocationSameDistance(s, t, u);
  }

  /** Tool 0 wraps: its offset is 2^32 - pocket_offset, far beyond the magazine. */
  lemma ToolZeroWraps(s: Settings)
    requires s.pocketOffset > 0
    ensures PocketDistance(s, 0) == Wrap32 - s.pocketOffset
  {
  }
}
