/** One iteration of the frame generator, as values: when an iteration is a
    pause, how long it sleeps, and the bytes of the multipart chunk it yields. */
module Framing {

  import opened Wrappers
  import opened Coercion

  newtype byte = b: int | 0 <= b < 256

  predicate IsByteString(s: string) {
    forall i :: 0 <= i < |s| ==> s[i] as int < 256
  }

  /** The bytes of a Python bytes literal written with these characters. */
  function Ascii(s: string): (r: seq<byte>)
    requires IsByteString(s)
    ensures |r| == |s|
    ensures forall i :: 0 <= i < |s| ==> r[i] as int == s[i] as int
  {
    seq(|s|, i requires 0 <= i < |s| => s[i] as int as byte)
  }

  /** The boundary name announced in the response's mimetype. */
  const Boundary: string := "frame"

  const FrameText: seq<byte> := Ascii("--frame\r\n")
  const ContentType: seq<byte> := Ascii("Content-Type: image/png\r\n\r\n")
  const Trailer: seq<byte> := Ascii("\r\n\r\n")

  /** Bytes that open every chunk: boundary line, header line, blank line. */
  const ChunkHeaderLength: nat := 36
  const TrailerLength: nat := 4

  /** The part the generator yields for one encoded PNG image. */
  function Chunk(png: seq<byte>): (r: seq<byte>)
    ensures |r| == |png| + ChunkHeaderLength + TrailerLength
    ensures r[..ChunkHeaderLength] == Ascii("--" + Boundary + "\r\nContent-Type: image/png\r\n\r\n")
    ensures r[ChunkHeaderLength..ChunkHeaderLength + |png|] == png
    ensures r[|r| - TrailerLength..] == Ascii("\r\n\r\n")
  {
    var r := FrameText + ContentType + png + Trailer;
    assert r[..ChunkHeaderLength] == FrameText + ContentType;
    assert r[ChunkHeaderLength..ChunkHeaderLength + |png|] == png;
    r
  }

  /** A client's reading of one part: the image between header and trailer. */
  function Unframe(part: seq<byte>): (r: Option<seq<byte>>)
  {
    if |part| >= ChunkHeaderLength + TrailerLength
       && part[..ChunkHeaderLength] == FrameText + ContentType
       && part[|part| - TrailerLength..] == Trailer
    then Some(part[ChunkHeaderLength..|part| - TrailerLength])
    else None
  }

  /** Unframing recovers the image of every chunk. */
  lemma UnframeChunk(png: seq<byte>)
    ensures Unframe(Chunk(png)) == Some(png)
  {
  }

  /** Any part that unframes is exactly the chunk of its image, so chunking is
      injective and nothing else is ever mistaken for a chunk. */
  lemma ChunkOfUnframe(part: seq<byte>, png: seq<byte>)
    requires Unframe(part) == Some(png)
    ensures Chunk(png) == part
  {
  }

  // ---------------------------------------------------------------------------
  // Pacing
  // ---------------------------------------------------------------------------

  /** Python's `FPS == 0`: true for the integer 0 and for False. */
  predicate IsPaused(fps: ConfigValue) {
    fps == Int(0) || fps == Bool(false)
  }

  /** An FPS value for which `1/FPS` is a number (a string raises TypeError). */
  predicate IsNumeric(fps: ConfigValue) {
    !fps.Str?
  }

  function Max(a: real, b: real): real {
    if a >= b then a else b
  }

  /** The argument of `time.sleep`: `max(0, 1/FPS - last_duration)`, on exact reals. */
  function SleepSeconds(fps: ConfigValue, lastDuration: real): (r: real)
    requires IsNumeric(fps) && !IsPaused(fps)
    ensures r >= 0.0
    ensures r >= 1.0 / (if fps.Int? then fps.i as real else 1.0) - lastDuration
  {
    match fps
    case Int(n) => Max(0.0, 1.0 / (n as real) - lastDuration)
    case Bool(_) => Max(0.0, 1.0 - lastDuration)
  }

  /** With the duration reset to 0, a positive rate sleeps one frame period, a
      negative one does not sleep at all, and True (`1/True == 1.0`) sleeps a second. */
  lemma SleepAtRate(n: int)
    requires n != 0
    ensures n > 0 ==> SleepSeconds(Int(n), 0.0) == 1.0 / (n as real)
    ensures n < 0 ==> SleepSeconds(Int(n), 0.0) == 0.0
    ensures SleepSeconds(Bool(true), 0.0) == 1.0
  {
  }

  /** What one iteration of the generator loop does. */
  datatype StepOutcome =
    | Paused                                  // `continue`: nothing read, nothing yielded
    | Emitted(sleep: real, chunk: seq<byte>)  // slept, fetched, encoded and yielded a chunk
    | Raised                                  // TypeError from `1/FPS`; the generator ends
}
