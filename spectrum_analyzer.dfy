/** The audio front end in `spectrum_analyzer.py`: the stream constants, the choice of
    input device among the names the audio library reports, and the decoding of a
    block of little-endian signed 16-bit samples with the optional channel split. The
    device list and the bytes of a block are parameters. */
module SpectrumAnalyzer {
  import opened Common

  const Rate: nat := 48000
  const Channels: nat := 1
  const InputBlockTime: real := 0.05
  /** `int(RATE * INPUT_BLOCK_TIME)`: `int` truncates the product toward zero. */
  const InputFramesPerBlock: int := (Rate as real * InputBlockTime).Floor
  /** The channel `readData` keeps when there are two. */
  const LR: char := 'l'

  /** A block holds 2400 frames, 50 ms at 48 kHz. */
  lemma FramesPerBlock()
    ensures InputFramesPerBlock == 2400
  {
  }

  // ---------------------------------------------------------------------------
  // Input device

  /** `str.lower` on one character, for ASCII letters. */
  function ToLower(c: char): (d: char)
    ensures 'A' <= c <= 'Z' ==> 'a' <= d <= 'z' && d as int - c as int == 32
    ensures !('A' <= c <= 'Z') ==> d == c
  {
    if 'A' <= c <= 'Z' then (c as int + 32) as char else c
  }

  function Lower(s: string): (t: string)
    ensures |t| == |s| && forall i :: 0 <= i < |s| ==> t[i] == ToLower(s[i])
  {
    seq(|s|, i requires 0 <= i < |s| => ToLower(s[i]))
  }

  /** Lower-casing twice changes nothing more. */
  lemma LowerIdempotent(s: string)
    ensures Lower(Lower(s)) == Lower(s)
  {
    var t := Lower(s);
    forall i | 0 <= i < |s|
      ensures Lower(t)[i] == t[i]
    {
      assert !('A' <= t[i] <= 'Z');
    }
  }

  /** `name.lower() in ["mic", "input"]`: equality with one of the two words, so a
      longer name that merely contains them does not match. */
  predicate IsInputName(name: string)
    ensures IsInputName(name) ==> |name| == 3 || |name| == 5
  {
    Lower(name) == "mic" || Lower(name) == "input"
  }

  /** Whether a name matches does not depend on its case. */
  lemma InputNameIgnoresCase(name: string)
    ensures IsInputName(name) <==> IsInputName(Lower(name))
  {
    LowerIdempotent(name);
  }

  /** `find_input_device`: walk the devices in index order, overwriting the result on
      every match. The result is the index of the LAST device whose name matches, and
      `None` when none matches. */
  method FindInputDevice(names: seq<string>) returns (deviceIndex: Option<nat>)
    ensures deviceIndex.None? <==> forall i :: 0 <= i < |names| ==> !IsInputName(names[i])
    ensures deviceIndex.Some? ==>
      deviceIndex.value < |names| && IsInputName(names[deviceIndex.value]) &&
      forall j :: deviceIndex.value < j < |names| ==> !IsInputName(names[j])
  {
    deviceIndex := None;
    for i := 0 to |names|
      invariant deviceIndex.None? <==> forall k :: 0 <= k < i ==> !IsInputName(names[k])
      invariant deviceIndex.Some? ==>
        deviceIndex.value < i && IsInputName(names[deviceIndex.value]) &&
        forall j :: deviceIndex.value < j < i ==> !IsInputName(names[j])
    {
      var name := names[i];
      if Lower(name) == "mic" || Lower(name) == "input" {
        deviceIndex := Some(i);
      }
    }
  }

  // ---------------------------------------------------------------------------
  // Decoding a block

  type Byte = b: int | 0 <= b < 256
  /** A signed 16-bit sample, format character `h`. */
  type Short = s: int | -32768 <= s < 32768

  /** One `h` in native (little-endian) order: low byte first, two's complement. */
  function ToShort(lo: Byte, hi: Byte): (s: Short)
    ensures s < 0 <==> hi >= 128
  {
    var u := lo + 256 * hi;
    if u >= 32768 then u - 65536 else u
  }

  /** The two bytes that encode `s`, low byte first. */
  function FromShort(s: Short): (Byte, Byte)
  {
    var u := if s < 0 then s + 65536 else s;
    (u % 256, u / 256)
  }

  lemma ShortRoundTrip(s: Short)
    ensures ToShort(FromShort(s).0, FromShort(s).1) == s
  {
  }

  lemma BytesRoundTrip(lo: Byte, hi: Byte)
    ensures FromShort(ToShort(lo, hi)) == (lo, hi)
  {
    var u := lo + 256 * hi;
    assert u % 256 == lo && u / 256 == hi;
  }

  /** `count = len(block)/2`, then `struct.unpack("%dh" % count, block)`: `%d` drops the
      fraction of an odd half-length, and `unpack` raises when the buffer is not
      exactly `2 * count` bytes, so exactly the odd-length blocks fail. */
  function Unpack(block: seq<Byte>): (r: Result<seq<Short>>)
    ensures r.Err? <==> |block| % 2 == 1
    ensures r.Err? ==> r.error == StructError
    ensures r.Ok? ==> |r.value| == |block| / 2
  {
    var half := |block| as real / 2.0;
    var count := half.Floor;
    assert count == |block| / 2 by {
      var q := |block| / 2;
      assert q as real <= half < q as real + 1.0;
    }
    if 2 * count != |block| then Err(StructError)
    else Ok(seq(count, i requires 0 <= i < count => ToShort(block[2 * i], block[2 * i + 1])))
  }

  /** The inverse of `Unpack`: each sample as two bytes, low byte first. */
  function Pack(shorts: seq<Short>): (b: seq<Byte>)
    ensures |b| == 2 * |shorts|
  {
    seq(2 * |shorts|, j requires 0 <= j < 2 * |shorts| =>
      if j % 2 == 0 then FromShort(shorts[j / 2]).0 else FromShort(shorts[j / 2]).1)
  }

  /** Decoding an encoded block gives back its samples. */
  lemma UnpackPack(shorts: seq<Short>)
    ensures Unpack(Pack(shorts)) == Ok(shorts)
  {
    var b := Pack(shorts);
    var r := Unpack(b);
    assert r.Ok? && |r.value| == |shorts|;
    forall i | 0 <= i < |shorts|
      ensures r.value[i] == shorts[i]
    {
      assert b[2 * i] == FromShort(shorts[i]).0;
      assert b[2 * i + 1] == FromShort(shorts[i]).1;
      ShortRoundTrip(shorts[i]);
    }
    assert r.value == shorts;
  }

  /** Every block that decodes is the encoding of what it decodes to. */
  lemma PackUnpack(block: seq<Byte>)
    requires Unpack(block).Ok?
    ensures Pack(Unpack(block).value) == block
  {
    var s := Unpack(block).value;
    var b := Pack(s);
    forall j | 0 <= j < |block|
      ensures b[j] == block[j]
    {
      var i := j / 2;
      BytesRoundTrip(block[2 * i], block[2 * i + 1]);
    }
  }

  // ---------------------------------------------------------------------------
  // Channel split

  /** `shorts[::2]`, the left channel of an interleaved stereo block. */
  function Evens<T>(s: seq<T>): (e: seq<T>)
    ensures |e| == (|s| + 1) / 2
    ensures forall i :: 0 <= i < |e| ==> e[i] == s[2 * i]
  {
    seq((|s| + 1) / 2, i requires 0 <= i < (|s| + 1) / 2 => s[2 * i])
  }

  /** `shorts[1::2]`, the right channel. */
  function Odds<T>(s: seq<T>): (o: seq<T>)
    ensures |o| == |s| / 2
    ensures forall i :: 0 <= i < |o| ==> o[i] == s[2 * i + 1]
  {
    seq(|s| / 2, i requires 0 <= i < |s| / 2 => s[2 * i + 1])
  }

  /** Merge two channels back into one stream, left first. */
  function Interleave<T>(l: seq<T>, r: seq<T>): (s: seq<T>)
    requires |r| <= |l| <= |r| + 1
    ensures |s| == |l| + |r|
    decreases |l|
  {
    if |l| == 0 then []
    else if |r| == 0 then [l[0]]
    else [l[0], r[0]] + Interleave(l[1..], r[1..])
  }

  /** The even and odd positions together are the whole stream: splitting into left
      and right loses and invents nothing. */
  lemma {:induction false} SplitInterleave<T>(s: seq<T>)
    ensures Interleave(Evens(s), Odds(s)) == s
    decreases |s|
  {
    if |s| >= 2 {
      var t := s[2..];
      SplitInterleave(t);
      assert Evens(s)[1..] == Evens(t);
      assert Odds(s)[1..] == Odds(t);
      assert s == [s[0], s[1]] + t;
    } else if |s| == 1 {
      assert Evens(s) == [s[0]];
    }
  }

  /** The channel `readData` returns: everything for one channel, otherwise the left
      samples when `lr` is `'l'` and the right ones for any other value. */
  function SelectChannel(shorts: seq<Short>, channels: nat, lr: char): (c: seq<Short>)
    ensures channels == 1 ==> c == shorts
    ensures channels != 1 && lr == 'l' ==> |c| == (|shorts| + 1) / 2
    ensures channels != 1 && lr == 'l' ==> forall i :: 0 <= i < |c| ==> c[i] == shorts[2 * i]
    ensures channels != 1 && lr != 'l' ==> |c| == |shorts| / 2
    ensures channels != 1 && lr != 'l' ==> forall i :: 0 <= i < |c| ==> c[i] == shorts[2 * i + 1]
  {
    if channels == 1 then shorts
    else if lr == 'l' then Evens(shorts)
    else Odds(shorts)
  }

  /** The decode part of `readData` under the configured constants, for the block the
      stream returned. With `CHANNELS == 1` the decoded samples come back unchanged,
      so `readData` is exactly `Unpack`. */
  function ReadData(block: seq<Byte>): (r: Result<seq<Short>>)
    ensures r == Unpack(block)
  {
    match Unpack(block)
    case Err(e) => Err(e)
    case Ok(shorts) => Ok(SelectChannel(shorts, Channels, LR))
  }

  /** A full block of 4800 bytes decodes to 2400 samples, one per frame. */
  lemma FullBlockSamples(block: seq<Byte>)
    requires |block| == 2 * InputFramesPerBlock
    ensures ReadData(block).Ok? && |ReadData(block).value| == 2400
  {
    FramesPerBlock();
  }
}
