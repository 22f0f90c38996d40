/** The circular delay line used as the compressor's lookahead
    (compressor/delay/delay.go): a fixed buffer with a write index and a read
    index that both wrap at BufferSize, a delay in (possibly fractional)
    samples derived from milliseconds and the sample rate, and an output
    attenuation derived from decibels. */
module DelayLine {
  import opened Numerics

  /** Linear interpolation between (x1, y1) and (x2, y2), evaluated at x. */
  function DLinTerp(x1: real, x2: real, y1: real, y2: real, x: real): (r: real)
    ensures x1 == x2 ==> r == y1
    ensures x == x1 ==> r == y1
    ensures x1 != x2 && x == x2 ==> r == y2
  {
    var denom := x2 - x1;
    if denom == 0.0 then y1
    else
      var dx := (x - x1) / (x2 - x1);
      dx * y2 + (1.0 - dx) * y1
  }

  /** DLinTerp is affine in x: it maps a weighted mean of two abscissas to the
      same weighted mean of the two results. */
  lemma DLinTerpAffine(x1: real, x2: real, y1: real, y2: real, u: real, v: real, t: real)
    ensures DLinTerp(x1, x2, y1, y2, t * u + (1.0 - t) * v)
         == t * DLinTerp(x1, x2, y1, y2, u) + (1.0 - t) * DLinTerp(x1, x2, y1, y2, v)
  {
    if x2 - x1 != 0.0 {
      var w := x2 - x1;
      var du := (u - x1) / w;
      var dv := (v - x1) / w;
      var dm := (t * u + (1.0 - t) * v - x1) / w;
      assert dm == t * du + (1.0 - t) * dv by {
        assert t * u + (1.0 - t) * v - x1 == t * (u - x1) + (1.0 - t) * (v - x1);
      }
      calc {
        dm * y2 + (1.0 - dm) * y1;
        (t * du + (1.0 - t) * dv) * y2 + (1.0 - (t * du + (1.0 - t) * dv)) * y1;
        t * (du * y2 + (1.0 - du) * y1) + (1.0 - t) * (dv * y2 + (1.0 - dv) * y1);
      }
    }
  }

  /** The fractional part as the source computes it: d - |d|. It is 0 for
      every non-negative delay, so ReadDelay never interpolates for one. */
  function FracDelay(d: real): (f: real)
    ensures 0.0 <= d ==> f == 0.0
    ensures d < 0.0 ==> f == 2.0 * d
  {
    d - Abs(d)
  }

  /** CookVariables' read position d samples behind w: w - d, plus n once if negative. */
  function Behind(w: int, d: int, n: int): (r: int)
    ensures 0 <= w < n ==> (0 <= r < n <==> w - n < d <= w + n)
  {
    var r := w - d;
    if r < 0 then r + n else r
  }

  /** The index after i: i + 1, or 0 once it reaches n. */
  function Next(i: int, n: int): int
  {
    if i + 1 >= n then 0 else i + 1
  }

  /** A delay of ms milliseconds in samples at the given rate. */
  function SamplesOf(ms: real, rate: int): (n: real)
    ensures rate == 0 ==> n == 0.0
    ensures 0.0 <= ms && 0 <= rate ==> 0.0 <= n
  {
    ms * (rate as real / 1000.0)
  }

  /** The sample written k calls ago, 0 before the first write. */
  function Past(ws: seq<real>, k: int): real
    requires 1 <= k
  {
    if k <= |ws| then ws[|ws| - k] else 0.0
  }

  class Delay {
    var DelayInSamples: real
    var OutputAttentuation: real
    var Buffer: array<real>
    var ReadIndex: int
    var WriteIndex: int
    var BufferSize: int
    var SampleRate: int
    var DelayInMillis: real
    var OutputAttentuationInDB: real
    /** Every sample written since the buffer was last allocated, oldest first. */
    ghost var Written: seq<real>

    ghost predicate Valid()
      reads this
    {
      Buffer.Length == BufferSize
    }

    /** int(DelayInSamples): the whole samples CookVariables steps back. */
    function Lag(): int
      reads this
    {
      TruncToInt(DelayInSamples)
    }

    /** The state CookVariables leaves. */
    ghost predicate Cooked(lib: Library)
      reads this
    {
      OutputAttentuation == Pow10(lib, OutputAttentuationInDB / 20.0) &&
      DelayInSamples == SamplesOf(DelayInMillis, SampleRate) &&
      ReadIndex == Behind(WriteIndex, Lag(), BufferSize)
    }

    /** The buffer slot k places behind the write index holds the sample written
        k calls ago, for every k from 1 to BufferSize. */
    ghost predicate Remembers()
      reads this, Buffer
    {
      Valid() && 0 <= WriteIndex < BufferSize &&
      forall k :: 1 <= k <= BufferSize ==> Buffer[Behind(WriteIndex, k, BufferSize)] == Past(Written, k)
    }

    /** The read index trails the write index by Lag(), which fits in the buffer. */
    ghost predicate Lagging()
      reads this
    {
      0 <= Lag() <= BufferSize && ReadIndex == Behind(WriteIndex, Lag(), BufferSize)
    }

    /** How many calls a sample spends in the line: Lag(), except that a lag of 0
        (a delay strictly between 0 and 1 sample) reads the oldest slot. */
    function EffectiveLag(): int
      reads this
    {
      if Lag() == 0 then BufferSize else Lag()
    }

    /** The zero value `delay.Delay{}`: no buffer, every number 0. */
    constructor ()
      ensures Valid() && BufferSize == 0 && Written == []
      ensures DelayInSamples == 0.0 && OutputAttentuation == 0.0 && DelayInMillis == 0.0
      ensures OutputAttentuationInDB == 0.0 && SampleRate == 0
      ensures ReadIndex == 0 && WriteIndex == 0
    {
      DelayInSamples, OutputAttentuation := 0.0, 0.0;
      Buffer := new real[0];
      ReadIndex, WriteIndex, BufferSize, SampleRate := 0, 0, 0, 0;
      DelayInMillis, OutputAttentuationInDB := 0.0, 0.0;
      Written := [];
    }

    /** Allocates a zero-filled buffer of delayLength samples. */
    method Init(delayLength: int)
      requires 0 <= delayLength
      modifies this`BufferSize, this`Buffer, this`Written
      ensures Valid() && BufferSize == delayLength && fresh(Buffer)
      ensures forall i :: 0 <= i < Buffer.Length ==> Buffer[i] == 0.0
      ensures Written == []
      ensures 0 <= WriteIndex < BufferSize ==> Remembers()
    {
      BufferSize := delayLength;
      Buffer := new real[BufferSize](_ => 0.0);
      Written := [];
    }

    /** Re-zeroes the buffer, puts both indices at 0 and re-cooks. */
    method ResetDelay(lib: Library)
      requires Valid()
      modifies this`Buffer, this`Written, this`WriteIndex, this`ReadIndex
      modifies this`OutputAttentuation, this`DelayInSamples
      ensures Valid() && fresh(Buffer) && Cooked(lib)
      ensures forall i :: 0 <= i < Buffer.Length ==> Buffer[i] == 0.0
      ensures WriteIndex == 0 && Written == []
      ensures 0 < BufferSize ==> Remembers()
    {
      Buffer := new real[BufferSize](_ => 0.0);
      Written := [];
      WriteIndex := 0;
      ReadIndex := 0;
      CookVariables(lib);
    }

    method SetDelayInMillis(lib: Library, delayLength: real)
      modifies this`DelayInMillis, this`OutputAttentuation, this`DelayInSamples, this`ReadIndex
      ensures DelayInMillis == delayLength && Cooked(lib)
    {
      DelayInMillis := delayLength;
      CookVariables(lib);
    }

    method SetOutputAttenuation(lib: Library, db: real)
      modifies this`OutputAttentuationInDB, this`OutputAttentuation, this`DelayInSamples, this`ReadIndex
      ensures OutputAttentuationInDB == db && Cooked(lib)
    {
      OutputAttentuationInDB := db;
      CookVariables(lib);
    }

    method SetSampleRate(lib: Library, sampleRate: int)
      modifies this`SampleRate, this`OutputAttentuation, this`DelayInSamples, this`ReadIndex
      ensures SampleRate == sampleRate && Cooked(lib)
      ensures 0 <= WriteIndex < BufferSize && 0 <= Lag() <= BufferSize ==> Lagging()
    {
      SampleRate := sampleRate;
      CookVariables(lib);
    }

    /** Derives the attenuation, the delay in samples and the read index. */
    method CookVariables(lib: Library)
      modifies this`OutputAttentuation, this`DelayInSamples, this`ReadIndex
      ensures Cooked(lib)
      ensures 0 <= WriteIndex < BufferSize ==> (0 <= ReadIndex < BufferSize <==> WriteIndex - BufferSize < Lag() <= WriteIndex + BufferSize)
      ensures 0 <= WriteIndex < BufferSize && 0 <= Lag() <= BufferSize ==> Lagging()
    {
      OutputAttentuation := Pow10(lib, OutputAttentuationInDB / 20.0);
      DelayInSamples := DelayInMillis * (SampleRate as real / 1000.0);
      assert DelayInSamples == SamplesOf(DelayInMillis, SampleRate);
      ReadIndex := WriteIndex - TruncToInt(DelayInSamples);
      if ReadIndex < 0 {
        ReadIndex := ReadIndex + BufferSize;
      }
    }

    /** Stores the input at the write index, then advances both indices. */
    method WriteDelayAndInc(delayInput: real)
      requires Valid() && 0 <= WriteIndex < BufferSize
      modifies Buffer, this`WriteIndex, this`ReadIndex, this`Written
      ensures Buffer[..] == old(Buffer[..])[old(WriteIndex) := delayInput]
      ensures WriteIndex == Next(old(WriteIndex), BufferSize) && 0 <= WriteIndex < BufferSize
      ensures ReadIndex == Next(old(ReadIndex), BufferSize)
      ensures old(0 <= ReadIndex < BufferSize) ==> 0 <= ReadIndex < BufferSize
      ensures Written == old(Written) + [delayInput]
      ensures old(Remembers()) ==> Remembers()
      ensures old(Lagging()) ==> Lagging()
    {
      Buffer[WriteIndex] := delayInput;
      Written := Written + [delayInput];
      WriteIndex := WriteIndex + 1;
      if WriteIndex >= BufferSize {
        WriteIndex := 0;
      }
      ReadIndex := ReadIndex + 1;
      if ReadIndex >= BufferSize {
        ReadIndex := 0;
      }
      if old(Remembers()) {
        forall k | 1 <= k <= BufferSize
          ensures Buffer[Behind(WriteIndex, k, BufferSize)] == Past(Written, k)
        {
          if k == 1 {
            assert Behind(WriteIndex, k, BufferSize) == old(WriteIndex);
          } else {
            assert Behind(WriteIndex, k, BufferSize) == Behind(old(WriteIndex), k - 1, BufferSize);
            assert Behind(WriteIndex, k, BufferSize) != old(WriteIndex);
            assert Past(Written, k) == Past(old(Written), k - 1);
          }
        }
      }
    }

    /** The delayed sample: Buffer[ReadIndex] interpolated toward the slot behind it
        by FracDelay(DelayInSamples). */
    function ReadDelay(): (r: real)
      reads this, Buffer
      requires Valid() && 0 <= ReadIndex < BufferSize
      ensures 0.0 <= DelayInSamples ==> r == Buffer[ReadIndex]
      ensures Remembers() && Lagging() && 0.0 <= DelayInSamples ==> r == Past(Written, EffectiveLag())
    {
      var yn := Buffer[ReadIndex];
      var readIndexBack := if ReadIndex - 1 < 0 then BufferSize - 1 else ReadIndex - 1;
      var yn1 := Buffer[readIndexBack];
      var fracDelay := FracDelay(DelayInSamples);
      assert Remembers() && Lagging() && Lag() == 0 ==> ReadIndex == Behind(WriteIndex, BufferSize, BufferSize);
      DLinTerp(0.0, 1.0, yn, yn1, fracDelay)
    }

    /** A one-off read `secs * SampleRate / 1000` samples behind the write index;
        the source does not wrap this index, so it must not run below 0. */
    function ReadDelayAt(secs: real): (r: real)
      reads this, Buffer
      requires Valid()
      requires 0 <= WriteIndex - TruncToInt(secs * (SampleRate as real) / 1000.0) < BufferSize
      ensures 0.0 <= secs * (SampleRate as real) / 1000.0 ==>
                r == Buffer[WriteIndex - TruncToInt(secs * (SampleRate as real) / 1000.0)]
      ensures Remembers() && 1 <= TruncToInt(secs * (SampleRate as real) / 1000.0) ==>
                r == Past(Written, TruncToInt(secs * (SampleRate as real) / 1000.0))
    {
      var delayInSamples := secs * (SampleRate as real) / 1000.0;
      var readIndex := WriteIndex - TruncToInt(delayInSamples);
      var yn := Buffer[readIndex];
      var readIndexBack := if readIndex - 1 < 0 then BufferSize - 1 else readIndex - 1;
      var yn1 := Buffer[readIndexBack];
      var fracDelay := FracDelay(delayInSamples);
      assert 1 <= TruncToInt(delayInSamples) ==> readIndex == Behind(WriteIndex, TruncToInt(delayInSamples), BufferSize);
      DLinTerp(0.0, 1.0, yn, yn1, fracDelay)
    }

    /** What ProcessAudio returns for input x: the attenuated input itself when
        DelayInSamples is 0 (bypass), the attenuated delayed sample otherwise. */
    function Output(x: real): (y: real)
      reads this, Buffer
      requires Valid()
      requires DelayInSamples != 0.0 ==> 0 <= ReadIndex < BufferSize
      ensures DelayInSamples == 0.0 ==> y == OutputAttentuation * x
      ensures Remembers() && Lagging() && 0.0 < DelayInSamples ==>
                y == OutputAttentuation * Past(Written, EffectiveLag())
    {
      OutputAttentuation * (if DelayInSamples == 0.0 then x else ReadDelay())
    }

    /** Read before write: returns Output(x), then stores x and advances. */
    method ProcessAudio(x: real) returns (y: real)
      requires Valid() && 0 <= WriteIndex < BufferSize
      requires DelayInSamples != 0.0 ==> 0 <= ReadIndex < BufferSize
      modifies Buffer, this`WriteIndex, this`ReadIndex, this`Written
      ensures y == old(Output(x))
      ensures Buffer[..] == old(Buffer[..])[old(WriteIndex) := x]
      ensures WriteIndex == Next(old(WriteIndex), BufferSize) && 0 <= WriteIndex < BufferSize
      ensures ReadIndex == Next(old(ReadIndex), BufferSize)
      ensures DelayInSamples != 0.0 ==> 0 <= ReadIndex < BufferSize
      ensures Written == old(Written) + [x]
      ensures old(Remembers()) ==> Remembers()
      ensures old(Lagging()) ==> Lagging()
    {
      var xn := x;
      var yn := 0.0;
      if DelayInSamples == 0.0 {
        yn := xn;
      } else {
        yn := ReadDelay();
      }
      WriteDelayAndInc(xn);
      y := OutputAttentuation * yn;
    }
  }
}
