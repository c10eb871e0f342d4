/** A model of the `Value` signal unit of libflock: a fixed-capacity
    multichannel sample buffer, the unit that owns two of them, and the
    `generate` operation that writes the unit's constant value into the
    first `block_size` slots of every output channel, in place. */
module Signals {

  /** One audio sample. libflock stores 32-bit floats; samples are only
      ever copied here, never computed on, so any type with equality would
      do. `real` lets the unit test's literals 0.0 and 1.0 be written. */
  type Sample = real

  /** Capacity of every channel, in samples. */
  const MAX_BLOCK_SIZE: nat := 128

  /** Number of channels every buffer holds (fixed at one by libflock's Rust code). */
  const CHANNEL_COUNT: nat := 1

  /** The host's per-block configuration; only the block size exists. */
  datatype AudioSettings = AudioSettings(blockSize: nat)

  /** The scalar a `Value` unit outputs. */
  datatype ValueParameters = ValueParameters(value: Sample)

  /** A buffer of shape CHANNEL_COUNT x MAX_BLOCK_SIZE, as a sequence of channels. */
  ghost predicate IsBuffer(channels: seq<seq<Sample>>)
  {
    |channels| == CHANNEL_COUNT &&
    forall c :: 0 <= c < |channels| ==> |channels[c]| == MAX_BLOCK_SIZE
  }

  /** A buffer whose every slot holds `value`. */
  function Uniform(value: Sample): (r: seq<seq<Sample>>)
    ensures IsBuffer(r)
    ensures forall c, j :: 0 <= c < |r| && 0 <= j < |r[c]| ==> r[c][j] == value
  {
    seq(CHANNEL_COUNT, _ => seq(MAX_BLOCK_SIZE, _ => value))
  }

  /** One channel after the inner loop of `generate` has written `value`
      at indices 0, 1, ..., blockSize - 1, in that order. */
  function FillChannel(channel: seq<Sample>, value: Sample, blockSize: nat): (r: seq<Sample>)
    requires blockSize <= |channel|
    ensures |r| == |channel|
    ensures forall j :: 0 <= j < blockSize ==> r[j] == value
    ensures forall j :: blockSize <= j < |r| ==> r[j] == channel[j]
    decreases blockSize
  {
    if blockSize == 0 then channel
    else FillChannel(channel, value, blockSize - 1)[blockSize - 1 := value]
  }

  /** All channels after the outer loop of `generate` has run the inner
      loop on channel 0, 1, ..., in that order. */
  function Fill(channels: seq<seq<Sample>>, value: Sample, blockSize: nat): (r: seq<seq<Sample>>)
    requires forall c :: 0 <= c < |channels| ==> blockSize <= |channels[c]|
    ensures |r| == |channels|
    ensures forall c :: 0 <= c < |r| ==> |r[c]| == |channels[c]|
    ensures forall c, j :: 0 <= c < |r| && 0 <= j < blockSize ==> r[c][j] == value
    ensures forall c, j :: 0 <= c < |r| && blockSize <= j < |r[c]| ==> r[c][j] == channels[c][j]
    decreases |channels|
  {
    if channels == [] then []
    else
      var last := |channels| - 1;
      Fill(channels[..last], value, blockSize) + [FillChannel(channels[last], value, blockSize)]
  }

  /** Generating twice leaves the same output as generating once. */
  lemma {:induction false} FillIdempotent(channels: seq<seq<Sample>>, value: Sample, blockSize: nat)
    requires forall c :: 0 <= c < |channels| ==> blockSize <= |channels[c]|
    ensures Fill(Fill(channels, value, blockSize), value, blockSize) == Fill(channels, value, blockSize)
  {
    var once := Fill(channels, value, blockSize);
    var twice := Fill(once, value, blockSize);
    forall c | 0 <= c < |once|
      ensures twice[c] == once[c]
    {
    }
  }

  /** Rewriting the block leaves the buffer unchanged exactly when every
      active slot of every channel already holds the value. */
  lemma {:induction false} FillUnchangedIff(channels: seq<seq<Sample>>, value: Sample, blockSize: nat)
    requires forall c :: 0 <= c < |channels| ==> blockSize <= |channels[c]|
    ensures Fill(channels, value, blockSize) == channels <==>
            forall c, j :: 0 <= c < |channels| && 0 <= j < blockSize ==> channels[c][j] == value
  {
    var r := Fill(channels, value, blockSize);
    if forall c, j :: 0 <= c < |channels| && 0 <= j < blockSize ==> channels[c][j] == value {
      forall c | 0 <= c < |channels|
        ensures r[c] == channels[c]
      {
      }
    }
  }

  /** The new output is decided by the value, the block size and the old
      contents past the block: two buffers of the same shape give the same
      result exactly when they agree on every slot at or beyond blockSize. */
  lemma {:induction false} FillDependsOnlyOnTail(a: seq<seq<Sample>>, b: seq<seq<Sample>>, value: Sample, blockSize: nat)
    requires IsBuffer(a) && IsBuffer(b)
    requires blockSize <= MAX_BLOCK_SIZE
    ensures Fill(a, value, blockSize) == Fill(b, value, blockSize) <==>
            forall c, j :: 0 <= c < CHANNEL_COUNT && blockSize <= j < MAX_BLOCK_SIZE ==> a[c][j] == b[c][j]
  {
    var ra, rb := Fill(a, value, blockSize), Fill(b, value, blockSize);
    if forall c, j :: 0 <= c < CHANNEL_COUNT && blockSize <= j < MAX_BLOCK_SIZE ==> a[c][j] == b[c][j] {
      forall c | 0 <= c < CHANNEL_COUNT
        ensures ra[c] == rb[c]
      {
      }
    }
    if ra == rb {
      forall c, j | 0 <= c < CHANNEL_COUNT && blockSize <= j < MAX_BLOCK_SIZE
        ensures a[c][j] == b[c][j]
      {
        assert a[c][j] == ra[c][j] == rb[c][j] == b[c][j];
      }
    }
  }

  /** From a silent buffer, every channel becomes `value` on the block and
      stays 0.0 past it. */
  lemma FillSilentBuffer(value: Sample, blockSize: nat)
    requires blockSize <= MAX_BLOCK_SIZE
    ensures forall c :: 0 <= c < CHANNEL_COUNT ==>
              Fill(Uniform(0.0), value, blockSize)[c] ==
              seq(MAX_BLOCK_SIZE, j => if j < blockSize then value else 0.0)
  {
  }

  /** A fixed grid of CHANNEL_COUNT channels by MAX_BLOCK_SIZE samples,
      stored inline in the unit that owns it. */
  class MultichannelBuffer {
    const channels: array2<Sample>

    ghost predicate Valid()
    {
      channels.Length0 == CHANNEL_COUNT && channels.Length1 == MAX_BLOCK_SIZE
    }

    /** The buffer written out as the array literal
        `[[value; MAX_BLOCK_SIZE]; CHANNEL_COUNT]`. */
    constructor Filled(value: Sample)
      ensures Valid() && fresh(channels)
      ensures Contents() == Uniform(value)
    {
      channels := new Sample[CHANNEL_COUNT, MAX_BLOCK_SIZE]((_, _) => value);
      new;
      forall c | 0 <= c < CHANNEL_COUNT
        ensures Contents()[c] == Uniform(value)[c]
      {
      }
    }

    /** Reads channel `c` out of the grid, as libflock's `channels[c]`. */
    function Channel(c: nat): (s: seq<Sample>)
      reads channels
      requires Valid() && c < CHANNEL_COUNT
      ensures |s| == MAX_BLOCK_SIZE
      ensures forall j :: 0 <= j < |s| ==> s[j] == channels[c, j]
    {
      seq(MAX_BLOCK_SIZE, j requires 0 <= j < MAX_BLOCK_SIZE reads channels => channels[c, j])
    }

    /** The whole grid as a sequence of channels. */
    ghost function Contents(): (s: seq<seq<Sample>>)
      reads channels
      requires Valid()
      ensures IsBuffer(s)
      ensures forall c, j :: 0 <= c < CHANNEL_COUNT && 0 <= j < MAX_BLOCK_SIZE ==> s[c][j] == channels[c, j]
    {
      seq(CHANNEL_COUNT, c requires 0 <= c < CHANNEL_COUNT reads channels => Channel(c))
    }
  }

  /** The constant-output signal unit: its settings, its parameter, an input
      buffer that no operation reads, and the output buffer it renders into. */
  class Value {
    var audioSettings: AudioSettings
    var parameters: ValueParameters
    const input: MultichannelBuffer
    const output: MultichannelBuffer

    /** Both buffers have libflock's shape and, being separate inline
        fields, never share storage. */
    ghost predicate Valid()
    {
      input.Valid() && output.Valid() && input.channels != output.channels
    }

    constructor (audioSettings: AudioSettings, parameters: ValueParameters,
                 input: MultichannelBuffer, output: MultichannelBuffer)
      requires input.Valid() && output.Valid() && input.channels != output.channels
      ensures Valid()
      ensures this.audioSettings == audioSettings && this.parameters == parameters
      ensures this.input == input && this.output == output
    {
      this.audioSettings := audioSettings;
      this.parameters := parameters;
      this.input := input;
      this.output := output;
    }

    /** Renders one block: slots 0 .. blockSize - 1 of every output channel
        become the parameter value, every other slot keeps its contents, and
        the settings, the parameter and the input buffer are untouched. The
        block size must not exceed the channel capacity: libflock indexes
        past the end of the channel otherwise, and panics. */
    method Generate()
      requires Valid()
      requires audioSettings.blockSize <= MAX_BLOCK_SIZE
      modifies output.channels
      ensures Valid()
      ensures output.Contents() ==
              Fill(old(output.Contents()), parameters.value, audioSettings.blockSize)
      ensures forall c, j :: 0 <= c < CHANNEL_COUNT && 0 <= j < MAX_BLOCK_SIZE ==>
                output.channels[c, j] ==
                (if j < audioSettings.blockSize then parameters.value else old(output.channels[c, j]))
      ensures audioSettings == old(audioSettings) && parameters == old(parameters)
      ensures unchanged(input.channels)
    {
      var value := parameters.value;
      var blockSize := audioSettings.blockSize;
      var i := 0;
      while i < output.channels.Length0
        invariant 0 <= i <= CHANNEL_COUNT
        invariant forall c, k :: 0 <= c < CHANNEL_COUNT && 0 <= k < MAX_BLOCK_SIZE ==>
                    output.channels[c, k] ==
                    (if c < i && k < blockSize then value else old(output.channels[c, k]))
      {
        var j := 0;
        while j < blockSize
          invariant 0 <= j <= blockSize
          invariant forall c, k :: 0 <= c < CHANNEL_COUNT && 0 <= k < MAX_BLOCK_SIZE ==>
                      output.channels[c, k] ==
                      (if (c < i && k < blockSize) || (c == i && k < j) then value else old(output.channels[c, k]))
        {
          output.channels[i, j] := value;
          j := j + 1;
        }
        i := i + 1;
      }
      ghost var before := old(output.Contents());
      ghost var after := output.Contents();
      ghost var expected := Fill(before, value, blockSize);
      forall c | 0 <= c < CHANNEL_COUNT
        ensures after[c] == expected[c]
      {
      }
    }
  }

  /** The unit test `value_is_output`: a unit with block size 64 and value
      1.0 over silent buffers renders 1.0 into the first 64 slots of channel
      0 and leaves the remaining slots at 0.0. */
  method ValueIsOutput() returns (actual: seq<Sample>)
    ensures actual == seq(MAX_BLOCK_SIZE, i => if i < 64 then 1.0 else 0.0)
  {
    var input := new MultichannelBuffer.Filled(0.0);
    var output := new MultichannelBuffer.Filled(0.0);
    var unit := new Value(AudioSettings(64), ValueParameters(1.0), input, output);
    unit.Generate();
    actual := unit.output.Channel(0);
    assert forall i :: 0 <= i < MAX_BLOCK_SIZE ==> actual[i] == if i < 64 then 1.0 else 0.0;
  }
}
