# libflock `Value` signal unit, in Dafny

libflock renders audio one block at a time into fixed-capacity buffers that
need no allocation. This project models its `Value` unit, the constant-output
signal, together with the data it owns:

- `MAX_BLOCK_SIZE` (128) is the capacity of a channel. `CHANNEL_COUNT` (1) is
  the number of channels in a `MultichannelBuffer`. The Rust code writes the
  channel count as the literal outer array length. Here it is a named constant,
  so every contract is stated for every channel.
- `AudioSettings` holds only the block size. `ValueParameters` holds the scalar
  to output. Both are values (datatypes).
- `MultichannelBuffer` is a class over an `array2<Sample>` of shape
  `CHANNEL_COUNT x MAX_BLOCK_SIZE`, because `generate` updates it in place.
- `Value` is a class holding the settings, the parameters, an `input` buffer
  that nothing reads, and the `output` buffer.
- `Value.Generate` is the nested loop of `generate`. It is proved against the
  specification function `Fill`, which is built from `FillChannel`; each
  follows one of the loops. The lemmas about `Fill` carry the properties:
  idempotence, when a rewrite is unobservable, and what the result depends on.
- `ValueIsOutput` is the crate's unit test, restated as a client of the model.

A sample is a `real`. Samples are only copied and compared for equality,
never computed on.

The model follows the Rust code in `libflock/src/signals.rs`. The C header
`libflock/libflock.h` declares a different layout:
- Its `AudioSettings` (libflock/libflock.h:31-35) also has `sample_rate` and
  `num_channels`. The Rust `AudioSettings` has only `block_size`.
- It sets `MAX_CHANNEL_COUNT = 8` (libflock/libflock.h:24). The Rust buffer
  has exactly one channel.
- Its `Value` (libflock/libflock.h:41-46) has a `last_sample` field and no
  `input` field. The Rust `Value` has an `input` buffer and no `last_sample`.

`FillUnchangedIff`: rewriting the block leaves the buffer unchanged exactly
when every active slot already holds the value.

## Model

| member | source | states |
|---|---|---|
| `Signals.FillChannel` | libflock/src/signals.rs:33-35 | after the inner loop, slots `0..blockSize` of a channel hold the value, later slots keep their old contents, and the length is unchanged |
| `Signals.Fill` | libflock/src/signals.rs:31-36 | after both loops, every channel holds the value at each index below the block size and its old sample at each index from the block size on; the channel count and lengths are kept |
| `Signals.Value.Generate` | libflock/src/signals.rs:30-37 | needs `block_size <= MAX_BLOCK_SIZE` (otherwise the index at line 34 goes out of bounds); the new output is `Fill` of the old output with the parameter value and block size, slot by slot; settings, parameters and the input buffer are unchanged |
| `Signals.FillIdempotent` | libflock/src/signals.rs:33-34 | generating twice leaves the same output as generating once |
| `Signals.FillUnchangedIff` | libflock/src/signals.rs:31-35 | a generate call leaves the buffer unchanged if and only if every active slot of every channel already holds the value |
| `Signals.FillDependsOnlyOnTail` | libflock/src/signals.rs:30-37 | two buffers give the same output if and only if they agree on every slot at or past the block size, so the result depends only on the value, the block size and those slots |
| `Signals.FillSilentBuffer` | libflock/src/signals.rs:64-72 | from a silent buffer, each channel becomes the value below the block size and stays 0.0 from the block size on |
| `Signals.MultichannelBuffer.Filled` | libflock/src/signals.rs:54-59 | the array literal `[[v; MAX_BLOCK_SIZE]]` gives a fresh buffer of the right shape with every slot equal to `v` |
| `Signals.Value.constructor` | libflock/src/signals.rs:46-60 | the struct literal stores the given settings, parameters and buffers; the two buffers are distinct storage |
| `Signals.ValueIsOutput` | libflock/src/signals.rs:44-75 | the `value_is_output` test: with block size 64 and value 1.0 over silent buffers, channel 0 is 1.0 at indices 0..63 and 0.0 at 64..127 |

## Left out

- The out-of-range block size is a precondition of `Signals.Value.Generate` and is not modelled as a behaviour. In the Rust code, index 128 panics partway through the block. The `no_std` panic handler (libflock/src/lib.rs:9-11) then loops forever, so the call never returns.
- `f32` samples: modelled as `real`. Floating-point representation and NaN (which is not equal to itself) are not modelled. `generate` only copies the value, so this does not affect the result.
- `block_size` is a `usize` in the Rust code. It is a `nat` here, and its pointer-width upper bound is not modelled.
- `#[repr(C)]` layout, `extern "C"` and `#[no_mangle]`: layout across the foreign-function boundary has no behaviour to verify.
- `Value_new`, `Sine_new`, `Sine_generate`, `Fan_generate`, `MultichannelBuffer_new_with_value` and `MultichannelBuffer_new_silent` are declared in libflock/libflock.h and deprecated-rust/libflock/libflock.h, but their bodies are not part of this model. `Sine` also relies on floating-point `sin`.
- The headers declare a `last_sample` field (libflock/libflock.h:45, deprecated-rust/libflock/libflock.h:49) that the Rust `Value` does not have.
- The Daisy host program and the console example are not part of this model. They are hardware and console I/O around `flock_generate_silence`, which is not defined in any modelled file.
- Buffers are modelled by reference: `Value.Valid` keeps a unit's own input and output apart, but two `Value` units sharing one buffer object is not excluded, whereas the Rust fields are inline and can never be shared.
