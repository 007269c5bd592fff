# Fault injection into an out-of-order CPU simulator: register-decoding and IEW faults

This project models two fault kinds of a fault-injection layer for a cycle-level
out-of-order processor simulator, and proves properties of the model in Dafny.

- **RegisterDecodingInjectedFault** (module `RegDec`, file `regdec_injfault.dfy`).
  A decode-stage fault that makes one instruction use the wrong register. It is
  read from a token `Src:<slot>:<register>` or `Dst:<slot>:<register>`. The
  parser, `ParseRegDec`, models the `std::string` calls it is built from
  (module `CxxString`):
  - `compare(0,3,…)` looks at the first three bytes only;
  - `substr(4)` skips the fourth byte unread, and throws `out_of_range`
    on a three-character token;
  - `find_first_of(":")` returns `npos` when there is no colon, and `npos + 1`
    wraps to 0 in `size_t`. So a token with no second colon sets both fields
    to the whole rest, e.g. `Src:12` gives slot `12` and register `12`.

  Construction (`Load` plus the class constructor) parses first. Only on success
  does it join the decode-stage queue. `Process` overwrites one slot of the
  instruction's source or destination register-index array when the slot is in
  use, and otherwise leaves the instruction alone. Either way it fires the
  reschedule hook once and returns the same instruction. `Description` returns
  the constant kind name.
- **IEWStageInjectedFault** (module `IewFault`, file `iew_injfault.dfy`). An
  issue/execute/writeback-stage fault.
  - `ProcessBool` inverts a branch condition.
  - `Process` returns `manifest(v, value, valueType)`.
  - `ProcessVoid` is a placeholder: it detaches the fault and fails.
  - The two value entry points are compiled in every build, but they corrupt
    the value only in an Alpha build. The `Build` value stands for that one
    build-wide switch (`ALPHA_ISA`); the same value is given to every call. Without it they stop at `assert(0)` before the reschedule
    hook, so the queue is untouched.
- **Fault queues** (module `FaultQueues`, file `fault_queue.dfy`). A queue is
  the set of live fault ids. Each call of the reschedule hook (`check4reschedule`)
  is recorded in the ghost field `rescheduled`, so "called exactly once" can be stated.
  Both kinds are single-shot: the hook removes the fault from its queue for good.

Fatal conditions (`assert(0)`, an uncaught `std::out_of_range`) are the `Failure`
arm of `Outcomes.Result`. They are never preconditions.

Parameters stand for code the model cannot see:
- `decode: string -> int` is the string-to-integer conversion inside the
  `setRegToChange`/`setChangeToReg` setters.
- `manifest: (T, P, K) -> T` is the manifestation function.

Module `Scenarios` is a client. From the contracts alone it shows:
- `Src:0:2` on source registers `[1,1,1]` yields `[2,1,1]`;
- `Src:5:2` leaves `[1,1,1]` unchanged;
- a fault that has fired is no longer pending.

## Model

| member | source | states |
|---|---|---|
| `CxxString.SizeAdd` | src/fi/regdec_injfault.cc:105 | `pos+1` is computed modulo 2^64, so `npos + 1` is 0 |
| `CxxString.FindFirstOf` | src/fi/regdec_injfault.cc:102 | result is the index of the first `:` with none before it, or `npos` exactly when there is no `:` |
| `CxxString.Substr` | src/fi/regdec_injfault.cc:101-105 | fails with `out_of_range` exactly when the start is past the end; otherwise the result is the at most `len` characters from the start |
| `CxxString.HeadEquals` | src/fi/regdec_injfault.cc:98 | `compare(0,n,t,0,n) == 0`: the first n characters of `s` (all of `s` if shorter) equal the first n of `t` (all of `t` if shorter); against an `n`-character literal it holds exactly when `s` has at least `n` characters and starts with it |
| `FaultQueues.FaultQueue.Insert` | src/fi/regdec_injfault.cc:14 | the id becomes pending; the hook trace is unchanged |
| `FaultQueues.FaultQueue.Remove` | src/fi/iew_injfault.hh:32 | the id is no longer pending; nothing else changes, and removing a non-member is a no-op |
| `FaultQueues.FaultQueue.Reschedule` | src/fi/regdec_injfault.cc:82 | single-shot `check4reschedule`: the id leaves the queue and exactly one hook call is appended to the trace |
| `RegDec.SplitOperands` | src/fi/regdec_injfault.cc:101-105 | fails exactly when the token is shorter than 4 characters. Otherwise the slot text has no colon, and slot + `:` + register is the rest after character 3. With no colon, both fields are the whole rest |
| `RegDec.ParseRegDec` | src/fi/regdec_injfault.cc:90-124 | succeeds exactly when the token starts with `Src` or `Dst` and has at least 4 characters. The kind follows the prefix, and the fields are the split at the first colon of the rest. An unknown prefix is fatal; a recognised prefix on a 3-character token fails with `out_of_range` |
| `RegDec.FirstSplitUnique` | src/fi/regdec_injfault.cc:102-105 | cutting at the first colon determines both parts |
| `RegDec.ParseDeterminedByHeadAndRest` | src/fi/regdec_injfault.cc:98-114 | the parse depends only on characters 0-2 and on what follows character 3 |
| `RegDec.ParseFormatted` | src/fi/regdec_injfault.cc:98-114 | prefix + any character + slot + `:` + register parses back to exactly that descriptor (slot without a colon) |
| `RegDec.ParseFormat` | src/fi/regdec_injfault.cc:98-114 | the descriptor grammar (`Src` or `Dst`, then `:slot:register`) round-trips through the parser |
| `RegDec.ParseIgnoresFourthChar` | src/fi/regdec_injfault.cc:98-101 | replacing character 3 (one byte of the token) by any other does not change the parse |
| `RegDec.ParseExampleSrc` | src/fi/regdec_injfault.cc:98-105 | `Src:1:3` parses to (Src, "1", "3") |
| `RegDec.ParseExampleDstExtraColon` | src/fi/regdec_injfault.cc:107-114 | `Dst:2:4:7` parses to (Dst, "2", "4:7"): later colons stay in the register text |
| `RegDec.ParseExampleNoSecondColon` | src/fi/regdec_injfault.cc:101-105 | `Src:12` parses to (Src, "12", "12") |
| `RegDec.ParseExampleErrors` | src/fi/regdec_injfault.cc:98-121 | `Src` fails with `out_of_range` and `src:1:3` is an unknown prefix |
| `RegDec.Overwrite` | src/fi/regdec_injfault.cc:62-79 | slot `idx` becomes the new register when `0 <= idx < count`; every other slot keeps its value; otherwise the array is unchanged |
| `RegDec.OverwriteAsWritten` | src/fi/regdec_injfault.cc:63-65 | with the guard `idx < count` alone, the store lands outside the array exactly when `idx < 0`, and otherwise agrees with `Overwrite` |
| `RegDec.NegativeSlotPassesGuard` | src/fi/regdec_injfault.cc:63-65 | slot -1 with 3 source registers passes the guard as written, while the corrected write leaves `[1,1,1]` alone |
| `RegDec.FormatOfParts` | src/fi/regdec_injfault.cc:98-114 | a token whose first three characters, fourth character `:` and rest match a descriptor is that descriptor's formatted form |
| `RegDec.FormatAfterParse` | src/fi/regdec_injfault.cc:98-114 | a token with a known prefix, `:` as character 3 and a colon after it is exactly the formatted form of its parse: the round trip in the other direction |
| `RegDec.RegisterDecodingFault.Description` | src/fi/regdec_injfault.cc:28-32 | returns the constant kind name `RegisterDecodingInjectedFault` and reads no state |
| `RegDec.FiringScenario` | src/fi/regdec_injfault.cc:62-69 | slot 0 → 2 on `[1,1,1]` gives `[2,1,1]`; slot 5 leaves it unchanged |
| `RegDec.RegisterDecodingFault.constructor` | src/fi/regdec_injfault.cc:8-16 | for an id not yet in the queue: the fields are the converted parse results, the fault type is `RegisterDecodingInjectedFault`, and the id joins the decode queue |
| `RegDec.Load` | src/fi/regdec_injfault.cc:8-16 | for an id not yet in the queue (the source queues a new object): fails exactly when parsing fails, leaving the queue unchanged; otherwise a fresh fault carrying the parsed fields and the fault type `RegisterDecodingInjectedFault` is pending in the decode queue |
| `RegDec.RegisterDecodingFault.Process` | src/fi/regdec_injfault.cc:49-88 | a Src fault overwrites only the chosen source slot and leaves the destination array alone; any other fault does the converse. An out-of-range slot changes neither array. The hook fires exactly once, the fault is no longer pending, and the same instruction is returned |
| `IewFault.InvertCondition` | src/fi/iew_injfault.hh:42-54 | succeeds exactly when built for Alpha, and then differs from the input (is its negation); otherwise fails with an architecture mismatch |
| `IewFault.InvertConditionTwice` | src/fi/iew_injfault.hh:46 | inverting twice gives the original condition back |
| `IewFault.InvertConditionCases` | src/fi/iew_injfault.hh:45-50 | true → false and false → true with the flag; failure for both without it |
| `IewFault.IEWStageFault.constructor` | src/fi/iew_injfault.hh:21 | payload, value type and queue are as given |
| `IewFault.IEWStageFault.ProcessVoid` | src/fi/iew_injfault.hh:27-34 | always fails; the fault has left its queue by then; the hook is not called |
| `IewFault.IEWStageFault.ProcessBool` | src/fi/iew_injfault.hh:42-54 | returns `InvertCondition(build.alphaIsa, v)`. With the flag, the hook fires exactly once and the fault leaves the queue; without it the queue is untouched |
| `IewFault.IEWStageFault.Process` | src/fi/iew_injfault.hh:61-79 | with the flag, returns exactly `manifest(v, value, valueType)`. It leaves payload and value type unchanged, and the hook fires exactly once. Without the flag it fails with the queue untouched |
| `Scenarios.ParseExampleDigits` | src/fi/regdec_injfault.cc:98-105 | `Src:0:2` and `Src:5:2` parse to their slot and register texts |

## Left out

- One Dafny `char` stands for one byte of the `std::string`. Multi-byte encodings are not modelled: a token such as `Src€1:2` is read here as seven characters, where the source sees the UTF-8 bytes and skips only the first byte of `€`. The same holds wherever the model says "character" (`ParseIgnoresFourthChar`, `Substr`, `HeadEquals`).
- Trace and diagnostic output: `DTRACE`/`DPRINTF`/`std::cout` and the `dump` methods. They change no state.
- Reading the token from the input stream in the constructor. `Load` takes the token as a string.
- The string-to-integer conversion of the setters is not part of this model. It is the `decode` parameter.
- The body of `manifest` is not part of this model. It is a function parameter, so no bit-flip or mask property is claimed.
- `check4reschedule`, `getQueue`, the `O3CPUInjectedFault` base class and `fi_system` are not part of this model. The hook is modelled as single-shot removal plus a trace entry. Re-arming a fault that fires more than once is not modelled.
- `IewFault.IEWStageFault.Process`: the order "value first, then hook" is not observable in the model, because the hook does not see the value.
- `RegDec.StaticInst`: only the two register-index arrays and the two counts. The register-index element type is not shown, so the model does not capture any narrowing of `changeToReg` on the store.
- `assert(0)` is modelled as fatal. The fall-through a build with `NDEBUG` would take (return 1, or carry on with the value unchanged) is not modelled.
- `IEWStageInjectedFault`'s constructor, destructor and `dump` are only declared, so the constructor here just stores its arguments.

## Findings

| source | as written | input that shows it | evidently intended | confidence | as-written member | corrected member |
|---|---|---|---|---|---|---|
| src/fi/regdec_injfault.cc:63-65 | the slot `rTc` is a signed `int`, and the only guard is `rTc < numSrcRegs`; the same holds for the destination branch at lines 72-74 | descriptor `Src:-1:3`, when the setter's conversion yields -1, on an instruction with 3 source registers: the guard passes and `_srcRegIdx[-1]` is written, outside the array | skip the fault unless `0 <= rTc < numSrcRegs`, as for any other slot not in use | medium (depends on two things not shown: the conversion accepting a sign, and `numSrcRegs()`/`numDestRegs()` returning a type that promotes to `int`, as the `(int)` casts at lines 52-53 suggest; with an unsigned count, -1 would convert to a huge value and the guard would fail); not executed | `RegDec.OverwriteAsWritten`, `RegDec.NegativeSlotPassesGuard` | `RegDec.Overwrite` (used by `RegDec.RegisterDecodingFault.Process`) |
