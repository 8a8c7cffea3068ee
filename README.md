# arbor_pycat registry and dispatch, modelled in Dafny

arbor_pycat lets Python code define mechanisms for the Arbor simulator. It does
this through Arbor's C mechanism ABI. This project models the native layer in
`main.cpp` that sits between the two sides:

- **Lifecycle.** One process-wide `frozen` flag. While it is false, mechanisms
  can be built and registered. `get_catalogue` sets it, and nothing clears it.
  From then on, every mutator that calls `frozen_check()` fails. The
  export-phase calls (`make_input_type`, `make_cpu_iface`) call
  `frozen_check(true)`, so they fail before that point. Every operation raises
  the message the code raises, which names the opposite situation (see
  Findings) (`lifecycle.dfy`).
- **Mechanisms.** An `ArbMech` has five append-only schema lists (globals, ions,
  state variables, parameters, random variables) and an intern store. Every
  schema string (field names and units, random-variable and ion names) is
  copied into that store with a trailing NUL. The host reads such a string up
  to its first NUL. The mechanism's name and the fingerprint are not interned.
  Each `add_*` call returns the new entry's index in its own list
  (`mechanism.dfy`, class `Mech`).
- **Registry and export.** The `mechs` vector, the static `call_counter` of
  `make_input_type` and the static record vector of `get_catalogue`, which is
  never cleared (`registry.dfy`, class `Registry`). The counter protocol is
  modelled as pure functions with lemmas (`exporter.dfy`). The interface
  tables and the catalogue template are in `dispatch.dfy`.
- **Step dispatch.** `init`, `advance_state`, `compute_currents` and
  `write_ions` compute `mechs.size() - mechanism_id - 1`. The model computes
  it as the source does: `size_t` arithmetic, narrowed to a 32-bit `int`, then
  passed back to `vector::at`. Host id k therefore reaches the mechanism
  registered at position size-1-k, as the comment at main.cpp:165-166 assumes. `apply_events` and `post_event` do nothing
  (`dispatch.dfy`, `Registry.Resolve`).
- **Call context.** The accessors of `PP` build views `width` long. The guarded
  ones first check the host's table pointer and then the declared count.
  `to_numpy` refuses a null pointer (`views.dfy`).

`scenario.dfy` is a client. It registers two mechanisms, loads the catalogue,
exports both types, fails on the third export and resolves step calls. Its
assertions follow from the contracts alone.

Host pointers are modelled only by whether they are null. A handler is an
opaque token, and a step call returns the handler and context it would invoke.
`arbor/mechanism_abi.h` is not part of this model. Its `mechanism_id` and
`width` are taken to be 32-bit unsigned (`arb_size_type`).

The single `frozen` global is the registry's `FreezeFlag`. The schema
mutators of `Mech` take that flag as a parameter, and callers pass the
registry's own `reg.flag`. The model does not tie a mechanism to one registry,
so a caller could pass a different flag.

Points worth knowing about the code:

- Nothing in a mechanism's globals identifies it. The step entry points find
  a mechanism from the reversed `mechanism_id` alone.
- Every view is `width` long. Nothing is computed from the node index.
- Calling a step whose handler was never set throws `std::bad_function_call`.
  The call is not skipped.
- Dispatch does not check the freeze.
- `set_name` and the four handler setters do not check the freeze either.
- `is_linear` and `has_post_events` have no setter, so they stay false.

## Model

| member | source | states |
|---|---|---|
| `Lifecycle.FrozenCheck` | main.cpp:21-26 | Passes exactly when the flag equals the phase the caller needs. A failure while frozen reports a modification after the load. A failure while open reports a call before the load. |
| `Lifecycle.FrozenCheckAsWritten` | main.cpp:21-26 | The check the operations use. It passes exactly when `frozen == check`. A refusal while frozen says "can not call function before load". A refusal while open says "can not modify after catalogue load". |
| `Lifecycle.FreezeFlag.constructor` | main.cpp:19 | The flag starts false: the registry is open at process start. |
| `Lifecycle.SameVerdict` | main.cpp:21-26 | The corrected check and the one as written accept and refuse exactly the same calls. |
| `Lifecycle.SwappedMessages` | main.cpp:22-24 | As written, a refused mutator reports "can not call function before load", and a refused export call reports the other message. |
| `Mechanism.Mech.constructor` | main.cpp:80-93 | A new mechanism: name "mech", density kind, both flags false, all lists and the intern store empty, no handlers. |
| `Mechanism.Mech.Intern` | main.cpp:73-79 | The store grows by exactly one entry: the string followed by one NUL. The result is that entry's position. |
| `Mechanism.CText` | main.cpp:76-78 | What a C reader sees of an interned string: a prefix of it with no NUL, ending just before the first NUL if there is one. |
| `Mechanism.CTextWhole` | main.cpp:76-78 | A C reader sees a string whole exactly when it holds no NUL. |
| `Mechanism.CTextAppendNul` | main.cpp:76 | The terminator `intern` appends does not change what a C reader sees. |
| `Mechanism.Mech.AddGlobal` | main.cpp:94-99 | While open, appends exactly one field and returns the list's previous length. It interns the name and then the unit (two entries), with bounds of minus and plus DBL_MAX. The host reads back each string up to its first NUL, so a NUL-free name or unit reads back whole. When frozen, it fails with "can not call function before load" and changes nothing. Its frame leaves the other lists alone. The store-size invariant `Valid` is kept. |
| `Mechanism.Mech.AddState` | main.cpp:100-105 | The same as `AddGlobal`, for the state-variable list. |
| `Mechanism.Mech.AddParameter` | main.cpp:106-111 | The same as `AddGlobal`, for the parameter list. |
| `Mechanism.Mech.AddRandom` | main.cpp:112-118 | While open, appends one random variable and interns one string. Its index is cast to 32 bits. Returns the previous length. When frozen, it fails with "can not call function before load" and changes nothing. |
| `Mechanism.Mech.AddIon` | main.cpp:119-141 | While open, appends one ion entry with all seven flags and the valence copied, and interns one string. Returns the previous length. When frozen, it fails with "can not call function before load" and changes nothing. |
| `Mechanism.Mech.SetName` | main.cpp:272-274 | Sets the name with no freeze check. |
| `Mechanism.Mech.SetKindPoint` | main.cpp:321-328 | As written: after the freeze check it stores the density kind. When frozen, it fails with "can not call function before load" and leaves the kind unchanged. |
| `Mechanism.Mech.SetKindPointIntended` | main.cpp:321-328 | The corrected setter: after the same freeze check, with the same message, it stores the point kind. |
| `Mechanism.Mech.SetHandler` | main.cpp:329-340 | Sets the handler of one stage, empty or not, with no freeze check. The other three are unchanged. |
| `Views.ToNumpy` | main.cpp:42-45 | Fails exactly on a null pointer, with the source's message. Otherwise the view has the array's size and read-only flag. |
| `Views.NodeIndex` | main.cpp:57 | Fails exactly when the node-index pointer is null. Otherwise returns a view of length `width` marked read-only (`ArbPPArray`'s `ro`). |
| `Views.NodeView` | main.cpp:59-64 | `v`, `i`, `g`, `t_degC`, `diam_um` and `area_um2` fail exactly on a null pointer. Otherwise they return a writable view of length `width`. |
| `Views.State` | main.cpp:144-147 | Succeeds exactly when the table is non-null, the index is below the declared state count and the entry is non-null. A null table is reported first, then the range. The view is writable and `width` long. |
| `Views.Param` | main.cpp:148-151 | The same guards and order as `State`, over the parameters, with the source's messages. |
| `Views.Random` | main.cpp:152-156 | The same guards over the random variables, with the "param out of range" message. The view is marked read-only. |
| `Views.Ions` | main.cpp:157-160 | Succeeds exactly when the ion table is non-null and the index is below the declared ion count. The result has size `width` and is that ion's block. |
| `Views.IonView` | main.cpp:375-384 | Each sub-array of an ion state fails exactly on a null pointer. Otherwise it is writable and as long as the ion state's size. |
| `Views.EveryViewHasWidth` | main.cpp:55-160 | Every view a handler can obtain, directly or through an ion state, is exactly `width` long. |
| `Views.StateBoundary` | main.cpp:144-147 | With the host's arrays present, state index count-1 gives a `width`-long view. Index count fails with "state out of range". |
| `Dispatch.SlotIndex` | main.cpp:167 | The index as the source computes it: `size_t` subtraction, then narrowing to `int`. The result is a 32-bit `int` congruent to `size - id - 1` modulo 2^32. `SlotIndexInRange` proves its range. |
| `Dispatch.SlotIndexInRange` | main.cpp:167-168 | With at most 2^31 mechanisms, `mechs.at(idx)` finds a slot exactly when `mechanism_id < mechs.size()`. That slot is `size - id - 1`. Both wrap-arounds are accounted for. |
| `Dispatch.ReversedIds` | main.cpp:164-181 | With at most 2^31 mechanisms, slot k is reached by exactly one host id, `size - 1 - k`. |
| `Dispatch.MakeCpuIface` | main.cpp:192-205 | Succeeds exactly after the freeze. Before it, fails with "can not modify after catalogue load". The table is for the CPU backend, with partition width 1 and alignment 8, and maps each slot to its own entry point. |
| `Dispatch.CpuTableComplete` | main.cpp:198-203 | The CPU table holds each of the six entry points, each in exactly one slot. |
| `Dispatch.NullInterface` | main.cpp:190 | The GPU factory always answers "no implementation". |
| `Dispatch.TemplateInterfaces` | main.cpp:239-241 | Through the catalogue template, the GPU answer is always "no implementation". The CPU answer is the CPU table exactly when frozen. |
| `Exporter.NextType` | main.cpp:207-214 | One export call succeeds exactly when frozen and the counter is below the number of mechanisms. It then returns the type at the counter and advances the counter by one. Otherwise it leaves the counter unchanged and fails. Before the freeze the message is "can not modify after catalogue load". Past the end it is "called > size(mechs) times". |
| `Exporter.Calls` | main.cpp:207-214 | The results of n consecutive export calls, each from the counter the previous call left. There is exactly one result per call. |
| `Exporter.CallsInOrder` | main.cpp:209-214 | After the freeze, consecutive call j returns the type at `counter + j`, or fails with "called > size(mechs) times" once past the end. |
| `Exporter.ExportInOrder` | main.cpp:209-214 | From a fresh counter, N calls return the N types in registration order, and call N+1 fails. |
| `Exporter.CallsBeforeLoad` | main.cpp:208 | Before the freeze, every export call fails with "can not modify after catalogue load". |
| `PluginRegistry.TypeOf` | main.cpp:215-232 | The host's type has every count equal to its list's size. Name, kind, both flags and the five lists come from the mechanism, and the fingerprint is the placeholder. |
| `PluginRegistry.TypesOf` | main.cpp:213-231 | One type per registered mechanism, in registration order. |
| `PluginRegistry.Registry.constructor` | main.cpp:19 | Process start: open, no mechanisms, counter 0, no catalogue records. |
| `PluginRegistry.Registry.Register` | main.cpp:266-269 | While open, appends the mechanism. When frozen, it fails with "can not call function before load" and the vector is unchanged. |
| `PluginRegistry.Registry.GetCatalogue` | main.cpp:235-248 | Appends one template per mechanism to the record vector, never clearing it. Returns `n = size` and sets `frozen`. Keeps the invariant that the vector holds one template per mechanism per load. |
| `PluginRegistry.Registry.MakeInputType` | main.cpp:207-233 | Result and new counter are those of `NextType` over the registered types. On success it returns the type of `mechs[counter]` and the counter grows by one. On failure the counter is unchanged, and the messages are those of `NextType`. |
| `PluginRegistry.Registry.Resolve` | main.cpp:164-188 | `apply_events` and `post_event` are inert. With at most 2^31 mechanisms, a step fails with `out_of_range` exactly when `id >= size`. Otherwise it calls the handler of slot `size - id - 1` with a context over that mechanism, or fails with `bad_function_call` when the handler is empty. |
| `PluginRegistry.Registry.IdReachesSlot` | main.cpp:164-181 | With at most 2^31 mechanisms, a step call reaches the k-th registered mechanism exactly when the host id is `size - 1 - k`, when that mechanism's handler for the stage is set. |

## Left out

- `get_so_name` (main.cpp:250-256) is not modelled. It asks the dynamic loader (`dladdr`) for the library's path, which is a foreign call.
- The pybind11 module and class registration (main.cpp:258-264, 351-374, 385-391) and the buffer-protocol export are not modelled. Only the ion sub-views (main.cpp:375-384) are kept.
- Views.ToNumpy: the view's `readOnly` is the `ro` flag the `ArbPPArray` was built with. main.cpp:44 builds the numpy array from the size and pointer alone. Whether Python sees it as writable is decided inside pybind11, which is not part of this model.
- PluginRegistry.Registry.Resolve: returns the handler and context it would call instead of running the Python callable. What a handler does to host memory is not modelled.
- `PP::glob` and `PP::get_dt` (main.cpp:56, 58) are not modelled. They read floating-point values, and `glob` does no bounds or null check at all.
- `default_value`, `min` and `max` are carried as opaque IEEE bit patterns and never computed with.
- The `_cleanup` capsule (main.cpp:341-350) is not modelled. It only clears handlers at interpreter shutdown.
- `abi_version` of the exported type is not modelled. Its value comes from `arbor/mechanism_abi.h`, which is not part of this model.
- Mechanism.Mech.AddGlobal: the index is returned as an unbounded natural number. The source's `int` return value would wrap once a list passes 2^31 - 1 entries. The same holds for `AddState`, `AddParameter`, `AddRandom`, `AddIon` and for the count `GetCatalogue` reports through `int *n`.
- Dispatch.SlotIndexInRange: proved only for at most 2^31 registered mechanisms. Beyond that, narrowing to `int` can turn a valid id into a failure.
- Dispatch.ReversedIds: requires at most 2^31 registered mechanisms. With more, some ids reach no slot at all.
- PluginRegistry.Registry.Resolve: for more than 2^31 registered mechanisms it only promises that any slot it reaches holds the mechanism it calls. It does not say which ids fail.
- PluginRegistry.Registry.IdReachesSlot: requires at most 2^31 registered mechanisms, for the same reason as `ReversedIds`.
- Mechanism.Mech.AddGlobal: strings are sequences of Unicode characters, not the UTF-8 bytes `intern` copies. A name's byte length and its encoding are not modelled. The same holds for `AddState`, `AddParameter`, `AddRandom` and `AddIon`.
- PluginRegistry.TypeOf: the name is copied by value. The source hands out `name.c_str()`, and `set_name` is not freeze-checked, so a rename after export can leave the host with a stale pointer. The model does not track that.
- `arbor_pycat/__init__.py` and `tests/` are not modelled. They are Python glue and end-to-end simulations with floating-point results.
- Mechanism.Mech.AddIon: the binding's defaults for the seven flags and the valence (main.cpp:311-319) are not modelled. The method takes all eight values explicitly.
- PluginRegistry.Registry.Register: `register(None)` is not modelled. pybind11 would pass an empty `shared_ptr`, which main.cpp:268 appends and main.cpp:218 later dereferences. The model's `Mech` reference cannot be null.
- Concurrency: the globals and statics are assumed to be used from one thread.

## Findings

| source | as written | input that shows it | evidently intended | confidence | as-written member | corrected member |
|---|---|---|---|---|---|---|
| main.cpp:21-26 | `frozen_check()` while frozen throws "can not call function before load". `frozen_check(true)` while open throws "can not modify after catalogue load". | `add_global` after `get_catalogue`; `make_cpu_iface` before it | Each message describes the situation it is raised in. | high; not executed | `Lifecycle.FrozenCheckAsWritten` (shown by `Lifecycle.SwappedMessages`), which every operation of the model calls | `Lifecycle.FrozenCheck` (same verdicts by `Lifecycle.SameVerdict`) |
| main.cpp:321-328 | `set_kind_point` stores `arb_mechanism_kind_density`. The same binding is defined twice. | `set_kind_point()` on a new mechanism: its kind is still density. | Store `arb_mechanism_kind_point`. | medium; not executed | `Mechanism.Mech.SetKindPoint` | `Mechanism.Mech.SetKindPointIntended` |
