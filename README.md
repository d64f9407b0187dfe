# torch.rs wrapper generator and tensor indexing, modelled in Dafny

This project models the core of the torch.rs code generator,
`scripts/generate_wrappers.py`. The generator reads the THNN kernel signatures
and emits three things:

- the Rust backend trait;
- one backend implementation per element type;
- an autograd `Function` class per kernel family.

The model also covers the multi-index to offset computation of `FloatTensor`
in `src/lib.rs`.

The Dafny modules follow the structure of the generator:

- `Common`: the shared vocabulary.
  - Kernel arguments and descriptors.
  - The error values. Python's `KeyError`/`IndexError` and Rust's panics become `Err` results.
  - String helpers and Python slicing.
- `Registry`: the `TYPE_TRANSFORMS` registry.
  - The base tables are built as a `TypeRegistry` object.
  - Its maps are updated in place by the three `dict.update` loops.
  - `Initialized()` is the resulting table.
- `Backend`:
  - `should_wrap_function`;
  - `wrap_function_decl` and `wrap_function_impl`, as string-accumulating loops proved against text functions;
  - `arg_cast`/`arg_cast_inner` and `unwrap_option`.
- `Splice`: Python's `list.insert`, a sequence of insertions, and the theorem that splicing the marked elements of a list back into the unmarked ones rebuilds it.
- `Slots`: emitted call arguments as tagged slots rather than strings (`Render` spells each one), and the tensor-insertion loops of the argument planner.
- `Criterion`: `_make_function_class_criterion`, covering the weight search, the buffer indices and the insertion of weight and buffers.
- `General`: `_find_buffers`, `has_argument` and the planning in `_make_function_class`.
  - Covers the forward and grad-input call plans and the flags.
  - Covers the forward and backward call lines as text.
- `Families`:
  - `generate_function_classes`: family keys, exception removal, lexicographic sorting, name remapping and the criterion/general split;
  - the first `KeyError`/`IndexError`, which aborts generation.
- `TensorIndex`: `FloatTensor` as a class with `dims` and `storage` fields, with `Index` and `IndexMut` as loops proved against the `Offset` function.

The offset the tensor code computes weights each index component by its own
dimension, not by the product of the later dimensions. The model keeps this.
Two lemmas show what it implies:

- `OffsetNotInjective`: two in-bounds indices of a 2 x 3 tensor get the same offset.
- `OffsetBeyondStorage`: an in-bounds index of a 3 x 2 tensor gets offset 7, past the six elements.

The criterion planner first inserts the weight, then the buffers. The weight
goes in at its index among the trailing arguments, but counted in a list that
does not hold the buffers yet. So when a buffer comes before the weight and a
configuration value follows the weight, that value lands in front of the weight,
and the call no longer has the kernel's argument order
(`CriterionBufferBeforeWeight`, on trailing arguments buffer, weight, value).
A buffer before the weight alone does no harm: with nothing after the weight the
order stays native (`CriterionBufferThenWeight`). `CriterionPlanNativeOrder`
proves native order whenever no buffer comes before the weight and every other
trailing tensor is a buffer.

## Model

| member | source | states |
|---|---|---|
| Registry.Lookup | scripts/generate_wrappers.py:108-109 | a token absent from the initialized variant map is returned unchanged |
| Registry.TypeRegistry.constructor | scripts/generate_wrappers.py:53-90 | the registry starts out as the six literal per-variant tables (Trait, Float, Double, CudaHalf, Cuda, CudaDouble) |
| Registry.TypeRegistry.AbsorbShared | scripts/generate_wrappers.py:100-106 | after the three update loops each variant map is its base table, then the common entries, then the CPU or GPU entries |
| Registry.TypeRegistry.UpdateEach | scripts/generate_wrappers.py:103-106 | `dict.update` on the listed variants: each listed map gains `extra` with its values winning; other maps are unchanged |
| Registry.ThreeUpdates | scripts/generate_wrappers.py:100-106 | composing the three loops equals one pointwise update per variant, with the common entries first and then the entries of that variant's bucket |
| Registry.AbsorbedPointwise | scripts/generate_wrappers.py:100-106 | that pointwise description is the absorbed registry |
| Registry.CommonDisjointFromBuckets | scripts/generate_wrappers.py:37-51 | the common keys and the CPU/GPU bucket keys are disjoint |
| Registry.BucketOrderIrrelevant | scripts/generate_wrappers.py:100-106 | applying the common entries and the variant's bucket entries gives the same map in either order, since their keys are disjoint |
| Registry.InitializedAt | scripts/generate_wrappers.py:53-106 | each initialized variant map is its base table absorbed |
| Registry.CommonEntriesEverywhere | scripts/generate_wrappers.py:100-101 | every variant map, Trait included, maps each common key to its common value |
| Registry.CpuEntriesPresent | scripts/generate_wrappers.py:103-104 | Float and Double map each CPU key to its CPU value |
| Registry.GpuEntriesPresent | scripts/generate_wrappers.py:105-106 | CudaHalf, Cuda and CudaDouble map each GPU key to its GPU value |
| Registry.RsType | scripts/generate_wrappers.py:108-109 | a common token gets its common Trait type; a token absent from the Trait map is returned unchanged |
| Registry.LookupFallsBack | scripts/generate_wrappers.py:108-109 | lookup gives the mapped value when present and the token itself otherwise (`.get(t, t)`) |
| Registry.AbsorbIdempotent | scripts/generate_wrappers.py:100-106 | running the update loops a second time changes nothing |
| Backend.ShouldWrap | scripts/generate_wrappers.py:92-98 | a wrapped kernel never has the `LookupTable_` prefix, and a name ending in none of `updateOutput`, `updateGradInput`, `accGradParameters`, `backward` is never wrapped |
| Backend.ShouldWrapIff | scripts/generate_wrappers.py:92-98 | a name is wrapped iff it does not start with `LookupTable_` and it ends with one of the four suffixes |
| Backend.LookupTableNeverWrapped | scripts/generate_wrappers.py:93-94 | no `LookupTable_` name is wrapped, whatever its suffix |
| Backend.WrappedFunctions | scripts/generate_wrappers.py:175-176 | the declared kernels are exactly those without `unfolded` in the name that should be wrapped; a single kernel is kept iff it passes both tests |
| Backend.WrappedFunctionsAppend | scripts/generate_wrappers.py:175-176 | the filter distributes over concatenation, so the declared kernels keep the header's order and multiplicity |
| Common.Get | scripts/generate_wrappers.py:117 | `dict.get(t, t)`: the mapped value when present, the token otherwise; used for the Trait map and for `name_remap.get(fam, fam)` |
| Backend.WrapFunctionDecl | scripts/generate_wrappers.py:111-123 | the line is `\tfn <name>(&mut self`, then one `, <arg>: <type>` per argument after the first, in order, then `)`; the type is the Trait-mapped type, or `&mut Option<TensorKind>` for an optional argument |
| Backend.DeclParamsAppend | scripts/generate_wrappers.py:115-121 | the parameter text of two argument lists is the concatenation of their texts, so each argument contributes its own parameter, in order |
| Backend.DeclAppendArgument | scripts/generate_wrappers.py:115-122 | appending an argument to the kernel appends exactly its parameter before the closing `)` |
| Backend.ArgCast | scripts/generate_wrappers.py:125-129 | a non-Tensor name is unchanged; a Tensor-typed name gets a suffix; the call fails iff the type contains `Tensor` and is missing from the variant map, and the error carries the missing token |
| Backend.ArgCastInner | scripts/generate_wrappers.py:130-134 | the same for `arg_cast_inner` |
| Backend.ArgCastViaInner | scripts/generate_wrappers.py:125-134 | `arg_cast` of a Tensor argument is `arg_cast_inner` of `<name>.inner()`, so both give the same cast without and with `.inner()` |
| Backend.ArgCastDropsStar | scripts/generate_wrappers.py:128 | a Tensor argument mapped to `X*` becomes `<name>.inner() as *mut X` |
| Backend.ArgCastInnerDropsStar | scripts/generate_wrappers.py:133 | an unwrapped tensor argument mapped to `X*` becomes `<name> as *mut X` |
| Backend.DeclParamIsRsType | scripts/generate_wrappers.py:108-121 | under the registry's Trait map, a required argument is declared with its `rstype` |
| Backend.UnwrapOption | scripts/generate_wrappers.py:136-139 | the line rebinds the argument's own name from a `Some(ref t)` match on that name and ends in the null-pointer fallback |
| Backend.OptionalArgs | scripts/generate_wrappers.py:143-145 | the arguments unwrapped are exactly the optional ones; a single argument is kept iff it is optional |
| Backend.OptionalArgsAppend | scripts/generate_wrappers.py:143-145 | the filter distributes over concatenation, so the optional arguments keep their order and multiplicity |
| Backend.UnwrapEach | scripts/generate_wrappers.py:136-139 | one `unwrap_option` line per optional argument, in order |
| Backend.UnwrapLinesPerOptional | scripts/generate_wrappers.py:143-145 | the unwrap prefix is the concatenation of one `unwrap_option` line per optional argument and nothing else |
| Backend.CastListFails | scripts/generate_wrappers.py:149-153 | the call's argument list fails iff some argument fails its cast, and then with the error of the first such argument |
| Backend.CastListErrPropagates | scripts/generate_wrappers.py:149-153 | once a prefix of the arguments has failed, the later arguments do not change the error |
| Backend.WrapFunctionImpl | scripts/generate_wrappers.py:141-157 | the body is the unwrap lines for the optional arguments after the first, then one `THNN_<type><name>(self.state, ...)` call passing the remaining arguments in order, or the first cast error |
| Backend.EmitUnwraps | scripts/generate_wrappers.py:143-145 | the first loop emits exactly the unwrap lines |
| Backend.EmitCasts | scripts/generate_wrappers.py:149-154 | the second loop emits the comma-separated casts of the arguments, or the first cast error |
| Splice.InsertPos | scripts/generate_wrappers.py:272 | Python's `list.insert` position: as given when in range, clamped to the end, counted from the end for negatives, clamped to the front |
| Splice.PyInsert | scripts/generate_wrappers.py:272 | `list.insert` adds exactly one element |
| Splice.InsertAll | scripts/generate_wrappers.py:274-276 | a sequence of insertions adds one element per insertion |
| Splice.RestoreOrder | scripts/generate_wrappers.py:373-377 | inserting the marked elements of a list, at their own positions in index order, into its unmarked elements rebuilds the list |
| Slots.Render | scripts/generate_wrappers.py:266-276 | a configuration value is read as `self.args.<name>`; every tensor, weight and buffer slot is passed as a `&mut` reference |
| Slots.LeadingTwoJoin | scripts/generate_wrappers.py:432-433 | two fixed arguments, a comma and the joined plan form one comma-separated list, with a dangling separator when the plan is empty |
| Slots.LeadingThreeJoin | scripts/generate_wrappers.py:285-298 | three fixed arguments, a comma and the joined plan form one comma-separated list, with a dangling separator when the plan is empty |
| Slots.NonTensorArgs | scripts/generate_wrappers.py:360 | the configuration fields are arguments of the list none of whose types contain `Tensor`; a single argument is kept iff it is not a tensor |
| Slots.NonTensorArgsAppend | scripts/generate_wrappers.py:360 | the filter distributes over concatenation, so the fields keep the argument order and multiplicity |
| Slots.ConfigSlotsAreFields | scripts/generate_wrappers.py:360-363 | the config slots are `self.args.<name>` of the configuration fields, one by one in the same order |
| Slots.ConfigSlots | scripts/generate_wrappers.py:363 | one `self.args.<name>` slot per configuration field |
| Slots.TensorPositions | scripts/generate_wrappers.py:362 | at most one position per argument |
| Slots.TensorItems | scripts/generate_wrappers.py:373-377 | one insertion per tensor position |
| Slots.InsertTensors | scripts/generate_wrappers.py:373-377 | the insert loop performs the insertions of the i-th tensor as slot `first + i` at its position, in order |
| Slots.NativeSlotsSplit | scripts/generate_wrappers.py:362-377 | removing the tensor slots from the native plan leaves the config slots, and the removed slots are the tensor insertions |
| Slots.TensorSpliceRestoresOrder | scripts/generate_wrappers.py:362-377 | inserting the tensor slots into the config slots gives the kernel's native argument order |
| Slots.NativeSlotsAt | scripts/generate_wrappers.py:373-377 | in that plan, the j-th argument is its config slot, or the tensor slot numbered by its rank among the tensors |
| Criterion.FirstWeight | scripts/generate_wrappers.py:252-256 | the weight index is -1 or a valid index |
| Criterion.FirstWeightIsFirst | scripts/generate_wrappers.py:252-256 | it is -1 iff no name starts with `weight`; otherwise that name starts with `weight` and none before it does |
| Criterion.FindWeightIndex | scripts/generate_wrappers.py:252-256 | the loop with `break` finds the first `weight...` argument, or -1 |
| Criterion.FirstWeightOfPrefix | scripts/generate_wrappers.py:253-256 | exiting at index i without an earlier hit returns i |
| Criterion.BufferPositions | scripts/generate_wrappers.py:258-263 | at most one buffer index per argument |
| Criterion.BufferPositionsExact | scripts/generate_wrappers.py:258-263 | the buffer indices are strictly increasing and are exactly the positions of the `THTensor*` arguments not named `weight...` |
| Criterion.CriterionBufferIndices | scripts/generate_wrappers.py:258-263 | the counter loop over `arguments[4:]` yields those indices |
| Criterion.BufferItems | scripts/generate_wrappers.py:274-276 | one insertion per buffer index |
| Criterion.InsertBuffers | scripts/generate_wrappers.py:274-276 | the insert loop places `&mut self.saved_tensors[k]` at the k-th buffer index, in order |
| Criterion.MakeCriterionClass | scripts/generate_wrappers.py:251-324 | the inputs fix the criterion class: config fields are non-Tensor args of `arguments[4:]`; the Args struct is emitted iff there are some; there is a weight iff any name starts with `weight`; buffers as above; call slots as the insertions build them; the backward result is `[Some(grad_input), None]` |
| Criterion.CriterionNativeSplit | scripts/generate_wrappers.py:265-276 | the native criterion plan splits into the config slots and the weight and buffer insertions, provided every tensor other than the one at the weight position is a `THTensor*` buffer, the weight position (when in range) holds a tensor that is not a buffer, and no buffer comes before it |
| Criterion.CriterionPlanNativeOrder | scripts/generate_wrappers.py:258-276 | the call slots are the kernel's own order of `arguments[4:]`, provided the weight is absent or at index 4 or later and a tensor, no buffer comes before it, and every other tensor of `arguments[4:]` is a `THTensor*` buffer (a tensor that is neither is dropped from the call) |
| Criterion.CriterionBufferBeforeWeight | scripts/generate_wrappers.py:258-276 | with trailing arguments buffer, weight, configuration value, the value is passed before the weight, unlike the kernel's order, because the weight's insert index counts a list that lacks the buffer |
| Criterion.CriterionBufferThenWeight | scripts/generate_wrappers.py:258-276 | with trailing arguments buffer, weight and nothing after, the call keeps the kernel's order |
| Criterion.ForwardCall | scripts/generate_wrappers.py:285-286 | the forward call passes input, target and output, then the plan, as one comma-separated list; an empty plan leaves a trailing comma |
| Criterion.BackwardCall | scripts/generate_wrappers.py:297-298 | the backward call passes input, target and grad_input, then the same plan, as one comma-separated list; an empty plan leaves a trailing comma |
| General.HasArgument | scripts/generate_wrappers.py:338-342 | true iff some argument has that name |
| General.FindBuffers | scripts/generate_wrappers.py:326-335 | the loop with `continue` and a counter yields the `Buffers` pairs |
| General.BuffersWellFormed | scripts/generate_wrappers.py:326-335 | indices strictly increase and are below the count of non-ignored arguments (ignored ones do not advance it); each pair names a non-ignored `THTensor*` argument at that index, and every such argument appears |
| General.BuffersNotIgnored | scripts/generate_wrappers.py:329-331 | no buffer names an ignored argument |
| General.MakeGeneralClass | scripts/generate_wrappers.py:337-507 | fails iff `arguments[-1]` or `arguments[2]` is out of range, with their errors; otherwise the flags `save_output`, `needs_input`, `is_inplace` and `skip_grad_output_unwrap` hold iff their conditions do; the config fields are the longer list; forward and backward plans as below; backward result `[grad_input_result]`; the three buffer lists |
| General.FindAllBuffers | scripts/generate_wrappers.py:350-357 | the buffers of the three kernels, the third present iff `accGradParameters` is |
| General.ConfigFields | scripts/generate_wrappers.py:359-371 | the struct fields are the grad-input config args when there are more of them; needs-args iff either list is non-empty |
| General.CallPlans | scripts/generate_wrappers.py:362-389 | the forward plan is the native order of `arguments[3:]` with tensors from `input_list[1]`; the backward plan inserts `saved[i + 1]` or `saved[i + 2]` slots into the config slots |
| General.ForwardSlotAt | scripts/generate_wrappers.py:373-377 | the k-th forward tensor is `input_list[k + 1]`, inside `Some(...)` iff optional; other arguments are their config value |
| General.BackwardPlanNativeOrder | scripts/generate_wrappers.py:379-389 | when the arguments between the config start and the tensor start are tensors, the backward plan is the native order of `arguments[ga_start:]`, from `saved[1]` or `saved[2]` |
| General.ForwardCall | scripts/generate_wrappers.py:432-433 | the forward call passes input and output, then the forward plan, as one comma-separated list; an empty plan leaves a trailing comma |
| General.BackwardCall | scripts/generate_wrappers.py:459-467 | the grad-input call line is `backend.<name>(` with the comma join of its arguments, then `);` |
| General.BackwardCallIsJoin | scripts/generate_wrappers.py:459-467 | the grad-input call's argument text is the comma join of `&mut input` (when needed), grad output, grad input, `&mut output` (when saved) and the plan's slots |
| Families.FamilyKey | scripts/generate_wrappers.py:516 | the key is the longest prefix without `_`, followed in the name by `_` unless it is the whole name |
| Families.SortNames | scripts/generate_wrappers.py:577 | `sorted` gives the set's elements once each, strictly increasing |
| Families.SortedUnique | scripts/generate_wrappers.py:576-577 | two strictly sorted lists with the same elements are equal, so the order is deterministic |
| Families.FunctionList | scripts/generate_wrappers.py:514 | the kernels kept are exactly those without `unfolded` in the name; a single kernel is kept iff it has none |
| Families.FunctionListAppend | scripts/generate_wrappers.py:514 | the filter distributes over concatenation, so the kernels keep their order and multiplicity |
| Families.ByName | scripts/generate_wrappers.py:515 | the index holds exactly the kernel names, each mapped to a kernel of that name |
| Families.ByNameLastWins | scripts/generate_wrappers.py:515 | for a duplicated name the last kernel wins |
| Families.Keys | scripts/generate_wrappers.py:516 | the families are exactly the keys of the kernel names |
| Families.MakeFamily | scripts/generate_wrappers.py:578-589 | one family fails iff `_updateOutput` or `_updateGradInput` is missing, or a general family's arguments are too short, with the matching error; otherwise criterion-style iff `Criterion` is in the key, built from the remapped name |
| Families.SelectFamilies | scripts/generate_wrappers.py:575-577 | the families are the keys minus the exceptions, strictly sorted |
| Families.GenerateClasses | scripts/generate_wrappers.py:578-589 | one class per family, in order, iff no family fails; otherwise the error of the first failing family |
| Families.GenerateFunctionClasses | scripts/generate_wrappers.py:510-591 | the families are the keys of the non-`unfolded` kernels minus the exceptions, in sorted order; then one class per family as above, or the first failure |
| TensorIndex.Offset | src/lib.rs:98-108 | a successful offset has matching non-zero lengths and every component below its dimension; the slice-indexing panic happens exactly for the empty index on a zero-dimensional tensor |
| TensorIndex.OffsetFailsIff | src/lib.rs:101-106 | "bad dimlen" iff the lengths differ or some component is at or beyond its dimension; success iff neither holds and the index is not empty |
| TensorIndex.FloatTensor.Index | src/lib.rs:98-109 | the loop with its early panics computes `Offset(idx, dims)`: the sum of component times dimension over all but the last, plus the last component |
| TensorIndex.FloatTensor.IndexMut | src/lib.rs:112-124 | the same checks and the same offset as `Index`; the store through the reference changes only that element |
| TensorIndex.OffsetNonNegative | src/lib.rs:102-107 | non-negative in-bounds components give a non-negative offset |
| TensorIndex.OffsetNotInjective | src/lib.rs:104 | on a 2 x 3 tensor, `[1, 0]` and `[0, 2]` share offset 2 |
| TensorIndex.OffsetBeyondStorage | src/lib.rs:104-108 | on a 3 x 2 tensor, `[2, 1]` gets offset 7, past the six elements |

## Left out

- Environment and module loading (`TORCH_PATH`, `import_module`, `thnn_utils`) are plumbing. Kernel descriptors are inputs, and `parse_header` is not part of this model.
- File output: every `open(...).write` is left out. So are the fixed file headers of `wrap_backend_decl`, `wrap_backend_impl_type` and `build_header`, the per-type loop of `wrap_backend_impls`, and the `build_args` struct text. The kernels those files contain are modelled (`WrappedFunctions`).
- The emitted class bodies beyond the planned call arguments and the flags: the fixed Rust lines of `build_forward`/`build_backward`, `panic!`/`unimplemented!`, and the empty `accGradParameters` branch, which is only a flag.
- Dead or legacy code paths are left out:
  - `wrap_nn` calls an undefined function;
  - `wrap_cunn` uses an unimported module;
  - `wrap_function`, `wrap_generic_function`, `wrap_generic`;
  - the stub `build_forward`/`build_backward` at module level;
  - the unreachable lines after `return backward`.
- `initialize_buffers` is never called, and it prints.
- `expected_params` and `skip_input_unwrap` are computed but never used.
- The generated Rust is text only. Its runtime behaviour is not modelled.
- `FloatStorage`, `Tensor::new`/`sized`/`randn`, `into_slice` and the raw `offset` dereference are foreign calls and unsafe memory access.
- `Backend`: the variant maps are parameters, not `Initialized()` itself. The registry lemmas say what `Initialized()` holds.
- TensorIndex.Offset: indices, dimensions and the accumulator are unbounded integers. `isize` overflow is not modelled.
- TensorIndex.FloatTensor.IndexMut: in the source, an offset outside the storage is an out-of-bounds memory access (undefined behaviour). The model leaves the storage unchanged there.
- Backend.ArgCast: the error value is also labelled with the variant whose map lacks the token; the source's `KeyError` carries only the token.
- The general backward always returns the one-element `vec![grad_input_result]`, whatever the number of inputs (scripts/generate_wrappers.py:477).
- A token missing from the Trait map is passed through unchanged by `.get(t, t)` (scripts/generate_wrappers.py:109, 117).
