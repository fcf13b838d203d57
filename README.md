# Typed LLVM values: a Dafny model

This project models the typed value layer of inkwell (`src/values.rs`). That layer wraps
opaque LLVM value handles in safe wrappers:

- a value core `Value`;
- the typed wrappers `IntValue`, `FloatValue`, `StructValue`, `PointerValue`, `PhiValue`,
  `ArrayValue` and `FunctionValue`;
- two sum types over the wrappers, `AnyValueEnum` (seven variants) and `BasicValueEnum`
  (five variants; no phi and no function values).

The model covers the classification of a handle by the kind of its LLVM type, the
downcasts out of `BasicValueEnum`, the parameter queries of a function, the parameter
iterator and function verification.

LLVM itself is not visible. It is replaced by an abstract side table, `LlvmIr.Ir`:

- a handle is a natural number, and 0 is the null pointer;
- the table maps every live handle to its type kind;
- it maps every function to its parameter list, in declaration order;
- it maps every parameter to its function;
- it maps every function to the status code the structural verifier reports for it.

The C entry points that values.rs calls are pure functions on that table. The
next-parameter link is the successor in the owning function's list, or null after the
last parameter.

A Rust panic is the `Panic` case of `Values.Outcome`. It carries a `Fault` that names the
failed check: null handle, not a function, vector type, unreachable kind, wrong downcast
variant, verifier failure, or arithmetic overflow under overflow checks. A parameter that is absent is the recoverable `Ok(None)`.

Files:

- `llvm_ir.dfy`: the side table, `u32` and its wrapping addition, `TypeKind`, and the
  foreign queries.
- `values.dfy`: the modelled part of values.rs.

## Model

| member | source | states |
|---|---|---|
| `Values.Value.New` | src/values.rs:18-24 | Succeeds exactly on a non-null handle and wraps that handle. Panics with NullHandle otherwise. |
| `Values.IntValue.New` | src/values.rs:364-368 | Succeeds exactly on a non-null handle, over that handle. Does no kind check: the function does not consult the IR. |
| `Values.IntValue.IntoIntValue` | src/values.rs:389-393 | Re-wrapping an integer value's handle gives back the same wrapper. |
| `Values.FloatValue.New` | src/values.rs:407-411 | Succeeds exactly on a non-null handle, over that handle. Does no kind check. |
| `Values.StructValue.New` | src/values.rs:434-438 | Succeeds exactly on a non-null handle, over that handle. Does no kind check. |
| `Values.PointerValue.New` | src/values.rs:461-465 | Succeeds exactly on a non-null handle, over that handle. Does no kind check. |
| `Values.PhiValue.New` | src/values.rs:488-492 | Succeeds exactly on a non-null handle, over that handle. Does no kind check. |
| `Values.ArrayValue.New` | src/values.rs:521-525 | Succeeds exactly on a non-null handle, over that handle. Does no kind check. |
| `Values.IntValue.AsValue` | src/values.rs:379-383 | `as_ref` gives the core whose handle `IntValue::new` turns back into this very wrapper. |
| `Values.FloatValue.AsValue` | src/values.rs:422-426 | `as_ref` gives the core whose handle `FloatValue::new` turns back into this very wrapper. |
| `Values.StructValue.AsValue` | src/values.rs:449-453 | `as_ref` gives the core whose handle `StructValue::new` turns back into this very wrapper. |
| `Values.PointerValue.AsValue` | src/values.rs:476-480 | `as_ref` gives the core whose handle `PointerValue::new` turns back into this very wrapper. |
| `Values.PhiValue.AsValue` | src/values.rs:503-507 | `as_ref` gives the core whose handle `PhiValue::new` turns back into this very wrapper. |
| `Values.ArrayValue.AsValue` | src/values.rs:536-540 | `as_ref` gives the core whose handle `ArrayValue::new` turns back into this very wrapper. |
| `Values.FunctionValue.AsValue` | src/values.rs:291-295 | `as_ref` gives the core whose handle `FunctionValue::new` turns back into this very wrapper, in every compilation unit where that handle is a function. |
| `Values.AnyValueEnum.AsValue` | src/values.rs:561-569 | `as_ref` on the enum delegates to the active variant: the result is the core from which that variant's own `new` rebuilds the wrapped value. `Widen` states that the five basic variants delegate alike in both enums. |
| `Values.BasicValueEnum.AsValue` | src/values.rs:561-569 | `as_ref` on the enum delegates to the active variant: the result is the core of the wrapper that the one successful downcast returns. `DowncastKeepsValue` states the same from the downcasts' side. |
| `Values.Widen` | src/values.rs:573-574 | Every `BasicValueEnum` variant becomes the same-named `AnyValueEnum` variant holding the same wrapper: the tag agrees with the variant in both directions, the core is kept, and the result is never the phi or function variant. |
| `Values.WidenReachesAllButPhiAndFunction` | src/values.rs:573-574 | Every `AnyValueEnum` that is neither phi nor function is the widening of some `BasicValueEnum`. So the wrapper variants of `BasicValueEnum` are exactly those of `AnyValueEnum` without phi and function. |
| `Values.BasicValueEnum.FromKind` | src/values.rs:585-598 | Succeeds exactly for the ten supported kinds on a non-null handle. The active variant is the one for the kind, over the input handle. Vector panics with UnsupportedVector. Every other unsupported kind panics with UnsupportedType; no default variant is ever returned. |
| `Values.BasicValueEnum.New` | src/values.rs:580-599 | On a live handle: succeeds exactly when the handle's type kind is supported. The variant matches the kind and wraps the same handle. Otherwise it panics with the vector or unreachable fault. |
| `Values.ClassificationOfSupportedKinds` | src/values.rs:585-595 | The six float-family kinds give `FloatValue`; integer, struct, pointer and array give their own wrappers; each over the input handle. |
| `Values.BasicValueEnum.IntoIntValue` | src/values.rs:601-607 | Succeeds exactly on the IntValue variant and returns its wrapper unchanged. Otherwise panics with WrongVariant naming the method and the actual value. |
| `Values.BasicValueEnum.IntoFloatValue` | src/values.rs:609-615 | Succeeds exactly on the FloatValue variant and returns its wrapper unchanged; otherwise WrongVariant. |
| `Values.BasicValueEnum.IntoPointerValue` | src/values.rs:617-623 | Succeeds exactly on the PointerValue variant and returns its wrapper unchanged; otherwise WrongVariant. |
| `Values.BasicValueEnum.IntoStructValue` | src/values.rs:625-631 | Succeeds exactly on the StructValue variant and returns its wrapper unchanged; otherwise WrongVariant. |
| `Values.BasicValueEnum.IntoArrayValue` | src/values.rs:633-639 | Succeeds exactly on the ArrayValue variant and returns its wrapper unchanged; otherwise WrongVariant. |
| `Values.BasicValueEnum.AsIntValue` | src/values.rs:641-647 | Same contract as `into_int_value`, for the borrowing form. |
| `Values.BasicValueEnum.AsFloatValue` | src/values.rs:649-655 | Same contract as `into_float_value`, for the borrowing form. |
| `Values.BasicValueEnum.AsPointerValue` | src/values.rs:657-663 | Same contract as `into_pointer_value`, for the borrowing form. |
| `Values.BasicValueEnum.AsStructValue` | src/values.rs:665-671 | Same contract as `into_struct_value`, for the borrowing form. |
| `Values.BasicValueEnum.AsArrayValue` | src/values.rs:673-679 | Same contract as `into_array_value`, for the borrowing form. |
| `Values.DowncastKeepsValue` | src/values.rs:561-569 | Exactly one of the five downcasts succeeds on any value. Its wrapper's core is the core that `as_ref` on the enum delegates to. |
| `Values.DowncastOfClassified` | src/values.rs:601-679 | For a freshly classified handle, the downcast to its own kind's variant succeeds and returns a wrapper over that handle, in both the `into_*` and the `as_*` form. Every other downcast panics. |
| `Values.FunctionValue.New` | src/values.rs:180-190 | Succeeds exactly on a non-null handle that LLVM calls a function, over that handle. A null handle panics with NullHandle, any other non-function with NotAFunction. |
| `Values.FunctionValue.CountParams` | src/values.rs:246-250 | The count is the number of parameters the function has. |
| `Values.FunctionValue.Verify` | src/values.rs:192-206 | The action is PrintMessage exactly when printing is asked for, and ReturnStatus otherwise. Panics (VerifierFailed) exactly when the verifier's status code is 1. |
| `Values.PrintFlagOnlyChangesAction` | src/values.rs:193-205 | Whether `verify` panics does not depend on the print flag; only the action passed to LLVM does. |
| `Values.FunctionValue.GetFirstParam` | src/values.rs:208-218 | `None` exactly when the function has no parameters. Otherwise the classification of parameter 0, panics included. |
| `Values.FunctionValue.GetNthParam` | src/values.rs:232-244 | `None` exactly when `nth >= count_params()`. Otherwise the classification of the parameter at `nth`. Uses the corrected bounds test (see Findings). |
| `Values.FunctionValue.NthParamGuardAsWritten` | src/values.rs:235 | The u32 bounds test as written. It agrees with `nth >= count` for every `nth` below u32::MAX. |
| `Values.NthParamGuardMissesU32Max` | src/values.rs:235-237 | At `nth = u32::MAX` the index is always out of range, yet the written guard never returns `true`. With overflow checks it panics; without them it returns `false`, so the call reaches `LLVMGetParam` with an out-of-range index. |
| `Values.FirstParamIsNthParamZero` | src/values.rs:208-244 | `get_first_param()` equals `get_nth_param(0)`. |
| `LlvmIr.Ir.NextParamIsSuccessor` | src/values.rs:344-346 | The next-parameter link from the parameter at position i reaches the one at i+1, and reaches null from the last parameter. |
| `Values.ParamValueIter.constructor` | src/values.rs:271-276 | `params()` starts in the start phase, with the cursor on the function handle and nothing yielded. |
| `Values.ParamValueIter.Next` | src/values.rs:327-355 | While parameters remain, yields the classification of the next one in declaration order. Leaves the start phase and advances the cursor to that parameter. Once all `count_params()` have been yielded, returns `None` with the state unchanged. This holds in the empty-start case and in the advancing case. |
| `Values.FirstParamMatchesParamsNext` | src/values.rs:328-342 | The first item of a fresh `params()` is what `get_first_param()` returns. |
| `Values.CollectParams` | src/values.rs:324-356 | Draining a fresh `params()` gives the parameters' classifications in declaration order. Exactly `count_params()` items come unless a classification panics, and then the panic is the last item and every item before it succeeded. |
| `Values.Lift` | src/values.rs:217 | `Some(BasicValueEnum::new(p))`: a panic inside propagates; a success is wrapped in `Some`. |
| `LlvmIr.WrappingAdd` | src/values.rs:235 | u32 addition without overflow checks: the exact sum below 2^32, the sum minus 2^32 otherwise. |

## Left out

- Name handling (`set_name`, `get_name`, src/values.rs:32-44 and each wrapper's forwarding methods): FFI string mechanics over LLVM's name storage. The interior-NUL failure of `set_name` is not modelled.
- `set_global_constant`, `is_undef` and the commented-out kind predicates (src/values.rs:26-30, 57-62, 73-144): foreign pass-throughs or dead code.
- The `fmt::Debug` impls (src/values.rs:147-173, 297-317): diagnostic rendering of foreign text.
- `get_type` and `get_return_type` (src/values.rs:65-71, 263-269): they delegate to the type module, which is not part of this model.
- `get_basic_blocks`, `get_first_basic_block` and `get_last_basic_block` (src/values.rs:220-230, 253-261, 278-284): the basic-block module is not part of this model. `get_basic_blocks` transmutes an empty vector, which is undefined behaviour.
- `add_incoming` (src/values.rs:48-55, 494-496): a pass-through foreign mutation with nothing observable in this file.
- `IntoIntValue for u64` (src/values.rs:395-399): it calls `IntType::const_int` in the type module.
- `AsRef<Value> for Value` (src/values.rs:509-513): the identity.
- The capability traits `AnyValue` and `BasicValue` (src/values.rs:542-550, 576-577): marker traits, which Dafny here cannot express. The model does not record which types implement them; `Widen` and its lemma relate only the variant sets of the two enums.
- Printing of verifier diagnostics: I/O. `Verify` records the action passed to LLVM. The model assumes the status code does not depend on that action, as LLVM documents for the two actions the code uses.
- Handles that LLVM would dereference are required to be live: the type-of query in `BasicValueEnum.New`, and the parameter queries, which need a function. A dangling handle is undefined behaviour there, not a panic. In particular, the null check inside the wrappers cannot fire on the classification path, because LLVMTypeOf runs first.
- Ownership and borrowing: `into_X` consumes and `as_X` borrows, and the model cannot tell them apart. Aliasing through shared handles is not modelled either, because nothing in the model mutates IR objects.
- Concurrent mutation of a function's parameter list during iteration: the side table is immutable while an iterator exists.
- `AnyValueEnum` has no classifier in the code, only its declaration and `as_ref`. The model follows the code.

## Findings

| source | as written | input that shows it | evidently intended | confidence | as-written member | corrected member |
|---|---|---|---|---|---|---|
| src/values.rs:235 | `if nth + 1 > count`, evaluated on `u32` | `nth = u32::MAX`, for any function. With overflow checks the addition panics. Without them it wraps to 0, the guard passes, and `LLVMGetParam` is called with an out-of-range index. | `None` whenever `nth >= count_params()` | not executed; high | `Values.FunctionValue.NthParamGuardAsWritten`, `Values.NthParamGuardMissesU32Max` | `Values.FunctionValue.GetNthParam` |
