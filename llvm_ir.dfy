/** The foreign LLVM layer that the value wrappers sit on, as an abstract side table.

    An LLVM value reference is an opaque pointer; here it is a natural number, with 0
    standing for the null pointer. The compilation unit that owns the IR is a value of
    type `Ir`: it records the type kind of every live handle, the parameter list of every
    function, the function each parameter belongs to, and the status the structural
    verifier would report for each function. The C entry points that values.rs calls
    (LLVMGetTypeKind of LLVMTypeOf, LLVMIsAFunction, LLVMCountParams, LLVMGetFirstParam,
    LLVMGetNextParam, LLVMGetParam, LLVMVerifyFunction) are the functions on `Ir` below. */
module LlvmIr {

  /** An LLVMValueRef. */
  type Handle = nat

  /** The null LLVMValueRef. */
  const Null: Handle := 0

  type NonNullHandle = h: Handle | h != Null witness 1

  const U32Limit: int := 0x1_0000_0000
  const U32Max: int := U32Limit - 1

  /** Rust's `u32`: LLVMCountParams returns one and LLVMGetParam takes one. */
  newtype u32 = x: int | 0 <= x < 0x1_0000_0000

  /** `u32::wrapping_add`: what `a + b` evaluates to in a build without overflow checks. */
  function WrappingAdd(a: u32, b: u32): (r: u32)
    ensures a as int + b as int < U32Limit ==> r as int == a as int + b as int
    ensures a as int + b as int >= U32Limit ==> r as int == a as int + b as int - U32Limit
  {
    ((a as int + b as int) % U32Limit) as u32
  }

  /** LLVMTypeKind, in the order the C header declares it. */
  datatype TypeKind =
    | VoidTypeKind
    | HalfTypeKind
    | FloatTypeKind
    | DoubleTypeKind
    | X86_FP80TypeKind
    | FP128TypeKind
    | PPC_FP128TypeKind
    | LabelTypeKind
    | IntegerTypeKind
    | FunctionTypeKind
    | StructTypeKind
    | ArrayTypeKind
    | PointerTypeKind
    | VectorTypeKind
    | MetadataTypeKind
    | X86_MMXTypeKind
    | TokenTypeKind

  /** LLVMVerifierFailureAction. */
  datatype VerifierFailureAction = AbortProcessAction | PrintMessageAction | ReturnStatusAction

  /** No handle occurs twice in `s`. */
  predicate Distinct(s: seq<Handle>) {
    forall i, j :: 0 <= i < j < |s| ==> s[i] != s[j]
  }

  /** The position of `x` in `s`: its first occurrence. */
  function IndexOf(s: seq<Handle>, x: Handle): (i: nat)
    requires x in s
    ensures i < |s| && s[i] == x
    ensures forall j :: 0 <= j < i ==> s[j] != x
  {
    if s[0] == x then 0
    else
      assert x in s[1..];
      IndexOf(s[1..], x) + 1
  }

  /** The IR of one compilation unit, as far as values.rs can observe it.
      - kind: the type kind of each live value (LLVMGetTypeKind(LLVMTypeOf(v)));
      - params: the parameter list of each function, in declaration order;
      - parent: the function each parameter belongs to;
      - verifierStatus: the code LLVMVerifyFunction returns for each function. */
  datatype Ir = Ir(
    kind: map<Handle, TypeKind>,
    params: map<Handle, seq<Handle>>,
    parent: map<Handle, Handle>,
    verifierStatus: map<Handle, int>)
  {
    /** The shape LLVM guarantees: the null pointer is no value, functions and their
        parameters are live values, a function has fewer than 2^32 parameters (its count
        is a `u32`), no parameter is listed twice, and every parameter knows the one function whose
        list holds it. */
    ghost predicate Valid() {
      && Null !in kind
      && (forall f :: f in params ==> f in kind && f in verifierStatus)
      && (forall f :: f in params ==> |params[f]| < U32Limit && Distinct(params[f]))
      && (forall f, i :: f in params && 0 <= i < |params[f]| ==>
            params[f][i] in kind && params[f][i] in parent && parent[params[f][i]] == f)
      && (forall p :: p in parent ==> parent[p] in params && p in params[parent[p]])
    }

    /** The handle refers to a value of this compilation unit. */
    predicate Live(h: Handle) {
      h in kind
    }

    /** LLVMIsAFunction(h) is not null. */
    predicate IsAFunction(h: Handle) {
      h in params
    }

    /** LLVMGetTypeKind(LLVMTypeOf(h)). */
    function TypeKindOf(h: Handle): TypeKind
      requires Live(h)
    {
      kind[h]
    }

    /** LLVMCountParams(f). */
    function CountParams(f: Handle): (n: u32)
      requires Valid() && IsAFunction(f)
      ensures n as int == |params[f]|
    {
      |params[f]| as u32
    }

    /** LLVMGetParam(f, n); an index past the end is undefined behaviour in LLVM. */
    function GetParam(f: Handle, n: u32): (p: Handle)
      requires Valid() && IsAFunction(f) && (n as int) < |params[f]|
      ensures Live(p) && p != Null
    {
      params[f][n]
    }

    /** LLVMGetFirstParam(f): the first parameter, or null when there is none. */
    function FirstParam(f: Handle): (p: Handle)
      requires Valid() && IsAFunction(f)
      ensures p == Null <==> |params[f]| == 0
      ensures p != Null ==> p == params[f][0]
    {
      if |params[f]| == 0 then Null else params[f][0]
    }

    /** LLVMGetNextParam(p): the parameter after `p` in its function's list, or null
        after the last one. */
    function NextParam(p: Handle): Handle
      requires Valid() && p in parent
    {
      var ps := params[parent[p]];
      var i := IndexOf(ps, p);
      if i + 1 < |ps| then ps[i + 1] else Null
    }

    /** LLVMVerifyFunction(f, action): the status does not depend on the action, which
        only decides whether diagnostics are printed. */
    function VerifyFunction(f: Handle, action: VerifierFailureAction): int
      requires Valid() && IsAFunction(f) && action != AbortProcessAction
    {
      verifierStatus[f]
    }

    /** Following the next-parameter link from the parameter at `i` reaches the one at
        `i + 1`, and from the last parameter reaches null. */
    lemma NextParamIsSuccessor(f: Handle, i: nat)
      requires Valid() && IsAFunction(f) && i < |params[f]|
      ensures params[f][i] in parent
      ensures i + 1 < |params[f]| ==> NextParam(params[f][i]) == params[f][i + 1]
      ensures i + 1 == |params[f]| ==> NextParam(params[f][i]) == Null
    {
    }
  }
}
