/** The typed value layer: safe wrappers over LLVM value handles, the two sum types over
    them, the classification of a handle by its type kind, the downcasts, the parameter
    queries of a function and the parameter iterator.

    A panic of the Rust code (a failed `assert!`, `panic!` or `unreachable!`) is the
    `Panic` case of `Outcome`, carrying a `Fault` that says which check failed. */
module Values {
  import opened LlvmIr

  datatype Option<+T> = None | Some(value: T)

  /** Why the Rust code panics. */
  datatype Fault =
    | NullHandle                                     // a constructor was given the null handle
    | NotAFunction                                   // FunctionValue::new on a non-function
    | UnsupportedVector                              // classification of a vector-typed value
    | UnsupportedType                                // classification of any other unhandled kind
    | WrongVariant(called: string, actual: BasicValueEnum)  // a downcast to the wrong variant
    | VerifierFailed                                 // verify found the function invalid
    | ArithmeticOverflow                             // a checked u32 addition overflowed

  /** Either the value an operation returns or the panic it raises. */
  datatype Outcome<+T> = Ok(value: T) | Panic(fault: Fault) {
    predicate IsFailure() {
      Panic?
    }

    function PropagateFailure<U>(): Outcome<U>
      requires Panic?
    {
      Panic(fault)
    }

    function Extract(): T
      requires Ok?
    {
      value
    }
  }

  /** `Some(f(...))` in Rust, where `f` may panic: the panic wins. */
  function Lift<T>(o: Outcome<T>): (r: Outcome<Option<T>>)
    ensures r.Ok? <==> o.Ok?
    ensures r.Ok? ==> r.value == Some(o.value)
    ensures r.Panic? ==> r.fault == o.fault
  {
    match o
    case Ok(v) => Ok(Some(v))
    case Panic(e) => Panic(e)
  }

  // ---------------------------------------------------------------------------------
  // Value core and typed wrappers
  // ---------------------------------------------------------------------------------

  /** The value core: one handle, never null once constructed. */
  datatype Value = Value(value: NonNullHandle) {
    /** `Value::new`: wraps the handle, panicking when it is null. */
    static function New(h: Handle): (r: Outcome<Value>)
      ensures r.Ok? <==> h != Null
      ensures r.Ok? ==> r.value.value == h
      ensures r.Panic? ==> r.fault == NullHandle
    {
      if h == Null then Panic(NullHandle) else Ok(Value(h))
    }
  }

  datatype IntValue = IntValue(intValue: Value) {
    /** `IntValue::new`: no kind check, only the null check of the core. */
    static function New(h: Handle): (r: Outcome<IntValue>)
      ensures r.Ok? <==> h != Null
      ensures r.Ok? ==> r.value.intValue.value == h
      ensures r.Panic? ==> r.fault == NullHandle
    {
      var v :- Value.New(h);
      Ok(IntValue.IntValue(v))
    }

    /** `AsRef<Value>`: the core, from whose handle `new` rebuilds this very wrapper. */
    function AsValue(): (v: Value)
      ensures IntValue.New(v.value) == Ok(this)
    {
      intValue
    }

    /** `IntoIntValue for IntValue`: re-wrapping the handle gives back the same wrapper. */
    function IntoIntValue(): (r: IntValue)
      ensures r == this
    {
      IntValue.New(intValue.value).Extract()
    }
  }

  datatype FloatValue = FloatValue(floatValue: Value) {
    /** `FloatValue::new`: no kind check, only the null check of the core. */
    static function New(h: Handle): (r: Outcome<FloatValue>)
      ensures r.Ok? <==> h != Null
      ensures r.Ok? ==> r.value.floatValue.value == h
      ensures r.Panic? ==> r.fault == NullHandle
    {
      var v :- Value.New(h);
      Ok(FloatValue.FloatValue(v))
    }

    /** `AsRef<Value>`: the core, from whose handle `new` rebuilds this very wrapper. */
    function AsValue(): (v: Value)
      ensures FloatValue.New(v.value) == Ok(this)
    {
      floatValue
    }
  }

  datatype StructValue = StructValue(structValue: Value) {
    /** `StructValue::new`: no kind check, only the null check of the core. */
    static function New(h: Handle): (r: Outcome<StructValue>)
      ensures r.Ok? <==> h != Null
      ensures r.Ok? ==> r.value.structValue.value == h
      ensures r.Panic? ==> r.fault == NullHandle
    {
      var v :- Value.New(h);
      Ok(StructValue.StructValue(v))
    }

    /** `AsRef<Value>`: the core, from whose handle `new` rebuilds this very wrapper. */
    function AsValue(): (v: Value)
      ensures StructValue.New(v.value) == Ok(this)
    {
      structValue
    }
  }

  datatype PointerValue = PointerValue(ptrValue: Value) {
    /** `PointerValue::new`: no kind check, only the null check of the core. */
    static function New(h: Handle): (r: Outcome<PointerValue>)
      ensures r.Ok? <==> h != Null
      ensures r.Ok? ==> r.value.ptrValue.value == h
      ensures r.Panic? ==> r.fault == NullHandle
    {
      var v :- Value.New(h);
      Ok(PointerValue.PointerValue(v))
    }

    /** `AsRef<Value>`: the core, from whose handle `new` rebuilds this very wrapper. */
    function AsValue(): (v: Value)
      ensures PointerValue.New(v.value) == Ok(this)
    {
      ptrValue
    }
  }

  /** A control-flow merge ("phi") value. */
  datatype PhiValue = PhiValue(phiValue: Value) {
    /** `PhiValue::new`: no kind check, only the null check of the core. */
    static function New(h: Handle): (r: Outcome<PhiValue>)
      ensures r.Ok? <==> h != Null
      ensures r.Ok? ==> r.value.phiValue.value == h
      ensures r.Panic? ==> r.fault == NullHandle
    {
      var v :- Value.New(h);
      Ok(PhiValue.PhiValue(v))
    }

    /** `AsRef<Value>`: the core, from whose handle `new` rebuilds this very wrapper. */
    function AsValue(): (v: Value)
      ensures PhiValue.New(v.value) == Ok(this)
    {
      phiValue
    }
  }

  datatype ArrayValue = ArrayValue(arrayValue: Value) {
    /** `ArrayValue::new`: no kind check, only the null check of the core. */
    static function New(h: Handle): (r: Outcome<ArrayValue>)
      ensures r.Ok? <==> h != Null
      ensures r.Ok? ==> r.value.arrayValue.value == h
      ensures r.Panic? ==> r.fault == NullHandle
    {
      var v :- Value.New(h);
      Ok(ArrayValue.ArrayValue(v))
    }

    /** `AsRef<Value>`: the core, from whose handle `new` rebuilds this very wrapper. */
    function AsValue(): (v: Value)
      ensures ArrayValue.New(v.value) == Ok(this)
    {
      arrayValue
    }
  }

  // ---------------------------------------------------------------------------------
  // The two sum types
  // ---------------------------------------------------------------------------------

  /** Every wrapper, in the order of the declaration. */
  datatype AnyValueEnum =
    | ArrayValue(wrappedArray: ArrayValue)
    | IntValue(wrappedInt: IntValue)
    | FloatValue(wrappedFloat: FloatValue)
    | PhiValue(wrappedPhi: PhiValue)
    | FunctionValue(wrappedFunction: FunctionValue)
    | PointerValue(wrappedPointer: PointerValue)
    | StructValue(wrappedStruct: StructValue)
  {
    /** `AsRef<Value>`: the core of the active variant, the one handle from which that
        variant's wrapper is rebuilt. */
    function AsValue(): (v: Value)
      ensures ArrayValue? ==> ArrayValue.New(v.value) == Ok(wrappedArray)
      ensures IntValue? ==> IntValue.New(v.value) == Ok(wrappedInt)
      ensures FloatValue? ==> FloatValue.New(v.value) == Ok(wrappedFloat)
      ensures PhiValue? ==> PhiValue.New(v.value) == Ok(wrappedPhi)
      ensures FunctionValue? ==> forall ir: Ir {:trigger FunctionValue.New(ir, v.value)} ::
        ir.IsAFunction(v.value) ==> FunctionValue.New(ir, v.value) == Ok(wrappedFunction)
      ensures PointerValue? ==> PointerValue.New(v.value) == Ok(wrappedPointer)
      ensures StructValue? ==> StructValue.New(v.value) == Ok(wrappedStruct)
    {
      match this
      case ArrayValue(a) => a.AsValue()
      case IntValue(i) => i.AsValue()
      case FloatValue(f) => f.AsValue()
      case PhiValue(p) => p.AsValue()
      case FunctionValue(f) => f.AsValue()
      case PointerValue(p) => p.AsValue()
      case StructValue(s) => s.AsValue()
    }
  }

  /** The float family of type kinds. */
  const FloatKinds: set<TypeKind> :=
    {HalfTypeKind, FloatTypeKind, DoubleTypeKind, X86_FP80TypeKind, FP128TypeKind, PPC_FP128TypeKind}

  /** The type kinds a first-class value may have without the classification panicking. */
  const SupportedKinds: set<TypeKind> :=
    FloatKinds + {IntegerTypeKind, StructTypeKind, PointerTypeKind, ArrayTypeKind}

  /** The first-class ("basic") wrappers: no phi and no function variant. */
  datatype BasicValueEnum =
    | ArrayValue(wrappedArray: ArrayValue)
    | IntValue(wrappedInt: IntValue)
    | FloatValue(wrappedFloat: FloatValue)
    | PointerValue(wrappedPointer: PointerValue)
    | StructValue(wrappedStruct: StructValue)
  {
    /** `AsRef<Value>`: the core of the active variant, which is the core of whatever
        the one successful downcast returns. */
    function AsValue(): (v: Value)
      ensures IntoArrayValue().Ok? ==> v == IntoArrayValue().value.arrayValue
      ensures IntoIntValue().Ok? ==> v == IntoIntValue().value.intValue
      ensures IntoFloatValue().Ok? ==> v == IntoFloatValue().value.floatValue
      ensures IntoPointerValue().Ok? ==> v == IntoPointerValue().value.ptrValue
      ensures IntoStructValue().Ok? ==> v == IntoStructValue().value.structValue
    {
      match this
      case ArrayValue(a) => a.AsValue()
      case IntValue(i) => i.AsValue()
      case FloatValue(f) => f.AsValue()
      case PointerValue(p) => p.AsValue()
      case StructValue(s) => s.AsValue()
    }

    /** The active variant is the one the classification assigns to type kind `k`. */
    predicate IsVariantFor(k: TypeKind) {
      match this
      case ArrayValue(_) => k == ArrayTypeKind
      case IntValue(_) => k == IntegerTypeKind
      case FloatValue(_) => k in FloatKinds
      case PointerValue(_) => k == PointerTypeKind
      case StructValue(_) => k == StructTypeKind
    }

    /** The match of `BasicValueEnum::new` on the type kind `k` of handle `h`. */
    static function FromKind(h: Handle, k: TypeKind): (r: Outcome<BasicValueEnum>)
      ensures r.Ok? <==> k in SupportedKinds && h != Null
      ensures r.Ok? ==> r.value.IsVariantFor(k) && r.value.AsValue().value == h
      ensures k == VectorTypeKind ==> r == Panic(UnsupportedVector)
      ensures k !in SupportedKinds && k != VectorTypeKind ==> r == Panic(UnsupportedType)
      ensures k in SupportedKinds && h == Null ==> r == Panic(NullHandle)
    {
      match k
      case FloatTypeKind | FP128TypeKind | DoubleTypeKind | HalfTypeKind
        | X86_FP80TypeKind | PPC_FP128TypeKind =>
        var f :- FloatValue.New(h);
        Ok(BasicValueEnum.FloatValue(f))
      case IntegerTypeKind =>
        var i :- IntValue.New(h);
        Ok(BasicValueEnum.IntValue(i))
      case StructTypeKind =>
        var s :- StructValue.New(h);
        Ok(BasicValueEnum.StructValue(s))
      case PointerTypeKind =>
        var p :- PointerValue.New(h);
        Ok(BasicValueEnum.PointerValue(p))
      case ArrayTypeKind =>
        var a :- ArrayValue.New(h);
        Ok(BasicValueEnum.ArrayValue(a))
      case VectorTypeKind => Panic(UnsupportedVector)
      case _ => Panic(UnsupportedType)
    }

    /** `BasicValueEnum::new`: classify a live handle by the kind of its type. */
    static function New(ir: Ir, h: Handle): (r: Outcome<BasicValueEnum>)
      requires ir.Valid() && ir.Live(h)
      ensures r.Ok? <==> ir.TypeKindOf(h) in SupportedKinds
      ensures r.Ok? ==> r.value.IsVariantFor(ir.TypeKindOf(h)) && r.value.AsValue().value == h
      ensures r.Panic? ==> r.fault == (if ir.TypeKindOf(h) == VectorTypeKind then UnsupportedVector else UnsupportedType)
    {
      FromKind(h, ir.TypeKindOf(h))
    }

    /** `into_int_value`. */
    function IntoIntValue(): (r: Outcome<IntValue>)
      ensures r.Ok? <==> IntValue?
      ensures r.Ok? ==> this == BasicValueEnum.IntValue(r.value)
      ensures r.Panic? ==> r.fault == WrongVariant("into_int_value", this)
    {
      if IntValue? then Ok(wrappedInt) else Panic(WrongVariant("into_int_value", this))
    }

    /** `into_float_value`. */
    function IntoFloatValue(): (r: Outcome<FloatValue>)
      ensures r.Ok? <==> FloatValue?
      ensures r.Ok? ==> this == BasicValueEnum.FloatValue(r.value)
      ensures r.Panic? ==> r.fault == WrongVariant("into_float_value", this)
    {
      if FloatValue? then Ok(wrappedFloat) else Panic(WrongVariant("into_float_value", this))
    }

    /** `into_pointer_value`. */
    function IntoPointerValue(): (r: Outcome<PointerValue>)
      ensures r.Ok? <==> PointerValue?
      ensures r.Ok? ==> this == BasicValueEnum.PointerValue(r.value)
      ensures r.Panic? ==> r.fault == WrongVariant("into_pointer_value", this)
    {
      if PointerValue? then Ok(wrappedPointer) else Panic(WrongVariant("into_pointer_value", this))
    }

    /** `into_struct_value`. */
    function IntoStructValue(): (r: Outcome<StructValue>)
      ensures r.Ok? <==> StructValue?
      ensures r.Ok? ==> this == BasicValueEnum.StructValue(r.value)
      ensures r.Panic? ==> r.fault == WrongVariant("into_struct_value", this)
    {
      if StructValue? then Ok(wrappedStruct) else Panic(WrongVariant("into_struct_value", this))
    }

    /** `into_array_value`. */
    function IntoArrayValue(): (r: Outcome<ArrayValue>)
      ensures r.Ok? <==> ArrayValue?
      ensures r.Ok? ==> this == BasicValueEnum.ArrayValue(r.value)
      ensures r.Panic? ==> r.fault == WrongVariant("into_array_value", this)
    {
      if ArrayValue? then Ok(wrappedArray) else Panic(WrongVariant("into_array_value", this))
    }

    /** `as_int_value`: the borrowing form of `into_int_value`. */
    function AsIntValue(): (r: Outcome<IntValue>)
      ensures r.Ok? <==> IntValue?
      ensures r.Ok? ==> this == BasicValueEnum.IntValue(r.value)
      ensures r.Panic? ==> r.fault == WrongVariant("as_int_value", this)
    {
      if IntValue? then Ok(wrappedInt) else Panic(WrongVariant("as_int_value", this))
    }

    /** `as_float_value`: the borrowing form of `into_float_value`. */
    function AsFloatValue(): (r: Outcome<FloatValue>)
      ensures r.Ok? <==> FloatValue?
      ensures r.Ok? ==> this == BasicValueEnum.FloatValue(r.value)
      ensures r.Panic? ==> r.fault == WrongVariant("as_float_value", this)
    {
      if FloatValue? then Ok(wrappedFloat) else Panic(WrongVariant("as_float_value", this))
    }

    /** `as_pointer_value`: the borrowing form of `into_pointer_value`. */
    function AsPointerValue(): (r: Outcome<PointerValue>)
      ensures r.Ok? <==> PointerValue?
      ensures r.Ok? ==> this == BasicValueEnum.PointerValue(r.value)
      ensures r.Panic? ==> r.fault == WrongVariant("as_pointer_value", this)
    {
      if PointerValue? then Ok(wrappedPointer) else Panic(WrongVariant("as_pointer_value", this))
    }

    /** `as_struct_value`: the borrowing form of `into_struct_value`. */
    function AsStructValue(): (r: Outcome<StructValue>)
      ensures r.Ok? <==> StructValue?
      ensures r.Ok? ==> this == BasicValueEnum.StructValue(r.value)
      ensures r.Panic? ==> r.fault == WrongVariant("as_struct_value", this)
    {
      if StructValue? then Ok(wrappedStruct) else Panic(WrongVariant("as_struct_value", this))
    }

    /** `as_array_value`: the borrowing form of `into_array_value`. */
    function AsArrayValue(): (r: Outcome<ArrayValue>)
      ensures r.Ok? <==> ArrayValue?
      ensures r.Ok? ==> this == BasicValueEnum.ArrayValue(r.value)
      ensures r.Panic? ==> r.fault == WrongVariant("as_array_value", this)
    {
      if ArrayValue? then Ok(wrappedArray) else Panic(WrongVariant("as_array_value", this))
    }
  }

  /** Every basic variant is also a variant of the wider sum type: the same-named one,
      holding the same wrapper, so over the same core and never as a phi or a function
      value. */
  function Widen(b: BasicValueEnum): (a: AnyValueEnum)
    ensures a.AsValue() == b.AsValue()
    ensures !a.PhiValue? && !a.FunctionValue?
    ensures (b.ArrayValue? <==> a.ArrayValue?) && (a.ArrayValue? ==> a.wrappedArray == b.wrappedArray)
    ensures (b.IntValue? <==> a.IntValue?) && (a.IntValue? ==> a.wrappedInt == b.wrappedInt)
    ensures (b.FloatValue? <==> a.FloatValue?) && (a.FloatValue? ==> a.wrappedFloat == b.wrappedFloat)
    ensures (b.PointerValue? <==> a.PointerValue?) && (a.PointerValue? ==> a.wrappedPointer == b.wrappedPointer)
    ensures (b.StructValue? <==> a.StructValue?) && (a.StructValue? ==> a.wrappedStruct == b.wrappedStruct)
  {
    match b
    case ArrayValue(x) => AnyValueEnum.ArrayValue(x)
    case IntValue(x) => AnyValueEnum.IntValue(x)
    case FloatValue(x) => AnyValueEnum.FloatValue(x)
    case PointerValue(x) => AnyValueEnum.PointerValue(x)
    case StructValue(x) => AnyValueEnum.StructValue(x)
  }

  /** The basic set is exactly the wider set without the phi and function variants. */
  lemma WidenReachesAllButPhiAndFunction(a: AnyValueEnum)
    requires !a.PhiValue? && !a.FunctionValue?
    ensures exists b :: Widen(b) == a
  {
    match a
    case ArrayValue(x) => assert Widen(BasicValueEnum.ArrayValue(x)) == a;
    case IntValue(x) => assert Widen(BasicValueEnum.IntValue(x)) == a;
    case FloatValue(x) => assert Widen(BasicValueEnum.FloatValue(x)) == a;
    case PointerValue(x) => assert Widen(BasicValueEnum.PointerValue(x)) == a;
    case StructValue(x) => assert Widen(BasicValueEnum.StructValue(x)) == a;
  }

  // ---------------------------------------------------------------------------------
  // Properties of classification and downcasting
  // ---------------------------------------------------------------------------------

  /** The six float-family kinds classify as a float value over the same handle; the
      integer, struct, pointer and array kinds as their own wrappers. */
  lemma ClassificationOfSupportedKinds(h: NonNullHandle, k: TypeKind)
    requires k in SupportedKinds
    ensures k in FloatKinds ==>
      BasicValueEnum.FromKind(h, k) == Ok(BasicValueEnum.FloatValue(FloatValue.FloatValue(Value(h))))
    ensures k == IntegerTypeKind ==>
      BasicValueEnum.FromKind(h, k) == Ok(BasicValueEnum.IntValue(IntValue.IntValue(Value(h))))
    ensures k == StructTypeKind ==>
      BasicValueEnum.FromKind(h, k) == Ok(BasicValueEnum.StructValue(StructValue.StructValue(Value(h))))
    ensures k == PointerTypeKind ==>
      BasicValueEnum.FromKind(h, k) == Ok(BasicValueEnum.PointerValue(PointerValue.PointerValue(Value(h))))
    ensures k == ArrayTypeKind ==>
      BasicValueEnum.FromKind(h, k) == Ok(BasicValueEnum.ArrayValue(ArrayValue.ArrayValue(Value(h))))
  {
  }

  /** A downcast succeeds exactly on its own variant, and then hands back the core the
      sum type delegates to. */
  lemma DowncastKeepsValue(b: BasicValueEnum)
    ensures b.IntoIntValue().Ok? ==> b.IntoIntValue().value.AsValue() == b.AsValue()
    ensures b.IntoFloatValue().Ok? ==> b.IntoFloatValue().value.AsValue() == b.AsValue()
    ensures b.IntoPointerValue().Ok? ==> b.IntoPointerValue().value.AsValue() == b.AsValue()
    ensures b.IntoStructValue().Ok? ==> b.IntoStructValue().value.AsValue() == b.AsValue()
    ensures b.IntoArrayValue().Ok? ==> b.IntoArrayValue().value.AsValue() == b.AsValue()
    ensures
      (if b.IntoIntValue().Ok? then 1 else 0) + (if b.IntoFloatValue().Ok? then 1 else 0)
      + (if b.IntoPointerValue().Ok? then 1 else 0) + (if b.IntoStructValue().Ok? then 1 else 0)
      + (if b.IntoArrayValue().Ok? then 1 else 0) == 1
  {
  }

  /** Downcasting a freshly classified value to the variant of its own kind succeeds and
      gives the wrapper of the classified handle; every other downcast panics. */
  lemma DowncastOfClassified(ir: Ir, h: Handle)
    requires ir.Valid() && ir.Live(h) && ir.TypeKindOf(h) in SupportedKinds
    ensures BasicValueEnum.New(ir, h).Ok?
    ensures var b := BasicValueEnum.New(ir, h).value; var k := ir.TypeKindOf(h);
      && (b.IntoIntValue().Ok? <==> k == IntegerTypeKind)
      && (b.IntoFloatValue().Ok? <==> k in FloatKinds)
      && (b.IntoPointerValue().Ok? <==> k == PointerTypeKind)
      && (b.IntoStructValue().Ok? <==> k == StructTypeKind)
      && (b.IntoArrayValue().Ok? <==> k == ArrayTypeKind)
      && (b.IntoIntValue().Ok? ==> b.IntoIntValue().value.AsValue().value == h)
      && (b.IntoFloatValue().Ok? ==> b.IntoFloatValue().value.AsValue().value == h)
      && (b.IntoPointerValue().Ok? ==> b.IntoPointerValue().value.AsValue().value == h)
      && (b.IntoStructValue().Ok? ==> b.IntoStructValue().value.AsValue().value == h)
      && (b.IntoArrayValue().Ok? ==> b.IntoArrayValue().value.AsValue().value == h)
    ensures var b := BasicValueEnum.New(ir, h).value; var k := ir.TypeKindOf(h);
      && (b.AsIntValue().Ok? <==> k == IntegerTypeKind)
      && (b.AsFloatValue().Ok? <==> k in FloatKinds)
      && (b.AsPointerValue().Ok? <==> k == PointerTypeKind)
      && (b.AsStructValue().Ok? <==> k == StructTypeKind)
      && (b.AsArrayValue().Ok? <==> k == ArrayTypeKind)
      && (b.AsIntValue().Ok? ==> b.AsIntValue().value.AsValue().value == h)
      && (b.AsFloatValue().Ok? ==> b.AsFloatValue().value.AsValue().value == h)
      && (b.AsPointerValue().Ok? ==> b.AsPointerValue().value.AsValue().value == h)
      && (b.AsStructValue().Ok? ==> b.AsStructValue().value.AsValue().value == h)
      && (b.AsArrayValue().Ok? ==> b.AsArrayValue().value.AsValue().value == h)
  {
    DowncastKeepsValue(BasicValueEnum.New(ir, h).value);
  }

  // ---------------------------------------------------------------------------------
  // Function values
  // ---------------------------------------------------------------------------------

  /** What `verify` asks of LLVM, and whether it then panics. */
  datatype VerifyCall = VerifyCall(action: VerifierFailureAction, outcome: Outcome<()>)

  datatype FunctionValue = FunctionValue(fnValue: Value) {
    /** `FunctionValue::new`: the null check, then the is-a-function check. */
    static function New(ir: Ir, h: Handle): (r: Outcome<FunctionValue>)
      ensures r.Ok? <==> h != Null && ir.IsAFunction(h)
      ensures r.Ok? ==> r.value.fnValue.value == h
      ensures r.Panic? ==> r.fault == (if h == Null then NullHandle else NotAFunction)
    {
      if h == Null then Panic(NullHandle)
      else if !ir.IsAFunction(h) then Panic(NotAFunction)
      else Ok(FunctionValue.FunctionValue(Value.New(h).value))
    }

    /** `AsRef<Value>`: the core, from whose handle `new` rebuilds this very wrapper in
        any compilation unit where that handle is a function. */
    function AsValue(): (v: Value)
      ensures forall ir: Ir {:trigger FunctionValue.New(ir, v.value)} ::
        ir.IsAFunction(v.value) ==> FunctionValue.New(ir, v.value) == Ok(this)
    {
      fnValue
    }

    /** The wrapped handle is a function of the compilation unit `ir`. */
    ghost predicate WellFormedIn(ir: Ir) {
      ir.Valid() && ir.IsAFunction(fnValue.value)
    }

    /** The classification of each parameter, in declaration order: what `params()`
        yields and what `get_nth_param` returns at each index. */
    function ParamValues(ir: Ir): (vs: seq<Outcome<BasicValueEnum>>)
      requires WellFormedIn(ir)
      ensures |vs| == |ir.params[fnValue.value]|
    {
      var ps := ir.params[fnValue.value];
      seq(|ps|, i requires 0 <= i < |ps| => BasicValueEnum.New(ir, ps[i]))
    }

    /** `count_params`. */
    function CountParams(ir: Ir): (n: u32)
      requires WellFormedIn(ir)
      ensures n as int == |ParamValues(ir)|
    {
      ir.CountParams(fnValue.value)
    }

    /** `verify`: the print flag picks the action; the panic depends on the status only. */
    function Verify(ir: Ir, printDiagnostics: bool): (r: VerifyCall)
      requires WellFormedIn(ir)
      ensures r.action == PrintMessageAction || r.action == ReturnStatusAction
      ensures r.action == PrintMessageAction <==> printDiagnostics
      ensures r.outcome.Panic? <==> ir.verifierStatus[fnValue.value] == 1
      ensures r.outcome.Panic? ==> r.outcome.fault == VerifierFailed
    {
      var action := if printDiagnostics then PrintMessageAction else ReturnStatusAction;
      var code := ir.VerifyFunction(fnValue.value, action);
      if code == 1 then VerifyCall(action, Panic(VerifierFailed)) else VerifyCall(action, Ok(()))
    }

    /** `get_first_param`: absent exactly when there are no parameters. */
    function GetFirstParam(ir: Ir): (r: Outcome<Option<BasicValueEnum>>)
      requires WellFormedIn(ir)
      ensures r == Ok(None) <==> CountParams(ir) == 0
      ensures CountParams(ir) > 0 ==> r == Lift(ParamValues(ir)[0])
    {
      var param := ir.FirstParam(fnValue.value);
      if param == Null then Ok(None) else Lift(BasicValueEnum.New(ir, param))
    }

    /** `get_nth_param`, with its bounds test `nth + 1 > count` evaluated on unbounded
        integers, as intended (see NthParamGuardAsWritten for the u32 version). */
    function GetNthParam(ir: Ir, nth: u32): (r: Outcome<Option<BasicValueEnum>>)
      requires WellFormedIn(ir)
      ensures r == Ok(None) <==> nth >= CountParams(ir)
      ensures nth < CountParams(ir) ==> r == Lift(ParamValues(ir)[nth])
    {
      var count := CountParams(ir);
      if nth as int + 1 > count as int then Ok(None)
      else Lift(BasicValueEnum.New(ir, ir.GetParam(fnValue.value, nth)))
    }

    /** The bounds test of `get_nth_param` as written: `nth + 1 > count` on u32. With
        overflow checks the addition panics at u32::MAX; without them it wraps to 0. */
    static function NthParamGuardAsWritten(nth: u32, count: u32, overflowChecks: bool): (r: Outcome<bool>)
      ensures nth as int < U32Max ==> r == Ok(nth >= count)
    {
      if overflowChecks && nth as int == U32Max then Panic(ArithmeticOverflow)
      else Ok(WrappingAdd(nth, 1) > count)
    }
  }

  /** At nth = u32::MAX every count is exceeded, yet the guard as written never reports
      it: it panics with overflow checks and lets the call through to LLVMGetParam (with
      an out-of-range index) without them. */
  lemma NthParamGuardMissesU32Max(count: u32, overflowChecks: bool)
    ensures (U32Max as u32) >= count
    ensures FunctionValue.NthParamGuardAsWritten(U32Max as u32, count, overflowChecks) != Ok(true)
    ensures overflowChecks ==>
      FunctionValue.NthParamGuardAsWritten(U32Max as u32, count, overflowChecks) == Panic(ArithmeticOverflow)
    ensures !overflowChecks ==>
      FunctionValue.NthParamGuardAsWritten(U32Max as u32, count, overflowChecks) == Ok(false)
  {
  }

  /** The first parameter is the parameter at index 0. */
  lemma FirstParamIsNthParamZero(ir: Ir, f: FunctionValue)
    requires f.WellFormedIn(ir)
    ensures f.GetFirstParam(ir) == f.GetNthParam(ir, 0)
  {
  }

  /** Verification panics or not regardless of the print flag; the flag only changes the
      action handed to LLVM. */
  lemma PrintFlagOnlyChangesAction(ir: Ir, f: FunctionValue)
    requires f.WellFormedIn(ir)
    ensures f.Verify(ir, true).outcome == f.Verify(ir, false).outcome
    ensures f.Verify(ir, true).action == PrintMessageAction
    ensures f.Verify(ir, false).action == ReturnStatusAction
  {
  }

  // ---------------------------------------------------------------------------------
  // The parameter iterator
  // ---------------------------------------------------------------------------------

  /** `ParamValueIter`: before the first call to `Next` the cursor holds the function
      handle (`start`); afterwards it holds the parameter last yielded. `index` counts
      the parameters yielded so far. */
  class ParamValueIter {
    const ir: Ir
    ghost const owner: FunctionValue
    var paramIterValue: Handle
    var start: bool
    ghost var index: nat

    ghost predicate Valid()
      reads this
    {
      && owner.WellFormedIn(ir)
      && var ps := ir.params[owner.fnValue.value];
      && (start ==> paramIterValue == owner.fnValue.value && index == 0)
      && (!start ==> 0 < index <= |ps| && paramIterValue == ps[index - 1])
    }

    /** Every parameter has been yielded: `Next` returns `None` from now on. */
    ghost predicate Exhausted()
      reads this
      requires Valid()
    {
      index == owner.CountParams(ir) as int
    }

    /** `FunctionValue::params`. */
    constructor (ir: Ir, f: FunctionValue)
      requires f.WellFormedIn(ir)
      ensures Valid() && this.ir == ir && owner == f
      ensures start && paramIterValue == f.fnValue.value && index == 0
    {
      this.ir := ir;
      owner := f;
      paramIterValue := f.fnValue.value;
      start := true;
      index := 0;
    }

    /** `Iterator::next`: the next parameter's classification, or `None` for good once
        all have been yielded. */
    method Next() returns (r: Outcome<Option<BasicValueEnum>>)
      requires Valid()
      modifies this
      ensures Valid()
      ensures !old(Exhausted()) ==>
        && r == Lift(owner.ParamValues(ir)[old(index)])
        && index == old(index) + 1 && !start
      ensures r == Ok(None) <==> old(Exhausted())
      ensures old(Exhausted()) ==>
        && Exhausted()
        && index == old(index) && start == old(start) && paramIterValue == old(paramIterValue)
    {
      if start {
        var firstValue := ir.FirstParam(paramIterValue);
        if firstValue == Null {
          return Ok(None);
        }
        start := false;
        paramIterValue := firstValue;
        index := 1;
        return Lift(BasicValueEnum.New(ir, firstValue));
      }
      ir.NextParamIsSuccessor(owner.fnValue.value, index - 1);
      var nextValue := ir.NextParam(paramIterValue);
      if nextValue == Null {
        return Ok(None);
      }
      paramIterValue := nextValue;
      index := index + 1;
      r := Lift(BasicValueEnum.New(ir, nextValue));
    }
  }

  /** A fresh `params()` yields as its first item exactly what `get_first_param`
      returns. */
  method FirstParamMatchesParamsNext(ir: Ir, f: FunctionValue)
    returns (direct: Outcome<Option<BasicValueEnum>>, viaIter: Outcome<Option<BasicValueEnum>>)
    requires f.WellFormedIn(ir)
    ensures direct == f.GetFirstParam(ir)
    ensures viaIter == direct
  {
    direct := f.GetFirstParam(ir);
    var it := new ParamValueIter(ir, f);
    viaIter := it.Next();
  }

  /** Runs a fresh `params()` to its end, as a `for` loop over it does, stopping at the
      first panic: the items come in declaration order, and there are `count_params()`
      of them unless a parameter's classification panics. */
  method CollectParams(ir: Ir, f: FunctionValue) returns (ys: seq<Outcome<BasicValueEnum>>)
    requires f.WellFormedIn(ir)
    ensures |ys| <= f.CountParams(ir) as int
    ensures ys == f.ParamValues(ir)[..|ys|]
    ensures (forall i :: 0 <= i < |ys| ==> ys[i].Ok?) ==> |ys| == f.CountParams(ir) as int
    ensures |ys| < f.CountParams(ir) as int ==> |ys| > 0 && ys[|ys| - 1].Panic?
    ensures forall i :: 0 <= i < |ys| - 1 ==> ys[i].Ok?
  {
    var it := new ParamValueIter(ir, f);
    ys := [];
    while true
      invariant it.Valid() && it.ir == ir && it.owner == f
      invariant it.index == |ys| <= f.CountParams(ir) as int
      invariant ys == f.ParamValues(ir)[..|ys|]
      invariant forall i :: 0 <= i < |ys| ==> ys[i].Ok?
      decreases f.CountParams(ir) as int - it.index
    {
      var r := it.Next();
      match r
      case Ok(None) =>
        return;
      case Ok(Some(v)) =>
        ys := ys + [Ok(v)];
      case Panic(e) =>
        ys := ys + [Panic(e)];
        return;
    }
  }
}
