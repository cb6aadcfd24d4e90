/** Model of include/renderer/utils/concepts.hpp: the type-level description
    of a call signature `Ret(Params...)`. C++ types are values of `CppType`;
    template specialisation becomes a match on the type's shape. */
module Concepts {

  datatype CppType =
    | Void
    | Builtin(name: string)                  // int, float, ...
    | Class(name: string)                    // a class or struct type
    | Pointer(pointee: CppType)
    | Reference(referee: CppType)
    | Tuple(elements: seq<CppType>)          // std::tuple<elements...>
    | Function(ret: CppType, params: seq<CppType>, isNoexcept: bool, cVariadic: bool)

  /** A function type spelled exactly `Ret(Params...)`: neither `noexcept`
      nor ending in a C-style `...`, both of which make a distinct type. */
  predicate IsPlainFunctionType(t: CppType)
  {
    t.Function? && !t.isNoexcept && !t.cVariadic
  }

  /** The members of `FunctionSignatureInfo<T>`. */
  datatype SignatureInfo = SignatureInfo(returnType: CppType, parameterTypes: CppType, isValidSignature: bool)

  /** `FunctionSignatureInfo<T>`: the partial specialisation for
      `Ret(Params...)` when it matches, otherwise the primary template, whose
      return and parameter types are both `void`. */
  function FunctionSignatureInfo(t: CppType): (info: SignatureInfo)
    ensures info.isValidSignature <==> IsPlainFunctionType(t)
    ensures IsPlainFunctionType(t) ==> info.returnType == t.ret && info.parameterTypes == Tuple(t.params)
    ensures !IsPlainFunctionType(t) ==> info.returnType == Void && info.parameterTypes == Void
  {
    match t
    case Function(ret, params, false, false) => SignatureInfo(ret, Tuple(params), true)
    case _ => SignatureInfo(Void, Void, false)
  }

  /** The concept `signature<T>`. */
  function Signature(t: CppType): (r: bool)
    ensures r <==> IsPlainFunctionType(t)
  {
    FunctionSignatureInfo(t).isValidSignature
  }

  /** The concept `non_returning_function<T>`: the return type is `void` AND
      the signature is valid, so a non-function type, whose defaulted return
      type is also `void`, is rejected. */
  function NonReturningFunction(t: CppType): (r: bool)
    ensures r <==> IsPlainFunctionType(t) && t.ret == Void
    ensures !Signature(t) ==> !r && FunctionSignatureInfo(t).returnType == Void
  {
    FunctionSignatureInfo(t).returnType == Void && Signature(t)
  }

  /** `RetType<T>`, defined only for a valid signature. */
  function RetType(t: CppType): (r: CppType)
    requires Signature(t)
    ensures r == t.ret
  {
    FunctionSignatureInfo(t).returnType
  }

  /** `ParamTypeTuple<T>`, defined only for a valid signature: the tuple of
      the parameter types in declaration order. */
  function ParamTypeTuple(t: CppType): (r: CppType)
    requires Signature(t)
    ensures r.Tuple? && |r.elements| == |t.params|
    ensures forall i :: 0 <= i < |t.params| ==> r.elements[i] == t.params[i]
  {
    FunctionSignatureInfo(t).parameterTypes
  }

  /** The two extractors rebuild the signature they were given. */
  lemma SignatureRoundTrip(t: CppType)
    requires Signature(t)
    ensures Function(RetType(t), ParamTypeTuple(t).elements, false, false) == t
  {
  }

  /** The draw signature every drawing strategy must match:
      `void(GLFWwindow const &, std::chrono::nanoseconds)`. */
  const DrawSignature: CppType :=
    Function(Void, [Reference(Class("GLFWwindow const")), Class("std::chrono::nanoseconds")], false, false)

  lemma DrawSignatureIsNonReturning()
    ensures NonReturningFunction(DrawSignature)
    ensures ParamTypeTuple(DrawSignature).elements[0] == Reference(Class("GLFWwindow const"))
  {
  }
}
