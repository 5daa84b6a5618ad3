/**
 * The description of a remoted interface method: its id (chosen by the id
 * generation scheme in use), its arguments, and whether it takes a
 * cancellation token. Building one scans the method's parameters and
 * rejects a cancellation token that is not the last parameter. The ids the
 * id utility computes for a method and the argument descriptions it builds
 * for a parameter are data carried by the reflection records.
 */
module MethodDescriptions {
  import opened Wrappers

  datatype ParameterType = CancellationToken | OtherType(fullName: string)

  datatype ParameterInfo = ParameterInfo(name: string, parameterType: ParameterType)

  /** A method as reflection shows it, with the two ids the id utility computes for it: the legacy
      id and the CRC-based one. */
  datatype MethodInfo = MethodInfo(
    name: string,
    declaringTypeFullName: string,
    returnType: string,
    parameters: seq<ParameterInfo>,
    legacyId: int,
    crcId: int)

  datatype MethodArgumentDescription = MethodArgumentDescription(name: string, argumentType: ParameterType)

  datatype MethodDescription = MethodDescription(
    methodInfo: MethodInfo,
    id: int,
    v1Id: int,
    hasCancellationToken: bool,
    arguments: seq<MethodArgumentDescription>,
    useCRCIdGeneration: bool)
  {
    function Name(): string { methodInfo.name }
    function ReturnType(): string { methodInfo.returnType }
  }

  /** The `ArgumentException` raised for a parameter that follows a cancellation token: the
      message's arguments and the parameter name the exception carries. */
  datatype CancellationTokenOutOfOrder = CancellationTokenOutOfOrder(
    remotedInterfaceKindName: string,
    methodName: string,
    declaringTypeFullName: string,
    offendingParameter: string,
    paramName: string)

  predicate IsToken(p: ParameterInfo) { p.parameterType == CancellationToken }

  function ArgumentFor(p: ParameterInfo): MethodArgumentDescription
  {
    MethodArgumentDescription(p.name, p.parameterType)
  }

  /** The argument descriptions of the non-token parameters, in order. */
  function NonTokenArguments(ps: seq<ParameterInfo>): (r: seq<MethodArgumentDescription>)
    ensures |r| <= |ps|
  {
    if ps == [] then []
    else NonTokenArguments(ps[..|ps| - 1])
         + (if IsToken(ps[|ps| - 1]) then [] else [ArgumentFor(ps[|ps| - 1])])
  }

  /** The position of the first cancellation token, if any. */
  function FirstToken(ps: seq<ParameterInfo>): (r: Option<nat>)
    ensures r.Some? ==> r.value < |ps| && IsToken(ps[r.value])
                        && forall j :: 0 <= j < r.value ==> !IsToken(ps[j])
    ensures r.None? ==> forall j :: 0 <= j < |ps| ==> !IsToken(ps[j])
  {
    if ps == [] then None
    else if IsToken(ps[0]) then Some(0)
    else match FirstToken(ps[1..])
      case None => None
      case Some(k) => Some(k + 1)
  }

  /** A cancellation token may only appear as the last parameter. */
  predicate TokenPlacementValid(ps: seq<ParameterInfo>)
  {
    forall i :: 0 <= i < |ps| - 1 ==> !IsToken(ps[i])
  }

  /** Without a token at the end, no parameter is dropped. */
  lemma {:induction false} NoTokenKeepsAll(ps: seq<ParameterInfo>)
    requires forall j :: 0 <= j < |ps| ==> !IsToken(ps[j])
    ensures NonTokenArguments(ps) == seq(|ps|, i requires 0 <= i < |ps| => ArgumentFor(ps[i]))
    decreases |ps|
  {
    if ps != [] {
      NoTokenKeepsAll(ps[..|ps| - 1]);
    }
  }

  /** With well-placed tokens, exactly one argument per parameter except for a trailing token. */
  lemma ArgumentCount(ps: seq<ParameterInfo>)
    requires TokenPlacementValid(ps)
    ensures |NonTokenArguments(ps)| == |ps| - (if ps != [] && IsToken(ps[|ps| - 1]) then 1 else 0)
  {
    if ps != [] {
      NoTokenKeepsAll(ps[..|ps| - 1]);
    }
  }

  /** The private constructor: with CRC id generation the id is the CRC id and the V1 id keeps the
      legacy id for the V1 stack; otherwise the id is the legacy id and the V1 id stays unset. */
  function NewMethodDescription(methodInfo: MethodInfo, arguments: seq<MethodArgumentDescription>,
                                hasCancellationToken: bool, useCRCIdGeneration: bool): (d: MethodDescription)
    ensures useCRCIdGeneration ==> d.id == methodInfo.crcId && d.v1Id == methodInfo.legacyId
    ensures !useCRCIdGeneration ==> d.id == methodInfo.legacyId && d.v1Id == 0
    ensures d.Name() == methodInfo.name && d.ReturnType() == methodInfo.returnType
    ensures d.arguments == arguments && d.hasCancellationToken == hasCancellationToken
  {
    if useCRCIdGeneration then
      MethodDescription(methodInfo, methodInfo.crcId, methodInfo.legacyId, hasCancellationToken, arguments, true)
    else
      MethodDescription(methodInfo, methodInfo.legacyId, 0, hasCancellationToken, arguments, false)
  }

  /** Scans the parameters in order. A parameter after a cancellation token is rejected, naming
      that parameter; a token sets the flag and is not an argument; every other parameter becomes
      an argument. */
  method Create(remotedInterfaceKindName: string, methodInfo: MethodInfo, useCRCIdGeneration: bool)
    returns (r: Result<MethodDescription, CancellationTokenOutOfOrder>)
    ensures var ps := methodInfo.parameters;
            r.Failure? <==> !TokenPlacementValid(ps)
    ensures var ps := methodInfo.parameters;
            r.Failure? ==>
              && FirstToken(ps).Some? && FirstToken(ps).value + 1 < |ps|
              && r.error == CancellationTokenOutOfOrder(remotedInterfaceKindName, methodInfo.name,
                   methodInfo.declaringTypeFullName, ps[FirstToken(ps).value + 1].name,
                   remotedInterfaceKindName + "InterfaceType")
    ensures var ps := methodInfo.parameters;
            r.Success? ==>
              && (r.value.hasCancellationToken <==> ps != [] && IsToken(ps[|ps| - 1]))
              && r.value.arguments == NonTokenArguments(ps)
              && |r.value.arguments| == |ps| - (if r.value.hasCancellationToken then 1 else 0)
              && r.value == NewMethodDescription(methodInfo, r.value.arguments, r.value.hasCancellationToken, useCRCIdGeneration)
  {
    var parameters := methodInfo.parameters;
    var argumentList: seq<MethodArgumentDescription> := [];
    var hasCancellationToken := false;
    var i := 0;
    while i < |parameters|
      invariant 0 <= i <= |parameters|
      invariant TokenPlacementValid(parameters[..i])
      invariant hasCancellationToken <==> i > 0 && IsToken(parameters[i - 1])
      invariant argumentList == NonTokenArguments(parameters[..i])
      invariant FirstToken(parameters).Some? && FirstToken(parameters).value < i ==> FirstToken(parameters).value == i - 1
      invariant FirstToken(parameters).None? || FirstToken(parameters).value >= i - 1
    {
      var param := parameters[i];
      if hasCancellationToken {
        r := Failure(CancellationTokenOutOfOrder(remotedInterfaceKindName, methodInfo.name,
               methodInfo.declaringTypeFullName, param.name, remotedInterfaceKindName + "InterfaceType"));
        return;
      }
      assert parameters[..i + 1][..i] == parameters[..i];
      if param.parameterType == CancellationToken {
        hasCancellationToken := true;
      } else {
        argumentList := argumentList + [ArgumentFor(param)];
      }
      i := i + 1;
    }
    assert parameters[..i] == parameters;
    ArgumentCount(parameters);
    r := Success(NewMethodDescription(methodInfo, argumentList, hasCancellationToken, useCRCIdGeneration));
  }
}
