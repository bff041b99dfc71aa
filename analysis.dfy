/** The analysis half of `DocStubGenerator` (generate_doc_stubs.py): from
    griffe's view of a client package to the information its pages are
    written from. Each raised exception of the source is an `AnalysisError`. */
module Analysis {
  import opened Wrappers
  import opened Seqs
  import opened Text
  import opened Griffe

  const EnumBaseClasses: seq<string> := ["StrEnum", "IntEnum"]
  const ErrorBaseClasses: seq<string> := ["ServiceError", "ModeledError"]

  /** The three kinds of event stream an operation can return. */
  datatype StreamType = InputStream | OutputStream | DuplexStream
  {
    /** The enum member's value: the name of the stream class. */
    function Value(): string
    {
      match this
      case InputStream => "InputEventStream"
      case OutputStream => "OutputEventStream"
      case DuplexStream => "DuplexEventStream"
    }

    /** The phrase an operation page uses for the stream. */
    function Description(): string
    {
      match this
      case InputStream => "an `InputEventStream` for client-to-server streaming"
      case OutputStream => "an `OutputEventStream` for server-to-client streaming"
      case DuplexStream => "a `DuplexEventStream` for bidirectional streaming"
    }

    /** How many leading type arguments the analysis reads by index. */
    function ArgumentsRead(): nat
    {
      if DuplexStream? then 2 else 1
    }
  }

  /** `stream_type_map.get(name)`: the stream type whose value is `name`. */
  function StreamTypeNamed(name: string): (r: Option<StreamType>)
    ensures r.Some? ==> r.value.Value() == name
    ensures r.None? ==> forall s: StreamType :: s.Value() != name
  {
    if name == "InputEventStream" then Some(InputStream)
    else if name == "OutputEventStream" then Some(OutputStream)
    else if name == "DuplexEventStream" then Some(DuplexStream)
    else None
  }

  datatype TypeInfo = TypeInfo(name: string, modulePath: string)

  datatype UnionInfo = UnionInfo(name: string, modulePath: string, members: seq<TypeInfo>)

  datatype OperationInfo = OperationInfo(
    name: string,
    modulePath: string,
    input: TypeInfo,
    output: TypeInfo,
    streamType: Option<StreamType>,
    eventInputType: Option<string>,
    eventOutputType: Option<string>)

  datatype ModelsInfo = ModelsInfo(
    structures: seq<TypeInfo>,
    unions: seq<UnionInfo>,
    enums: seq<TypeInfo>,
    errors: seq<TypeInfo>)

  datatype ClientInfo = ClientInfo(
    name: string,
    modulePath: string,
    packageName: string,
    config: TypeInfo,
    plugin: TypeInfo,
    operations: seq<OperationInfo>,
    models: ModelsInfo)

  /** The exceptions the analysis raises, with what their messages name. */
  datatype AnalysisError =
    | MissingModules(names: seq<string>)          // ValueError: required submodules absent
    | NoClientClass                               // ValueError: no class ending with "Client"
    | MissingConfigOrPlugin                       // ValueError
    | MissingInputParameter(operation: string)    // KeyError from `parameters["input"]`
    | NotAnExpr(context: string)                  // TypeError from `_get_expr`
    | NotASubscript(context: string)              // TypeError from `_get_subscript_elements`
    | StringSlice(context: string)                // TypeError from `_get_subscript_elements`
    | StreamArgumentMissing(context: string)      // IndexError reading a type argument
    | UnknownUnionMember(name: string)            // ValueError from `_extract_union_members`

  function TypeInfoOf(e: Expr): TypeInfo
  {
    TypeInfo(CanonicalName(e), CanonicalPath(e))
  }

  function MemberTypeInfo(m: Member): TypeInfo
  {
    TypeInfo(m.name, m.path)
  }

  predicate IsExprAnnotation(a: Option<Expr>)
  {
    a.Some? && a.value.IsExpr()
  }

  /** `_get_expr`: a missing annotation or an unparsed string is a TypeError. */
  function GetExpr(annotation: Option<Expr>, context: string): Result<Expr, AnalysisError>
  {
    if IsExprAnnotation(annotation) then Success(annotation.value) else Failure(NotAnExpr(context))
  }

  function IsExprValue(e: Expr): bool
  {
    e.IsExpr()
  }

  /** The type arguments of a subscript's slice: a tuple's `Expr` elements in
      order, or the slice alone. */
  function SliceElements(slice: Expr): (r: seq<Expr>)
    ensures slice.Tuple? ==> forall i :: 0 <= i < |r| ==> r[i] in slice.elements && r[i].IsExpr()
    ensures slice.Tuple? ==> forall i :: 0 <= i < |slice.elements| && slice.elements[i].IsExpr() ==> slice.elements[i] in r
    ensures !slice.Tuple? ==> r == [slice]
  {
    if slice.Tuple? then Filter(slice.elements, IsExprValue) else [slice]
  }

  /** `_get_subscript_elements`. */
  function GetSubscriptElements(e: Expr, context: string): (r: Result<seq<Expr>, AnalysisError>)
    ensures r.Success? <==> e.Subscript? && !e.slice.Str?
    ensures r.Success? ==> r.value == SliceElements(e.slice) && forall i :: 0 <= i < |r.value| ==> r.value[i].IsExpr()
    ensures !e.Subscript? ==> r == Failure(NotASubscript(context))
    ensures e.Subscript? && e.slice.Str? ==> r == Failure(StringSlice(context))
  {
    if !e.Subscript? then Failure(NotASubscript(context))
    else if e.slice.Str? then Failure(StringSlice(context))
    else Success(SliceElements(e.slice))
  }

  /** `operation.parameters["input"]`. */
  function InputParameter(ps: seq<Param>): (r: Option<Param>)
    ensures r.Some? ==> r.value in ps && r.value.name == "input"
    ensures r.None? ==> forall i :: 0 <= i < |ps| ==> ps[i].name != "input"
    decreases |ps|
  {
    if ps == [] then None
    else if ps[0].name == "input" then Some(ps[0])
    else InputParameter(ps[1..])
  }

  function InputContext(op: Function): string { "'" + op.name + "' input annotation" }
  function ReturnContext(op: Function): string { "'" + op.name + "' return type" }
  function StreamContext(op: Function): string { "'" + op.name + "' stream type" }

  /** The event type fields are set exactly for the stream kinds that carry them. */
  predicate StreamFieldsAgree(o: OperationInfo)
  {
    && (o.eventInputType.Some? <==> o.streamType == Some(InputStream) || o.streamType == Some(DuplexStream))
    && (o.eventOutputType.Some? <==> o.streamType == Some(OutputStream) || o.streamType == Some(DuplexStream))
  }

  /** A return annotation naming a stream type is a subscript with the type
      arguments the analysis reads; any other return annotation is fine. */
  predicate StreamArgumentsPresent(ret: Expr)
  {
    match StreamTypeNamed(CanonicalName(ret))
    case None => true
    case Some(st) => ret.Subscript? && !ret.slice.Str? && |SliceElements(ret.slice)| >= st.ArgumentsRead()
  }

  /** The operation has an `input` parameter annotated with an expression. */
  predicate InputTyped(op: Function)
  {
    InputParameter(op.parameters).Some? && IsExprAnnotation(InputParameter(op.parameters).value.annotation)
  }

  /** The second half of `_analyze_operation`, once both annotations are read:
      what the return annotation `ret` says about the output and the stream. */
  function AnalyzeReturn(op: Function, input: TypeInfo, ret: Expr): (r: Result<OperationInfo, AnalysisError>)
    ensures r.Success? <==> StreamArgumentsPresent(ret)
    ensures r.Failure? ==>
      r.error == (if !ret.Subscript? then NotASubscript(StreamContext(op))
                  else if ret.slice.Str? then StringSlice(StreamContext(op))
                  else StreamArgumentMissing(StreamContext(op)))
    ensures r.Success? ==>
      var o := r.value;
      && o.name == op.name && o.modulePath == op.path && o.input == input
      && o.streamType == StreamTypeNamed(CanonicalName(ret))
      && StreamFieldsAgree(o)
      && (o.streamType.None? ==> o.output == TypeInfoOf(ret))
      && (o.streamType.Some? ==>
            && ret.Subscript? && !ret.slice.Str?
            && var args := SliceElements(ret.slice);
            && |args| >= o.streamType.value.ArgumentsRead()
            && o.output == TypeInfoOf(args[|args| - 1])
            && (o.eventInputType.Some? ==> o.eventInputType.value == CanonicalName(args[0]))
            && (o.eventOutputType.Some? ==>
                  o.eventOutputType.value == CanonicalName(args[o.streamType.value.ArgumentsRead() - 1])))
  {
    var outputType := CanonicalName(ret);
    match StreamTypeNamed(outputType)
    case None =>
      Success(OperationInfo(op.name, op.path, input, TypeInfo(outputType, CanonicalPath(ret)), None, None, None))
    case Some(st) =>
      if !ret.Subscript? then Failure(NotASubscript(StreamContext(op)))
      else if ret.slice.Str? then Failure(StringSlice(StreamContext(op)))
      else
        var args := SliceElements(ret.slice);
        if |args| < st.ArgumentsRead() then Failure(StreamArgumentMissing(StreamContext(op)))
        else Success(StreamOperation(op, input, st, args))
  }

  /** The operation a stream-typed return annotation describes, from the
      annotation's type arguments `args`: the last one is the output, and the
      first one or two name the event types. */
  function StreamOperation(op: Function, input: TypeInfo, st: StreamType, args: seq<Expr>): (o: OperationInfo)
    requires |args| >= st.ArgumentsRead()
    ensures o.name == op.name && o.modulePath == op.path && o.input == input
    ensures o.streamType == Some(st) && StreamFieldsAgree(o)
    ensures o.output == TypeInfoOf(args[|args| - 1])
    ensures o.eventInputType.Some? ==> o.eventInputType.value == CanonicalName(args[0])
    ensures o.eventOutputType.Some? ==> o.eventOutputType.value == CanonicalName(args[st.ArgumentsRead() - 1])
  {
    var eventInput := if st.InputStream? || st.DuplexStream? then Some(CanonicalName(args[0])) else None;
    var eventOutput :=
      if st.OutputStream? || st.DuplexStream? then Some(CanonicalName(args[if st.DuplexStream? then 1 else 0]))
      else None;
    OperationInfo(op.name, op.path, input, TypeInfoOf(args[|args| - 1]), Some(st), eventInput, eventOutput)
  }

  /** `_analyze_operation`: the `input` parameter's annotation and the return
      annotation must both be expressions; then `AnalyzeReturn` decides. */
  function AnalyzeOperation(op: Function): (r: Result<OperationInfo, AnalysisError>)
    ensures r.Success? <==>
      InputTyped(op) && IsExprAnnotation(op.returnAnnotation) && StreamArgumentsPresent(op.returnAnnotation.value)
    ensures InputParameter(op.parameters).None? ==> r == Failure(MissingInputParameter(op.name))
    ensures InputParameter(op.parameters).Some? && !InputTyped(op) ==> r == Failure(NotAnExpr(InputContext(op)))
    ensures InputTyped(op) && !IsExprAnnotation(op.returnAnnotation) ==> r == Failure(NotAnExpr(ReturnContext(op)))
    ensures InputTyped(op) && IsExprAnnotation(op.returnAnnotation) ==>
      r == AnalyzeReturn(op, TypeInfoOf(InputParameter(op.parameters).value.annotation.value), op.returnAnnotation.value)
  {
    match InputParameter(op.parameters)
    case None => Failure(MissingInputParameter(op.name))
    case Some(input) =>
      var inputAnnotation :- GetExpr(input.annotation, InputContext(op));
      var ret :- GetExpr(op.returnAnnotation, ReturnContext(op));
      AnalyzeReturn(op, TypeInfoOf(inputAnnotation), ret)
  }

  /** The client methods that are operations: public and not `__init__`. */
  predicate IsOperation(f: Function)
  {
    !f.isPrivate && !f.IsInitMethod()
  }

  /** What `_extract_operations` returns or raises: every operation analysed in
      order, or the first analysis failure. */
  function OperationsOf(fs: seq<Function>): (r: Result<seq<OperationInfo>, AnalysisError>)
    ensures r.Success? <==> forall i :: 0 <= i < |fs| && IsOperation(fs[i]) ==> AnalyzeOperation(fs[i]).Success?
    ensures r.Success? ==>
      var ops := Filter(fs, IsOperation);
      && |r.value| == |ops|
      && forall i :: 0 <= i < |ops| ==> AnalyzeOperation(ops[i]) == Success(r.value[i])
    ensures r.Failure? ==>
      exists i :: 0 <= i < |fs| && IsOperation(fs[i]) && AnalyzeOperation(fs[i]) == Failure(r.error)
        && forall j :: 0 <= j < i && IsOperation(fs[j]) ==> AnalyzeOperation(fs[j]).Success?
    decreases |fs|
  {
    if fs == [] then Success([])
    else
      var init := fs[..|fs| - 1];
      var f := fs[|fs| - 1];
      assert fs == init + [f];
      FilterSnoc(init, f, IsOperation);
      var ops :- OperationsOf(init);
      if !IsOperation(f) then Success(ops)
      else
        var info :- AnalyzeOperation(f);
        Success(ops + [info])
  }

  lemma {:induction false} OperationsOfPrefixFailure(fs: seq<Function>, k: nat)
    requires k <= |fs| && OperationsOf(fs[..k]).Failure?
    ensures OperationsOf(fs) == OperationsOf(fs[..k])
    decreases |fs| - k
  {
    if k == |fs| {
      assert fs[..k] == fs;
    } else {
      assert fs[..k + 1][..k] == fs[..k];
      OperationsOfPrefixFailure(fs, k + 1);
    }
  }

  /** `_extract_operations`. */
  method ExtractOperations(functions: seq<Function>) returns (r: Result<seq<OperationInfo>, AnalysisError>)
    ensures r == OperationsOf(functions)
  {
    var operations := [];
    for i := 0 to |functions|
      invariant OperationsOf(functions[..i]) == Success(operations)
    {
      var op := functions[i];
      assert functions[..i + 1][..i] == functions[..i];
      if !(op.isPrivate || op.IsInitMethod()) {
        var info := AnalyzeOperation(op);
        if info.Failure? {
          OperationsOfPrefixFailure(functions, i + 1);
          return Failure(info.error);
        }
        operations := operations + [info.value];
      }
    }
    assert functions[..|functions|] == functions;
    return Success(operations);
  }

  /** `models_module.members` minus imports and private names: the members
      that are classified. */
  predicate Listed(m: Member)
  {
    !m.isImported && !m.isPrivate
  }

  /** `_is_union`: an attribute whose value is `Union[...]` or any binary
      operator expression. */
  predicate IsUnion(m: Member)
  {
    && m.kind.AttributeKind? && m.kind.value.Some?
    && var v := m.kind.value.value;
       (v.Subscript? && v.left.Name? && v.left.name == "Union") || v.BinOp?
  }

  /** A class with a plain-name base among `names`. */
  predicate HasBaseNamed(m: Member, names: seq<string>)
  {
    m.kind.ClassKind? && exists i :: 0 <= i < |m.kind.bases| && m.kind.bases[i].Name? && m.kind.bases[i].name in names
  }

  /** `_is_enum`. */
  predicate IsEnum(m: Member) { HasBaseNamed(m, EnumBaseClasses) }

  /** `_is_error`. */
  predicate IsError(m: Member) { HasBaseNamed(m, ErrorBaseClasses) }

  /** The four categories, checked in the source's order: union, enum, error,
      then any other class. */
  predicate IsUnionModel(m: Member) { Listed(m) && IsUnion(m) }
  predicate IsEnumModel(m: Member) { Listed(m) && !IsUnion(m) && IsEnum(m) }
  predicate IsErrorModel(m: Member) { Listed(m) && !IsUnion(m) && !IsEnum(m) && IsError(m) }
  predicate IsStructureModel(m: Member) { Listed(m) && !IsUnion(m) && !IsEnum(m) && !IsError(m) && m.kind.ClassKind? }

  function UnionValue(m: Member): Expr
    requires IsUnion(m)
  {
    m.kind.value.value
  }

  /** `str(value)` without the `Union[` and `]` around it when both are there. */
  function UnwrapUnion(s: string): (r: string)
    ensures StartsWith(s, "Union[") && EndsWith(s, "]") ==> s == "Union[" + r + "]"
    ensures !(StartsWith(s, "Union[") && EndsWith(s, "]")) ==> r == s
  {
    if StartsWith(s, "Union[") && EndsWith(s, "]") then
      assert s[5] == '[';
      s[6..|s| - 1]
    else s
  }

  /** The member names `_extract_union_members` reads off a union's value:
      the text split on `|`, each piece stripped. */
  function UnionMemberNames(value: Expr): (r: seq<string>)
    ensures |r| >= 1
  {
    MemberNames(UnwrapUnion(Render(value)))
  }

  /** `[member.strip() for member in text.split("|")]`. */
  function MemberNames(text: string): (r: seq<string>)
    ensures |r| >= 1
  {
    Map(Split(text, '|'), Strip)
  }

  /** Each name looked up among the models module's members, in order; the
      first name that is not there is a ValueError. */
  function ResolveNames(names: seq<string>, models: seq<Member>): (r: Result<seq<TypeInfo>, AnalysisError>)
    ensures r.Success? <==> forall i :: 0 <= i < |names| ==> Get(models, names[i]).Some?
    ensures r.Success? ==>
      && |r.value| == |names|
      && forall i :: 0 <= i < |names| ==> r.value[i] == MemberTypeInfo(Get(models, names[i]).value) && r.value[i].name == names[i]
    ensures r.Failure? ==>
      exists i :: 0 <= i < |names| && Get(models, names[i]).None? && r.error == UnknownUnionMember(names[i])
        && forall j :: 0 <= j < i ==> Get(models, names[j]).Some?
    decreases |names|
  {
    if names == [] then Success([])
    else
      var init := names[..|names| - 1];
      var name := names[|names| - 1];
      var members :- ResolveNames(init, models);
      match Get(models, name)
      case None => Failure(UnknownUnionMember(name))
      case Some(m) => Success(members + [MemberTypeInfo(m)])
  }

  lemma {:induction false} ResolveNamesPrefixFailure(names: seq<string>, models: seq<Member>, k: nat)
    requires k <= |names| && ResolveNames(names[..k], models).Failure?
    ensures ResolveNames(names, models) == ResolveNames(names[..k], models)
    decreases |names| - k
  {
    if k == |names| {
      assert names[..k] == names;
    } else {
      assert names[..k + 1][..k] == names[..k];
      ResolveNamesPrefixFailure(names, models, k + 1);
    }
  }

  /** The lookup loop of `_extract_union_members`: each name in turn, stopping
      at the first one the models module does not define. */
  method ResolveMembers(memberNames: seq<string>, models: seq<Member>) returns (r: Result<seq<TypeInfo>, AnalysisError>)
    ensures r == ResolveNames(memberNames, models)
  {
    var members := [];
    for i := 0 to |memberNames|
      invariant ResolveNames(memberNames[..i], models) == Success(members)
    {
      var name := memberNames[i];
      assert memberNames[..i + 1][..i] == memberNames[..i];
      var memberObject := Get(models, name);
      if memberObject.None? {
        ResolveNamesPrefixFailure(memberNames, models, i + 1);
        return Failure(UnknownUnionMember(name));
      }
      members := members + [MemberTypeInfo(memberObject.value)];
    }
    assert memberNames[..|memberNames|] == memberNames;
    return Success(members);
  }

  /** `_extract_union_members`. */
  method ExtractUnionMembers(value: Expr, models: seq<Member>) returns (r: Result<seq<TypeInfo>, AnalysisError>)
    ensures r == ResolveNames(UnionMemberNames(value), models)
  {
    var valueStr := UnwrapUnion(Render(value));
    var memberNames := MemberNames(valueStr);
    r := ResolveMembers(memberNames, models);
  }

  /** What `_extract_union_members` gives for a union member of the module. */
  function UnionInfoOf(m: Member, models: seq<Member>): Result<UnionInfo, AnalysisError>
    requires IsUnion(m)
  {
    var members :- ResolveNames(UnionMemberNames(UnionValue(m)), models);
    Success(UnionInfo(m.name, m.path, members))
  }

  /** One pass of the classification loop in `_extract_models`. */
  function Classify(acc: ModelsInfo, m: Member, models: seq<Member>): (r: Result<ModelsInfo, AnalysisError>)
    ensures r.Failure? <==> IsUnionModel(m) && UnionInfoOf(m, models).Failure?
    ensures r.Failure? ==> r.error == UnionInfoOf(m, models).error
    ensures r.Success? ==>
      r.value == ModelsInfo(
        acc.structures + (if IsStructureModel(m) then [MemberTypeInfo(m)] else []),
        acc.unions + (if IsUnionModel(m) then [UnionInfoOf(m, models).value] else []),
        acc.enums + (if IsEnumModel(m) then [MemberTypeInfo(m)] else []),
        acc.errors + (if IsErrorModel(m) then [MemberTypeInfo(m)] else []))
  {
    if !Listed(m) then Success(acc)
    else if IsUnion(m) then
      var u :- UnionInfoOf(m, models);
      Success(acc.(unions := acc.unions + [u]))
    else if IsEnum(m) then Success(acc.(enums := acc.enums + [MemberTypeInfo(m)]))
    else if IsError(m) then Success(acc.(errors := acc.errors + [MemberTypeInfo(m)]))
    else if m.kind.ClassKind? then Success(acc.(structures := acc.structures + [MemberTypeInfo(m)]))
    else Success(acc)
  }

  /** The four lists `_extract_models` builds before removing duplicates, or
      the first union whose members do not resolve. */
  function RawModels(ms: seq<Member>, models: seq<Member>): Result<ModelsInfo, AnalysisError>
    decreases |ms|
  {
    if ms == [] then Success(ModelsInfo([], [], [], []))
    else
      var acc :- RawModels(ms[..|ms| - 1], models);
      Classify(acc, ms[|ms| - 1], models)
  }

  /** Each list holds its category's members in module order. */
  /** The enums list holds the enum members in module order. */
  lemma {:induction false} RawEnums(ms: seq<Member>, models: seq<Member>)
    requires RawModels(ms, models).Success?
    ensures RawModels(ms, models).value.enums == Map(Filter(ms, IsEnumModel), MemberTypeInfo)
    decreases |ms|
  {
    if ms != [] {
      var init := ms[..|ms| - 1];
      var m := ms[|ms| - 1];
      assert ms == init + [m];
      assert RawModels(ms, models).value == Classify(RawModels(init, models).value, m, models).value;
      RawEnums(init, models);
      FilterSnoc(init, m, IsEnumModel);
      MapAppend(Filter(init, IsEnumModel), [m], MemberTypeInfo);
    }
  }

  /** The errors list holds the error members in module order. */
  lemma {:induction false} RawErrors(ms: seq<Member>, models: seq<Member>)
    requires RawModels(ms, models).Success?
    ensures RawModels(ms, models).value.errors == Map(Filter(ms, IsErrorModel), MemberTypeInfo)
    decreases |ms|
  {
    if ms != [] {
      var init := ms[..|ms| - 1];
      var m := ms[|ms| - 1];
      assert ms == init + [m];
      assert RawModels(ms, models).value == Classify(RawModels(init, models).value, m, models).value;
      RawErrors(init, models);
      FilterSnoc(init, m, IsErrorModel);
      MapAppend(Filter(init, IsErrorModel), [m], MemberTypeInfo);
    }
  }

  /** The structures list holds the remaining classes in module order. */
  lemma {:induction false} RawStructures(ms: seq<Member>, models: seq<Member>)
    requires RawModels(ms, models).Success?
    ensures RawModels(ms, models).value.structures == Map(Filter(ms, IsStructureModel), MemberTypeInfo)
    decreases |ms|
  {
    if ms != [] {
      var init := ms[..|ms| - 1];
      var m := ms[|ms| - 1];
      assert ms == init + [m];
      assert RawModels(ms, models).value == Classify(RawModels(init, models).value, m, models).value;
      RawStructures(init, models);
      FilterSnoc(init, m, IsStructureModel);
      MapAppend(Filter(init, IsStructureModel), [m], MemberTypeInfo);
    }
  }

  /** The unions list holds one resolved entry per union member, in module order. */
  lemma {:induction false} RawUnions(ms: seq<Member>, models: seq<Member>)
    requires RawModels(ms, models).Success?
    ensures var unions := RawModels(ms, models).value.unions;
      && |unions| == |Filter(ms, IsUnionModel)|
      && forall i :: 0 <= i < |unions| ==> UnionInfoOf(Filter(ms, IsUnionModel)[i], models) == Success(unions[i])
    decreases |ms|
  {
    if ms != [] {
      var init := ms[..|ms| - 1];
      var m := ms[|ms| - 1];
      assert ms == init + [m];
      assert RawModels(ms, models).value == Classify(RawModels(init, models).value, m, models).value;
      RawUnions(init, models);
      FilterSnoc(init, m, IsUnionModel);
      var unions := RawModels(ms, models).value.unions;
      var before := RawModels(init, models).value.unions;
      var f := Filter(ms, IsUnionModel);
      forall i | 0 <= i < |unions| ensures UnionInfoOf(f[i], models) == Success(unions[i]) {
        if i < |before| {
          assert f[i] == Filter(init, IsUnionModel)[i];
          assert unions[i] == before[i];
        } else {
          assert f[i] == m;
        }
      }
    }
  }

  /** A member that is not a union, or a union whose members resolve. */
  function ResolvesIn(models: seq<Member>): Member -> bool
  {
    m => IsUnionModel(m) ==> UnionInfoOf(m, models).Success?
  }

  /** Every union among `ms` has members that resolve. */
  predicate UnionsResolve(ms: seq<Member>, models: seq<Member>)
  {
    All(ms, ResolvesIn(models))
  }

  lemma {:induction false} RawModelsSuccess(ms: seq<Member>, models: seq<Member>)
    ensures RawModels(ms, models).Success? <==> UnionsResolve(ms, models)
    decreases |ms|
  {
    if ms != [] {
      var init := ms[..|ms| - 1];
      var m := ms[|ms| - 1];
      RawModelsSuccess(init, models);
      AllSnoc(ms, ResolvesIn(models));
      if RawModels(init, models).Success? {
        assert RawModels(ms, models) == Classify(RawModels(init, models).value, m, models);
      }
    }
  }

  /** `ms[i]` is a union whose members do not resolve, with error `e`, and
      every union before it resolves. */
  predicate FirstFailureAt(ms: seq<Member>, models: seq<Member>, i: int, e: AnalysisError)
  {
    0 <= i < |ms| && IsUnionModel(ms[i]) && UnionInfoOf(ms[i], models) == Failure(e)
    && UnionsResolve(ms[..i], models)
  }

  lemma FirstFailureInPrefix(ms: seq<Member>, models: seq<Member>, i: int, e: AnalysisError)
    requires ms != [] && FirstFailureAt(ms[..|ms| - 1], models, i, e)
    ensures FirstFailureAt(ms, models, i, e)
  {
    var init := ms[..|ms| - 1];
    assert init[i] == ms[i];
    assert init[..i] == ms[..i];
  }

  lemma {:induction false} RawModelsFirstFailure(ms: seq<Member>, models: seq<Member>)
    ensures RawModels(ms, models).Failure? ==>
      exists i :: FirstFailureAt(ms, models, i, RawModels(ms, models).error)
    decreases |ms|
  {
    if ms != [] {
      var init := ms[..|ms| - 1];
      var m := ms[|ms| - 1];
      if RawModels(init, models).Failure? {
        RawModelsFirstFailure(init, models);
        assert RawModels(ms, models) == RawModels(init, models);
        var i :| FirstFailureAt(init, models, i, RawModels(init, models).error);
        FirstFailureInPrefix(ms, models, i, RawModels(init, models).error);
      } else {
        RawModelsSuccess(init, models);
        assert RawModels(ms, models) == Classify(RawModels(init, models).value, m, models);
        if RawModels(ms, models).Failure? {
          assert FirstFailureAt(ms, models, |ms| - 1, RawModels(ms, models).error);
        }
      }
    }
  }

  /** Classification fails exactly when some union's members do not resolve,
      and then with the first such union's error. */
  lemma RawModelsFailure(ms: seq<Member>, models: seq<Member>)
    ensures RawModels(ms, models).Success? <==> UnionsResolve(ms, models)
    ensures RawModels(ms, models).Failure? ==>
      exists i :: FirstFailureAt(ms, models, i, RawModels(ms, models).error)
  {
    RawModelsSuccess(ms, models);
    RawModelsFirstFailure(ms, models);
  }

  lemma {:induction false} RawModelsPrefixFailure(ms: seq<Member>, models: seq<Member>, k: nat)
    requires k <= |ms| && RawModels(ms[..k], models).Failure?
    ensures RawModels(ms, models) == RawModels(ms[..k], models)
    decreases |ms| - k
  {
    if k == |ms| {
      assert ms[..k] == ms;
    } else {
      assert ms[..k + 1][..k] == ms[..k];
      RawModelsPrefixFailure(ms, models, k + 1);
    }
  }

  /** `_is_operation_io_type`. */
  predicate IsOperationIoType(name: string, ops: seq<OperationInfo>)
  {
    exists i :: 0 <= i < |ops| && (name == ops[i].input.name || name == ops[i].output.name)
  }

  /** `_is_union_member`. */
  predicate IsUnionMember(name: string, unions: seq<UnionInfo>)
  {
    exists i, j :: 0 <= i < |unions| && 0 <= j < |unions[i].members| && name == unions[i].members[j].name
  }

  /** A structure already shown on an operation page or a union page. */
  predicate Consumed(name: string, ops: seq<OperationInfo>, unions: seq<UnionInfo>)
  {
    IsOperationIoType(name, ops) || IsUnionMember(name, unions)
  }

  /** The `duplicates` list `_extract_models` collects. */
  function DuplicatesOf(structures: seq<TypeInfo>, ops: seq<OperationInfo>, unions: seq<UnionInfo>): (r: seq<TypeInfo>)
    ensures forall i :: 0 <= i < |r| ==> r[i] in structures && Consumed(r[i].name, ops, unions)
    ensures forall i :: 0 <= i < |structures| && Consumed(structures[i].name, ops, unions) ==> structures[i] in r
    decreases |structures|
  {
    if structures == [] then []
    else
      var init := structures[..|structures| - 1];
      var s := structures[|structures| - 1];
      assert structures == init + [s];
      DuplicatesOf(init, ops, unions) + if Consumed(s.name, ops, unions) then [s] else []
  }

  /** `[struct for struct in structures if struct not in duplicates]`. */
  function Survivors(structures: seq<TypeInfo>, duplicates: seq<TypeInfo>): seq<TypeInfo>
    decreases |structures|
  {
    if structures == [] then []
    else
      var s := structures[|structures| - 1];
      Survivors(structures[..|structures| - 1], duplicates) + if s in duplicates then [] else [s]
  }

  /** The reference definition of the filtering step: the structures whose
      name no operation input, operation output or union member carries. */
  function NotConsumed(structures: seq<TypeInfo>, ops: seq<OperationInfo>, unions: seq<UnionInfo>): (r: seq<TypeInfo>)
    ensures forall i :: 0 <= i < |r| ==> r[i] in structures && !Consumed(r[i].name, ops, unions)
    ensures forall i :: 0 <= i < |structures| && !Consumed(structures[i].name, ops, unions) ==> structures[i] in r
    decreases |structures|
  {
    if structures == [] then []
    else
      var init := structures[..|structures| - 1];
      var s := structures[|structures| - 1];
      assert structures == init + [s];
      NotConsumed(init, ops, unions) + if Consumed(s.name, ops, unions) then [] else [s]
  }

  /** Removing the collected duplicates by value is the same as filtering the
      structures by name: membership in `duplicates` depends only on the name. */
  lemma DeduplicateByName(structures: seq<TypeInfo>, ops: seq<OperationInfo>, unions: seq<UnionInfo>)
    ensures Survivors(structures, DuplicatesOf(structures, ops, unions)) == NotConsumed(structures, ops, unions)
  {
    var d := DuplicatesOf(structures, ops, unions);
    SurvivorsAgree(structures, d, ops, unions);
  }

  lemma {:induction false} SurvivorsAgree(s: seq<TypeInfo>, d: seq<TypeInfo>, ops: seq<OperationInfo>, unions: seq<UnionInfo>)
    requires forall i :: 0 <= i < |s| ==> (s[i] in d <==> Consumed(s[i].name, ops, unions))
    ensures Survivors(s, d) == NotConsumed(s, ops, unions)
    decreases |s|
  {
    if s != [] {
      SurvivorsAgree(s[..|s| - 1], d, ops, unions);
    }
  }

  /** `_extract_models` after its classification loop: the structures that an
      operation or a union already shows are dropped. */
  function Deduplicate(raw: ModelsInfo, ops: seq<OperationInfo>): ModelsInfo
  {
    raw.(structures := Survivors(raw.structures, DuplicatesOf(raw.structures, ops, raw.unions)))
  }

  /** What `_extract_models` returns or raises. */
  function ModelsOf(models: Module, ops: seq<OperationInfo>): Result<ModelsInfo, AnalysisError>
  {
    var raw :- RawModels(models.members, models.members);
    Success(Deduplicate(raw, ops))
  }

  /** The classification loop of `_extract_models`: each listed member goes
      to its category's list, in module order; a union whose members cannot be
      read stops the loop. */
  method ClassifyMembers(ms: seq<Member>) returns (r: Result<ModelsInfo, AnalysisError>)
    ensures r == RawModels(ms, ms)
  {
    var structures, unions, enums, errors := [], [], [], [];
    for i := 0 to |ms|
      invariant RawModels(ms[..i], ms) == Success(ModelsInfo(structures, unions, enums, errors))
    {
      var member := ms[i];
      assert ms[..i + 1][..i] == ms[..i];
      assert RawModels(ms[..i + 1], ms) == Classify(ModelsInfo(structures, unions, enums, errors), member, ms);
      if member.isImported || member.isPrivate {
      } else if IsUnion(member) {
        var members := ExtractUnionMembers(UnionValue(member), ms);
        if members.Failure? {
          RawModelsPrefixFailure(ms, ms, i + 1);
          return Failure(members.error);
        }
        unions := unions + [UnionInfo(member.name, member.path, members.value)];
      } else if IsEnum(member) {
        enums := enums + [MemberTypeInfo(member)];
      } else if IsError(member) {
        errors := errors + [MemberTypeInfo(member)];
      } else if member.kind.ClassKind? {
        structures := structures + [MemberTypeInfo(member)];
      }
    }
    assert ms[..|ms|] == ms;
    return Success(ModelsInfo(structures, unions, enums, errors));
  }

  /** The duplicate-collecting loop of `_extract_models`: the structures an
      operation's input or output or a union member already shows. */
  method FindDuplicates(structures: seq<TypeInfo>, operations: seq<OperationInfo>, unions: seq<UnionInfo>)
    returns (duplicates: seq<TypeInfo>)
    ensures duplicates == DuplicatesOf(structures, operations, unions)
  {
    duplicates := [];
    for i := 0 to |structures|
      invariant duplicates == DuplicatesOf(structures[..i], operations, unions)
    {
      assert structures[..i + 1][..i] == structures[..i];
      if IsOperationIoType(structures[i].name, operations) || IsUnionMember(structures[i].name, unions) {
        duplicates := duplicates + [structures[i]];
      }
    }
    assert structures[..|structures|] == structures;
  }

  /** `_extract_models`. */
  method ExtractModels(modelsModule: Module, operations: seq<OperationInfo>) returns (r: Result<ModelsInfo, AnalysisError>)
    ensures r == ModelsOf(modelsModule, operations)
  {
    var raw := ClassifyMembers(modelsModule.members);
    if raw.Failure? {
      return Failure(raw.error);
    }
    var models := raw.value;
    var duplicates := FindDuplicates(models.structures, operations, models.unions);
    return Success(models.(structures := Survivors(models.structures, duplicates)));
  }

  predicate IsClassEndingWith(m: Member, suffix: string)
  {
    m.kind.ClassKind? && EndsWith(m.name, suffix)
  }

  /** The first class of the module whose name ends with `suffix`. */
  function FirstClassWithSuffix(members: seq<Member>, suffix: string): (r: Option<Member>)
    ensures r.Some? ==>
      exists i :: 0 <= i < |members| && members[i] == r.value && IsClassEndingWith(r.value, suffix)
        && forall j :: 0 <= j < i ==> !IsClassEndingWith(members[j], suffix)
    ensures r.None? ==> forall i :: 0 <= i < |members| ==> !IsClassEndingWith(members[i], suffix)
    decreases |members|
  {
    if members == [] then None
    else if IsClassEndingWith(members[0], suffix) then Some(members[0])
    else
      var r := FirstClassWithSuffix(members[1..], suffix);
      assert forall i :: 0 < i < |members| ==> members[i] == members[1..][i - 1];
      r
  }

  /** `_find_class_with_suffix`. */
  method FindClassWithSuffix(mod: Module, suffix: string) returns (r: Option<Member>)
    ensures r == FirstClassWithSuffix(mod.members, suffix)
  {
    var ms := mod.members;
    for i := 0 to |ms|
      invariant forall j :: 0 <= j < i ==> !IsClassEndingWith(ms[j], suffix)
    {
      if ms[i].kind.ClassKind? && EndsWith(ms[i].name, suffix) {
        return Some(ms[i]);
      }
    }
    return None;
  }

  const RequiredModules: seq<string> := ["client", "config", "models"]

  /** `[name for name in names if not package.modules.get(name)]`. */
  function Absent(names: seq<string>, package: Package): (r: seq<string>)
    ensures forall i :: 0 <= i < |r| ==> r[i] in names && r[i] !in package
    ensures forall i :: 0 <= i < |names| && names[i] !in package ==> names[i] in r
    decreases |names|
  {
    if names == [] then []
    else
      var init := names[..|names| - 1];
      var name := names[|names| - 1];
      assert names == init + [name];
      Absent(init, package) + if name in package then [] else [name]
  }

  /** What `_analyze_client_package` returns or raises for a loaded package. */
  function ClientInfoOf(package: Package, packageName: string): Result<ClientInfo, AnalysisError>
  {
    var missing := Absent(RequiredModules, package);
    if missing != [] then Failure(MissingModules(missing))
    else
      assert RequiredModules[0] in package && RequiredModules[1] in package && RequiredModules[2] in package;
      match FirstClassWithSuffix(package["client"].members, "Client")
      case None => Failure(NoClientClass)
      case Some(clientClass) =>
        var config := Get(package["config"].members, "Config");
        var plugin := Get(package["config"].members, "Plugin");
        if config.None? || plugin.None? then Failure(MissingConfigOrPlugin)
        else
          var operations :- OperationsOf(clientClass.kind.functions);
          var models :- ModelsOf(package["models"], operations);
          Success(ClientInfo(clientClass.name, clientClass.path, packageName,
                             MemberTypeInfo(config.value), MemberTypeInfo(plugin.value), operations, models))
  }

  lemma {:induction false} AbsentNone(names: seq<string>, package: Package)
    requires forall i :: 0 <= i < |names| ==> names[i] in package
    ensures Absent(names, package) == []
    decreases |names|
  {
    if names != [] {
      AbsentNone(names[..|names| - 1], package);
    }
  }

  /** The discovery checks of `_analyze_client_package`, in the order they
      are made: a missing required submodule (all of them named), then no
      class whose name ends with "Client", then a missing `Config` or
      `Plugin`. A successful analysis has found all three submodules, a class
      whose name ends with "Client", and `Config` and `Plugin` themselves. */
  lemma DiscoveryChecks(package: Package, packageName: string)
    ensures var r := ClientInfoOf(package, packageName);
      var present := "client" in package && "config" in package && "models" in package;
      && (!present ==> r == Failure(MissingModules(Absent(RequiredModules, package))))
      && ((present && forall i :: 0 <= i < |package["client"].members| ==> !IsClassEndingWith(package["client"].members[i], "Client"))
            ==> r == Failure(NoClientClass))
      && ((&& present && FirstClassWithSuffix(package["client"].members, "Client").Some?
           && (Get(package["config"].members, "Config").None? || Get(package["config"].members, "Plugin").None?))
            ==> r == Failure(MissingConfigOrPlugin))
      && (r.Success? ==>
            && present && r.value.packageName == packageName
            && (exists m :: m in package["client"].members && IsClassEndingWith(m, "Client")
                  && r.value.name == m.name && r.value.modulePath == m.path)
            && r.value.config.name == "Config" && r.value.plugin.name == "Plugin")
  {
    var missing := Absent(RequiredModules, package);
    if !("client" in package && "config" in package && "models" in package) {
      assert missing != [] by {
        if "client" !in package { assert RequiredModules[0] in missing; }
        else if "config" !in package { assert RequiredModules[1] in missing; }
        else { assert RequiredModules[2] in missing; }
      }
    } else {
      AbsentNone(RequiredModules, package);
      var found := FirstClassWithSuffix(package["client"].members, "Client");
      if found.Some? {
        var i :| 0 <= i < |package["client"].members| && package["client"].members[i] == found.value
                 && IsClassEndingWith(found.value, "Client");
      }
    }
  }

  /** `_analyze_client_package`, once `griffe.load` has produced `package`. */
  method AnalyzeClientPackage(package: Package, packageName: string) returns (r: Result<ClientInfo, AnalysisError>)
    ensures r == ClientInfoOf(package, packageName)
  {
    var missing := Absent(RequiredModules, package);
    if missing != [] {
      return Failure(MissingModules(missing));
    }
    assert RequiredModules[0] in package && RequiredModules[1] in package && RequiredModules[2] in package;
    var clientModule := package["client"];
    var configModule := package["config"];
    var modelsModule := package["models"];

    var clientClass := FindClassWithSuffix(clientModule, "Client");
    if clientClass.None? {
      return Failure(NoClientClass);
    }
    var configClass := Get(configModule.members, "Config");
    var pluginAlias := Get(configModule.members, "Plugin");
    if configClass.None? || pluginAlias.None? {
      return Failure(MissingConfigOrPlugin);
    }
    var config := MemberTypeInfo(configClass.value);
    var plugin := MemberTypeInfo(pluginAlias.value);

    var operations := ExtractOperations(clientClass.value.kind.functions);
    if operations.Failure? {
      return Failure(operations.error);
    }
    var models := ExtractModels(modelsModule, operations.value);
    if models.Failure? {
      return Failure(models.error);
    }
    return Success(ClientInfo(clientClass.value.name, clientClass.value.path, packageName,
                              config, plugin, operations.value, models.value));
  }

  /** What a successful analysis guarantees about its result: every operation's
      event fields agree with its stream kind, no listed structure is shown by
      an operation or a union already, and every union has at least one member,
      each of them a member of the models module. */
  ghost predicate WellFormedClient(c: ClientInfo, modelsModule: Module)
  {
    && (forall i :: 0 <= i < |c.operations| ==> StreamFieldsAgree(c.operations[i]))
    && (forall i :: 0 <= i < |c.models.structures| ==>
          !Consumed(c.models.structures[i].name, c.operations, c.models.unions))
    && (forall i :: 0 <= i < |c.models.unions| ==> c.models.unions[i].members != [])
    && (forall i, j :: 0 <= i < |c.models.unions| && 0 <= j < |c.models.unions[i].members| ==>
          Get(modelsModule.members, c.models.unions[i].members[j].name).Some?)
  }

  /** Every analysed operation's event fields agree with its stream kind. */
  lemma OperationsAgree(fs: seq<Function>)
    requires OperationsOf(fs).Success?
    ensures forall i :: 0 <= i < |OperationsOf(fs).value| ==> StreamFieldsAgree(OperationsOf(fs).value[i])
  {
    var ops := OperationsOf(fs).value;
    var f := Filter(fs, IsOperation);
    forall i | 0 <= i < |ops| ensures StreamFieldsAgree(ops[i]) {
      assert AnalyzeOperation(f[i]) == Success(ops[i]);
    }
  }

  /** Deduplication touches only the structures: the unions, enums and
      errors `_extract_models` returns are those the classification built,
      the enums and errors being the module's enum and error members in
      order. */
  lemma DeduplicateKeepsOthers(modelsModule: Module, ops: seq<OperationInfo>)
    requires ModelsOf(modelsModule, ops).Success?
    ensures RawModels(modelsModule.members, modelsModule.members).Success?
    ensures var raw := RawModels(modelsModule.members, modelsModule.members).value;
      var models := ModelsOf(modelsModule, ops).value;
      && models.unions == raw.unions && models.enums == raw.enums && models.errors == raw.errors
      && models.enums == Map(Filter(modelsModule.members, IsEnumModel), MemberTypeInfo)
      && models.errors == Map(Filter(modelsModule.members, IsErrorModel), MemberTypeInfo)
  {
    RawEnums(modelsModule.members, modelsModule.members);
    RawErrors(modelsModule.members, modelsModule.members);
  }

  /** The models a successful `_extract_models` returns: structures left over
      by the deduplication and unions whose members all resolve. */
  lemma ModelsInvariants(modelsModule: Module, ops: seq<OperationInfo>)
    requires ModelsOf(modelsModule, ops).Success?
    ensures var models := ModelsOf(modelsModule, ops).value;
      && (forall i :: 0 <= i < |models.structures| ==> !Consumed(models.structures[i].name, ops, models.unions))
      && (forall i :: 0 <= i < |models.unions| ==> models.unions[i].members != [])
      && (forall i, j :: 0 <= i < |models.unions| && 0 <= j < |models.unions[i].members| ==>
            Get(modelsModule.members, models.unions[i].members[j].name).Some?)
  {
    var ms := modelsModule.members;
    var raw := RawModels(ms, ms).value;
    var models := ModelsOf(modelsModule, ops).value;
    assert models == Deduplicate(raw, ops);
    DeduplicateByName(raw.structures, ops, raw.unions);
    RawUnions(ms, ms);
    var f := Filter(ms, IsUnionModel);
    forall i | 0 <= i < |models.unions|
      ensures models.unions[i].members != []
      ensures forall j :: 0 <= j < |models.unions[i].members| ==> Get(ms, models.unions[i].members[j].name).Some?
    {
      assert UnionInfoOf(f[i], ms) == Success(models.unions[i]);
    }
  }

  lemma AnalysisInvariants(package: Package, packageName: string)
    requires ClientInfoOf(package, packageName).Success?
    ensures "models" in package
    ensures WellFormedClient(ClientInfoOf(package, packageName).value, package["models"])
  {
    assert RequiredModules[0] in package && RequiredModules[1] in package && RequiredModules[2] in package;
    var c := ClientInfoOf(package, packageName).value;
    var clientClass := FirstClassWithSuffix(package["client"].members, "Client").value;
    assert OperationsOf(clientClass.kind.functions) == Success(c.operations);
    OperationsAgree(clientClass.kind.functions);
    assert ModelsOf(package["models"], c.operations) == Success(c.models);
    ModelsInvariants(package["models"], c.operations);
  }

  ghost predicate UniqueNames(ms: seq<Member>)
  {
    forall i, j :: 0 <= i < j < |ms| ==> ms[i].name != ms[j].name
  }

  /** Members of two exclusive categories never share a name when the
      module's names are unique. */
  lemma FilteredNamesDisjoint(ms: seq<Member>, p: Member -> bool, q: Member -> bool)
    requires UniqueNames(ms)
    requires forall m :: !(p(m) && q(m))
    ensures forall i, j :: 0 <= i < |Filter(ms, p)| && 0 <= j < |Filter(ms, q)| ==> Filter(ms, p)[i].name != Filter(ms, q)[j].name
  {
    var a, b := Filter(ms, p), Filter(ms, q);
    forall i, j | 0 <= i < |a| && 0 <= j < |b| ensures a[i].name != b[j].name {
      var x, y := a[i], b[j];
      var k :| 0 <= k < |ms| && ms[k] == x;
      var l :| 0 <= l < |ms| && ms[l] == y;
      if k != l {
        assert ms[k].name != ms[l].name by {
          if k < l { } else { }
        }
      }
    }
  }

  function NameOfType(t: TypeInfo): string { t.name }

  ghost predicate NamesDisjoint(a: seq<string>, b: seq<string>)
  {
    forall i, j :: 0 <= i < |a| && 0 <= j < |b| ==> a[i] != b[j]
  }

  function MemberName(m: Member): string { m.name }

  /** The names of two exclusive categories of members are disjoint. */
  lemma FilteredNames(ms: seq<Member>, p: Member -> bool, q: Member -> bool)
    requires UniqueNames(ms)
    requires forall m :: !(p(m) && q(m))
    ensures NamesDisjoint(Map(Filter(ms, p), MemberName), Map(Filter(ms, q), MemberName))
  {
    FilteredNamesDisjoint(ms, p, q);
  }

  /** A listed type's name is its member's name. */
  lemma TypeNames(ms: seq<Member>)
    ensures Map(Map(ms, MemberTypeInfo), NameOfType) == Map(ms, MemberName)
  {
  }

  lemma StructureNames(ms: seq<Member>, models: seq<Member>)
    requires RawModels(ms, models).Success?
    ensures Map(RawModels(ms, models).value.structures, NameOfType) == Map(Filter(ms, IsStructureModel), MemberName)
  {
    RawStructures(ms, models);
    TypeNames(Filter(ms, IsStructureModel));
  }

  lemma EnumNames(ms: seq<Member>, models: seq<Member>)
    requires RawModels(ms, models).Success?
    ensures Map(RawModels(ms, models).value.enums, NameOfType) == Map(Filter(ms, IsEnumModel), MemberName)
  {
    RawEnums(ms, models);
    TypeNames(Filter(ms, IsEnumModel));
  }

  lemma ErrorNames(ms: seq<Member>, models: seq<Member>)
    requires RawModels(ms, models).Success?
    ensures Map(RawModels(ms, models).value.errors, NameOfType) == Map(Filter(ms, IsErrorModel), MemberName)
  {
    RawErrors(ms, models);
    TypeNames(Filter(ms, IsErrorModel));
  }

  function UnionNames(unions: seq<UnionInfo>): seq<string>
  {
    seq(|unions|, i requires 0 <= i < |unions| => unions[i].name)
  }

  lemma UnionMemberNamesOf(ms: seq<Member>, models: seq<Member>)
    requires RawModels(ms, models).Success?
    ensures UnionNames(RawModels(ms, models).value.unions) == Map(Filter(ms, IsUnionModel), MemberName)
  {
    RawUnions(ms, models);
    var raw := RawModels(ms, models).value;
    var f := Filter(ms, IsUnionModel);
    forall i | 0 <= i < |raw.unions| ensures raw.unions[i].name == f[i].name {
      assert UnionInfoOf(f[i], models) == Success(raw.unions[i]);
    }
  }

  /** Classification is exclusive: with unique member names, no name is
      listed in two of the four categories. */
  lemma CategoriesDisjoint(ms: seq<Member>, models: seq<Member>)
    requires UniqueNames(ms) && RawModels(ms, models).Success?
    ensures var raw := RawModels(ms, models).value;
      && NamesDisjoint(Map(raw.structures, NameOfType), Map(raw.enums, NameOfType))
      && NamesDisjoint(Map(raw.structures, NameOfType), Map(raw.errors, NameOfType))
      && NamesDisjoint(Map(raw.enums, NameOfType), Map(raw.errors, NameOfType))
      && NamesDisjoint(UnionNames(raw.unions), Map(raw.structures, NameOfType))
      && NamesDisjoint(UnionNames(raw.unions), Map(raw.enums, NameOfType))
      && NamesDisjoint(UnionNames(raw.unions), Map(raw.errors, NameOfType))
  {
    StructureNames(ms, models);
    EnumNames(ms, models);
    ErrorNames(ms, models);
    UnionMemberNamesOf(ms, models);
    FilteredNames(ms, IsStructureModel, IsEnumModel);
    FilteredNames(ms, IsStructureModel, IsErrorModel);
    FilteredNames(ms, IsEnumModel, IsErrorModel);
    FilteredNames(ms, IsUnionModel, IsStructureModel);
    FilteredNames(ms, IsUnionModel, IsEnumModel);
    FilteredNames(ms, IsUnionModel, IsErrorModel);
  }

  /** A PEP 604 alternation `A | B | ...`, nested to the left as Python parses it. */
  function Alternation(es: seq<Expr>): Expr
    requires |es| >= 1
    decreases |es|
  {
    if |es| == 1 then es[0] else BinOp(Alternation(es[..|es| - 1]), "|", es[|es| - 1])
  }

  lemma {:induction false} RenderAlternation(es: seq<Expr>)
    requires |es| >= 1
    ensures Render(Alternation(es)) == Join(Map(es, Render), " | ")
    decreases |es|
  {
    if |es| > 1 {
      var init := es[..|es| - 1];
      RenderAlternation(init);
      assert Map(es, Render) == Map(init, Render) + [Render(es[|es| - 1])];
      JoinSnoc(Map(init, Render), Render(es[|es| - 1]), " | ");
    } else {
      assert Map(es, Render) == [Render(es[0])];
    }
  }

  /** A type name as a union alias spells it: no surrounding whitespace, and
      none of the characters the member parsing looks at. */
  predicate PlainName(n: string)
  {
    Trimmed(n) && '|' !in n && '[' !in n && ']' !in n
  }

  /** A piece before the first `|` is the first name, stripped. */
  lemma MemberNamesAfter(first: string, rest: string)
    requires '|' !in first
    ensures MemberNames(first + ['|'] + rest) == [Strip(first)] + MemberNames(rest)
  {
    SplitAfter(first, '|', rest);
    MapAppend([first], Split(rest, '|'), Strip);
    assert Map([first], Strip) == [Strip(first)];
  }

  lemma NoBarInSpace(w: string)
    requires AllSpace(w)
    ensures '|' !in w
  {
    assert !IsSpace('|');
  }

  lemma PaddedName(w: string, n: string)
    requires AllSpace(w) && Trimmed(n) && '|' !in n
    ensures MemberNames(w + n) == [n]
  {
    NoBarInSpace(w);
    SplitNone(w + n, '|');
    StripPadded(w, n, "");
    assert w + n + "" == w + n;
  }

  /** The text around the first ` | ` of a joined list, cut at its bar. */
  lemma CutAtBar(w: string, n: string, j: string)
    ensures w + (n + " | " + j) == (w + n + " ") + ['|'] + (" " + j)
  {
  }

  lemma NoBarBefore(w: string, n: string)
    requires '|' !in w && '|' !in n
    ensures '|' !in w + n + " "
  {
  }

  lemma FrontRest<T>(s: seq<T>)
    requires s != []
    ensures [s[0]] + s[1..] == s
  {
  }

  lemma {:induction false} PaddedSplit(w: string, names: seq<string>)
    requires AllSpace(w) && names != []
    requires forall i :: 0 <= i < |names| ==> Trimmed(names[i]) && '|' !in names[i]
    ensures MemberNames(w + Join(names, " | ")) == names
    decreases |names|
  {
    if |names| == 1 {
      PaddedName(w, names[0]);
    } else {
      var j := Join(names[1..], " | ");
      assert Join(names, " | ") == names[0] + " | " + j;
      CutAtBar(w, names[0], j);
      NoBarInSpace(w);
      NoBarBefore(w, names[0]);
      MemberNamesAfter(w + names[0] + " ", " " + j);
      StripPadded(w, names[0], " ");
      PaddedSplit(" ", names[1..]);
      FrontRest(names);
    }
  }

  /** `Union[...]` as griffe prints a subscript of the name `Union`. */
  lemma UnwrapWrapped(t: string)
    ensures UnwrapUnion("Union" + "[" + t + "]") == t
  {
    var w := "Union" + "[" + t + "]";
    assert w[..6] == "Union[";
    assert w[|w| - 1..] == "]";
    assert w[6..|w| - 1] == t;
  }

  lemma UnwrapPlain(t: string)
    requires '[' !in t
    ensures UnwrapUnion(t) == t
  {
    assert |t| < 6 || t[..6][5] != '[';
  }

  /** Plain names joined by ` | ` hold no `[`. */
  lemma {:induction false} NoBracketInJoin(names: seq<string>)
    requires forall i :: 0 <= i < |names| ==> PlainName(names[i])
    ensures '[' !in Join(names, " | ")
  {
    if '[' in Join(names, " | ") {
      JoinElements(names, " | ", '[');
    }
  }

  lemma EmptyPrefix(s: string)
    ensures "" + s == s
  {
  }

  lemma PlainAlternationNames(names: seq<string>)
    requires names != []
    requires forall i :: 0 <= i < |names| ==> PlainName(names[i])
    ensures MemberNames(Join(names, " | ")) == names
  {
    var text := Join(names, " | ");
    assert forall i :: 0 <= i < |names| ==> Trimmed(names[i]) && '|' !in names[i];
    assert AllSpace("");
    PaddedSplit("", names);
    EmptyPrefix(text);
  }

  lemma PlainAlternationUnwrapped(names: seq<string>)
    requires forall i :: 0 <= i < |names| ==> PlainName(names[i])
    ensures UnwrapUnion(Join(names, " | ")) == Join(names, " | ")
  {
    NoBracketInJoin(names);
    UnwrapPlain(Join(names, " | "));
  }

  /** The ` | `-joined text of plain names parses back to those names and has
      no `Union[...]` wrapper to remove. */
  lemma PlainAlternationText(names: seq<string>)
    requires names != []
    requires forall i :: 0 <= i < |names| ==> PlainName(names[i])
    ensures MemberNames(Join(names, " | ")) == names
    ensures UnwrapUnion(Join(names, " | ")) == Join(names, " | ")
  {
    PlainAlternationNames(names);
    PlainAlternationUnwrapped(names);
  }

  /** The printed form of `Union[...]` around an alternation. */
  lemma RenderWrappedAlternation(es: seq<Expr>, unionPath: string)
    requires |es| >= 1
    ensures UnwrapUnion(Render(Subscript(Name("Union", unionPath), Alternation(es)))) == Join(Map(es, Render), " | ")
  {
    var text := Join(Map(es, Render), " | ");
    RenderAlternation(es);
    UnwrapWrapped(text);
    assert Render(Subscript(Name("Union", unionPath), Alternation(es))) == "Union" + "[" + text + "]";
  }

  /** Union member parsing reads back the names of an alternation of plain
      names, written either as `A | B | ...` or as `Union[A | B | ...]`. */
  lemma UnionMemberNamesRoundTrip(es: seq<Expr>, unionPath: string)
    requires |es| >= 1
    requires forall i :: 0 <= i < |es| ==> es[i].Name? && PlainName(es[i].name)
    ensures UnionMemberNames(Alternation(es)) == Map(es, Render)
    ensures UnionMemberNames(Subscript(Name("Union", unionPath), Alternation(es))) == Map(es, Render)
  {
    var names := Map(es, Render);
    assert forall i :: 0 <= i < |names| ==> names[i] == es[i].name;
    PlainAlternationText(names);
    RenderAlternation(es);
    RenderWrappedAlternation(es, unionPath);
  }

  /** `A, B` has no `|` to split on, so it is read as one name. */
  lemma CommaPairOneName(a: string, b: string)
    requires PlainName(a) && PlainName(b)
    ensures MemberNames(a + ", " + b) == [a + ", " + b]
  {
    var text := a + ", " + b;
    assert '|' !in text;
    assert Trimmed(text);
    PaddedName("", text);
    assert "" + text == text;
  }

  /** The `Union[A, B]` spelling is classified as a union, but its member text
      is not split on the comma, so it resolves only if the module has a
      member literally named `A, B`. */
  lemma TupleUnionUnresolved(a: string, pathA: string, b: string, pathB: string, unionPath: string, models: seq<Member>)
    requires PlainName(a) && PlainName(b)
    requires Get(models, a + ", " + b).None?
    ensures var value := Subscript(Name("Union", unionPath), Tuple([Name(a, pathA), Name(b, pathB)]));
      && UnionMemberNames(value) == [a + ", " + b]
      && ResolveNames(UnionMemberNames(value), models) == Failure(UnknownUnionMember(a + ", " + b))
  {
    var text := a + ", " + b;
    RenderUnionPair(a, pathA, b, pathB, unionPath);
    CommaPairOneName(a, b);
    assert [text][..0] == [];
  }

  /** `_is_union` accepts a binary operator expression whatever its
      operator: `A & B` is classified as a union, and since its text holds no
      `|` it is read as the single member name `A & B`, which resolves only
      if the module has a member literally named so. */
  lemma AnyOperatorIsUnion(m: Member, a: string, pathA: string, b: string, pathB: string, models: seq<Member>)
    requires m.kind == AttributeKind(Some(BinOp(Name(a, pathA), "&", Name(b, pathB))))
    requires PlainName(a) && PlainName(b)
    requires Get(models, a + " & " + b).None?
    ensures IsUnion(m)
    ensures UnionMemberNames(m.kind.value.value) == [a + " & " + b]
    ensures ResolveNames(UnionMemberNames(m.kind.value.value), models) == Failure(UnknownUnionMember(a + " & " + b))
  {
    var text := a + " & " + b;
    assert Render(m.kind.value.value) == text;
    assert '[' !in text;
    UnwrapPlain(text);
    assert '|' !in text;
    assert Trimmed(text);
    PaddedName("", text);
    assert "" + text == text;
    assert [text][..0] == [];
  }

  lemma RenderUnionPair(a: string, pathA: string, b: string, pathB: string, unionPath: string)
    ensures UnwrapUnion(Render(Subscript(Name("Union", unionPath), Tuple([Name(a, pathA), Name(b, pathB)])))) == a + ", " + b
  {
    var es := [Name(a, pathA), Name(b, pathB)];
    var text := a + ", " + b;
    var parts := seq(|es|, i requires 0 <= i < |es| => Render(es[i]));
    assert parts == [a, b];
    assert [a, b][1..] == [b];
    assert Join([a, b], ", ") == text;
    assert Render(Tuple(es)) == text;
    UnwrapWrapped(text);
  }
}
