/** Lowering of one method leaf into a calling promise plus a standalone
    `call_<id>` bundle holding the reporting and execution logic. */
module MethodCall {
  import opened Wrappers
  import opened Conditions
  import opened Methods
  import opened TechniqueIr
  import opened Cfengine

  /** Helpers of the agent backend whose definitions are not part of this
      model: identifier canonification, string quoting, variable expansion
      and the rendering of a condition. */
  datatype Helpers = Helpers(
    canonify: string -> string,
    quoted: string -> string,
    expanded: string -> string,
    conditionText: Condition -> string)

  /** What the lowering demands of its caller: a non-empty method name and
      resolved metadata. */
  predicate Compilable(m: Method)
  {
    m.name != "" && m.info.Some?
  }

  /** Every formal parameter of the signature has a supplied value. */
  predicate ParametersSupplied(m: Method)
    requires m.info.Some?
  {
    forall i :: 0 <= i < |m.info.value.parameter| ==> m.info.value.parameter[i] in m.params
  }

  const DirectiveScope := "_${report_data.directive_id}"
  const ForwardedArgs := "@{args}"
  const FixedFormals: seq<string> := ["c_name", "c_key", "report_id", "args"]

  /** The per-invocation report identity of a method. */
  function Unique(id: Id): string
  {
    id + DirectiveScope
  }

  /** The variable holding the value of the primary-key parameter. */
  function ReportParameter(info: MethodInfo): string
  {
    "${" + info.classParameter + "}"
  }

  /** The class that marks the method as not applicable. */
  function NaCondition(info: MethodInfo): string
  {
    "canonify(\"${class_prefix}_" + info.bundleName + "_" + ReportParameter(info) + "\")"
  }

  function MissingParameterMessage(p: string): string
  {
    "Missing parameter " + p
  }

  // ---------------------------------------------------------------------
  // Parameter resolution
  // ---------------------------------------------------------------------

  /** Looks up each formal parameter, in signature order, in the supplied
      values; the first missing one aborts with an error naming it. */
  function Resolve(formals: seq<string>, params: map<string, string>, quoted: string -> string): Result<seq<string>>
  {
    if |formals| == 0 then Ok([])
    else if formals[0] !in params then Err(MissingParameterMessage(formals[0]))
    else
      var rest :- Resolve(formals[1..], params, quoted);
      Ok([quoted(params[formals[0]])] + rest)
  }

  /** When every formal is supplied, resolution succeeds with one quoted
      value per formal, in signature order. */
  lemma {:induction false} ResolveAllSupplied(formals: seq<string>, params: map<string, string>, quoted: string -> string)
    requires forall i :: 0 <= i < |formals| ==> formals[i] in params
    ensures Resolve(formals, params, quoted).Ok?
    ensures var vs := Resolve(formals, params, quoted).value;
      |vs| == |formals| && forall i :: 0 <= i < |formals| ==> vs[i] == quoted(params[formals[i]])
  {
    if |formals| > 0 {
      ResolveAllSupplied(formals[1..], params, quoted);
    }
  }

  /** When formal `i` is the first one missing, resolution fails naming it. */
  lemma {:induction false} ResolveFirstMissing(formals: seq<string>, params: map<string, string>, quoted: string -> string, i: nat)
    requires i < |formals| && formals[i] !in params
    requires forall j :: 0 <= j < i ==> formals[j] in params
    ensures Resolve(formals, params, quoted) == Err(MissingParameterMessage(formals[i]))
  {
    if i > 0 {
      ResolveFirstMissing(formals[1..], params, quoted, i - 1);
    }
  }

  /** Resolution fails exactly when some formal is missing; the error then
      names a missing formal. */
  lemma {:induction false} ResolveFailsIffMissing(formals: seq<string>, params: map<string, string>, quoted: string -> string)
    ensures Resolve(formals, params, quoted).Err? <==> exists i :: 0 <= i < |formals| && formals[i] !in params
    ensures Resolve(formals, params, quoted).Err? ==>
      exists i :: 0 <= i < |formals| && formals[i] !in params &&
        Resolve(formals, params, quoted).error == MissingParameterMessage(formals[i])
  {
    if |formals| > 0 {
      ResolveFailsIffMissing(formals[1..], params, quoted);
      if formals[0] in params && Resolve(formals, params, quoted).Err? {
        var i :| 0 <= i < |formals[1..]| && formals[1..][i] !in params &&
          Resolve(formals[1..], params, quoted).error == MissingParameterMessage(formals[1..][i]);
        assert formals[i + 1] !in params;
      }
      if exists i :: 0 <= i < |formals| && formals[i] !in params {
        var i :| 0 <= i < |formals| && formals[i] !in params;
        if i > 0 { assert formals[1..][i - 1] !in params; }
      }
    }
  }

  /** The parameter loop: pushes the quoted value of each formal, in order,
      and bails out on the first missing one. */
  method ResolveParameters(formals: seq<string>, params: map<string, string>, quoted: string -> string)
    returns (r: Result<seq<string>>)
    ensures r == Resolve(formals, params, quoted)
  {
    var parameters: seq<string> := [];
    var i := 0;
    while i < |formals|
      invariant 0 <= i <= |formals|
      invariant forall j :: 0 <= j < i ==> formals[j] in params
      invariant |parameters| == i
      invariant forall j :: 0 <= j < i ==> parameters[j] == quoted(params[formals[j]])
    {
      if formals[i] !in params {
        ResolveFirstMissing(formals, params, quoted, i);
        return Err(MissingParameterMessage(formals[i]));
      }
      parameters := parameters + [quoted(params[formals[i]])];
      i := i + 1;
    }
    ResolveAllSupplied(formals, params, quoted);
    assert parameters == Resolve(formals, params, quoted).value;
    r := Ok(parameters);
  }

  // ---------------------------------------------------------------------
  // The promises of the generated bundle
  // ---------------------------------------------------------------------

  /** The promises the lowering may emit for one method. */
  datatype Fragments = Fragments(
    context: Promise,
    call: Promise,
    naMarker: Promise,
    skipLog: Promise,
    unavailable: Promise,
    disableReport: Promise,
    enableReport: Promise)

  /** Every fragment is an unguarded bundle call. */
  predicate Unguarded(f: Fragments)
  {
    f.context.UseBundle? && f.call.UseBundle? && f.naMarker.UseBundle? && f.skipLog.UseBundle?
    && f.unavailable.UseBundle? && f.disableReport.UseBundle? && f.enableReport.UseBundle?
  }

  /** Builds the fragments for method `m` with metadata `info` and resolved
      argument values `parameters`. */
  function MakeFragments(m: Method, info: MethodInfo, parameters: seq<string>, h: Helpers): Fragments
  {
    var component := Some(m.name);
    var unique := Some(Unique(m.id));
    var key := ReportParameter(info);
    var na := NaCondition(info);
    var skipMessage := "Skipping method '" + info.name + "' with key parameter '" + key
                       + "' since condition '" + h.conditionText(m.condition) + "' is not reached";
    Fragments(
      UseBundle("_method_reporting_context_v4", component, unique,
                [h.expanded("c_name"), h.expanded("c_key"), h.expanded("report_id")]),
      UseBundle(info.bundleName, component, unique, parameters),
      UseBundle("_classes_noop", component, unique, [na]),
      UseBundle("log_rudder", component, unique,
                [h.quoted(skipMessage), h.quoted(key), na, na, ForwardedArgs]),
      UseBundle("log_na_rudder", component, unique,
                [h.quoted("'" + key + "' method is not available on classic Rudder agent, skip"),
                 h.quoted(key), h.quoted(Unique(m.id)), ForwardedArgs]),
      UseBundle("disable_reporting", component, unique, []),
      UseBundle("enable_reporting", component, unique, []))
  }

  /** The case split on the condition and on agent support. */
  function Branch(cond: Condition, supported: bool, f: Fragments): seq<Promise>
  {
    if !supported then [f.context, f.unavailable]
    else
      match cond
      case Expression(_) =>
        [f.context, IfCondition(cond, f.call), UnlessCondition(cond, f.naMarker), UnlessCondition(cond, f.skipLog)]
      case NotDefined => [f.context, f.naMarker, f.skipLog]
      case Defined => [f.context, f.call]
  }

  /** Brackets the promises between disabling and enabling reporting when the
      leaf's reporting is disabled. */
  function WrapReporting(reporting: LeafReporting, f: Fragments, promises: seq<Promise>): seq<Promise>
  {
    match reporting
    case Disabled => [f.disableReport] + promises + [f.enableReport]
    case Enabled => promises
  }

  /** The name of the generated bundle. */
  function BundleName(id: Id, h: Helpers): string
  {
    "call_" + h.canonify(id)
  }

  /** The arguments of the calling promise. */
  function CallArguments(m: Method, info: MethodInfo, parameters: seq<string>, h: Helpers): seq<string>
  {
    [h.quoted(m.name), h.quoted(ReportParameter(info)), h.quoted(m.id), ForwardedArgs] + parameters
  }

  /** The whole lowering, as a function of the method and the helpers. */
  function Compile(m: Method, h: Helpers): Result<(Promise, Bundle)>
    requires Compilable(m)
  {
    var info := m.info.value;
    var parameters :- Resolve(info.parameter, m.params, h.quoted);
    var f := MakeFragments(m, info, parameters, h);
    var name := BundleName(m.id, h);
    Ok((UseBundle(name, None, Some(Unique(m.id)), CallArguments(m, info, parameters, h)),
        Bundle(name, FixedFormals + info.parameter,
               WrapReporting(m.reporting, f, Branch(m.condition, IsSupported(info), f)))))
  }

  /** The `TryFrom<Method>` lowering, step by step as the backend does it. */
  method Lower(m: Method, h: Helpers) returns (r: Result<(Promise, Bundle)>)
    requires Compilable(m)
    ensures r == Compile(m, h)
  {
    var info := m.info.value;
    var resolved := ResolveParameters(info.parameter, m.params, h.quoted);
    if resolved.Err? {
      return Err(resolved.error);
    }
    var parameters := resolved.value;
    var f := MakeFragments(m, info, parameters, h);
    var promises := Branch(m.condition, IsSupported(info), f);
    var bundleContent: seq<Promise>;
    match m.reporting {
      case Disabled =>
        var res := [f.disableReport];
        res := res + promises;
        res := res + [f.enableReport];
        bundleContent := res;
      case Enabled =>
        bundleContent := promises;
    }
    var bundleName := "call_" + h.canonify(m.id);
    var callParameters := [h.quoted(m.name), h.quoted(ReportParameter(info)), h.quoted(m.id), ForwardedArgs];
    callParameters := callParameters + parameters;
    var bundleCall := UseBundle(bundleName, None, Some(Unique(m.id)), callParameters);
    var methodParameters := FixedFormals;
    methodParameters := methodParameters + info.parameter;
    r := Ok((bundleCall, Bundle(bundleName, methodParameters, bundleContent)));
  }

  // ---------------------------------------------------------------------
  // Properties of the lowering
  // ---------------------------------------------------------------------

  /** The fragments of a method whose parameters all resolve. */
  function FragmentsOf(m: Method, h: Helpers): Fragments
    requires Compilable(m) && ParametersSupplied(m)
  {
    ResolveAllSupplied(m.info.value.parameter, m.params, h.quoted);
    MakeFragments(m, m.info.value, Resolve(m.info.value.parameter, m.params, h.quoted).value, h)
  }

  /** A missing formal parameter makes the lowering fail with an error naming
      the first missing one, whatever the condition and reporting policy. */
  lemma CompileMissingParameter(m: Method, h: Helpers, i: nat)
    requires Compilable(m)
    requires i < |m.info.value.parameter| && m.info.value.parameter[i] !in m.params
    requires forall j :: 0 <= j < i ==> m.info.value.parameter[j] in m.params
    ensures Compile(m, h) == Err(MissingParameterMessage(m.info.value.parameter[i]))
  {
    ResolveFirstMissing(m.info.value.parameter, m.params, h.quoted, i);
  }

  /** The lowering fails exactly when some formal parameter is missing. */
  lemma CompileFailsIffMissing(m: Method, h: Helpers)
    requires Compilable(m)
    ensures Compile(m, h).Err? <==> !ParametersSupplied(m)
  {
    ResolveFailsIffMissing(m.info.value.parameter, m.params, h.quoted);
  }

  /** A successful lowering, spelled out in terms of its parts. */
  lemma CompileUnfold(m: Method, h: Helpers)
    requires Compilable(m) && ParametersSupplied(m)
    ensures Resolve(m.info.value.parameter, m.params, h.quoted).Ok?
    ensures var info := m.info.value;
      var parameters := Resolve(info.parameter, m.params, h.quoted).value;
      var f := FragmentsOf(m, h);
      var name := BundleName(m.id, h);
      && f == MakeFragments(m, info, parameters, h)
      && Compile(m, h) ==
         Ok((UseBundle(name, None, Some(Unique(m.id)), CallArguments(m, info, parameters, h)),
             Bundle(name, FixedFormals + info.parameter,
                    WrapReporting(m.reporting, f, Branch(m.condition, IsSupported(info), f)))))
  {
    ResolveAllSupplied(m.info.value.parameter, m.params, h.quoted);
  }

  /** Every fragment names the method's report identity. */
  lemma BodyTagged(m: Method, h: Helpers)
    requires Compilable(m) && ParametersSupplied(m)
    ensures var f := FragmentsOf(m, h);
      forall p :: p in WrapReporting(m.reporting, f, Branch(m.condition, IsSupported(m.info.value), f)) ==>
        TaggedWith(p, Unique(m.id))
  {
  }

  /** The shape of a successful lowering: the bundle's name, the calling
      promise and its arguments, the bundle's formals, and the report
      identity shared by every promise. */
  lemma CompileInterface(m: Method, h: Helpers)
    requires Compilable(m) && ParametersSupplied(m)
    ensures Compile(m, h).Ok?
    ensures var (call, bundle) := Compile(m, h).value;
      var info := m.info.value;
      && bundle.name == "call_" + h.canonify(m.id)
      && call.UseBundle? && call.bundle == bundle.name
      && call.component == None && call.id == Some(m.id + "_${report_data.directive_id}")
      && |call.args| == 4 + |info.parameter|
      && call.args[..4] == [h.quoted(m.name), h.quoted("${" + info.classParameter + "}"), h.quoted(m.id), "@{args}"]
      && (forall i :: 0 <= i < |info.parameter| ==> call.args[4 + i] == h.quoted(m.params[info.parameter[i]]))
      && |bundle.parameters| == 4 + |info.parameter|
      && bundle.parameters == ["c_name", "c_key", "report_id", "args"] + info.parameter
      && (forall p :: p in bundle.promises ==> TaggedWith(p, m.id + "_${report_data.directive_id}"))
  {
    var info := m.info.value;
    CompileUnfold(m, h);
    BodyTagged(m, h);
    ResolveAllSupplied(info.parameter, m.params, h.quoted);
    var parameters := Resolve(info.parameter, m.params, h.quoted).value;
    var args := CallArguments(m, info, parameters, h);
    assert args[..4] == [h.quoted(m.name), h.quoted(ReportParameter(info)), h.quoted(m.id), ForwardedArgs];
    assert forall i :: 0 <= i < |info.parameter| ==> args[4 + i] == parameters[i];
  }

  /** Every fragment carries the method's name as component and its report
      identity: the reporting context, the method's own bundle on the
      resolved arguments, the N/A marker on the N/A class, the skip message
      (naming the method, the key variable and the condition, then the N/A
      class twice), the "not available" message, and the two reporting
      toggles. */
  lemma FragmentsContents(m: Method, h: Helpers)
    requires Compilable(m) && ParametersSupplied(m)
    ensures var f := FragmentsOf(m, h);
      var info := m.info.value;
      && f.context == UseBundle("_method_reporting_context_v4", Some(m.name), Some(Unique(m.id)),
                                [h.expanded("c_name"), h.expanded("c_key"), h.expanded("report_id")])
      && f.call.UseBundle? && f.call.bundle == info.bundleName && f.call.component == Some(m.name)
      && f.call.id == Some(Unique(m.id))
      && |f.call.args| == |info.parameter|
      && (forall i :: 0 <= i < |info.parameter| ==> f.call.args[i] == h.quoted(m.params[info.parameter[i]]))
      && f.naMarker == UseBundle("_classes_noop", Some(m.name), Some(Unique(m.id)), [NaCondition(info)])
      && f.skipLog.UseBundle? && f.skipLog.bundle == "log_rudder"
      && f.skipLog.component == Some(m.name) && f.skipLog.id == Some(Unique(m.id))
      && f.skipLog.args == [h.quoted("Skipping method '" + info.name + "' with key parameter '" + ReportParameter(info)
                                     + "' since condition '" + h.conditionText(m.condition) + "' is not reached"),
                            h.quoted(ReportParameter(info)), NaCondition(info), NaCondition(info), "@{args}"]
      && f.unavailable ==
           UseBundle("log_na_rudder", Some(m.name), Some(Unique(m.id)),
                     [h.quoted("'" + ReportParameter(info) + "' method is not available on classic Rudder agent, skip"),
                      h.quoted(ReportParameter(info)), h.quoted(Unique(m.id)), "@{args}"])
      && f.disableReport == UseBundle("disable_reporting", Some(m.name), Some(Unique(m.id)), [])
      && f.enableReport == UseBundle("enable_reporting", Some(m.name), Some(Unique(m.id)), [])
  {
    ResolveAllSupplied(m.info.value.parameter, m.params, h.quoted);
  }

  /** `Defined` on a supported agent: the context, then the unguarded call. */
  lemma CompileDefinedSupported(m: Method, h: Helpers)
    requires Compilable(m) && ParametersSupplied(m) && m.reporting.Enabled?
    requires m.condition == Defined && IsSupported(m.info.value)
    ensures Compile(m, h).Ok?
    ensures var f := FragmentsOf(m, h); Compile(m, h).value.1.promises == [f.context, f.call]
  {
    ResolveAllSupplied(m.info.value.parameter, m.params, h.quoted);
  }

  /** An expression on a supported agent: the context, the call guarded by the
      expression, and the not-applicable marker and skip message guarded by
      its negation. */
  lemma CompileExpressionSupported(m: Method, h: Helpers)
    requires Compilable(m) && ParametersSupplied(m) && m.reporting.Enabled?
    requires m.condition.Expression? && IsSupported(m.info.value)
    ensures Compile(m, h).Ok?
    ensures var f := FragmentsOf(m, h); var c := m.condition;
      && Compile(m, h).value.1.promises ==
         [f.context, IfCondition(c, f.call), UnlessCondition(c, f.naMarker), UnlessCondition(c, f.skipLog)]
      && |Compile(m, h).value.1.promises| == 4
  {
    ResolveAllSupplied(m.info.value.parameter, m.params, h.quoted);
  }

  /** `NotDefined` on a supported agent: the context, then the unguarded
      not-applicable marker and skip message; nothing is guarded. */
  lemma CompileNotDefinedSupported(m: Method, h: Helpers)
    requires Compilable(m) && ParametersSupplied(m) && m.reporting.Enabled?
    requires m.condition == NotDefined && IsSupported(m.info.value)
    ensures Compile(m, h).Ok?
    ensures var f := FragmentsOf(m, h); var body := Compile(m, h).value.1.promises;
      && body == [f.context, f.naMarker, f.skipLog]
      && forall p :: p in body ==> p.UseBundle?
  {
    ResolveAllSupplied(m.info.value.parameter, m.params, h.quoted);
  }

  /** An agent without support: the context and the "not available"
      message, whatever the condition. */
  lemma CompileUnsupported(m: Method, h: Helpers)
    requires Compilable(m) && ParametersSupplied(m) && m.reporting.Enabled?
    requires !IsSupported(m.info.value)
    ensures Compile(m, h).Ok?
    ensures var f := FragmentsOf(m, h); Compile(m, h).value.1.promises == [f.context, f.unavailable]
  {
    ResolveAllSupplied(m.info.value.parameter, m.params, h.quoted);
  }

  /** Disabling reporting brackets the body of the same method with reporting
      enabled between the disable and enable promises, and changes nothing
      else. */
  lemma CompileDisabledWraps(m: Method, h: Helpers)
    requires Compilable(m) && m.reporting.Disabled?
    ensures var e := m.(reporting := Enabled);
      && (Compile(m, h).Ok? <==> Compile(e, h).Ok?)
      && (Compile(m, h).Err? ==> Compile(m, h) == Compile(e, h))
      && (Compile(m, h).Ok? ==>
            var (call, bundle) := Compile(m, h).value;
            var (call', bundle') := Compile(e, h).value;
            var f := MakeFragments(m, m.info.value, Resolve(m.info.value.parameter, m.params, h.quoted).value, h);
            && call == call' && bundle.name == bundle'.name && bundle.parameters == bundle'.parameters
            && bundle.promises == [f.disableReport] + bundle'.promises + [f.enableReport]
            && f.disableReport == UseBundle("disable_reporting", Some(m.name), Some(Unique(m.id)), [])
            && f.enableReport == UseBundle("enable_reporting", Some(m.name), Some(Unique(m.id)), []))
  {
  }

  /** The calls the branch sequence performs at run time. */
  lemma BranchTrace(cond: Condition, supported: bool, f: Fragments, env: string -> bool)
    requires Unguarded(f)
    ensures Trace(Branch(cond, supported, f), env) ==
      [f.context] + (if !supported then [f.unavailable]
                     else if Holds(cond, env) then [f.call]
                     else [f.naMarker, f.skipLog])
  {
    var branch := Branch(cond, supported, f);
    assert branch == [f.context] + branch[1..];
    TraceAppend([f.context], branch[1..], env);
    TraceSingle(f.context, env);
    if !supported {
      assert branch[1..] == [f.unavailable];
      TraceSingle(f.unavailable, env);
    } else {
      match cond
      case Defined =>
        TraceSingle(f.call, env);
      case NotDefined =>
        assert branch[1..] == [f.naMarker] + [f.skipLog];
        TraceAppend([f.naMarker], [f.skipLog], env);
        TraceSingle(f.naMarker, env);
        TraceSingle(f.skipLog, env);
      case Expression(_) =>
        var rest := [UnlessCondition(cond, f.naMarker)] + [UnlessCondition(cond, f.skipLog)];
        assert branch[1..] == [IfCondition(cond, f.call)] + rest;
        TraceAppend([IfCondition(cond, f.call)], rest, env);
        TraceAppend([UnlessCondition(cond, f.naMarker)], [UnlessCondition(cond, f.skipLog)], env);
        TraceSingle(IfCondition(cond, f.call), env);
        TraceSingle(UnlessCondition(cond, f.naMarker), env);
        TraceSingle(UnlessCondition(cond, f.skipLog), env);
    }
  }

  /** The toggles of disabled reporting run before and after the body. */
  lemma WrapTrace(reporting: LeafReporting, f: Fragments, ps: seq<Promise>, env: string -> bool)
    requires Unguarded(f)
    ensures Trace(WrapReporting(reporting, f, ps), env) ==
      if reporting.Disabled? then [f.disableReport] + Trace(ps, env) + [f.enableReport] else Trace(ps, env)
  {
    if reporting.Disabled? {
      assert WrapReporting(reporting, f, ps) == [f.disableReport] + ps + [f.enableReport];
      TraceAppend([f.disableReport] + ps, [f.enableReport], env);
      TraceAppend([f.disableReport], ps, env);
      TraceSingle(f.disableReport, env);
      TraceSingle(f.enableReport, env);
    }
  }

  /** What the generated bundle does at run time: the reporting context
      always runs first (inside the reporting toggles when reporting is
      disabled); then the method runs when the agent supports it and the
      condition holds, the not-applicable marker and skip message run when
      it is supported and the condition does not hold, and the "not
      available" message runs otherwise. */
  lemma CompileRuntime(m: Method, h: Helpers, env: string -> bool)
    requires Compilable(m) && ParametersSupplied(m)
    ensures Compile(m, h).Ok?
    ensures var f := FragmentsOf(m, h);
      var outcome := if !IsSupported(m.info.value) then [f.unavailable]
                     else if Holds(m.condition, env) then [f.call]
                     else [f.naMarker, f.skipLog];
      var run := [f.context] + outcome;
      Trace(Compile(m, h).value.1.promises, env) ==
        if m.reporting.Disabled? then [f.disableReport] + run + [f.enableReport] else run
  {
    CompileUnfold(m, h);
    var f := FragmentsOf(m, h);
    var branch := Branch(m.condition, IsSupported(m.info.value), f);
    BranchTrace(m.condition, IsSupported(m.info.value), f, env);
    WrapTrace(m.reporting, f, branch, env);
  }

  /** A one-promise sequence performs the calls of that promise. */
  lemma TraceSingle(p: Promise, env: string -> bool)
    ensures Trace([p], env) == Runs(p, env)
  {
  }

  /** Metadata of a `package_present` method: human name "Package present",
      key parameter `name`, that one formal, supported on the classic agent. */
  function PackagePresentInfo(): MethodInfo
  {
    MethodInfo("Package present", "name", ["name"], "package_present", {CfengineCommunity})
  }

  /** An example method: an unconditional, supported `package_present` call
      on "nginx", with identifier `m1` and reporting enabled. */
  function PackagePresentMethod(): Method
  {
    Method("Package present", None, Defined, map["name" := "nginx"], "package_present",
           "m1", LeafReporting.Enabled, Some(PackagePresentInfo()))
  }

  /** The example method's bundle body is the reporting context followed by
      the `package_present` call on the quoted package name. */
  lemma PackagePresentBody(h: Helpers)
    ensures Compile(PackagePresentMethod(), h).Ok?
    ensures Compile(PackagePresentMethod(), h).value.1.name == "call_" + h.canonify("m1")
    ensures Compile(PackagePresentMethod(), h).value.1.promises ==
      [UseBundle("_method_reporting_context_v4", Some("Package present"), Some(Unique("m1")),
                 [h.expanded("c_name"), h.expanded("c_key"), h.expanded("report_id")]),
       UseBundle("package_present", Some("Package present"), Some(Unique("m1")), [h.quoted("nginx")])]
  {
    var m := PackagePresentMethod();
    assert m.info.value.parameter[0] == "name";
    assert ParametersSupplied(m);
    CompileDefinedSupported(m, h);
    CompileInterface(m, h);
    FragmentsContents(m, h);
    assert FragmentsOf(m, h).call.args == [h.quoted("nginx")];
  }

  /** The example method's calling promise invokes `call_<canonified m1>`
      with the component, the key variable, the id, the forwarded arguments
      and the quoted package name. */
  lemma PackagePresentCall(h: Helpers)
    ensures Compile(PackagePresentMethod(), h).Ok?
    ensures Compile(PackagePresentMethod(), h).value.0 ==
      UseBundle("call_" + h.canonify("m1"), None, Some(Unique("m1")),
                [h.quoted("Package present"), h.quoted(ReportParameter(PackagePresentInfo())), h.quoted("m1"),
                 "@{args}", h.quoted("nginx")])
  {
    var m := PackagePresentMethod();
    assert m.info.value.parameter[0] == "name";
    assert ParametersSupplied(m);
    CompileInterface(m, h);
    var args := Compile(m, h).value.0.args;
    assert args == args[..4] + [args[4]];
  }

  /** The report identity and key variable of the example method. */
  lemma PackagePresentNames()
    ensures Unique("m1") == "m1_${report_data.directive_id}"
    ensures ReportParameter(PackagePresentInfo()) == "${name}"
  {
  }
}
