# rudderc technique IR and method lowering, in Dafny

This project models two parts of `rudderc`, the Rudder policy compiler:

- the technique intermediate representation (`ir/technique.rs`): validated
  identifiers (`Id`), the item tree (`Block` / `Module` / `Method` under
  `ItemKind`), the reporting policies `BlockReporting` and `LeafReporting`
  with their labels and defaults, and the classification of an item record
  by the keys it carries;
- the lowering of one method leaf for the Unix (ncf/CFEngine) backend
  (`backends/unix/ncf/method_call.rs`): a `Method` with resolved
  `MethodInfo` becomes a calling `Promise` plus a bundle `call_<canonified
  id>` whose body is chosen by the condition, by whether the classic agent
  supports the method, and by the leaf's reporting policy.

Modules:

- `Wrappers` (`wrappers.dfy`): `Option` and `Result`; errors are the
  operator-facing message.
- `Conditions` (`conditions.dfy`): `Condition = Defined | NotDefined |
  Expression(e)` and `Holds`, the run-time meaning of a guard given the
  agent's truth value for each class expression.
- `Methods` (`methods.dfy`): `Agent` and `MethodInfo` (human name, class
  parameter, ordered formal parameter names, bundle name, supported agents).
- `TechniqueIr` (`technique.dfy`): the IR and its operations.
- `Cfengine` (`cfengine.dfy`): `Promise` (a `usebundle` call with component,
  report id and arguments, or such a call under an `if` / `unless`
  condition), `Bundle`, and `Trace`, the bundle calls a promise sequence
  performs at run time.
- `MethodCall` (`method_call.dfy`): parameter resolution (`Resolve`, and the
  loop `ResolveParameters`), the fragments of the generated bundle, the
  condition × support case split (`Branch`), the reporting wrap, the whole
  lowering as a function (`Compile`) and as the step-by-step method
  (`Lower`, proved equal to `Compile`, hence deterministic), and the
  properties of the lowering.

Definitions and the source lines each stands for (their properties are the
lemmas and contracts in the table below):

- `TechniqueIr.Id` and `TechniqueIr.IdToString`: the `Id` type with its `AsRef`, `From<Id> for String` and `Display`, policies/rudderc/src/ir/technique.rs:13-32 and 62-66.
- `TechniqueIr.Technique`, `TechniqueIr.Parameter`, `TechniqueIr.ItemKind`, `TechniqueIr.Block`, `TechniqueIr.Module`, `TechniqueIr.Method`: the IR records, policies/rudderc/src/ir/technique.rs:68-187 (`Technique` 68-88, `Parameter` 90-102, `ItemKind` 110-116, `Block` 144-155, `Module` 157-170, `Method` 172-187).
- `TechniqueIr.IdChar`: `valid_char`, policies/rudderc/src/ir/technique.rs:38-40.
- `TechniqueIr.Classify`: the key-priority `match`, policies/rudderc/src/ir/technique.rs:129-140.
- `TechniqueIr.BlockReporting.Display`: policies/rudderc/src/ir/technique.rs:204-217.
- `TechniqueIr.BlockReportingFromLabel`: the serde renames and the `enabled` alias, policies/rudderc/src/ir/technique.rs:189-202.
- `TechniqueIr.LeafReporting.Label`: the serde renames, policies/rudderc/src/ir/technique.rs:220-226.
- `MethodCall.Resolve`: the parameter loop, policies/rudderc/src/backends/unix/ncf/method_call.rs:53-59.
- `MethodCall.MakeFragments`: the promises built before the case split, policies/rudderc/src/backends/unix/ncf/method_call.rs:61-91 (with the skip and "not available" promises of lines 97-132).
- `MethodCall.Branch`: the condition × support `match`, policies/rudderc/src/backends/unix/ncf/method_call.rs:93-134.
- `MethodCall.WrapReporting`: the reporting `match`, policies/rudderc/src/backends/unix/ncf/method_call.rs:135-143.
- `MethodCall.Compile`: the whole `try_from`, policies/rudderc/src/backends/unix/ncf/method_call.rs:37-170.

The backend helpers `canonify`, `quoted` and `expanded`, and the rendering of
a `Condition` as text, are not part of this model; they are fields of the
`Helpers` value passed to the lowering, so every property holds for any
definition of them.

## Model

| member | source | states |
|---|---|---|
| `TechniqueIr.AllIdChars` | policies/rudderc/src/ir/technique.rs:38-42 | the character scan accepts a string exactly when every character is an ASCII letter, an ASCII digit, `-` or `_` |
| `TechniqueIr.FromStr` | policies/rudderc/src/ir/technique.rs:37-49 | building an `Id` succeeds iff every character is valid; on success the identifier is the input unchanged; on failure the error is `Invalid id: ` followed by the input |
| `TechniqueIr.IdRoundTrip` | policies/rudderc/src/ir/technique.rs:22-66 | displaying a built identifier gives back the input string, and every identifier parses back to itself |
| `TechniqueIr.EmptyIdAccepted` | policies/rudderc/src/ir/technique.rs:42 | the empty string is accepted as an identifier |
| `TechniqueIr.IdConcat` | policies/rudderc/src/ir/technique.rs:37-49 | a concatenation is a valid identifier exactly when both parts are |
| `TechniqueIr.InvalidIdNamesInput` | policies/rudderc/src/ir/technique.rs:46-48 | a rejected string contains an invalid character and the error message ends with the rejected string |
| `TechniqueIr.BlockReportingDisplayInjective` | policies/rudderc/src/ir/technique.rs:204-217 | two block reporting policies with the same label are equal, including `Focus` on two components |
| `TechniqueIr.BlockReportingLabelRoundTrip` | policies/rudderc/src/ir/technique.rs:189-217 | the label of each argument-free block policy reads back as that policy; `Focus(s)` renders as `focus(` + s + `)` |
| `TechniqueIr.LeafReportingFromLabel` | policies/rudderc/src/ir/technique.rs:220-226 | a leaf policy tag reads back as the unique policy carrying that tag, and unknown tags are rejected |
| `TechniqueIr.DefaultBlockReporting` | policies/rudderc/src/ir/technique.rs:228-232 | a block without a stated policy is `weighted` |
| `TechniqueIr.DefaultLeafReporting` | policies/rudderc/src/ir/technique.rs:234-238 | a leaf without a stated policy is `enabled` |
| `TechniqueIr.MayBeEmptyDefault` | policies/rudderc/src/ir/technique.rs:104-108 | a parameter without the flag may not be empty |
| `TechniqueIr.DecodeItem` | policies/rudderc/src/ir/technique.rs:119-141 | a non-mapping fails with `Modules should be a map`; a mapping with none of the three keys fails with `Missing required parameters in module`; a decoded item has the variant the keys select |
| `TechniqueIr.ClassifyPriority` | policies/rudderc/src/ir/technique.rs:129-140 | in both directions: `items` selects a block even when `method` or `module` is present, otherwise `method` selects a method, otherwise `module` a module, otherwise nothing |
| `TechniqueIr.ClassifyStableUnderLowerKeys` | policies/rudderc/src/ir/technique.rs:129-138 | adding any key other than a higher-priority one to a classified record does not change its variant |
| `TechniqueIr.DecodeDelegates` | policies/rudderc/src/ir/technique.rs:130-138 | a classified record decodes to exactly what the chosen variant's decoder gives, its errors passed on unchanged |
| `TechniqueIr.DecodeIgnoresOtherVariants` | policies/rudderc/src/ir/technique.rs:130-138 | the decoders of the variants not chosen cannot influence the result or its errors |
| `MethodCall.ResolveAllSupplied` | policies/rudderc/src/backends/unix/ncf/method_call.rs:53-59 | when every formal is supplied, resolution yields one quoted value per formal, in signature order |
| `MethodCall.ResolveFirstMissing` | policies/rudderc/src/backends/unix/ncf/method_call.rs:54-57 | when formal `i` is the first missing one, resolution fails with `Missing parameter ` + its name |
| `MethodCall.ResolveFailsIffMissing` | policies/rudderc/src/backends/unix/ncf/method_call.rs:53-59 | resolution fails iff some formal is missing, and the error then names a missing formal |
| `MethodCall.ResolveParameters` | policies/rudderc/src/backends/unix/ncf/method_call.rs:53-59 | the loop that pushes quoted values and bails out on a missing formal computes exactly the resolution above |
| `MethodCall.Lower` | policies/rudderc/src/backends/unix/ncf/method_call.rs:37-170 | the step-by-step lowering (resolution loop, case split, reporting wrap, list appends) returns exactly `Compile`, so equal inputs give equal outputs |
| `MethodCall.CompileMissingParameter` | policies/rudderc/src/backends/unix/ncf/method_call.rs:53-59 | a missing formal aborts the whole lowering with an error naming the first missing formal and no output, for every condition and reporting policy |
| `MethodCall.CompileFailsIffMissing` | policies/rudderc/src/backends/unix/ncf/method_call.rs:53-59 | the lowering fails exactly when a formal parameter has no supplied value |
| `MethodCall.CompileInterface` | policies/rudderc/src/backends/unix/ncf/method_call.rs:145-169 | the bundle is `call_` + canonify(id); the calling promise calls it with no component, report id id + `_${report_data.directive_id}` and arguments [quoted name, quoted `${key}`, quoted id, `@{args}`] then the resolved values; the bundle formals are `c_name`, `c_key`, `report_id`, `args` then the signature names; both lists have 4 + formals entries; every body promise carries the same report id |
| `MethodCall.BodyTagged` | policies/rudderc/src/backends/unix/ncf/method_call.rs:61-133 | every promise of the body, guarded or not, is tagged with the per-invocation report id |
| `MethodCall.FragmentsContents` | policies/rudderc/src/backends/unix/ncf/method_call.rs:61-133 | every fragment has the method name as component and the shared report id; the reporting context calls `_method_reporting_context_v4` on the expanded `c_name`, `c_key`, `report_id`; the method call invokes the method's bundle with one quoted value per formal; the N/A marker calls `_classes_noop` on the N/A class; the skip message calls `log_rudder` on the quoted message naming method, key variable and condition, the quoted key variable, the N/A class twice and `@{args}`; the "not available" message calls `log_na_rudder` on the quoted message, the quoted key variable, the quoted report id and `@{args}`; the toggles call `disable_reporting` and `enable_reporting` with no arguments |
| `MethodCall.CompileDefinedSupported` | policies/rudderc/src/backends/unix/ncf/method_call.rs:117 | `Defined` on a supported agent: the body is exactly [reporting context, method call] |
| `MethodCall.CompileExpressionSupported` | policies/rudderc/src/backends/unix/ncf/method_call.rs:94-105 | an expression on a supported agent: the body is [context, call if cond, `_classes_noop` unless cond, `log_rudder` unless cond], four promises |
| `MethodCall.CompileNotDefinedSupported` | policies/rudderc/src/backends/unix/ncf/method_call.rs:106-116 | `NotDefined` on a supported agent: the body is [context, `_classes_noop`, `log_rudder`], all unguarded |
| `MethodCall.CompileUnsupported` | policies/rudderc/src/backends/unix/ncf/method_call.rs:118-133 | without classic-agent support: the body is [context, `log_na_rudder`] whatever the condition |
| `MethodCall.CompileDisabledWraps` | policies/rudderc/src/backends/unix/ncf/method_call.rs:135-143 | disabled reporting gives [`disable_reporting`] + the enabled-reporting body + [`enable_reporting`] and changes neither the calling promise, the bundle name, the formals nor the success or error of the lowering |
| `MethodCall.BranchTrace` | policies/rudderc/src/backends/unix/ncf/method_call.rs:93-134 | at run time the case split performs the context, then the "not available" message if unsupported, the method if the condition holds, and the N/A marker and skip message otherwise |
| `MethodCall.WrapTrace` | policies/rudderc/src/backends/unix/ncf/method_call.rs:135-143 | at run time the reporting toggles run before and after the body |
| `MethodCall.CompileRuntime` | policies/rudderc/src/backends/unix/ncf/method_call.rs:93-143 | for every evaluation of class expressions, the generated bundle runs the reporting context first and then exactly one outcome: the method, the N/A marker with its skip message, or the "not available" message (inside the toggles when reporting is disabled) |
| `MethodCall.PackagePresentBody` | policies/rudderc/src/backends/unix/ncf/method_call.rs:117 | an unconditional, supported `package_present` call on "nginx" with id `m1` lowers to bundle `call_` + canonify(`m1`) with body [reporting context, `package_present`(quoted "nginx")] |
| `MethodCall.PackagePresentCall` | policies/rudderc/src/backends/unix/ncf/method_call.rs:146-154 | for that same `package_present` call, the calling promise calls `call_` + canonify(`m1`) with [quoted name, quoted `${name}`, quoted `m1`, `@{args}`, quoted "nginx"] |
| `MethodCall.PackagePresentNames` | policies/rudderc/src/backends/unix/ncf/method_call.rs:42-50 | for that same call, the report id is `m1_${report_data.directive_id}` and its key variable is `${name}` |

## Left out

- The serde/YAML machinery: field-level decoding of `Block`, `Method` and `Module` (their decoders are parameters of `DecodeItem`), the serde `default` attributes on fields, `Id`'s `Deserialize` (which is `FromStr`), serialization, and the `focus` variant's tagged form when reading a `BlockReporting`.
- YAML values: mapping keys are strings only, numbers are integers; tags (`tags: Option<Value>`) are carried but never inspected.
- `canonify`, `quoted`, `expanded` and the `Display` of `Condition` (`ir/condition.rs`) are not part of this model; they are opaque functions supplied by the caller.
- The empty-name assertion and `info.unwrap()` of the lowering (method_call.rs:38-40) are preconditions (`Compilable`), not error paths: a violation is a defect of the resolution pass.
- `MethodInfo` is reduced to the fields the lowering reads, its formal parameters to their names, and `Agent` to two variants; `rudder_commons::ParameterType` is kept as an opaque label.
- The run-time meaning of `if` / `unless` guards (`Holds`, `Trace`) is this model's reading of the target agent, not code of the compiler.
- A record with several of `items`, `method`, `module` is not rejected: `deserialize` classifies it by priority (technique.rs:129-140), and the model does the same (`Classify`, `ClassifyPriority`).
- Rendering of promises and bundles to agent text and `Bundle::agent` are not modelled.
