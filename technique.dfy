/** The intermediate representation of a technique: identifiers, the item
    tree, reporting policies and the classification of item records. */
module TechniqueIr {
  import opened Wrappers
  import opened Conditions
  import opened Methods

  // ---------------------------------------------------------------------
  // Identifiers
  // ---------------------------------------------------------------------

  /** A character allowed in an identifier: ASCII letter, ASCII digit,
      `-` or `_`. */
  predicate IdChar(c: char)
  {
    ('a' <= c <= 'z') || ('A' <= c <= 'Z') || ('0' <= c <= '9') || c == '-' || c == '_'
  }

  /** Character-by-character scan of a string, as `chars().all(valid_char)`
      does it. */
  function AllIdChars(s: string): (b: bool)
    ensures b <==> forall i :: 0 <= i < |s| ==> IdChar(s[i])
  {
    if |s| == 0 then true else IdChar(s[0]) && AllIdChars(s[1..])
  }

  /** An identifier: a string accepted by `FromStr`. Being a subset type, an
      `Id`, once built, is always valid by construction. */
  type Id = s: string | AllIdChars(s) witness ""

  /** The message reported for a rejected identifier. */
  function InvalidIdMessage(s: string): string
  {
    "Invalid id: " + s
  }

  /** Builds an identifier; succeeds exactly when every character is valid
      and then keeps the string unchanged. */
  function FromStr(s: string): (r: Result<Id>)
    ensures r.Ok? <==> forall i :: 0 <= i < |s| ==> IdChar(s[i])
    ensures r.Ok? ==> r.value == s
    ensures r.Err? ==> r.error == InvalidIdMessage(s)
  {
    if AllIdChars(s) then Ok(s) else Err(InvalidIdMessage(s))
  }

  /** `Display`, `as_ref` and `String::from` all give back the stored string. */
  function IdToString(id: Id): string
  {
    id
  }

  /** Parsing then displaying returns the input, and displaying then parsing
      returns the identifier. */
  lemma IdRoundTrip(s: string, id: Id)
    ensures FromStr(s).Ok? ==> IdToString(FromStr(s).value) == s
    ensures FromStr(IdToString(id)) == Ok(id)
  {
  }

  /** The empty string is an identifier. */
  lemma EmptyIdAccepted()
    ensures FromStr("") == Ok("")
  {
  }

  /** Validity is compositional: a concatenation is an identifier exactly
      when both parts are. */
  lemma {:induction false} IdConcat(s: string, t: string)
    ensures FromStr(s + t).Ok? <==> FromStr(s).Ok? && FromStr(t).Ok?
  {
    if FromStr(s).Ok? && FromStr(t).Ok? {
      forall i | 0 <= i < |s + t| ensures IdChar((s + t)[i]) {
        if i < |s| { assert (s + t)[i] == s[i]; } else { assert (s + t)[i] == t[i - |s|]; }
      }
    }
    if FromStr(s + t).Ok? {
      forall i | 0 <= i < |s| ensures IdChar(s[i]) { assert (s + t)[i] == s[i]; }
      forall i | 0 <= i < |t| ensures IdChar(t[i]) { assert (s + t)[|s| + i] == t[i]; }
    }
  }

  /** A rejected string contains an invalid character, and the error message
      ends with the offending string. */
  lemma InvalidIdNamesInput(s: string)
    requires FromStr(s).Err?
    ensures exists i :: 0 <= i < |s| && !IdChar(s[i])
    ensures var msg := FromStr(s).error; |s| <= |msg| && msg[|msg| - |s|..] == s
  {
  }

  // ---------------------------------------------------------------------
  // Reporting policies
  // ---------------------------------------------------------------------

  /** How a block aggregates the compliance of its children. */
  datatype BlockReporting =
    | WorstCaseWeightedSum
    | WorstCaseWeightedOne
    | Focus(component: string)
    | Weighted
    | Disabled
  {
    /** The canonical label of the policy. */
    function Display(): string
    {
      match this
      case Disabled => "disabled"
      case Weighted => "weighted"
      case WorstCaseWeightedOne => "worst-case-weighted-one"
      case WorstCaseWeightedSum => "worst-case-weighted-sum"
      case Focus(s) => "focus(" + s + ")"
    }
  }

  /** Reads the serialized tag of a policy that carries no argument; "enabled"
      is accepted as an alias of "weighted". */
  function BlockReportingFromLabel(tag: string): Option<BlockReporting>
  {
    if tag == "worst-case-weighted-sum" then Some(WorstCaseWeightedSum)
    else if tag == "worst-case-weighted-one" then Some(WorstCaseWeightedOne)
    else if tag == "weighted" || tag == "enabled" then Some(Weighted)
    else if tag == "disabled" then Some(BlockReporting.Disabled)
    else None
  }

  /** Different policies have different labels, including two `Focus`
      policies on different components. */
  lemma BlockReportingDisplayInjective(a: BlockReporting, b: BlockReporting)
    ensures a.Display() == b.Display() ==> a == b
  {
    if a.Focus? && b.Focus? && a.Display() == b.Display() {
      var da, db := a.Display(), b.Display();
      assert a.component == da[6..|da| - 1];
      assert b.component == db[6..|db| - 1];
    } else if a.Focus? && !b.Focus? {
      assert a.Display()[0] == 'f' != b.Display()[0];
    } else if b.Focus? && !a.Focus? {
      assert b.Display()[0] == 'f' != a.Display()[0];
    }
  }

  /** The label of every argument-free policy reads back as that policy,
      and a `Focus` label is `focus(` + component + `)`. */
  lemma BlockReportingLabelRoundTrip(r: BlockReporting)
    ensures !r.Focus? ==> BlockReportingFromLabel(r.Display()) == Some(r)
    ensures r.Focus? ==> r.Display() == "focus(" + r.component + ")"
  {
  }

  /** How a leaf's outcome counts toward compliance. */
  datatype LeafReporting = Enabled | Disabled
  {
    /** The serialized tag of the policy. */
    function Label(): string
    {
      match this
      case Enabled => "enabled"
      case Disabled => "disabled"
    }
  }

  /** Reads the serialized tag of a leaf policy. */
  function LeafReportingFromLabel(tag: string): (r: Option<LeafReporting>)
    ensures r.Some? ==> r.value.Label() == tag
    ensures forall p: LeafReporting :: p.Label() == tag ==> r == Some(p)
  {
    if tag == "enabled" then Some(LeafReporting.Enabled)
    else if tag == "disabled" then Some(LeafReporting.Disabled)
    else None
  }

  /** The policy of a block that does not state one. */
  function DefaultBlockReporting(): (r: BlockReporting)
    ensures r.Display() == "weighted"
  {
    Weighted
  }

  /** The policy of a leaf that does not state one. */
  function DefaultLeafReporting(): (r: LeafReporting)
    ensures r.Label() == "enabled"
  {
    LeafReporting.Enabled
  }

  /** A technique parameter that does not say otherwise must not be empty. */
  function MayBeEmptyDefault(): (b: bool)
    ensures !b
  {
    false
  }

  // ---------------------------------------------------------------------
  // The item tree
  // ---------------------------------------------------------------------

  /** A generic serialized value (a YAML document node). Mapping keys are
      modelled as strings. */
  datatype Value =
    | Null
    | Bool(b: bool)
    | Number(n: int)
    | Str(s: string)
    | Sequence(elems: seq<Value>)
    | Mapping(entries: map<string, Value>)

  /** The declared type of a technique parameter, kept as its label. */
  datatype ParameterType = ParameterType(tag: string)

  /** A technique: format version, identity, metadata, the ordered item tree
      and the declared parameters. */
  datatype Technique = Technique(
    format: nat,
    id: Id,
    name: string,
    version: string,
    tags: Option<Value>,
    category: Option<string>,
    description: Option<string>,
    documentation: Option<string>,
    items: seq<ItemKind>,
    parameters: seq<Parameter>)

  datatype Parameter = Parameter(
    id: Id,
    name: string,
    description: Option<string>,
    paramType: ParameterType,
    mayBeEmpty: bool)

  /** A node of the item tree. Blocks nest; modules and methods are leaves. */
  datatype ItemKind =
    | BlockItem(block: Block)
    | ModuleItem(leafModule: Module)
    | MethodItem(leafMethod: Method)

  datatype Block = Block(
    condition: Condition,
    name: string,
    tags: Option<Value>,
    items: seq<ItemKind>,
    id: Id,
    reporting: BlockReporting)

  datatype Module = Module(
    name: string,
    tags: Option<Value>,
    condition: Condition,
    params: map<string, string>,
    moduleRef: string,
    id: Id,
    reporting: LeafReporting)

  /** A method call; `info` is bound by the resolution pass. */
  datatype Method = Method(
    name: string,
    tags: Option<Value>,
    condition: Condition,
    params: map<string, string>,
    methodRef: string,
    id: Id,
    reporting: LeafReporting,
    info: Option<MethodInfo>)

  // ---------------------------------------------------------------------
  // Item decoding
  // ---------------------------------------------------------------------

  /** The variant an item record is classified as. */
  datatype Kind = KBlock | KMethod | KModule

  /** The field decoders of the three variants. */
  datatype Decoders = Decoders(
    decodeBlock: Value -> Result<Block>,
    decodeMethod: Value -> Result<Method>,
    decodeModule: Value -> Result<Module>)

  /** The variant of a decoded item. */
  function KindOf(item: ItemKind): Kind
  {
    match item
    case BlockItem(_) => KBlock
    case MethodItem(_) => KMethod
    case ModuleItem(_) => KModule
  }

  /** Picks the variant from the keys present, by priority: `items`, then
      `method`, then `module`. */
  function Classify(entries: map<string, Value>): Option<Kind>
  {
    if "items" in entries then Some(KBlock)
    else if "method" in entries then Some(KMethod)
    else if "module" in entries then Some(KModule)
    else None
  }

  const NotAMapMessage := "Modules should be a map"
  const NoKindMessage := "Missing required parameters in module"

  /** Decodes one item record: a non-mapping is rejected, the record is
      classified by its keys, and the chosen variant's own decoder decides
      the result. */
  function DecodeItem(v: Value, d: Decoders): (r: Result<ItemKind>)
    ensures !v.Mapping? ==> r == Err(NotAMapMessage)
    ensures v.Mapping? && Classify(v.entries).None? ==> r == Err(NoKindMessage)
    ensures r.Ok? ==> v.Mapping? && Classify(v.entries) == Some(KindOf(r.value))
  {
    match v
    case Mapping(entries) =>
      (match Classify(entries)
       case Some(KBlock) =>
         var b :- d.decodeBlock(v); Ok(BlockItem(b))
       case Some(KMethod) =>
         var m :- d.decodeMethod(v); Ok(MethodItem(m))
       case Some(KModule) =>
         var m :- d.decodeModule(v); Ok(ModuleItem(m))
       case None => Err(NoKindMessage))
    case _ => Err(NotAMapMessage)
  }

  /** Classification by priority, in both directions. */
  lemma ClassifyPriority(entries: map<string, Value>)
    ensures Classify(entries) == Some(KBlock) <==> "items" in entries
    ensures Classify(entries) == Some(KMethod) <==> "items" !in entries && "method" in entries
    ensures Classify(entries) == Some(KModule) <==>
      "items" !in entries && "method" !in entries && "module" in entries
    ensures Classify(entries) == None <==>
      "items" !in entries && "method" !in entries && "module" !in entries
  {
  }

  /** Adding a lower-priority key never changes the classification of a
      record that already has a higher-priority key. */
  lemma ClassifyStableUnderLowerKeys(entries: map<string, Value>, key: string, x: Value)
    requires key == "items" ==> Classify(entries) == Some(KBlock)
    requires key == "method" ==> Classify(entries) != Some(KModule)
    requires Classify(entries).Some?
    ensures Classify(entries[key := x]) == Classify(entries)
  {
  }

  /** A failure of a classified record is exactly the failure of the chosen
      variant's decoder, and a success is that decoder's value. */
  lemma DecodeDelegates(v: Value, d: Decoders)
    requires v.Mapping?
    ensures Classify(v.entries) == Some(KBlock) ==>
      DecodeItem(v, d) == (if d.decodeBlock(v).Ok? then Ok(BlockItem(d.decodeBlock(v).value))
                           else Err(d.decodeBlock(v).error))
    ensures Classify(v.entries) == Some(KMethod) ==>
      DecodeItem(v, d) == (if d.decodeMethod(v).Ok? then Ok(MethodItem(d.decodeMethod(v).value))
                           else Err(d.decodeMethod(v).error))
    ensures Classify(v.entries) == Some(KModule) ==>
      DecodeItem(v, d) == (if d.decodeModule(v).Ok? then Ok(ModuleItem(d.decodeModule(v).value))
                           else Err(d.decodeModule(v).error))
  {
  }

  /** The decoders of the variants not chosen have no influence on the
      result, whatever they would say about the record. */
  lemma DecodeIgnoresOtherVariants(v: Value, d1: Decoders, d2: Decoders)
    requires v.Mapping? && Classify(v.entries).Some?
    requires Classify(v.entries) == Some(KBlock) ==> d1.decodeBlock(v) == d2.decodeBlock(v)
    requires Classify(v.entries) == Some(KMethod) ==> d1.decodeMethod(v) == d2.decodeMethod(v)
    requires Classify(v.entries) == Some(KModule) ==> d1.decodeModule(v) == d2.decodeModule(v)
    ensures DecodeItem(v, d1) == DecodeItem(v, d2)
  {
  }
}
