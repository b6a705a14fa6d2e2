/**
 * The `FFIFrom` derive macro: what it accepts, what it rejects, and what
 * the `From` and `from_ptr` implementations it generates do at run time.
 *
 * The macro's input, a parsed struct or enum with its attributes, is given
 * as descriptor datatypes; token-level syntax is not modelled. Its output
 * is described by a plan (one conversion rule per struct field, or the
 * match arms of an enum), and the generated code's behaviour by functions
 * that run a plan on raw C values.
 */
module Derive {
  import opened Wrappers
  import opened CTypes

  // ---------------------------------------------------------------------
  // Input syntax
  // ---------------------------------------------------------------------

  /** An expression, by its tokens (a sentinel such as `0u32`, or a C constant). */
  datatype Expr = Expr(tokens: string)

  /** The length of an array type: an integer literal, another literal, or any other expression. */
  datatype ArrayLen = IntLiteral(value: nat) | OtherLiteral | NonLiteral

  datatype GenericArgument = TypeArgument(ty: Type) | OtherArgument

  datatype PathArguments =
    | NoArguments
    | AngleBracketed(args: seq<GenericArgument>)
    | Parenthesized

  datatype PathSegment = PathSegment(ident: string, arguments: PathArguments)

  /** A Rust type: `[elem; len]`, a path whose first segment is `first`, or anything else. */
  datatype Type =
    | ArrayType(elem: Type, len: ArrayLen)
    | PathType(first: PathSegment, rest: seq<PathSegment>)
    | OtherType

  /**
   * What the argument tokens of an attribute parse to, read as each of the
   * three syntaxes the macro asks for (`None` where they do not parse).
   */
  datatype AttrArgs = AttrArgs(asPath: Option<string>, asType: Option<Type>, asExpr: Option<Expr>)

  /** An outer attribute, by the first segment of its path. */
  datatype Attribute = Attribute(name: string, args: AttrArgs)

  datatype FieldSyntax = FieldSyntax(attrs: seq<Attribute>, ident: string, ty: Type)

  /** An enum variant, with the `= expr` that follows it in the input, if any. */
  datatype VariantSyntax = VariantSyntax(attrs: seq<Attribute>, ident: string, discriminant: Option<Expr>)

  datatype ItemSyntax =
    | StructItem(ident: string, fields: seq<FieldSyntax>)
    | EnumItem(ident: string, variants: seq<VariantSyntax>)
    | OtherItem

  datatype DeriveInput = DeriveInput(attrs: seq<Attribute>, item: ItemSyntax)

  // ---------------------------------------------------------------------
  // Parsed form
  // ---------------------------------------------------------------------

  datatype StructField = StructField(
    ident: string,
    ty: Type,
    castAs: Option<Type>,
    optional: Option<Expr>,
    ptrDeref: bool)

  /** `discriminant` is `None` exactly for the `#[other]` variant. */
  datatype EnumVariant = EnumVariant(ident: string, discriminant: Option<Expr>)

  datatype FfiItem = Struct(fields: seq<StructField>) | Enum(variants: seq<EnumVariant>)

  datatype FfiFrom = FfiFrom(path: string, ident: string, item: FfiItem, wrap: bool)

  /** The compile errors the macro reports. */
  datatype MacroError =
    | FfiAttributeRequired
    | AttributeArgs(attr: string)
    | ExpectedStructOrEnum
    | ExpectedDiscriminant(variant: string)
    | UnexpectedDiscriminant(variant: string)
    | SingleOtherOnly
    | OnlyIntLiterals(field: string)
    | LengthOutOfRange(field: string)
    | OptionalOnlyForOption(field: string)
    | ExpectedBracketedType(field: string)
    | OptionalRequired(field: string)

  /** One more than the largest `usize` of the 64-bit hosts the macro runs on. */
  const USIZE_LIMIT: nat := 0x1_0000_0000_0000_0000

  // ---------------------------------------------------------------------
  // Parsing
  // ---------------------------------------------------------------------

  /** The first attribute with the given name. */
  function FindAttr(attrs: seq<Attribute>, name: string): (a: Option<Attribute>)
    ensures a.None? <==> forall i :: 0 <= i < |attrs| ==> attrs[i].name != name
    ensures a.Some? ==> exists i :: 0 <= i < |attrs| && attrs[i] == a.value && a.value.name == name
                          && forall j :: 0 <= j < i ==> attrs[j].name != name
  {
    if |attrs| == 0 then None
    else if attrs[0].name == name then Some(attrs[0])
    else
      var a := FindAttr(attrs[1..], name);
      if a.Some? then
        var i :| 0 <= i < |attrs[1..]| && attrs[1..][i] == a.value && a.value.name == name
                 && forall j :: 0 <= j < i ==> attrs[1..][j].name != name;
        assert attrs[i + 1] == a.value;
        a
      else a
  }

  predicate HasAttr(attrs: seq<Attribute>, name: string) {
    FindAttr(attrs, name).Some?
  }

  /**
   * `iter().map(f).collect::<Result<Vec<_>>>()` and `parse_terminated`:
   * every result when all succeed, else the error of the first that fails.
   */
  function Collect<A, B, E>(xs: seq<A>, f: A -> Result<B, E>): (r: Result<seq<B>, E>)
    ensures r.Success? <==> forall i :: 0 <= i < |xs| ==> f(xs[i]).Success?
    ensures r.Success? ==> |r.value| == |xs| && forall i :: 0 <= i < |xs| ==> f(xs[i]) == Success(r.value[i])
    ensures r.Failure? ==> exists i :: 0 <= i < |xs| && f(xs[i]) == Failure(r.error)
                             && forall j :: 0 <= j < i ==> f(xs[j]).Success?
  {
    if |xs| == 0 then Success([])
    else
      match f(xs[0])
      case Failure(e) => Failure(e)
      case Success(y) =>
        var rest := Collect(xs[1..], f);
        match rest
        case Failure(e) =>
          FailureInTail(xs, f, e);
          Failure(e)
        case Success(ys) =>
          assert forall i :: 1 <= i < |xs| ==> f(xs[i]) == f(xs[1..][i - 1]);
          Success([y] + ys)
  }

  /** A first failure in `xs[1..]`, behind a success at `xs[0]`, is a first failure in `xs`. */
  lemma FailureInTail<A, B, E>(xs: seq<A>, f: A -> Result<B, E>, e: E)
    requires |xs| > 0 && f(xs[0]).Success?
    requires exists i :: 0 <= i < |xs[1..]| && f(xs[1..][i]) == Failure(e)
                         && forall j :: 0 <= j < i ==> f(xs[1..][j]).Success?
    ensures exists i :: 0 <= i < |xs| && f(xs[i]) == Failure(e)
                        && forall j :: 0 <= j < i ==> f(xs[j]).Success?
  {
    var i :| 0 <= i < |xs[1..]| && f(xs[1..][i]) == Failure(e)
             && forall j :: 0 <= j < i ==> f(xs[1..][j]).Success?;
    assert f(xs[i + 1]) == Failure(e);
    assert forall j :: 1 <= j < i + 1 ==> f(xs[j]) == f(xs[1..][j - 1]);
  }

  /** `parse_ffi_struct_field`: reads `#[cast_as(T)]`, then `#[optional(e)]` and `#[ptr_deref]`. */
  function ParseField(f: FieldSyntax): (r: Result<StructField, MacroError>)
    ensures r.Success? <==>
      (HasAttr(f.attrs, "cast_as") ==> FindAttr(f.attrs, "cast_as").value.args.asType.Some?) &&
      (HasAttr(f.attrs, "optional") ==> FindAttr(f.attrs, "optional").value.args.asExpr.Some?)
    ensures r.Success? ==> r.value.ident == f.ident && r.value.ty == f.ty
    ensures r.Success? ==> (r.value.castAs.Some? <==> HasAttr(f.attrs, "cast_as"))
    ensures r.Success? ==> (r.value.optional.Some? <==> HasAttr(f.attrs, "optional"))
    ensures r.Success? ==> (r.value.ptrDeref <==> HasAttr(f.attrs, "ptr_deref"))
  {
    var castAttr := FindAttr(f.attrs, "cast_as");
    var optionalAttr := FindAttr(f.attrs, "optional");
    if castAttr.Some? && castAttr.value.args.asType.None? then
      Failure(AttributeArgs("cast_as"))
    else if optionalAttr.Some? && optionalAttr.value.args.asExpr.None? then
      Failure(AttributeArgs("optional"))
    else
      Success(StructField(
        f.ident, f.ty,
        if castAttr.Some? then castAttr.value.args.asType else None,
        if optionalAttr.Some? then optionalAttr.value.args.asExpr else None,
        HasAttr(f.attrs, "ptr_deref")))
  }

  /**
   * `parse_ffi_enum_variant`: an `#[other]` variant is read without a
   * discriminant, any other variant must have `= expr`.
   */
  function ParseVariant(v: VariantSyntax): (r: Result<EnumVariant, MacroError>)
    ensures r.Success? <==> (HasAttr(v.attrs, "other") <==> v.discriminant.None?)
    ensures r.Success? ==> r.value == EnumVariant(v.ident, v.discriminant)
  {
    if HasAttr(v.attrs, "other") then
      if v.discriminant.Some? then Failure(UnexpectedDiscriminant(v.ident))
      else Success(EnumVariant(v.ident, None))
    else if v.discriminant.None? then Failure(ExpectedDiscriminant(v.ident))
    else Success(EnumVariant(v.ident, v.discriminant))
  }

  /** The identifiers of the `#[other]` variants, in order. */
  function OtherVariants(vs: seq<EnumVariant>): (others: seq<string>)
    ensures |others| <= |vs|
    ensures forall i :: 0 <= i < |vs| && vs[i].discriminant.None? ==> vs[i].ident in others
    ensures forall x :: x in others ==> exists i :: 0 <= i < |vs| && vs[i].discriminant.None? && vs[i].ident == x
  {
    if |vs| == 0 then []
    else
      var rest := OtherVariants(vs[1..]);
      assert forall i :: 1 <= i < |vs| ==> vs[i] == vs[1..][i - 1];
      if vs[0].discriminant.None? then [vs[0].ident] + rest else rest
  }

  /** The attributes hold an `#[ffi(..)]` whose argument is a path. */
  predicate HasFfiPath(attrs: seq<Attribute>) {
    HasAttr(attrs, "ffi") && FindAttr(attrs, "ffi").value.args.asPath.Some?
  }

  /**
   * `FFIFrom::parse`: the `#[ffi(path)]` attribute is required; a struct
   * parses exactly when all its fields do, an enum exactly when all its
   * variants do and at most one of them is `#[other]`; the first error wins.
   */
  function Parse(input: DeriveInput): (r: Result<FfiFrom, MacroError>)
    // the `#[ffi(path)]` attribute
    ensures !HasAttr(input.attrs, "ffi") ==> r == Failure(FfiAttributeRequired)
    ensures HasAttr(input.attrs, "ffi") && !HasFfiPath(input.attrs) ==> r == Failure(AttributeArgs("ffi"))
    ensures r.Success? ==> HasFfiPath(input.attrs) && r.value.path == FindAttr(input.attrs, "ffi").value.args.asPath.value
    ensures r.Success? ==> (r.value.wrap <==> HasAttr(input.attrs, "wrap"))
    // the item kind
    ensures HasFfiPath(input.attrs) && input.item.OtherItem? ==> r == Failure(ExpectedStructOrEnum)
    // structs: every field parsed, in order, else the first field error
    ensures HasFfiPath(input.attrs) && input.item.StructItem? ==>
      var path := FindAttr(input.attrs, "ffi").value.args.asPath.value;
      var fields := Collect(input.item.fields, ParseField);
      r == (if fields.Success? then Success(FfiFrom(path, input.item.ident, Struct(fields.value), HasAttr(input.attrs, "wrap")))
            else Failure(fields.error))
    ensures HasFfiPath(input.attrs) && input.item.StructItem? ==>
      (r.Success? <==> forall i :: 0 <= i < |input.item.fields| ==> ParseField(input.item.fields[i]).Success?)
    // enums: every variant parsed, in order, else the first variant error; two `#[other]` are rejected
    ensures HasFfiPath(input.attrs) && input.item.EnumItem? ==>
      var path := FindAttr(input.attrs, "ffi").value.args.asPath.value;
      var variants := Collect(input.item.variants, ParseVariant);
      r == (if variants.Failure? then Failure(variants.error)
            else if |OtherVariants(variants.value)| > 1 then Failure(SingleOtherOnly)
            else Success(FfiFrom(path, input.item.ident, Enum(variants.value), HasAttr(input.attrs, "wrap"))))
    ensures HasFfiPath(input.attrs) && input.item.EnumItem? ==>
      (r == Failure(SingleOtherOnly) <==>
        Collect(input.item.variants, ParseVariant).Success? &&
        |OtherVariants(Collect(input.item.variants, ParseVariant).value)| > 1)
    ensures r.Success? && r.value.item.Enum? ==> |OtherVariants(r.value.item.variants)| <= 1
  {
    match FindAttr(input.attrs, "ffi")
    case None => Failure(FfiAttributeRequired)
    case Some(ffi) =>
      match ffi.args.asPath
      case None => Failure(AttributeArgs("ffi"))
      case Some(path) =>
        var wrap := HasAttr(input.attrs, "wrap");
        match input.item
        case StructItem(ident, fields) =>
          (match Collect(fields, ParseField)
           case Failure(e) => Failure(e)
           case Success(parsed) => Success(FfiFrom(path, ident, Struct(parsed), wrap)))
        case EnumItem(ident, variants) =>
          (match Collect(variants, ParseVariant)
           case Failure(e) =>
             ParseVariantErrors(variants, e);
             Failure(e)
           case Success(parsed) =>
             if |OtherVariants(parsed)| > 1 then Failure(SingleOtherOnly)
             else Success(FfiFrom(path, ident, Enum(parsed), wrap)))
        case OtherItem => Failure(ExpectedStructOrEnum)
  }

  /** A variant list that fails to parse fails with a discriminant error, never with `SingleOtherOnly`. */
  lemma ParseVariantErrors(variants: seq<VariantSyntax>, e: MacroError)
    requires Collect(variants, ParseVariant) == Failure(e)
    ensures e.ExpectedDiscriminant? || e.UnexpectedDiscriminant?
  {
    var i :| 0 <= i < |variants| && ParseVariant(variants[i]) == Failure(e)
             && forall j :: 0 <= j < i ==> ParseVariant(variants[j]).Success?;
  }

  /**
   * An enum whose variants all parse but which has two `#[other]` variants
   * is rejected, whatever other attributes (`#[repr]`, `#[wrap]`, ...) it has.
   */
  lemma TwoOthersRejected(attrs: seq<Attribute>, ident: string, variants: seq<VariantSyntax>, i: nat, j: nat)
    requires HasFfiPath(attrs)
    requires i < j < |variants|
    requires forall k :: 0 <= k < |variants| ==> ParseVariant(variants[k]).Success?
    requires HasAttr(variants[i].attrs, "other") && HasAttr(variants[j].attrs, "other")
    ensures Parse(DeriveInput(attrs, EnumItem(ident, variants))) == Failure(SingleOtherOnly)
  {
    var parsed := Collect(variants, ParseVariant).value;
    assert parsed[i].discriminant.None? && parsed[j].discriminant.None?;
    OtherVariantsCount(parsed, i, j);
  }

  lemma {:induction false} OtherVariantsCount(vs: seq<EnumVariant>, i: nat, j: nat)
    requires i < j < |vs|
    requires vs[i].discriminant.None? && vs[j].discriminant.None?
    ensures |OtherVariants(vs)| >= 2
  {
    assert forall k :: 1 <= k < |vs| ==> vs[k] == vs[1..][k - 1];
    if i == 0 {
      assert vs[1..][j - 1].ident in OtherVariants(vs[1..]);
    } else {
      OtherVariantsCount(vs[1..], i - 1, j - 1);
    }
  }

  // ---------------------------------------------------------------------
  // Expansion plan
  // ---------------------------------------------------------------------

  /** How the generated `From` fills one field from `value.<ident>`. */
  datatype FieldRule =
    /** `[elem::from(value.f[0] as cast), ..., elem::from(value.f[len-1] as cast)]` */
    | Elementwise(len: nat, elem: Type, cast: Option<Type>)
    /** `if value.f == sentinel { None } else { Some(inner::from(value.f as cast)) }` */
    | Sentinel(sentinel: Expr, inner: Type, cast: Option<Type>)
    /** `if value.f.is_null() { None } else { Some(inner::from(*value.f)) }` */
    | Deref(inner: Type)
    /** `ty::from(value.f as cast)` */
    | Direct(ty: Type, cast: Option<Type>)

  datatype FieldPlan = FieldPlan(ident: string, rule: FieldRule)

  /** The path type's first segment is `Option`. */
  predicate IsOptionType(ty: Type) {
    ty.PathType? && ty.first.ident == "Option"
  }

  /** The first angle-bracketed generic argument, when it is a type. */
  function OptionInner(args: PathArguments): (inner: Option<Type>)
    ensures inner.Some? <==> args.AngleBracketed? && |args.args| > 0 && args.args[0].TypeArgument?
    ensures inner.Some? ==> inner.value == args.args[0].ty
  {
    match args
    case AngleBracketed(generic) =>
      if |generic| > 0 && generic[0].TypeArgument? then Some(generic[0].ty) else None
    case _ => None
  }

  /** The rule the macro picks for one field, or the compile error it reports. */
  function FieldRuleOf(f: StructField): (r: Result<FieldPlan, MacroError>)
    ensures r.Success? ==> r.value.ident == f.ident
    // array fields: an integer literal that fits a usize, any attributes but `cast_as` ignored
    ensures f.ty.ArrayType? ==>
      r == (if !f.ty.len.IntLiteral? then Failure(OnlyIntLiterals(f.ident))
            else if f.ty.len.value >= USIZE_LIMIT then Failure(LengthOutOfRange(f.ident))
            else Success(FieldPlan(f.ident, Elementwise(f.ty.len.value, f.ty.elem, f.castAs))))
    // `#[optional]` is for `Option` fields only
    ensures !f.ty.ArrayType? && !IsOptionType(f.ty) && f.optional.Some? ==> r == Failure(OptionalOnlyForOption(f.ident))
    // `Option` must name its type in angle brackets
    ensures IsOptionType(f.ty) && OptionInner(f.ty.first.arguments).None? ==> r == Failure(ExpectedBracketedType(f.ident))
    // `#[optional]` wins over `#[ptr_deref]`; an `Option` field needs one of them
    ensures IsOptionType(f.ty) && OptionInner(f.ty.first.arguments).Some? ==>
      var inner := OptionInner(f.ty.first.arguments).value;
      r == (if f.optional.Some? then Success(FieldPlan(f.ident, Sentinel(f.optional.value, inner, f.castAs)))
            else if f.ptrDeref then Success(FieldPlan(f.ident, Deref(inner)))
            else Failure(OptionalRequired(f.ident)))
    // any other field is converted directly, `#[ptr_deref]` ignored
    ensures !f.ty.ArrayType? && !IsOptionType(f.ty) && f.optional.None? ==>
      r == Success(FieldPlan(f.ident, Direct(f.ty, f.castAs)))
  {
    if f.ty.ArrayType? then
      if !f.ty.len.IntLiteral? then Failure(OnlyIntLiterals(f.ident))
      else if f.ty.len.value >= USIZE_LIMIT then Failure(LengthOutOfRange(f.ident))
      else Success(FieldPlan(f.ident, Elementwise(f.ty.len.value, f.ty.elem, f.castAs)))
    else if !IsOptionType(f.ty) then
      if f.optional.Some? then Failure(OptionalOnlyForOption(f.ident))
      else Success(FieldPlan(f.ident, Direct(f.ty, f.castAs)))
    else
      var inner := OptionInner(f.ty.first.arguments);
      if inner.None? then Failure(ExpectedBracketedType(f.ident))
      else if f.optional.Some? then Success(FieldPlan(f.ident, Sentinel(f.optional.value, inner.value, f.castAs)))
      else if f.ptrDeref then Success(FieldPlan(f.ident, Deref(inner.value)))
      else Failure(OptionalRequired(f.ident))
  }

  /** The arms of the generated `match`: one per variant with a discriminant, in order. */
  datatype Arm = Arm(discriminant: Expr, variant: string)

  function Arms(vs: seq<EnumVariant>): (arms: seq<Arm>)
    ensures |arms| <= |vs|
  {
    if |vs| == 0 then []
    else if vs[0].discriminant.Some? then [Arm(vs[0].discriminant.value, vs[0].ident)] + Arms(vs[1..])
    else Arms(vs[1..])
  }

  /** The generated `match`: its arms and the variant of its `_` arm (`None`: `unreachable!()`). */
  datatype EnumPlan = EnumPlan(arms: seq<Arm>, other: Option<string>)

  function EnumPlanOf(vs: seq<EnumVariant>): EnumPlan {
    var others := OtherVariants(vs);
    EnumPlan(Arms(vs), if |others| > 0 then Some(others[0]) else None)
  }

  /** What one derive expands to. */
  datatype Expansion =
    /** `impl From`, `from_ptr`, and when `wrap` is set the `<ident>Ref` type with its `inner` and `from_ptr`. */
    | StructExpansion(path: string, ident: string, fields: seq<FieldPlan>, wrap: bool)
    /** `impl From` holding a `match` on the raw value. */
    | EnumExpansion(path: string, ident: string, plan: EnumPlan)

  /** `ffi_from_fn` after parsing. */
  function Expand(ffi: FfiFrom): (r: Result<Expansion, MacroError>)
    ensures ffi.item.Struct? ==>
      (r.Success? <==> forall i :: 0 <= i < |ffi.item.fields| ==> FieldRuleOf(ffi.item.fields[i]).Success?)
    ensures ffi.item.Struct? && r.Success? ==>
      r.value.StructExpansion? && r.value.path == ffi.path && r.value.ident == ffi.ident &&
      r.value.wrap == ffi.wrap && |r.value.fields| == |ffi.item.fields| &&
      forall i :: 0 <= i < |ffi.item.fields| ==> FieldRuleOf(ffi.item.fields[i]) == Success(r.value.fields[i])
    ensures ffi.item.Struct? && r.Failure? ==>
      exists i :: 0 <= i < |ffi.item.fields| && FieldRuleOf(ffi.item.fields[i]) == Failure(r.error)
                  && forall j :: 0 <= j < i ==> FieldRuleOf(ffi.item.fields[j]).Success?
    ensures ffi.item.Enum? ==> r == Success(EnumExpansion(ffi.path, ffi.ident, EnumPlanOf(ffi.item.variants)))
  {
    match ffi.item
    case Struct(fields) =>
      (match Collect(fields, FieldRuleOf)
       case Failure(e) => Failure(e)
       case Success(plans) => Success(StructExpansion(ffi.path, ffi.ident, plans, ffi.wrap)))
    case Enum(variants) => Success(EnumExpansion(ffi.path, ffi.ident, EnumPlanOf(variants)))
  }

  /** The whole derive: a compile error, or the expansion. */
  function DeriveFfiFrom(input: DeriveInput): Result<Expansion, MacroError> {
    match Parse(input)
    case Failure(e) => Failure(e)
    case Success(ffi) => Expand(ffi)
  }

  /** A derive on an item without `#[ffi(..)]`, or on something other than a struct or enum, fails. */
  lemma DeriveRejects(input: DeriveInput)
    requires !HasAttr(input.attrs, "ffi") || input.item.OtherItem?
    ensures DeriveFfiFrom(input).Failure?
    ensures !HasAttr(input.attrs, "ffi") ==> DeriveFfiFrom(input) == Failure(FfiAttributeRequired)
  {
  }

  // ---------------------------------------------------------------------
  // Run-time behaviour of the generated code
  // ---------------------------------------------------------------------

  /**
   * A raw C value: an integer, an `f32`, a pointer (to its pointee, or NULL),
   * an array, or the result of an `as` cast, kept symbolic.
   */
  datatype Raw =
    | RInt(n: int)
    | RFloat(f: F32)
    | RPtr(target: Option<Raw>)
    | RArray(elems: seq<Raw>)
    | RCast(to: Type, of: Raw)

  /**
   * A converted value: `None`, `Some(v)`, an array, or `ty::from(arg)`, kept
   * symbolic since the `From` impl of the field's type is not the macro's.
   */
  datatype Value =
    | VNone
    | VSome(inner: Value)
    | VArray(elems: seq<Value>)
    | VFrom(ty: Type, arg: Raw)

  /** Rust's `==` on raw values: IEEE equality on floats, equality of bits otherwise. */
  predicate RawEq(a: Raw, b: Raw) {
    if a.RFloat? && b.RFloat? then FloatEq(a.f, b.f) else a == b
  }

  /** `raw as cast`, or `raw` when there is no `#[cast_as]`. */
  function CastIf(cast: Option<Type>, raw: Raw): Raw {
    if cast.Some? then RCast(cast.value, raw) else raw
  }

  /** The raw field has the shape its rule reads: an array long enough, or a pointer. */
  predicate Fits(rule: FieldRule, raw: Raw) {
    match rule
    case Elementwise(len, _, _) => raw.RArray? && len <= |raw.elems|
    case Deref(_) => raw.RPtr?
    case _ => true
  }

  /**
   * The generated initialiser of one field. `eval` gives the value each
   * expression written in an attribute denotes.
   */
  function ConvertField(rule: FieldRule, eval: Expr -> Raw, raw: Raw): (v: Value)
    requires Fits(rule, raw)
    ensures rule.Sentinel? ==>
      (v == VNone <==> RawEq(raw, eval(rule.sentinel))) &&
      (v != VNone ==> v == VSome(VFrom(rule.inner, CastIf(rule.cast, raw))))
    ensures rule.Deref? ==>
      (v == VNone <==> raw.target.None?) &&
      (raw.target.Some? ==> v == VSome(VFrom(rule.inner, raw.target.value)))
    ensures rule.Elementwise? ==>
      v.VArray? && |v.elems| == rule.len &&
      forall i :: 0 <= i < rule.len ==> v.elems[i] == VFrom(rule.elem, CastIf(rule.cast, raw.elems[i]))
    ensures rule.Direct? ==> v == VFrom(rule.ty, CastIf(rule.cast, raw))
  {
    match rule
    case Elementwise(len, elem, cast) =>
      VArray(seq(len, i requires 0 <= i < len => VFrom(elem, CastIf(cast, raw.elems[i]))))
    case Sentinel(sentinel, inner, cast) =>
      if RawEq(raw, eval(sentinel)) then VNone else VSome(VFrom(inner, CastIf(cast, raw)))
    case Deref(inner) =>
      if raw.target.None? then VNone else VSome(VFrom(inner, raw.target.value))
    case Direct(ty, cast) => VFrom(ty, CastIf(cast, raw))
  }

  /** A raw C struct: its fields, by name. */
  type RawStruct = map<string, Raw>

  predicate StructFits(fields: seq<FieldPlan>, raw: RawStruct) {
    forall i :: 0 <= i < |fields| ==> fields[i].ident in raw && Fits(fields[i].rule, raw[fields[i].ident])
  }

  /** The generated `From<path>`: every field converted by its own rule, in declaration order. */
  function ConvertStruct(fields: seq<FieldPlan>, eval: Expr -> Raw, raw: RawStruct): (out: seq<Value>)
    requires StructFits(fields, raw)
    ensures |out| == |fields|
    ensures forall i :: 0 <= i < |fields| ==> out[i] == ConvertField(fields[i].rule, eval, raw[fields[i].ident])
  {
    seq(|fields|, i requires 0 <= i < |fields| => ConvertField(fields[i].rule, eval, raw[fields[i].ident]))
  }

  /** The generated `from_ptr` of the struct itself. */
  function FromPtr(fields: seq<FieldPlan>, eval: Expr -> Raw, ptr: Option<RawStruct>): (r: Option<seq<Value>>)
    requires ptr.Some? ==> StructFits(fields, ptr.value)
    ensures r.None? <==> ptr.None?
    ensures r.Some? ==> r.value == ConvertStruct(fields, eval, ptr.value)
  {
    if ptr.None? then None else Some(ConvertStruct(fields, eval, ptr.value))
  }

  /** `<ident>Ref`: a non-NULL pointer to the raw struct. */
  datatype StructRef = StructRef(target: RawStruct)

  /** The generated `<ident>Ref::from_ptr`. */
  function RefFromPtr(ptr: Option<RawStruct>): (r: Option<StructRef>)
    ensures r.None? <==> ptr.None?
    ensures r.Some? ==> r.value.target == ptr.value
  {
    if ptr.None? then None else Some(StructRef(ptr.value))
  }

  /** The generated `<ident>Ref::inner`. */
  function RefInner(fields: seq<FieldPlan>, eval: Expr -> Raw, r: StructRef): seq<Value>
    requires StructFits(fields, r.target)
  {
    ConvertStruct(fields, eval, r.target)
  }

  /** The `Ref` form and the value form of `from_ptr` agree: `inner` of the reference is the value. */
  lemma RefAgreesWithValue(fields: seq<FieldPlan>, eval: Expr -> Raw, ptr: Option<RawStruct>)
    requires ptr.Some? ==> StructFits(fields, ptr.value)
    ensures RefFromPtr(ptr).None? <==> FromPtr(fields, eval, ptr).None?
    ensures RefFromPtr(ptr).Some? ==> RefInner(fields, eval, RefFromPtr(ptr).value) == FromPtr(fields, eval, ptr).value
  {
  }

  /** The arm the generated `match` takes: the first whose discriminant equals the raw value. */
  function MatchArms(arms: seq<Arm>, eval: Expr -> Raw, raw: Raw): (v: Option<string>)
    ensures v.None? <==> forall i :: 0 <= i < |arms| ==> !RawEq(eval(arms[i].discriminant), raw)
    ensures v.Some? ==> exists i :: 0 <= i < |arms| && arms[i].variant == v.value
                          && RawEq(eval(arms[i].discriminant), raw)
                          && forall j :: 0 <= j < i ==> !RawEq(eval(arms[j].discriminant), raw)
  {
    if |arms| == 0 then None
    else if RawEq(eval(arms[0].discriminant), raw) then Some(arms[0].variant)
    else
      var v := MatchArms(arms[1..], eval, raw);
      assert forall i :: 1 <= i < |arms| ==> arms[i] == arms[1..][i - 1];
      if v.Some? then
        var i :| 0 <= i < |arms[1..]| && arms[1..][i].variant == v.value
                 && RawEq(eval(arms[1..][i].discriminant), raw)
                 && forall j :: 0 <= j < i ==> !RawEq(eval(arms[1..][j].discriminant), raw);
        assert arms[i + 1] == arms[1..][i];
        v
      else v
  }

  /**
   * The generated enum `From`: the variant of the matching arm, else the
   * `#[other]` variant; `None` stands for reaching `unreachable!()`.
   */
  function ConvertEnum(plan: EnumPlan, eval: Expr -> Raw, raw: Raw): Option<string> {
    match MatchArms(plan.arms, eval, raw)
    case Some(v) => Some(v)
    case None => plan.other
  }

  /** The variant the input declares for a raw value: the first whose discriminant equals it. */
  predicate FirstMatch(vs: seq<EnumVariant>, eval: Expr -> Raw, raw: Raw, i: int) {
    && 0 <= i < |vs|
    && vs[i].discriminant.Some? && RawEq(eval(vs[i].discriminant.value), raw)
    && forall j :: 0 <= j < i && vs[j].discriminant.Some? ==> !RawEq(eval(vs[j].discriminant.value), raw)
  }

  /**
   * Enum conversion, stated on the declared variants: a raw value equal to
   * a listed discriminant gives the first variant listing it; any other
   * value gives the `#[other]` variant, or reaches `unreachable!()`.
   */
  lemma {:induction false} EnumConversion(vs: seq<EnumVariant>, eval: Expr -> Raw, raw: Raw)
    ensures forall i :: FirstMatch(vs, eval, raw, i) ==> ConvertEnum(EnumPlanOf(vs), eval, raw) == Some(vs[i].ident)
    ensures (forall i :: 0 <= i < |vs| && vs[i].discriminant.Some? ==> !RawEq(eval(vs[i].discriminant.value), raw)) ==>
      ConvertEnum(EnumPlanOf(vs), eval, raw) ==
        (if |OtherVariants(vs)| > 0 then Some(OtherVariants(vs)[0]) else None)
  {
    ArmsMatch(vs, eval, raw);
  }

  lemma {:induction false} ArmsMatch(vs: seq<EnumVariant>, eval: Expr -> Raw, raw: Raw)
    ensures forall i :: FirstMatch(vs, eval, raw, i) ==> MatchArms(Arms(vs), eval, raw) == Some(vs[i].ident)
    ensures (forall i :: 0 <= i < |vs| && vs[i].discriminant.Some? ==> !RawEq(eval(vs[i].discriminant.value), raw)) ==>
      MatchArms(Arms(vs), eval, raw).None?
  {
    if |vs| > 0 {
      ArmsMatch(vs[1..], eval, raw);
      assert forall i :: 1 <= i < |vs| ==> vs[i] == vs[1..][i - 1];
      forall i | FirstMatch(vs, eval, raw, i) && i > 0
        ensures FirstMatch(vs[1..], eval, raw, i - 1)
      {
      }
    }
  }
}
