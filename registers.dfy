/**
 * Register descriptors as the service builds them from its configuration
 * (makeRegister in WattNodeService). A descriptor keeps the configuration entry
 * it was made from and answers its getters from it; the type string and the
 * transform expression are checked only when their getters are called.
 */
module Registers {

  /** One register entry of the (already parsed) configuration file. */
  datatype RegisterConfig = RegisterConfig(
    name: string,
    address: int,
    length: int,
    typeName: string,
    transform: string)

  /** How the raw words of a register are decoded. */
  datatype RegisterType = Float | Int

  /**
   * The runtime exceptions the getters raise: the two the service throws
   * itself, and the expression library's own refusal to build a text.
   */
  datatype Error =
    | UnknownType(typeName: string)
    | InvalidTransform(text: string, problems: seq<string>)
    | BuildFailed(text: string)

  datatype Result<T> = Ok(value: T) | Err(error: Error)

  /** What the expression library reports when it validates an expression. */
  datatype Validation = Validation(valid: bool, problems: seq<string>)

  /**
   * The two verdicts of the expression library on an expression text declared
   * over the single variable `_`: whether it builds at all, and how the built
   * expression, with `_` set to 0, validates. The library is not part of this
   * model, so its verdicts are a parameter.
   */
  datatype Library = Library(builds: string -> bool, validate: string -> Validation)

  /** The name of the one variable a transform may use. */
  const TransformVariable: string := "_"

  /** A built transform: its text, its variable and the value bound to it. */
  datatype Transform = Transform(text: string, variable: string, binding: real)

  /** The configuration spelling of a register type. */
  function TypeName(t: RegisterType): string
  {
    match t
    case Float => "float"
    case Int => "int"
  }

  /**
   * getType's switch: "float" and "int" are the only accepted spellings; every
   * other string is an error that names it.
   */
  function ParseType(s: string): (r: Result<RegisterType>)
    ensures r.Ok? <==> s == "float" || s == "int"
    ensures r.Ok? ==> TypeName(r.value) == s
    ensures r.Err? ==> r.error == UnknownType(s) && forall t :: TypeName(t) != s
  {
    if s == "float" then Ok(Float)
    else if s == "int" then Ok(Int)
    else Err(UnknownType(s))
  }

  /** Every register type is accepted back from its configuration spelling. */
  lemma ParseTypeName(t: RegisterType)
    ensures ParseType(TypeName(t)) == Ok(t)
  {
  }

  /**
   * getTransform: build the expression over `_`, bind `_` to 0 and validate it.
   * A text the library cannot build fails with the library's own error before
   * any validation; a built expression that fails validation is an error
   * carrying the text and the problems found.
   */
  function BuildTransform(text: string, lib: Library): (r: Result<Transform>)
    ensures r.Ok? <==> lib.builds(text) && lib.validate(text).valid
    ensures r.Ok? ==> r.value.text == text && r.value.variable == TransformVariable && r.value.binding == 0.0
    ensures r == Err(BuildFailed(text)) <==> !lib.builds(text)
    ensures r.Err? && lib.builds(text) ==> r.error == InvalidTransform(text, lib.validate(text).problems)
  {
    if !lib.builds(text) then Err(BuildFailed(text))
    else
      var v := lib.validate(text);
      if v.valid then Ok(Transform(text, TransformVariable, 0.0))
      else Err(InvalidTransform(text, v.problems))
  }

  /** The register object makeRegister returns: it closes over the configuration entry. */
  datatype Descriptor = Descriptor(entry: RegisterConfig)
  {
    function Name(): string { entry.name }

    function Address(): int { entry.address }

    function Length(): int { entry.length }

    /** Checked on every call, not when the descriptor is made. */
    function GetType(): Result<RegisterType> { ParseType(entry.typeName) }

    /** Validated afresh on every call, not when the descriptor is made. */
    function GetTransform(lib: Library): Result<Transform> { BuildTransform(entry.transform, lib) }
  }

  /**
   * makeRegister never fails: the descriptor reports the entry's name, address
   * and length unchanged, and the type and transform errors of a bad entry show
   * only when the corresponding getter is called.
   */
  function MakeRegister(reg: RegisterConfig): (d: Descriptor)
    ensures d.Name() == reg.name && d.Address() == reg.address && d.Length() == reg.length
    ensures d.GetType().Ok? <==> reg.typeName == "float" || reg.typeName == "int"
    ensures d.GetType().Ok? ==> TypeName(d.GetType().value) == reg.typeName
    ensures forall lib: Library {:trigger d.GetTransform(lib)} ::
              (d.GetTransform(lib).Ok? <==> lib.builds(reg.transform) && lib.validate(reg.transform).valid)
              && (d.GetTransform(lib).Ok? ==> d.GetTransform(lib).value.text == reg.transform)
  {
    Descriptor(reg)
  }

  /** The descriptors of a list of entries, one per entry, in configuration order. */
  function Catalog(regs: seq<RegisterConfig>): (ds: seq<Descriptor>)
    ensures |ds| == |regs|
    ensures forall i :: 0 <= i < |regs| ==> ds[i] == MakeRegister(regs[i])
  {
    seq(|regs|, i requires 0 <= i < |regs| => MakeRegister(regs[i]))
  }

  /** The catalog of a longer list extends the catalog of its prefix by one descriptor. */
  lemma CatalogSnoc(regs: seq<RegisterConfig>, i: nat)
    requires i < |regs|
    ensures Catalog(regs[..i + 1]) == Catalog(regs[..i]) + [MakeRegister(regs[i])]
  {
  }
}
