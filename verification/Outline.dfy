/** Declaration nodes of the syntax tree, without source lines. */
module Outline {
  import opened Basics
  import opened Tokens
  import opened Syntax

  datatype Visibility = DefaultVisibility | Public | Private | Protected

  datatype Modifiers = Modifiers(isDerived: bool, isAbstract: bool, isConstant: bool, isReference: bool)

  const PLAIN: Modifiers := Modifiers(false, false, false, false)

  /** A qualified name; `conjugated` when it is written with a leading tilde. */
  datatype QName = QName(conjugated: bool, parts: seq<string>)

  datatype Bound = Star | Count(n: nat)

  datatype Multiplicity = Multiplicity(lower: Bound, upper: Option<Bound>)

  /** The clauses a definition, usage or attribute may carry after its name. */
  datatype Features = Features(
    types: seq<QName>,
    supers: seq<QName>,
    redefines: seq<QName>,
    multiplicity: Option<Multiplicity>)

  const BARE: Features := Features([], [], [], None)

  /** `kind` is the keyword that introduces a definition or usage, `KW_REF` for a usage
      without one.  `Link` is a reference among the targets of a succession; `Other` stands
      for the constructs whose nodes are not modelled. */
  datatype Decl =
    | Package(visibility: Visibility, name: string, members: seq<Decl>)
    | Definition(visibility: Visibility, kind: Kind, isAbstract: bool, name: string,
                 supers: seq<QName>, redefines: seq<QName>, members: seq<Decl>)
    | Usage(visibility: Visibility, kind: Kind, direction: Direction, modifiers: Modifiers, name: string,
            features: Features, ends: seq<QName>, value: Option<Expr>, members: seq<Decl>)
    | Attribute(visibility: Visibility, modifiers: Modifiers, name: string, features: Features, value: Option<Expr>)
    | EnumValue(name: string, value: Option<Expr>)
    | Import(visibility: Visibility, parts: seq<string>, wildcard: bool)
    | Alias(visibility: Visibility, name: string, target: QName)
    | Dependency(visibility: Visibility, name: string, sources: seq<QName>, targets: seq<QName>)
    | Doc(body: string)
    | Link(ref: QName)
    | Succession(name: string, first: Option<QName>, steps: seq<Decl>)
    | Transition(name: string, first: Option<QName>, accept_: Option<QName>, guard: Option<Expr>,
                 effect: Option<QName>, target: QName)
    | Other
}
