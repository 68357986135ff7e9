/** The resolved syntax tree as a graph: elements are numbered, and references hold the
    number of the element they are bound to.  Type and specialization references may form
    cycles; containment may not. */
module Elements {
  import opened Basics
  import opened Tokens

  type Id = nat

  datatype ElementKind = Program | Package | Definition | Usage | Attribute | Alias | Import | Statement

  /** A qualified name, what it is bound to, and the conjugation parity of its path. */
  datatype Ref = Ref(parts: seq<string>, conjugated: bool, target: Option<Id>, parity: bool)

  /** One node.  `defKind` is the keyword of the kind of definition or usage; `target` holds
      the reference of an alias or import; `uses` holds the names in expressions and the
      references of statements, in source order.  The members of a statement are its parts
      that are nodes of their own: the targets of a succession, each a reference by itself
      or an action declared in place. */
  datatype Element = Element(
    kind: ElementKind,
    defKind: Kind,
    name: string,
    members: seq<Id>,
    types: seq<Ref>,
    specializes: seq<Ref>,
    redefines: seq<Ref>,
    ends: seq<Ref>,
    target: seq<Ref>,
    uses: seq<Ref>,
    wildcard: bool,
    direction: Direction,
    isConstant: bool)

  type Model = seq<Element>

  /** The element numbered `id`; numbers out of range name an empty statement. */
  function Get(m: Model, id: Id): Element {
    if id < |m| then m[id]
    else Bare(Statement, EOF, "")
  }

  /** An element without members or references. */
  function Bare(kind: ElementKind, defKind: Kind, name: string): Element {
    Element(kind, defKind, name, [], [], [], [], [], [], [], false, Undirected, false)
  }

  /** What an alias or import is bound to. */
  function TargetOf(e: Element): Option<Id> {
    if e.target == [] then None else e.target[0].target
  }

  /** The type a feature declares: what its first type reference is bound to. */
  function DeclaredType(m: Model, id: Id): Option<Id> {
    var e := Get(m, id);
    if (e.kind == Attribute || e.kind == Usage) && e.types != [] then e.types[0].target else None
  }

  /** The bound targets of `refs`, in order. */
  function Bound(refs: seq<Ref>): seq<Id> {
    if refs == [] then []
    else (if refs[0].target.Some? then [refs[0].target.value] else []) + Bound(refs[1..])
  }

  lemma {:induction false} BoundMembers(refs: seq<Ref>, id: Id)
    ensures id in Bound(refs) <==> exists i | 0 <= i < |refs| :: refs[i].target == Some(id)
  {
    if refs != [] {
      BoundMembers(refs[1..], id);
      if i :| 0 <= i < |refs| && refs[i].target == Some(id) {
        if i > 0 { assert refs[1..][i - 1].target == Some(id); }
      }
    }
  }

  /** Members come after their container, so containment has no cycle. */
  predicate Nested(m: Model) {
    forall c | 0 <= c < |m| :: forall x | x in m[c].members :: c < x
  }

  lemma NestedMember(m: Model, c: Id, x: Id)
    requires Nested(m) && x in Get(m, c).members
    ensures c < |m| && c < x
  {
  }
}
