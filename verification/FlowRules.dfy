/** Which connection ends are accepted, in terms of what they are bound to. */
module FlowRules {
  import opened Tokens
  import opened Basics
  import opened Elements
  import opened Acceptance
  import opened Connections

  /** A port usage. */
  predicate Port(m: Model, id: Id) { Get(m, id).kind == Usage && Get(m, id).defKind == KW_PORT }

  /** A feature whose first type is bound to a port definition. */
  predicate PortTyped(m: Model, id: Id) {
    var e := Get(m, id);
    && e.kind in {Usage, Attribute} && e.types != [] && e.types[0].target.Some?
    && Get(m, e.types[0].target.value).kind == Definition && Get(m, e.types[0].target.value).defKind == KW_PORT
  }

  /** What flows out of the port: conjugation exchanges `in` and `out`. */
  predicate Gives(d: Direction, conjugated: bool) { d == InOut || (d == Out && !conjugated) || (d == In && conjugated) }

  predicate Receives(d: Direction, conjugated: bool) { d == InOut || (d == In && !conjugated) || (d == Out && conjugated) }

  /** The verdict on one end: unbound, a port of the right direction, or a feature typed by a port. */
  lemma EndRule(m: Model, end: Ref, role: Role)
    ensures EndErrors(m, end, role) == (
      if end.target.None? then 0
      else
        var id := end.target.value;
        if Port(m, id) then
          match role
          case Connect => 0
          case FlowFrom => if Gives(Get(m, id).direction, end.parity) then 0 else 1
          case FlowTo => if Receives(Get(m, id).direction, end.parity) then 0 else 1
        else if PortTyped(m, id) then 0 else 1)
  {
  }

  /** End number `i` of the usage `u` is acceptable; the first end of a flow or message is its source and the
      second one its target. */
  predicate EndIsGood(m: Model, u: Id, i: nat)
    requires i < |Get(m, u).ends|
  {
    var e, end := Get(m, u), Get(m, u).ends[i];
    end.target.Some? ==>
      || (PortTyped(m, end.target.value) && !Port(m, end.target.value))
      || (Port(m, end.target.value)
          && (e.defKind in {KW_FLOW, KW_MESSAGE} && i == 0 ==> Gives(Get(m, end.target.value).direction, end.parity))
          && (e.defKind in {KW_FLOW, KW_MESSAGE} && i == 1 ==> Receives(Get(m, end.target.value).direction, end.parity)))
  }

  /** A usage whose ends are looked at: not a binding, an allocation or a satisfaction. */
  predicate Connecting(m: Model, u: Id) {
    Get(m, u).kind == Usage && Get(m, u).defKind !in {KW_BIND, KW_ALLOCATE, KW_SATISFY}
  }

  lemma {:induction false} EndsAre(m: Model, u: Id, n: nat)
    requires n <= |Get(m, u).ends|
    ensures EndsErrors(m, Get(m, u), n) == 0 <==> forall i | 0 <= i < n :: EndIsGood(m, u, i)
  {
    hide EndErrors;
    if n > 0 {
      EndsAre(m, u, n - 1);
      EndRule(m, Get(m, u).ends[n - 1], RoleOf(Get(m, u), n - 1));
      assert EndErrors(m, Get(m, u).ends[n - 1], RoleOf(Get(m, u), n - 1)) == 0 <==> EndIsGood(m, u, n - 1);
    }
  }

  lemma UsageIs(m: Model, u: Id)
    ensures UsageErrors(m, Get(m, u)) == 0 <==>
      (Connecting(m, u) ==> forall i | 0 <= i < |Get(m, u).ends| :: EndIsGood(m, u, i))
  {
    hide EndsErrors, EndIsGood;
    EndsAre(m, u, |Get(m, u).ends|);
  }

  ghost predicate AllConnect(m: Model, n: Id) {
    forall u, i: nat | Within(m, n, u) && Connecting(m, u) && i < |Get(m, u).ends| :: EndIsGood(m, u, i)
  }

  lemma {:induction false} MembersAre(m: Model, n: Id, ids: seq<Id>)
    requires Nested(m) && forall x | x in ids :: x in Get(m, n).members
    ensures MembersErrors(m, n, ids) == 0 <==> forall x | x in ids :: TreeErrors(m, x) == 0
    decreases |ids|
  {
    hide Nested, TreeErrors;
    if ids != [] {
      var front, last := ids[..|ids| - 1], ids[|ids| - 1];
      NestedMember(m, n, last);
      MembersAre(m, n, front);
      assert ids == front + [last];
    }
  }

  /** The checker accepts a program exactly when every end of every connecting usage in it is good. */
  lemma {:induction false} ConnectedExactly(m: Model, n: Id)
    requires Nested(m)
    ensures TreeErrors(m, n) == 0 <==> AllConnect(m, n)
    decreases if n < |m| then |m| - n else 0
  {
    hide Nested, Within, UsageErrors, MembersErrors, EndIsGood, Connecting;
    if Get(m, n).kind in {Program, Package, Definition, Usage} {
      UsageIs(m, n);
      MembersAre(m, n, Get(m, n).members);
      forall x | x in Get(m, n).members ensures TreeErrors(m, x) == 0 <==> AllConnect(m, x) {
        NestedMember(m, n, x);
        ConnectedExactly(m, x);
      }
      TreeUnfolds(m, n);
      TreeSplits(m, n);
    } else {
      forall u ensures !Within(m, n, u) {
        WithinContainers(m, n, u);
      }
    }
  }

  lemma TreeUnfolds(m: Model, n: Id)
    requires Nested(m) && Get(m, n).kind in {Program, Package, Definition, Usage}
    ensures TreeErrors(m, n) == UsageErrors(m, Get(m, n)) + MembersErrors(m, n, Get(m, n).members)
  {
    hide Nested, UsageErrors, MembersErrors;
  }

  lemma TreeSplits(m: Model, n: Id)
    requires Get(m, n).kind in {Program, Package, Definition, Usage}
    ensures AllConnect(m, n) <==>
      && (Connecting(m, n) ==> forall i | 0 <= i < |Get(m, n).ends| :: EndIsGood(m, n, i))
      && (forall x | x in Get(m, n).members :: AllConnect(m, x))
  {
    hide Within, EndIsGood, Connecting;
    WithinSelf(m, n);
    if AllConnect(m, n) {
      forall x, u, i: nat | x in Get(m, n).members && Within(m, x, u) && Connecting(m, u) && i < |Get(m, u).ends|
        ensures EndIsGood(m, u, i)
      {
        WithinMember(m, n, x, u);
      }
    }
    if (Connecting(m, n) ==> forall i | 0 <= i < |Get(m, n).ends| :: EndIsGood(m, n, i))
       && forall x | x in Get(m, n).members :: AllConnect(m, x) {
      forall u, i: nat | Within(m, n, u) && Connecting(m, u) && i < |Get(m, u).ends| ensures EndIsGood(m, u, i) {
        if u != n { var x := WithinSplit(m, n, u); }
      }
    }
  }
}
