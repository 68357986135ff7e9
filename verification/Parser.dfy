/** Parser state, error reporting and recovery, shared by the expression and declaration
    parsers. */
module ParserCommon {
  import opened Tokens
  import opened Lexical
  import opened Scanning
  import opened Pratt

  /** No scanner error is still to come. */
  predicate Clean(ts: seq<Token>) {
    forall i | 0 <= i < |ts| :: !ts[i].Bad?
  }

  /** No `comment` is still to come, whose body is not among the tokens. */
  predicate Commentless(ts: seq<Token>) { Sym(KW_COMMENT) !in ts }

  predicate Readable(ts: seq<Token>) { Clean(ts) && Commentless(ts) }

  predicate IsSuffix(b: seq<Token>, a: seq<Token>) {
    |b| <= |a| && b == a[|a| - |b|..]
  }

  /** The observable part of a parser state. */
  datatype Snapshot = Snapshot(rest: seq<Token>, panic: bool, messages: nat, syncs: nat)

  /** `b` is reached from `a` by consuming tokens and reporting errors; nothing recovers. */
  predicate Follows(a: Snapshot, b: Snapshot) {
    && IsSuffix(b.rest, a.rest) && |b.rest| <= |a.rest|
    && (a.panic ==> b.panic && b.messages == a.messages)
    && b.syncs == a.syncs
    && (Clean(a.rest) ==> Clean(b.rest))
  }

  /** As `Follows`, and at least one token is gone unless none was left. */
  predicate Consumes(a: Snapshot, b: Snapshot) {
    Follows(a, b) && (a.rest != [] ==> |b.rest| < |a.rest|)
  }

  lemma SuffixRefl(a: seq<Token>)
    ensures IsSuffix(a, a)
  {
  }

  lemma SuffixTrans(a: seq<Token>, b: seq<Token>, c: seq<Token>)
    requires IsSuffix(b, a) && IsSuffix(c, b)
    ensures IsSuffix(c, a) && |c| <= |b|
  {
  }

  lemma SuffixClean(b: seq<Token>, a: seq<Token>)
    requires IsSuffix(b, a) && Clean(a)
    ensures Clean(b)
  {
    assert forall i | 0 <= i < |b| :: b[i] == a[|a| - |b| + i];
  }

  /** What was consumed between `a` and the later `b` held a scanner error. */
  predicate Broken(a: seq<Token>, b: seq<Token>) {
    |b| <= |a| && !Clean(a[..|a| - |b|])
  }

  lemma BrokenGrows(a: seq<Token>, b: seq<Token>, c: seq<Token>)
    requires IsSuffix(b, a) && IsSuffix(c, b) && (Broken(a, b) || Broken(b, c))
    ensures Broken(a, c)
  {
    var k := |a| - |b|;
    if Broken(a, b) {
      assert forall i | 0 <= i < k :: a[..k][i] == a[..|a| - |c|][i];
    } else {
      var read := b[..|b| - |c|];
      assert forall i | 0 <= i < |read| :: read[i] == a[..|a| - |c|][k + i];
    }
  }

  lemma BrokenHead(a: seq<Token>, c: seq<Token>)
    requires a != [] && a[0].Bad? && |c| < |a|
    ensures Broken(a, c)
  {
    assert a[..|a| - |c|][0] == a[0];
  }

  /** As `Consumes`, and unless a scanner error intervened it is exactly the first token. */
  predicate Took(a: Snapshot, b: Snapshot) {
    && Consumes(a, b)
    && (a.rest != [] && (!b.panic || Clean(a.rest)) ==> b.rest == a.rest[1..])
    && (Clean(a.rest) ==> b.panic == a.panic && b.messages == a.messages)
  }

  /** `ra` is what the grammar says from state `a` on and `rb` what it says from the later
      state `b` on: without a panic the two agree, and no panic arises where the grammar
      has a parse. */
  ghost predicate Simulates<T>(a: Snapshot, ra: Result<T>, b: Snapshot, rb: Result<T>) {
    && (!b.panic ==> ra == rb)
    && (!a.panic && Clean(a.rest) && ra.Ok? ==> !b.panic)
  }

  lemma FollowsTrans(a: Snapshot, b: Snapshot, c: Snapshot)
    requires Follows(a, b) && Follows(b, c)
    ensures Follows(a, c)
  {
    hide IsSuffix, Clean;
    SuffixTrans(a.rest, b.rest, c.rest);
  }

  /** The parser has read `t` and stands at position `i`: what it has still to consume is
      `ts`, which begins with `t` and ends where the input ends. */
  predicate Lookahead(s: string, i: nat, t: Token, ts: seq<Token>)
    requires i <= |s|
  {
    if t == Sym(EOF) then ts == [] && TriviaEnd(s, i) == |s|
    else ts == [t] + Lex(s, i, t == Sym(KW_DOC))
  }

  lemma LookaheadHead(s: string, i: nat, t: Token, ts: seq<Token>)
    requires i <= |s| && Lookahead(s, i, t, ts)
    ensures t == Head(ts) && (t == Sym(EOF) <==> ts == [])
  {
  }

  lemma ScanOneNotEof(s: string, i: nat)
    requires i < |s| && TriviaUnit(s, i) == i
    ensures ScanOne(s, i).token != Sym(EOF)
  {
    hide KeywordKind;
  }

  /** One call of the scanner moves one token along `Lex`. */
  lemma LexStep(s: string, i: nat)
    requires i <= |s|
    ensures var j, all := TriviaEnd(s, i), Lex(s, i, false);
      if j == |s| then Lookahead(s, j, Sym(EOF), all)
      else var r := ScanOne(s, j);
        && r.token != Sym(EOF)
        && Lookahead(s, r.end, r.token, all)
        && (r.token.Bad? ==> Skips(Lex(s, r.end, false), all) && !Clean(all))
  {
    hide ScanOne;
    var j := TriviaEnd(s, i);
    if j < |s| {
      ScanOneNotEof(s, j);
      var r := ScanOne(s, j);
      SkipsOne(r.token, Lex(s, r.end, r.token == Sym(KW_DOC)));
    }
  }

  lemma LexDoc(s: string, i: nat)
    requires i <= |s|
    ensures var r, all := ScanDoc(s, i), Lex(s, i, true);
      && r.token != Sym(EOF)
      && Lookahead(s, r.end, r.token, all)
      && (r.token.Bad? ==> !Clean(all))
  {
    hide ScanDoc;
    assert ScanDoc(s, i).token.Bad? || ScanDoc(s, i).token.DocBody? by { ScanDocToken(s, i); }
    var r := ScanDoc(s, i);
    SkipsOne(r.token, Lex(s, r.end, false));
  }

  lemma ScanDocToken(s: string, i: nat)
    requires i <= |s|
    ensures var t := ScanDoc(s, i).token; t.Bad? || t.DocBody?
  {
  }

  /** `b` is what is left of `a` after at least one token. */
  predicate Skips(b: seq<Token>, a: seq<Token>) {
    IsSuffix(b, a) && |b| < |a|
  }

  lemma SkipsOne(t: Token, ts: seq<Token>)
    ensures var all := [t] + ts;
      Skips(ts, all) && all[1..] == ts && (t.Bad? ==> !Clean(all)) && (Clean(all) ==> Clean(ts))
  {
    var all := [t] + ts;
    assert all[0] == t;
    if Clean(all) { SuffixClean(ts, all); }
  }

  lemma LookaheadStep(s: string, i: nat, t: Token, all: seq<Token>)
    requires i <= |s| && Lookahead(s, i, t, all) && t != Sym(EOF)
    ensures var ts := Lex(s, i, t == Sym(KW_DOC));
      Skips(ts, all) && all[1..] == ts && (Clean(all) ==> Clean(ts))
  {
    hide Lex;
    SkipsOne(t, Lex(s, i, t == Sym(KW_DOC)));
  }

  lemma LookaheadEnd(s: string, i: nat, all: seq<Token>)
    requires i <= |s| && Lookahead(s, i, Sym(EOF), all)
    ensures all == Lex(s, i, false) == []
  {
  }

  /** The tokens at which recovery stops: keywords that begin a declaration, and `}`. */
  predicate IsRestart(k: Kind) {
    || k == KW_PACKAGE || k == KW_IMPORT || k == KW_PART || k == KW_PORT || k == KW_INTERFACE || k == KW_ITEM
    || k == KW_CONNECTION || k == KW_FLOW || k == KW_END || k == KW_CONNECT || k == KW_ATTRIBUTE || k == KW_DOC
    || k == KW_COMMENT || k == KW_ALIAS || k == KW_DEPENDENCY || k == KW_ENUM || k == KW_CONSTRAINT
    || k == KW_REQUIREMENT || k == KW_ASSERT || k == KW_ASSUME || k == KW_REQUIRE || k == KW_SUBJECT || k == KW_ACTION
    || k == KW_SUCCESSION || k == KW_FIRST || k == KW_THEN || k == KW_STATE || k == KW_EXHIBIT || k == KW_TRANSITION
    || k == KW_ENTRY || k == KW_EXIT || k == KW_DO || k == KW_PERFORM || k == KW_RETURN || k == KW_CALC
    || k == KW_BIND || k == KW_ALLOCATE || k == KW_OCCURRENCE || k == KW_EVENT || k == KW_INDIVIDUAL
    || k == KW_SNAPSHOT || k == KW_TIMESLICE || k == KW_ALLOCATION || k == KW_VIEW || k == KW_VIEWPOINT
    || k == KW_RENDERING || k == KW_CONCERN || k == KW_VARIANT || k == KW_VARIATION || k == KW_ACTOR
    || k == KW_INCLUDE || k == KW_MESSAGE || k == KW_USE || k == KW_METADATA || k == KW_VERIFICATION
    || k == KW_OBJECTIVE || k == KW_SATISFY || k == KW_FILTER || k == KW_ABSTRACT || k == KW_DERIVED
    || k == KW_CONSTANT || k == KW_REF || k == RIGHT_BRACE
  }

  predicate Restarts(t: Token) { t.Sym? && IsRestart(t.kind) }

  /** Where recovery resumes when nothing in `ts` is a scanner error and `t` was consumed
      just before: after the first `;`, or at the first restart token. */
  function ResumeAt(t: Token, ts: seq<Token>): seq<Token>
    decreases |ts|
  {
    if ts == [] || t == Sym(SEMICOLON) || Restarts(ts[0]) then ts else ResumeAt(ts[0], ts[1..])
  }

  class Parser {
    const sc: Scanner
    var current: Token
    var previous: Token
    var hadError: bool
    var panicMode: bool
    /** Error messages printed so far. */
    var messages: nat
    /** The current token and all later ones; empty at the end of input. */
    ghost var rest: seq<Token>
    /** Calls of `Synchronize` so far. */
    ghost var syncs: nat

    /** Besides the token stream: an error is on record exactly when a message was printed,
        and every message but that of a panic still going on has been recovered from. */
    ghost predicate Valid()
      reads this, sc
    {
      && sc.Valid()
      && Lookahead(sc.src, sc.current, current, rest)
      && current == Head(rest) && (current == Sym(EOF) <==> rest == [])
      && hadError == (messages > 0)
      && messages == syncs + if panicMode then 1 else 0
    }

    ghost function Snap(): Snapshot
      reads this
    {
      Snapshot(rest, panicMode, messages, syncs)
    }

    /** `initScanner` and the start of `parse`: one token of lookahead is read. */
    constructor (source: string)
      requires IsSource(source)
      ensures Valid() && fresh(this) && fresh(sc)
      ensures sc.src == source && syncs == 0
      ensures !panicMode || Clean(Lex(source, 0, false)) ==> rest == Lex(source, 0, false)
      ensures Clean(Lex(source, 0, false)) ==> !panicMode
    {
      sc := new Scanner(source);
      current, previous := Sym(EOF), Sym(EOF);
      hadError, panicMode, messages := false, false, 0;
      rest, syncs := [], 0;
      new;
      ghost var all := Lex(source, 0, false);
      NextToken(all);
    }

    method ErrorAtCurrent()
      requires sc.Valid()
      requires hadError == (messages > 0) && messages == syncs + if panicMode then 1 else 0
      modifies this`hadError, this`panicMode, this`messages
      ensures panicMode && hadError
      ensures messages == if old(panicMode) then old(messages) else old(messages) + 1
    {
      if panicMode {
        return;
      }
      panicMode := true;
      messages := messages + 1;
      hadError := true;
    }

    /** Reads tokens until one is not a scanner error, reporting the errors. */
    method NextToken(ghost ahead: seq<Token>)
      requires sc.Valid() && ahead == Lex(sc.src, sc.current, false)
      requires hadError == (messages > 0) && messages == syncs + if panicMode then 1 else 0
      modifies this, sc
      ensures Valid()
      ensures IsSuffix(rest, ahead) && |rest| <= |ahead|
      ensures previous == old(previous) && syncs == old(syncs)
      ensures old(panicMode) ==> panicMode && messages == old(messages)
      ensures !panicMode || Clean(ahead) ==> rest == ahead
      ensures Clean(ahead) ==> panicMode == old(panicMode) && messages == old(messages) && Clean(rest)
      ensures panicMode && !old(panicMode) ==> Broken(ahead, rest)
    {
      hide Lex, ScanOne, TriviaEnd, LastBlock, Clean, IsSuffix, Lookahead, Broken;
      ghost var left := ahead;
      SuffixRefl(ahead);
      while true
        invariant sc.Valid() && left == Lex(sc.src, sc.current, false)
        invariant IsSuffix(left, ahead) && |left| <= |ahead|
        invariant previous == old(previous) && syncs == old(syncs)
        invariant hadError == (messages > 0) && messages == syncs + if panicMode then 1 else 0
        invariant old(panicMode) ==> panicMode && messages == old(messages)
        invariant !panicMode || Clean(ahead) ==> left == ahead
        invariant Clean(ahead) ==> panicMode == old(panicMode) && messages == old(messages)
        invariant panicMode && !old(panicMode) ==> Broken(ahead, left)
        decreases |left|
      {
        LexStep(sc.src, sc.current);
        if Clean(ahead) { SuffixClean(left, ahead); }
        current := sc.ScanToken();
        if !current.Bad? {
          LookaheadHead(sc.src, sc.current, current, left);
          rest := left;
          return;
        }
        ErrorAtCurrent();
        SuffixTrans(ahead, left, Lex(sc.src, sc.current, false));
        LookaheadHead(sc.src, sc.current, current, left);
        BrokenHead(left, Lex(sc.src, sc.current, false));
        BrokenGrows(ahead, left, Lex(sc.src, sc.current, false));
        left := Lex(sc.src, sc.current, false);
      }
    }

    /** `advance`: the token after `doc` is read by the specialised scanner entry. */
    method Advance()
      requires Valid()
      modifies this, sc
      ensures Valid() && previous == old(current)
      ensures Took(old(Snap()), Snap())
      ensures panicMode && !old(panicMode) ==> current.Bad? || Broken(old(rest), rest)
    {
      hide Lex, ScanOne, TriviaEnd, LastBlock, Clean, IsSuffix, ScanDoc, Lookahead, Broken;
      ghost var all := rest;
      previous := current;
      if previous == Sym(EOF) {
        LookaheadEnd(sc.src, sc.current, all);
        NextToken([]);
        return;
      }
      LookaheadStep(sc.src, sc.current, previous, all);
      ghost var after := Lex(sc.src, sc.current, previous == Sym(KW_DOC));
      if previous == Sym(KW_DOC) {
        LexDoc(sc.src, sc.current);
        current := sc.ScanDocBody();
        LookaheadHead(sc.src, sc.current, current, after);
        rest := after;
        if current.Bad? { ErrorAtCurrent(); }
      } else {
        NextToken(after);
        SuffixTrans(all, after, rest);
        if Broken(after, rest) { BrokenGrows(all, after, rest); }
      }
    }

    /** `match`. */
    method Match(k: Kind) returns (matched: bool)
      requires Valid() && k != EOF
      modifies this, sc
      ensures Valid() && matched == (old(current) == Sym(k))
      ensures if matched then Took(old(Snap()), Snap()) && previous == Sym(k)
              else Snap() == old(Snap()) && previous == old(previous) && current == old(current)
    {
      hide Took, Lookahead;
      matched := current == Sym(k);
      if matched { Advance(); }
    }

    /** `consume`: the token is required. */
    method Consume(k: Kind)
      requires Valid() && k != EOF
      modifies this, sc
      ensures Valid()
      ensures if old(current) == Sym(k) then Took(old(Snap()), Snap()) && previous == Sym(k)
              else panicMode && Follows(old(Snap()), Snap()) && rest == old(rest)
    {
      hide Took, Lookahead, Clean;
      if current == Sym(k) {
        Advance();
      } else {
        ErrorAtCurrent();
        SuffixRefl(rest);
      }
    }

    /** `synchronize`: leaves panic mode and skips to a point where parsing can resume. */
    method Synchronize()
      requires Valid() && panicMode
      modifies this, sc
      ensures Valid() && syncs == old(syncs) + 1 && hadError
      ensures current == Sym(EOF) || previous == Sym(SEMICOLON) || Restarts(current)
      ensures IsSuffix(rest, old(rest))
      ensures panicMode ==> current.Bad? || Broken(old(rest), rest)
      ensures Clean(old(rest)) ==> !panicMode && rest == ResumeAt(old(previous), old(rest))
    {
      hide Lookahead, Clean, IsSuffix, Restarts, Broken;
      ghost var from, all := previous, rest;
      panicMode := false;
      syncs := syncs + 1;
      SuffixRefl(rest);
      while current != Sym(EOF)
        invariant Valid() && IsSuffix(rest, all) && syncs == old(syncs) + 1 && hadError
        invariant panicMode ==> current.Bad? || Broken(all, rest)
        invariant Clean(all) ==> !panicMode && Clean(rest) && ResumeAt(previous, rest) == ResumeAt(from, all)
        decreases |rest|
      {
        if previous == Sym(SEMICOLON) || Restarts(current) {
          return;
        }
        ghost var before := rest;
        Advance();
        SuffixTrans(all, before, rest);
        if before[0].Bad? { BrokenHead(before, rest); }
        if Broken(all, before) || Broken(before, rest) { BrokenGrows(all, before, rest); }
      }
    }
  }
}
