/** Token vocabulary of the scanner: fixed symbols and keywords, names, literals. */
module Tokens {

  /** The kinds of token whose text is fixed (punctuation, keywords, end of input), numbered
      as an enumeration. */
  newtype Kind = k: int | 0 <= k < 122

  const LEFT_BRACE: Kind := 0
  const RIGHT_BRACE: Kind := 1
  const LEFT_PAREN: Kind := 2
  const RIGHT_PAREN: Kind := 3
  const LEFT_BRACKET: Kind := 4
  const RIGHT_BRACKET: Kind := 5
  const SEMICOLON: Kind := 6
  const COMMA: Kind := 7
  const PERIOD: Kind := 8
  const PLUS: Kind := 9
  const MINUS: Kind := 10
  const STAR: Kind := 11
  const SLASH: Kind := 12
  const STAR_STAR: Kind := 13
  const BANG: Kind := 14
  const TILDE: Kind := 15
  const AT_SIGN: Kind := 16
  const HASH: Kind := 17
  const COLON: Kind := 18
  const COLON_COLON: Kind := 19
  const COLON_GREATER: Kind := 20
  const COLON_GREATER_GREATER: Kind := 21
  const DOT_DOT: Kind := 22
  const EQUAL: Kind := 23
  const EQUAL_EQUAL: Kind := 24
  const BANG_EQUAL: Kind := 25
  const LESS: Kind := 26
  const LESS_EQUAL: Kind := 27
  const GREATER: Kind := 28
  const GREATER_EQUAL: Kind := 29
  const KW_PACKAGE: Kind := 30
  const KW_IMPORT: Kind := 31
  const KW_PART: Kind := 32
  const KW_PORT: Kind := 33
  const KW_INTERFACE: Kind := 34
  const KW_ITEM: Kind := 35
  const KW_CONNECTION: Kind := 36
  const KW_FLOW: Kind := 37
  const KW_DEF: Kind := 38
  const KW_ATTRIBUTE: Kind := 39
  const KW_REF: Kind := 40
  const KW_ABSTRACT: Kind := 41
  const KW_DERIVED: Kind := 42
  const KW_CONSTANT: Kind := 43
  const KW_SPECIALIZES: Kind := 44
  const KW_REDEFINES: Kind := 45
  const KW_SUBSETS: Kind := 46
  const KW_PUBLIC: Kind := 47
  const KW_PRIVATE: Kind := 48
  const KW_PROTECTED: Kind := 49
  const KW_DOC: Kind := 50
  const KW_COMMENT: Kind := 51
  const KW_ABOUT: Kind := 52
  const KW_ALIAS: Kind := 53
  const KW_FOR: Kind := 54
  const KW_DEPENDENCY: Kind := 55
  const KW_ENUM: Kind := 56
  const KW_IN: Kind := 57
  const KW_OUT: Kind := 58
  const KW_INOUT: Kind := 59
  const KW_CONNECT: Kind := 60
  const KW_TO: Kind := 61
  const KW_FROM: Kind := 62
  const KW_END: Kind := 63
  const KW_TRUE: Kind := 64
  const KW_FALSE: Kind := 65
  const KW_CONSTRAINT: Kind := 66
  const KW_REQUIREMENT: Kind := 67
  const KW_ASSERT: Kind := 68
  const KW_ASSUME: Kind := 69
  const KW_REQUIRE: Kind := 70
  const KW_SUBJECT: Kind := 71
  const KW_AND: Kind := 72
  const KW_OR: Kind := 73
  const KW_ACTION: Kind := 74
  const KW_SUCCESSION: Kind := 75
  const KW_FIRST: Kind := 76
  const KW_THEN: Kind := 77
  const KW_START: Kind := 78
  const KW_DONE: Kind := 79
  const KW_STATE: Kind := 80
  const KW_EXHIBIT: Kind := 81
  const KW_TRANSITION: Kind := 82
  const KW_ENTRY: Kind := 83
  const KW_EXIT: Kind := 84
  const KW_DO: Kind := 85
  const KW_ACCEPT: Kind := 86
  const KW_IF: Kind := 87
  const KW_PERFORM: Kind := 88
  const KW_RETURN: Kind := 89
  const KW_CALC: Kind := 90
  const KW_BIND: Kind := 91
  const KW_OF: Kind := 92
  const KW_ALLOCATE: Kind := 93
  const KW_OCCURRENCE: Kind := 94
  const KW_EVENT: Kind := 95
  const KW_INDIVIDUAL: Kind := 96
  const KW_SNAPSHOT: Kind := 97
  const KW_TIMESLICE: Kind := 98
  const KW_ALLOCATION: Kind := 99
  const KW_VIEW: Kind := 100
  const KW_VIEWPOINT: Kind := 101
  const KW_RENDERING: Kind := 102
  const KW_CONCERN: Kind := 103
  const KW_VARIANT: Kind := 104
  const KW_VARIATION: Kind := 105
  const KW_ACTOR: Kind := 106
  const KW_INCLUDE: Kind := 107
  const KW_MESSAGE: Kind := 108
  const KW_USE: Kind := 109
  const KW_METADATA: Kind := 110
  const KW_VERIFICATION: Kind := 111
  const KW_OBJECTIVE: Kind := 112
  const KW_SATISFY: Kind := 113
  const KW_FILTER: Kind := 114
  const KW_XOR: Kind := 115
  const KW_NONUNIQUE: Kind := 116
  const KW_ORDERED: Kind := 117
  const KW_META: Kind := 118
  const KW_DEFAULT: Kind := 119
  const KW_ANALYSIS: Kind := 120
  const EOF: Kind := 121

  /** A token.  Only the kinds that carry free text keep their lexeme; `Bad` holds the
      scanner's message, as the source's error tokens do. */
  datatype Token =
    | Sym(kind: Kind)
    | Name(text: string)
    | Number(text: string)
    | Text(text: string)
    | DocBody(text: string)
    | Bad(text: string)

  predicate IsDigit(c: char) { '0' <= c <= '9' }

  predicate IsAlpha(c: char) { 'a' <= c <= 'z' || 'A' <= c <= 'Z' || c == '_' }

  predicate IsWordChar(c: char) { IsAlpha(c) || IsDigit(c) }

  predicate NotNewline(c: char) { c != '\n' }

  predicate NotQuote(c: char) { c != '"' }

  predicate NotApostrophe(c: char) { c != '\'' }

  /** A letter or underscore followed by letters, digits and underscores. */
  predicate IsBareIdentifier(w: string) {
    |w| > 0 && IsAlpha(w[0]) && forall i | 1 <= i < |w| :: IsWordChar(w[i])
  }

  /** The keyword spelled `w`, or `EOF` when `w` is an ordinary identifier. */
  function KeywordKind(w: string): Kind {
    if |w| == 7 && w == "package" then KW_PACKAGE
    else if |w| == 6 && w == "import" then KW_IMPORT
    else if |w| == 4 && w == "part" then KW_PART
    else if |w| == 4 && w == "port" then KW_PORT
    else if |w| == 9 && w == "interface" then KW_INTERFACE
    else if |w| == 4 && w == "item" then KW_ITEM
    else if |w| == 10 && w == "connection" then KW_CONNECTION
    else if |w| == 4 && w == "flow" then KW_FLOW
    else if |w| == 3 && w == "def" then KW_DEF
    else if |w| == 9 && w == "attribute" then KW_ATTRIBUTE
    else if |w| == 3 && w == "ref" then KW_REF
    else if |w| == 8 && w == "abstract" then KW_ABSTRACT
    else if |w| == 7 && w == "derived" then KW_DERIVED
    else if |w| == 8 && w == "constant" then KW_CONSTANT
    else if |w| == 11 && w == "specializes" then KW_SPECIALIZES
    else if |w| == 9 && w == "redefines" then KW_REDEFINES
    else if |w| == 7 && w == "subsets" then KW_SUBSETS
    else if |w| == 6 && w == "public" then KW_PUBLIC
    else if |w| == 7 && w == "private" then KW_PRIVATE
    else if |w| == 9 && w == "protected" then KW_PROTECTED
    else if |w| == 3 && w == "doc" then KW_DOC
    else if |w| == 7 && w == "comment" then KW_COMMENT
    else if |w| == 5 && w == "about" then KW_ABOUT
    else if |w| == 5 && w == "alias" then KW_ALIAS
    else if |w| == 3 && w == "for" then KW_FOR
    else if |w| == 10 && w == "dependency" then KW_DEPENDENCY
    else if |w| == 4 && w == "enum" then KW_ENUM
    else if |w| == 2 && w == "in" then KW_IN
    else if |w| == 3 && w == "out" then KW_OUT
    else if |w| == 5 && w == "inout" then KW_INOUT
    else if |w| == 7 && w == "connect" then KW_CONNECT
    else if |w| == 2 && w == "to" then KW_TO
    else if |w| == 4 && w == "from" then KW_FROM
    else if |w| == 3 && w == "end" then KW_END
    else if |w| == 4 && w == "true" then KW_TRUE
    else if |w| == 5 && w == "false" then KW_FALSE
    else if |w| == 10 && w == "constraint" then KW_CONSTRAINT
    else if |w| == 11 && w == "requirement" then KW_REQUIREMENT
    else if |w| == 6 && w == "assert" then KW_ASSERT
    else if |w| == 6 && w == "assume" then KW_ASSUME
    else if |w| == 7 && w == "require" then KW_REQUIRE
    else if |w| == 7 && w == "subject" then KW_SUBJECT
    else KeywordKindMore(w)
  }

  function KeywordKindMore(w: string): Kind {
    if |w| == 3 && w == "and" then KW_AND
    else if |w| == 2 && w == "or" then KW_OR
    else if |w| == 6 && w == "action" then KW_ACTION
    else if |w| == 10 && w == "succession" then KW_SUCCESSION
    else if |w| == 5 && w == "first" then KW_FIRST
    else if |w| == 4 && w == "then" then KW_THEN
    else if |w| == 5 && w == "start" then KW_START
    else if |w| == 4 && w == "done" then KW_DONE
    else if |w| == 5 && w == "state" then KW_STATE
    else if |w| == 7 && w == "exhibit" then KW_EXHIBIT
    else if |w| == 10 && w == "transition" then KW_TRANSITION
    else if |w| == 5 && w == "entry" then KW_ENTRY
    else if |w| == 4 && w == "exit" then KW_EXIT
    else if |w| == 2 && w == "do" then KW_DO
    else if |w| == 6 && w == "accept" then KW_ACCEPT
    else if |w| == 2 && w == "if" then KW_IF
    else if |w| == 7 && w == "perform" then KW_PERFORM
    else if |w| == 6 && w == "return" then KW_RETURN
    else if |w| == 4 && w == "calc" then KW_CALC
    else if |w| == 4 && w == "bind" then KW_BIND
    else if |w| == 2 && w == "of" then KW_OF
    else if |w| == 8 && w == "allocate" then KW_ALLOCATE
    else if |w| == 10 && w == "occurrence" then KW_OCCURRENCE
    else if |w| == 5 && w == "event" then KW_EVENT
    else if |w| == 10 && w == "individual" then KW_INDIVIDUAL
    else if |w| == 8 && w == "snapshot" then KW_SNAPSHOT
    else if |w| == 9 && w == "timeslice" then KW_TIMESLICE
    else if |w| == 10 && w == "allocation" then KW_ALLOCATION
    else if |w| == 4 && w == "view" then KW_VIEW
    else if |w| == 9 && w == "viewpoint" then KW_VIEWPOINT
    else if |w| == 9 && w == "rendering" then KW_RENDERING
    else if |w| == 7 && w == "concern" then KW_CONCERN
    else if |w| == 7 && w == "variant" then KW_VARIANT
    else if |w| == 9 && w == "variation" then KW_VARIATION
    else if |w| == 5 && w == "actor" then KW_ACTOR
    else if |w| == 7 && w == "include" then KW_INCLUDE
    else if |w| == 7 && w == "message" then KW_MESSAGE
    else if |w| == 3 && w == "use" then KW_USE
    else if |w| == 8 && w == "metadata" then KW_METADATA
    else if |w| == 12 && w == "verification" then KW_VERIFICATION
    else if |w| == 9 && w == "objective" then KW_OBJECTIVE
    else if |w| == 7 && w == "satisfy" then KW_SATISFY
    else if |w| == 6 && w == "filter" then KW_FILTER
    else if |w| == 3 && w == "xor" then KW_XOR
    else if |w| == 9 && w == "nonunique" then KW_NONUNIQUE
    else if |w| == 7 && w == "ordered" then KW_ORDERED
    else if |w| == 4 && w == "meta" then KW_META
    else if |w| == 7 && w == "default" then KW_DEFAULT
    else if |w| == 8 && w == "analysis" then KW_ANALYSIS
    else EOF
  }

  predicate IsKeyword(w: string) { KeywordKind(w) != EOF }

  /** A name the printer and scanner carry faithfully: non-empty, free of apostrophes and,
      when it has the shape of a bare identifier, not a keyword. */
  predicate PrintableName(w: string) {
    |w| > 0 && '\'' !in w && (IsBareIdentifier(w) ==> !IsKeyword(w))
  }
}
