/**
 * The low-level SQL lexer of SQLiteStudio (a port of the SQLite 3.7.15.2
 * tokenizer): given a string, it classifies the token that starts at
 * position 0, writes its Lemon terminal code, its coarse token type and, in
 * tolerant mode, an "invalid" flag into a token object, and returns the
 * token's length.
 *
 * Reading past the end of the input yields the NUL character, exactly as the
 * source's charAt helper does. Qt's character classification, the test for
 * characters that force an identifier to be quoted, and the keyword table are
 * outside this model; they are the fields of an Env value.
 */
module Lexer {

  /** The character charAt returns past the end of the input. */
  const NUL: char := '\0'

  /** charAt(z, i): the character at i, or NUL outside the input. */
  function CharAt(z: string, i: int): (r: char)
    ensures 0 <= i < |z| ==> r == z[i]
    ensures r != NUL ==> 0 <= i < |z|
  {
    if 0 <= i < |z| then z[i] else NUL
  }

  /** Lemon terminal codes (TK3_*) that the lexer produces; keyword codes come
      from the keyword table and are kept abstract. */
  datatype LemonType =
    | TkSpace | TkComment | TkPtr | TkMinus | TkLp | TkRp | TkSemi | TkPlus
    | TkStar | TkSlash | TkRem | TkEq | TkLe | TkNe | TkLShift | TkLt | TkGe
    | TkRShift | TkGt | TkIllegal | TkBitOr | TkConcat | TkComma | TkBitAnd
    | TkBitNot | TkString | TkId | TkDot | TkInteger | TkFloat | TkVariable
    | TkBlob
    | TkKeyword(code: int)

  /** SQLiteStudio's coarse token classes (Token::Type). */
  datatype TokenType =
    | Other | Keyword | Space | Comment | Operator | ParLeft | ParRight
    | StringLit | Integer | Float | Blob | BindParam | Invalid

  /** What the lexer decides for one token: its length, its two codes and
      whether a tolerant token gets flagged invalid. */
  datatype Lexeme = Lexeme(length: nat, lemon: LemonType, kind: TokenType, invalid: bool)

  /** The classification functions the lexer calls but does not define:
      QChar::isSpace, QChar::isDigit, QChar::isPrint, isHex, isXDigit,
      doesObjectNeedWrapping and getKeywordId3. */
  datatype Env = Env(
    isSpace: char -> bool,
    isDigit: char -> bool,
    isPrint: char -> bool,
    isHex: char -> bool,
    isXDigit: char -> bool,
    needsWrapping: char -> bool,
    keywordId: string -> LemonType)
  {
    /** NUL belongs to no character class; every scanning loop relies on it
        to stop at the end of the input. */
    predicate Valid()
    {
      !isSpace(NUL) && !isDigit(NUL) && !isPrint(NUL) && !isHex(NUL) && !isXDigit(NUL)
    }

    /** What Qt's classification also guarantees: the ASCII punctuation the
        lexer dispatches on is neither white space nor a digit, and no digit
        is white space. */
    predicate Conventional()
    {
      && Valid()
      && (forall c :: IsDispatchChar(c) ==> !isSpace(c) && !isDigit(c))
      && (forall c :: isDigit(c) ==> !isSpace(c))
    }
  }

  /** A quote that opens a quoted token: backquote, apostrophe or double
      quote. */
  predicate IsQuote(c: char)
  {
    c == '`' || c == '\'' || c == '"'
  }

  /** A character that opens a named bind parameter. */
  predicate IsBindPrefix(c: char)
  {
    c == '$' || c == '@' || c == ':'
  }

  /** The punctuation the lexer dispatches on. */
  predicate IsPunctuation(c: char)
  {
    || c == '-' || c == '(' || c == ')' || c == '+' || c == ';' || c == '*' || c == '/'
    || c == '%' || c == '=' || c == '<' || c == '>' || c == '!' || c == '|' || c == ','
    || c == '&' || c == '~' || c == '.' || c == '[' || c == '?'
    || IsQuote(c) || IsBindPrefix(c)
  }

  /** Every character the lexer tests for before it tries a word: the
      punctuation and the x of a blob literal. */
  predicate IsDispatchChar(c: char)
  {
    IsPunctuation(c) || c == 'x' || c == 'X'
  }

  /** isIdChar: a printable, non-space character that needs no quoting. */
  predicate IsIdChar(env: Env, c: char)
    ensures env.Valid() && IsIdChar(env, c) ==> c != NUL
  {
    env.isPrint(c) && !env.isSpace(c) && !env.needsWrapping(c)
  }

  /** The character classes over which the lexer scans maximal runs. */
  datatype Run =
    | Spaces       // white space
    | Digits       // decimal digits
    | HexDigits    // digits of a 0x literal (isHex)
    | XDigits      // digits of a blob literal (isXDigit)
    | IdChars      // identifier characters
    | LineBody     // anything up to the end of a line comment
    | BracketBody  // anything up to the ']' of a bracketed identifier
    | ParenBody    // anything up to the ')' of a bind parameter suffix
    | BlobTail     // anything up to the quote that closes a malformed blob

  predicate InRun(env: Env, k: Run, c: char)
    ensures env.Valid() && InRun(env, k, c) ==> c != NUL
  {
    match k
    case Spaces => env.isSpace(c)
    case Digits => env.isDigit(c)
    case HexDigits => env.isHex(c)
    case XDigits => env.isXDigit(c)
    case IdChars => IsIdChar(env, c)
    case LineBody => c != NUL && c != '\n'
    case BracketBody => c != NUL && c != ']'
    case ParenBody => c != NUL && !env.isSpace(c) && c != ')'
    case BlobTail => c != NUL && c != '\''
  }

  /** The end of the maximal run of class k that starts at from. */
  function RunEnd(z: string, env: Env, k: Run, from: nat): (r: nat)
    requires env.Valid()
    ensures from <= r
    ensures r <= |z| || r == from
    ensures forall j :: from <= j < r ==> InRun(env, k, CharAt(z, j))
    ensures !InRun(env, k, CharAt(z, r))
    decreases |z| - from
  {
    if InRun(env, k, CharAt(z, from)) then RunEnd(z, env, k, from + 1) else from
  }

  // ---------------------------------------------------------------------
  // Quoted strings and identifiers

  /** Positions [from, to) hold a quoted body: characters other than NUL and
      the delimiter q, and doubled delimiters (an escaped q). */
  predicate Escaped(z: string, q: char, from: nat, to: nat)
    decreases to - from
  {
    || from == to
    || (from < to && CharAt(z, from) != NUL && CharAt(z, from) != q
        && Escaped(z, q, from + 1, to))
    || (from + 2 <= to && CharAt(z, from) == q && CharAt(z, from + 1) == q
        && Escaped(z, q, from + 2, to))
  }

  /** A quoted token of length n closed by a single delimiter q. */
  predicate ClosedQuote(z: string, q: char, n: nat)
  {
    2 <= n && Escaped(z, q, 1, n - 1) && CharAt(z, n - 1) == q && CharAt(z, n) != q
  }

  /** A quoted token of length n that reaches the end of the input unclosed. */
  predicate OpenQuote(z: string, q: char, n: nat)
  {
    1 <= n && Escaped(z, q, 1, n) && CharAt(z, n) == NUL
  }

  /** Where the scan of a quoted body that starts at from stops: at the
      closing delimiter or at the end of the input. */
  function QuoteEnd(z: string, q: char, from: nat): (r: nat)
    requires q != NUL
    ensures from <= r
    ensures r <= |z| || r == from
    ensures Escaped(z, q, from, r)
    ensures CharAt(z, r) == NUL || (CharAt(z, r) == q && CharAt(z, r + 1) != q)
    decreases |z| - from
  {
    var c := CharAt(z, from);
    if c == NUL then from
    else if c == q then
      if CharAt(z, from + 1) == q then QuoteEnd(z, q, from + 2) else from
    else QuoteEnd(z, q, from + 1)
  }

  /** A quoted body can stop at one place only: the scan's stopping point. */
  lemma {:induction false} QuoteEndUnique(z: string, q: char, from: nat, e: nat)
    requires q != NUL
    requires Escaped(z, q, from, e)
    requires CharAt(z, e) == NUL || (CharAt(z, e) == q && CharAt(z, e + 1) != q)
    ensures QuoteEnd(z, q, from) == e
    decreases e - from
  {
    if from < e {
      if CharAt(z, from) != NUL && CharAt(z, from) != q && Escaped(z, q, from + 1, e) {
        QuoteEndUnique(z, q, from + 1, e);
      } else {
        QuoteEndUnique(z, q, from + 2, e);
      }
    }
  }

  /** The quoted-token rule (lexer_low_lev.cpp lines 238-286). */
  function QuotedToken(z: string, tolerant: bool): (t: Lexeme)
    requires IsQuote(CharAt(z, 0))
    ensures 1 <= t.length
    ensures var q := CharAt(z, 0);
      var str := q == '\'';
      || (ClosedQuote(z, q, t.length)
          && t == Lexeme(t.length, if str then TkString else TkId,
                         if str then StringLit else Other, false))
      || (OpenQuote(z, q, t.length) && tolerant
          && t == Lexeme(t.length, if str then TkString else TkId,
                         if str then StringLit else Other, true))
      || (OpenQuote(z, q, t.length) && !tolerant
          && t == Lexeme(t.length, TkIllegal, Invalid, false))
  {
    var q := CharAt(z, 0);
    var e := QuoteEnd(z, q, 1);
    var c := CharAt(z, e);
    if c == '\'' then Lexeme(e + 1, TkString, StringLit, false)
    else if c != NUL then Lexeme(e + 1, TkId, Other, false)
    else if tolerant then
      if q == '\'' then Lexeme(e, TkString, StringLit, true) else Lexeme(e, TkId, Other, true)
    else Lexeme(e, TkIllegal, Invalid, false)
  }

  /** The quoted-token length is determined: exactly one length n makes the
      token closed or open, and it is the one the lexer returns. */
  lemma QuotedLengthUnique(z: string, tolerant: bool, n: nat)
    requires IsQuote(CharAt(z, 0))
    requires ClosedQuote(z, CharAt(z, 0), n) || OpenQuote(z, CharAt(z, 0), n)
    ensures QuotedToken(z, tolerant).length == n
  {
    var q := CharAt(z, 0);
    if ClosedQuote(z, q, n) {
      QuoteEndUnique(z, q, 1, n - 1);
    } else {
      QuoteEndUnique(z, q, 1, n);
    }
  }

  // ---------------------------------------------------------------------
  // Block comments

  /** No NUL and no comment terminator starts in [from, to). */
  predicate CommentBody(z: string, from: nat, to: nat)
  {
    forall j :: from <= j < to ==>
      CharAt(z, j) != NUL && !(CharAt(z, j) == '*' && CharAt(z, j + 1) == '/')
  }

  /** The first position at or after from where a terminator starts or the
      input ends. */
  function BlockCommentEnd(z: string, from: nat): (r: nat)
    ensures from <= r
    ensures r <= |z| || r == from
    ensures CommentBody(z, from, r)
    ensures CharAt(z, r) == NUL || (CharAt(z, r) == '*' && CharAt(z, r + 1) == '/')
    decreases |z| - from
  {
    var c := CharAt(z, from);
    if c == NUL || (c == '*' && CharAt(z, from + 1) == '/') then from
    else BlockCommentEnd(z, from + 1)
  }

  /** The block-comment rule (lexer_low_lev.cpp lines 97-129, with '/' '*' at 0). */
  function BlockCommentToken(z: string, tolerant: bool): (t: Lexeme)
    ensures t.lemon == TkComment && t.kind == Comment
    ensures 2 <= t.length
    ensures
      || (4 <= t.length && CharAt(z, t.length - 2) == '*' && CharAt(z, t.length - 1) == '/'
          && CommentBody(z, 2, t.length - 2) && !t.invalid)
      || (CharAt(z, t.length) == NUL && CommentBody(z, 2, t.length) && t.invalid == tolerant)
  {
    var s := BlockCommentEnd(z, 2);
    if CharAt(z, s) == NUL then Lexeme(s, TkComment, Comment, tolerant)
    else Lexeme(s + 2, TkComment, Comment, false)
  }

  // ---------------------------------------------------------------------
  // Numbers

  /** "0x" or "0X" followed by a hex digit. */
  predicate HexPrefix(z: string, env: Env)
  {
    CharAt(z, 0) == '0' && (CharAt(z, 1) == 'x' || CharAt(z, 1) == 'X') && env.isHex(CharAt(z, 2))
  }

  /** An exponent marker at i: 'e' or 'E', then a digit or a sign and a digit. */
  predicate ExponentAt(z: string, env: Env, i: nat)
  {
    && (CharAt(z, i) == 'e' || CharAt(z, i) == 'E')
    && (|| env.isDigit(CharAt(z, i + 1))
        || ((CharAt(z, i + 1) == '+' || CharAt(z, i + 1) == '-') && env.isDigit(CharAt(z, i + 2))))
  }

  /** The end of the integer digits of a decimal number. */
  function IntegerPartEnd(z: string, env: Env): nat
    requires env.Valid()
  {
    RunEnd(z, env, Digits, 0)
  }

  /** The end of the digits and the optional fraction. */
  function MantissaEnd(z: string, env: Env): nat
    requires env.Valid()
  {
    var d := IntegerPartEnd(z, env);
    if CharAt(z, d) == '.' then RunEnd(z, env, Digits, d + 1) else d
  }

  /** The end of the numeric part: mantissa and optional exponent. */
  function NumericEnd(z: string, env: Env): (r: nat)
    requires env.Valid()
    ensures MantissaEnd(z, env) <= r
  {
    var f := MantissaEnd(z, env);
    if ExponentAt(z, env, f) then RunEnd(z, env, Digits, f + 2) else f
  }

  /** The number rule (lexer_low_lev.cpp lines 300-339). */
  function NumberToken(z: string, env: Env): (t: Lexeme)
    requires env.Valid()
    ensures !t.invalid
    ensures HexPrefix(z, env) ==>
      && t.lemon == TkInteger && t.kind == Integer && 3 <= t.length
      && (forall k :: 2 <= k < t.length ==> env.isHex(CharAt(z, k)))
      && !env.isHex(CharAt(z, t.length))
    ensures !HexPrefix(z, env) ==>
      var x := NumericEnd(z, env);
      && x <= t.length
      && (forall k :: x <= k < t.length ==> IsIdChar(env, CharAt(z, k)))
      && !IsIdChar(env, CharAt(z, t.length))
      && (t.lemon == TkIllegal <==> x < t.length)
      && (t.lemon == TkIllegal <==> t.kind == Invalid)
      && (x == t.length ==>
            var float := CharAt(z, IntegerPartEnd(z, env)) == '.' || ExponentAt(z, env, MantissaEnd(z, env));
            && (float ==> t.lemon == TkFloat && t.kind == Float)
            && (!float ==> t.lemon == TkInteger && t.kind == Integer))
  {
    if HexPrefix(z, env) then Lexeme(RunEnd(z, env, HexDigits, 3), TkInteger, Integer, false)
    else
      var x := NumericEnd(z, env);
      var n := RunEnd(z, env, IdChars, x);
      if x < n then Lexeme(n, TkIllegal, Invalid, false)
      else if CharAt(z, IntegerPartEnd(z, env)) == '.' || ExponentAt(z, env, MantissaEnd(z, env)) then
        Lexeme(n, TkFloat, Float, false)
      else Lexeme(n, TkInteger, Integer, false)
  }

  // ---------------------------------------------------------------------
  // Bracketed identifiers, bind parameters, blobs and words

  /** The bracketed-identifier rule (lexer_low_lev.cpp lines 340-360). */
  function BracketToken(z: string, env: Env, tolerant: bool): (t: Lexeme)
    requires env.Valid()
    requires CharAt(z, 0) == '['
    ensures 1 <= t.length
    ensures forall k :: 1 <= k < t.length ==> CharAt(z, k) != NUL && (k < t.length - 1 ==> CharAt(z, k) != ']')
    ensures
      || (2 <= t.length && CharAt(z, t.length - 1) == ']' && t == Lexeme(t.length, TkId, Other, false))
      || (CharAt(z, t.length) == NUL && CharAt(z, t.length - 1) != ']' && tolerant
          && t == Lexeme(t.length, TkId, Other, true))
      || (CharAt(z, t.length) == NUL && CharAt(z, t.length - 1) != ']' && !tolerant
          && t == Lexeme(t.length, TkIllegal, Invalid, false))
  {
    var e := RunEnd(z, env, BracketBody, 1);
    if CharAt(z, e) == ']' then Lexeme(e + 1, TkId, Other, false)
    else if tolerant then Lexeme(e, TkId, Other, true)
    else Lexeme(e, TkIllegal, Invalid, false)
  }

  /** How many identifier characters lie in [from, to). */
  function IdCharCount(z: string, env: Env, from: nat, to: nat): nat
    decreases to - from
  {
    if to <= from then 0
    else IdCharCount(z, env, from, to - 1) + (if IsIdChar(env, CharAt(z, to - 1)) then 1 else 0)
  }

  /** Positions [from, to) hold a bind parameter's name as the parameter
      loop reads it: identifier characters, and "::" pairs where the
      character is not an identifier character. */
  predicate BindName(z: string, env: Env, from: nat, to: nat)
    decreases to - from
  {
    || from == to
    || (from < to && IsIdChar(env, CharAt(z, from)) && BindName(z, env, from + 1, to))
    || (from + 2 <= to && !IsIdChar(env, CharAt(z, from))
        && CharAt(z, from) == ':' && CharAt(z, from + 1) == ':' && BindName(z, env, from + 2, to))
  }

  /** The end of a bind parameter's name: identifier characters and "::"
      pairs starting at from. */
  function BindNameEnd(z: string, env: Env, from: nat): (r: nat)
    requires env.Valid()
    ensures from <= r
    ensures r <= |z| || r == from
    ensures BindName(z, env, from, r)
    ensures !IsIdChar(env, CharAt(z, r)) && !(CharAt(z, r) == ':' && CharAt(z, r + 1) == ':')
    decreases |z| - from
  {
    var c := CharAt(z, from);
    if IsIdChar(env, c) then BindNameEnd(z, env, from + 1)
    else if c == ':' && CharAt(z, from + 1) == ':' then BindNameEnd(z, env, from + 2)
    else from
  }

  /** A name can stop at one place only: where the scan stops. */
  lemma {:induction false} BindNameEndUnique(z: string, env: Env, from: nat, e: nat)
    requires env.Valid()
    requires BindName(z, env, from, e)
    requires !IsIdChar(env, CharAt(z, e)) && !(CharAt(z, e) == ':' && CharAt(z, e + 1) == ':')
    ensures BindNameEnd(z, env, from) == e
    decreases e - from
  {
    if from < e {
      if IsIdChar(env, CharAt(z, from)) {
        BindNameEndUnique(z, env, from + 1, e);
      } else {
        BindNameEndUnique(z, env, from + 2, e);
      }
    }
  }

  /** The named bind parameter rule for '$', '@' and ':' (lexer_low_lev.cpp lines
      368-416). */
  function BindToken(z: string, env: Env): (t: Lexeme)
    requires env.Valid()
    ensures !t.invalid
  {
    var p := BindNameEnd(z, env, 1);
    var named := IdCharCount(z, env, 1, p) > 0;
    if named && CharAt(z, p) == '(' then
      var e := RunEnd(z, env, ParenBody, p + 1);
      if CharAt(z, e) == ')' then Lexeme(e + 1, TkVariable, BindParam, false)
      else Lexeme(e, TkIllegal, Invalid, false)
    else if named then Lexeme(p, TkVariable, BindParam, false)
    else Lexeme(p, TkIllegal, Invalid, false)
  }

  /** A blob literal x'..' closed by a quote after an even number of hex
      digits. */
  predicate WellFormedBlob(z: string, env: Env)
    requires env.Valid()
  {
    var h := RunEnd(z, env, XDigits, 2);
    CharAt(z, h) == '\'' && h % 2 == 0
  }

  /** The blob rule (lexer_low_lev.cpp lines 417-452, with x' at 0). */
  function BlobToken(z: string, env: Env, tolerant: bool): (t: Lexeme)
    requires env.Valid()
    ensures 2 <= t.length
    ensures WellFormedBlob(z, env) ==> t == Lexeme(RunEnd(z, env, XDigits, 2) + 1, TkBlob, Blob, false)
    ensures !WellFormedBlob(z, env) && tolerant ==> t.lemon == TkBlob && t.kind == Blob && t.invalid
    ensures !WellFormedBlob(z, env) && !tolerant ==> t.lemon == TkIllegal && t.kind == Invalid && !t.invalid
    ensures !WellFormedBlob(z, env) ==>
      && RunEnd(z, env, XDigits, 2) <= t.length
      && forall k :: RunEnd(z, env, XDigits, 2) <= k < t.length ==>
           CharAt(z, k) != NUL && (k < t.length - 1 ==> CharAt(z, k) != '\'')
    ensures (3 <= t.length && CharAt(z, t.length - 1) == '\'') || CharAt(z, t.length) == NUL
  {
    var h := RunEnd(z, env, XDigits, 2);
    if CharAt(z, h) == '\'' && h % 2 == 0 then Lexeme(h + 1, TkBlob, Blob, false)
    else
      var e := RunEnd(z, env, BlobTail, h);
      var n := if CharAt(z, e) != NUL then e + 1 else e;
      if tolerant then Lexeme(n, TkBlob, Blob, true) else Lexeme(n, TkIllegal, Invalid, false)
  }

  /** The word rule: a maximal run of identifier characters, a keyword
      exactly when the keyword table does not answer TK3_ID (lexer_low_lev.cpp lines
      455-470). */
  function WordToken(z: string, env: Env): (t: Lexeme)
    requires env.Valid()
    requires IsIdChar(env, CharAt(z, 0))
    ensures 1 <= t.length <= |z| && !t.invalid
    ensures forall k :: 0 <= k < t.length ==> IsIdChar(env, CharAt(z, k))
    ensures !IsIdChar(env, CharAt(z, t.length))
    ensures t.lemon == env.keywordId(z[..t.length])
    ensures t.kind == Keyword <==> t.lemon != TkId
    ensures t.kind == Other <==> t.lemon == TkId
  {
    var w := RunEnd(z, env, IdChars, 1);
    var lemon := env.keywordId(z[..w]);
    Lexeme(w, lemon, if lemon == TkId then Other else Keyword, false)
  }

  // ---------------------------------------------------------------------
  // The whole rule set

  function Op(n: nat, lemon: LemonType): Lexeme
  {
    Lexeme(n, lemon, Operator, false)
  }

  /** The token the lexer finds at the start of z, rule by rule in the
      source's order (lexer_low_lev.cpp lines 39-475). */
  function LeadingToken(z: string, env: Env, tolerant: bool): (t: Lexeme)
    requires env.Valid()
    ensures 1 <= t.length
    ensures t.invalid ==> tolerant
  {
    var c0, c1, c2 := CharAt(z, 0), CharAt(z, 1), CharAt(z, 2);
    if env.isSpace(c0) then Lexeme(RunEnd(z, env, Spaces, 1), TkSpace, Space, false)
    else if c0 == '-' then
      if c1 == '-' then Lexeme(RunEnd(z, env, LineBody, 2), TkComment, Comment, false)
      else if c1 == '>' then Op(if c2 == '>' then 3 else 2, TkPtr)
      else Op(1, TkMinus)
    else if c0 == '(' then Lexeme(1, TkLp, ParLeft, false)
    else if c0 == ')' then Lexeme(1, TkRp, ParRight, false)
    else if c0 == ';' then Op(1, TkSemi)
    else if c0 == '+' then Op(1, TkPlus)
    else if c0 == '*' then Op(1, TkStar)
    else if c0 == '/' then
      if c1 != '*' then Op(1, TkSlash) else BlockCommentToken(z, tolerant)
    else if c0 == '%' then Op(1, TkRem)
    else if c0 == '=' then Op(if c1 == '=' then 2 else 1, TkEq)
    else if c0 == '<' then
      if c1 == '=' then Op(2, TkLe)
      else if c1 == '>' then Op(2, TkNe)
      else if c1 == '<' then Op(2, TkLShift)
      else Op(1, TkLt)
    else if c0 == '>' then
      if c1 == '=' then Op(2, TkGe)
      else if c1 == '>' then Op(2, TkRShift)
      else Op(1, TkGt)
    else if c0 == '!' then
      if c1 != '=' then Lexeme(2, TkIllegal, Invalid, false) else Op(2, TkNe)
    else if c0 == '|' then
      if c1 != '|' then Op(1, TkBitOr) else Op(2, TkConcat)
    else if c0 == ',' then Op(1, TkComma)
    else if c0 == '&' then Op(1, TkBitAnd)
    else if c0 == '~' then Op(1, TkBitNot)
    else if IsQuote(c0) then QuotedToken(z, tolerant)
    else if c0 == '.' && !env.isDigit(c1) then Op(1, TkDot)
    else if env.isDigit(c0) || c0 == '.' then NumberToken(z, env)
    else if c0 == '[' then BracketToken(z, env, tolerant)
    else if c0 == '?' then Lexeme(RunEnd(z, env, Digits, 1), TkVariable, BindParam, false)
    else if IsBindPrefix(c0) then BindToken(z, env)
    else if (c0 == 'x' || c0 == 'X') && c1 == '\'' then BlobToken(z, env, tolerant)
    else if IsIdChar(env, c0) then WordToken(z, env)
    else Lexeme(1, TkIllegal, Invalid, false)
  }

  // ---------------------------------------------------------------------
  // The lexer proper

  /** A token object. tolerant says whether it is a TolerantToken, the only
      kind of token whose invalid flag the lexer sets. */
  class Token {
    var lemonType: LemonType
    var kind: TokenType
    var invalid: bool
    const tolerant: bool

    constructor (lemonType: LemonType, kind: TokenType, tolerant: bool)
      ensures this.lemonType == lemonType && this.kind == kind
      ensures this.tolerant == tolerant && !invalid
    {
      this.lemonType, this.kind, this.tolerant := lemonType, kind, tolerant;
      invalid := false;
    }
  }

  /** The token fields and the returned length agree with the lexeme t;
      the invalid flag is only ever raised, never cleared. */
  ghost predicate Holds(token: Token, len: int, t: Lexeme, wasInvalid: bool)
    reads token
  {
    && len == t.length
    && token.lemonType == t.lemon && token.kind == t.kind
    && token.invalid == (wasInvalid || t.invalid)
  }

  /** The for-loop the lexer writes for every maximal run:
      for (i = from; inRun(charAt(z, i)); i++) {} */
  method ScanRun(z: string, env: Env, k: Run, from: nat) returns (i: nat)
    requires env.Valid()
    requires from <= |z|
    ensures i == RunEnd(z, env, k, from)
  {
    i := from;
    while InRun(env, k, CharAt(z, i))
      invariant from <= i <= |z|
      invariant RunEnd(z, env, k, i) == RunEnd(z, env, k, from)
      decreases |z| - i
    {
      i := i + 1;
    }
  }

  /** A block comment: '/' '*' at 0 (lexer_low_lev.cpp lines 97-129). */
  method LexBlockComment(z: string, token: Token, tolerant: bool) returns (len: int)
    requires CharAt(z, 0) == '/' && CharAt(z, 1) == '*'
    modifies token
    ensures Holds(token, len, BlockCommentToken(z, tolerant), old(token.invalid))
  {
    var i: int;
    var c: char;
    if CharAt(z, 2) == NUL {
      token.lemonType, token.kind := TkComment, Comment;
      if tolerant {
        token.invalid := true;
      }
      return 2;
    }
    i, c := 3, CharAt(z, 2);
    while true
      invariant 3 <= i <= |z|
      invariant c == CharAt(z, i - 1) && c != NUL
      invariant BlockCommentEnd(z, i - 1) == BlockCommentEnd(z, 2)
      decreases |z| - i
    {
      if c == '*' && CharAt(z, i) == '/' {
        break;
      }
      c := CharAt(z, i);
      if c == NUL {
        break;
      }
      i := i + 1;
    }
    if tolerant && (c != '*' || CharAt(z, i) != '/') {
      token.invalid := true;
    }
    if c != NUL {
      i := i + 1;
    }
    token.lemonType, token.kind := TkComment, Comment;
    return i;
  }

  /** A quoted string or identifier (lexer_low_lev.cpp lines 238-286). */
  method LexQuoted(z: string, token: Token, tolerant: bool) returns (len: int)
    requires IsQuote(CharAt(z, 0))
    modifies token
    ensures Holds(token, len, QuotedToken(z, tolerant), old(token.invalid))
  {
    var i: int;
    var c: char := NUL;
    var delim := CharAt(z, 0);
    i := 1;
    while true
      invariant 1 <= i <= |z|
      invariant QuoteEnd(z, delim, i) == QuoteEnd(z, delim, 1)
      decreases |z| - i
    {
      c := CharAt(z, i);
      if c == NUL {
        break;
      }
      if c == delim {
        if CharAt(z, i + 1) == delim {
          i := i + 1;
        } else {
          break;
        }
      }
      i := i + 1;
    }
    if c == '\'' {
      token.lemonType, token.kind := TkString, StringLit;
      return i + 1;
    } else if c != NUL {
      token.lemonType, token.kind := TkId, Other;
      return i + 1;
    } else if tolerant {
      if delim == '\'' {
        token.lemonType, token.kind := TkString, StringLit;
      } else {
        token.lemonType, token.kind := TkId, Other;
      }
      token.invalid := true;
      return i;
    } else {
      token.lemonType, token.kind := TkIllegal, Invalid;
      return i;
    }
  }

  /** The digits, fraction and exponent of a decimal number: returns where
      they end and whether a fraction or an exponent made it a float. */
  method LexDecimal(z: string, env: Env) returns (i: nat, float: bool)
    requires env.Valid()
    ensures i == NumericEnd(z, env)
    ensures float == (CharAt(z, IntegerPartEnd(z, env)) == '.' || ExponentAt(z, env, MantissaEnd(z, env)))
  {
    float := false;
    i := ScanRun(z, env, Digits, 0);
    assert i == IntegerPartEnd(z, env);
    if CharAt(z, i) == '.' {
      i := ScanRun(z, env, Digits, i + 1);
      float := true;
    }
    assert i == MantissaEnd(z, env);
    if (CharAt(z, i) == 'e' || CharAt(z, i) == 'E') &&
       (env.isDigit(CharAt(z, i + 1)) ||
        ((CharAt(z, i + 1) == '+' || CharAt(z, i + 1) == '-') && env.isDigit(CharAt(z, i + 2))))
    {
      i := ScanRun(z, env, Digits, i + 2);
      float := true;
    }
  }

  /** A number: hexadecimal, or decimal followed by any identifier
      characters, which make it illegal. */
  method LexNumber(z: string, token: Token, env: Env) returns (len: int)
    requires env.Valid()
    modifies token
    ensures Holds(token, len, NumberToken(z, env), old(token.invalid))
  {
    var i: nat;
    token.lemonType, token.kind := TkInteger, Integer;
    if CharAt(z, 0) == '0' && (CharAt(z, 1) == 'x' || CharAt(z, 1) == 'X') && env.isHex(CharAt(z, 2)) {
      i := ScanRun(z, env, HexDigits, 3);
      return i;
    }
    // The token turns FLOAT at a fraction or an exponent, and ILLEGAL at
    // every identifier character after the number; it is written once the
    // number ends.
    var float;
    i, float := LexDecimal(z, env);
    var n := ScanRun(z, env, IdChars, i);
    if i < n {
      token.lemonType, token.kind := TkIllegal, Invalid;
    } else if float {
      token.lemonType, token.kind := TkFloat, Float;
    }
    i := n;
    return i;
  }

  /** A bracketed identifier (lexer_low_lev.cpp lines 340-360). */
  method LexBracket(z: string, token: Token, tolerant: bool, env: Env) returns (len: int)
    requires env.Valid()
    requires CharAt(z, 0) == '['
    modifies token
    ensures Holds(token, len, BracketToken(z, env, tolerant), old(token.invalid))
  {
    var i, c := 1, CharAt(z, 0);
    while true
      invariant 1 <= i <= |z|
      invariant c == CharAt(z, i - 1)
      invariant i == 1 || c != NUL
      invariant c == ']' ==> RunEnd(z, env, BracketBody, 1) == i - 1
      invariant c != ']' ==> RunEnd(z, env, BracketBody, i) == RunEnd(z, env, BracketBody, 1)
      decreases |z| - i
    {
      if c == ']' {
        break;
      }
      c := CharAt(z, i);
      if c == NUL {
        break;
      }
      i := i + 1;
    }
    if c == ']' {
      token.lemonType, token.kind := TkId, Other;
    } else if tolerant {
      token.lemonType, token.kind := TkId, Other;
      token.invalid := true;
    } else {
      token.lemonType, token.kind := TkIllegal, Invalid;
    }
    return i;
  }

  /** A named bind parameter introduced by '$', '@' or ':' (lexer_low_lev.cpp lines
      368-416). */
  method LexBindParameter(z: string, token: Token, env: Env) returns (len: int)
    requires env.Valid()
    requires IsBindPrefix(CharAt(z, 0))
    modifies token
    ensures Holds(token, len, BindToken(z, env), old(token.invalid))
  {
    // The token is VARIABLE unless the parenthesised suffix is unclosed or
    // no name character follows the prefix; it is written once the
    // parameter ends.
    var n := 0;
    var i: nat := 1;
    var c: char;
    var unclosed := false;
    while true
      invariant 1 <= i <= |z|
      invariant BindNameEnd(z, env, i) == BindNameEnd(z, env, 1)
      invariant n == IdCharCount(z, env, 1, i)
      decreases |z| - i
    {
      c := CharAt(z, i);
      if c == NUL {
        break;
      }
      if IsIdChar(env, c) {
        n := n + 1;
      } else if c == '(' && n > 0 {
        // do { i++ } while (!(c = charAt(z, i)).isNull() && !c.isSpace() && c != ')')
        i := ScanRun(z, env, ParenBody, i + 1);
        c := CharAt(z, i);
        if c == ')' {
          i := i + 1;
        } else {
          unclosed := true;
        }
        break;
      } else if c == ':' && CharAt(z, i + 1) == ':' {
        i := i + 1;
      } else {
        break;
      }
      i := i + 1;
    }
    if unclosed || n == 0 {
      token.lemonType, token.kind := TkIllegal, Invalid;
    } else {
      token.lemonType, token.kind := TkVariable, BindParam;
    }
    return i;
  }

  /** A blob literal: x' or X' at 0 (lexer_low_lev.cpp lines 417-452). */
  method LexBlob(z: string, token: Token, tolerant: bool, env: Env) returns (len: int)
    requires env.Valid()
    requires (CharAt(z, 0) == 'x' || CharAt(z, 0) == 'X') && CharAt(z, 1) == '\''
    modifies token
    ensures Holds(token, len, BlobToken(z, env, tolerant), old(token.invalid))
  {
    token.lemonType, token.kind := TkBlob, Blob;
    var i := ScanRun(z, env, XDigits, 2);
    if CharAt(z, i) != '\'' || i % 2 == 1 {
      if tolerant {
        token.lemonType, token.kind := TkBlob, Blob;
        token.invalid := true;
      } else {
        token.lemonType, token.kind := TkIllegal, Invalid;
      }
      i := ScanRun(z, env, BlobTail, i);
    }
    if CharAt(z, i) != NUL {
      i := i + 1;
    }
    return i;
  }

  /** lexerGetToken: classifies the token at the start of z into token and
      returns its length, or returns 0 without touching token when called
      for another SQLite version or in tolerant mode with a plain token. */
  method LexerGetToken(z: string, token: Token, sqliteVersion: int, tolerant: bool, env: Env)
    returns (len: int)
    requires env.Valid()
    modifies token
    ensures sqliteVersion != 3 || (tolerant && !token.tolerant) ==> len == 0 && unchanged(token)
    ensures sqliteVersion == 3 && (!tolerant || token.tolerant) ==>
      Holds(token, len, LeadingToken(z, env, tolerant), old(token.invalid))
  {
    if sqliteVersion < 3 || sqliteVersion > 3 {
      return 0;
    }
    if tolerant && !token.tolerant {
      return 0;
    }
    var z0, z1 := CharAt(z, 0), CharAt(z, 1);
    if env.isSpace(z0) {
      len := ScanRun(z, env, Spaces, 1);
      token.lemonType, token.kind := TkSpace, Space;
    } else if z0 == '-' {
      if z1 == '-' {
        len := ScanRun(z, env, LineBody, 2);
        token.lemonType, token.kind := TkComment, Comment;
      } else if z1 == '>' {
        token.lemonType, token.kind := TkPtr, Operator;
        len := if CharAt(z, 2) == '>' then 3 else 2;
      } else {
        token.lemonType, token.kind := TkMinus, Operator;
        len := 1;
      }
    } else if z0 == '(' {
      token.lemonType, token.kind, len := TkLp, ParLeft, 1;
    } else if z0 == ')' {
      token.lemonType, token.kind, len := TkRp, ParRight, 1;
    } else if z0 == ';' {
      token.lemonType, token.kind, len := TkSemi, Operator, 1;
    } else if z0 == '+' {
      token.lemonType, token.kind, len := TkPlus, Operator, 1;
    } else if z0 == '*' {
      token.lemonType, token.kind, len := TkStar, Operator, 1;
    } else if z0 == '/' {
      if z1 != '*' {
        token.lemonType, token.kind, len := TkSlash, Operator, 1;
      } else {
        len := LexBlockComment(z, token, tolerant);
      }
    } else if z0 == '%' {
      token.lemonType, token.kind, len := TkRem, Operator, 1;
    } else if z0 == '=' {
      token.lemonType, token.kind := TkEq, Operator;
      len := if z1 == '=' then 2 else 1;
    } else if z0 == '<' {
      if z1 == '=' {
        token.lemonType, token.kind, len := TkLe, Operator, 2;
      } else if z1 == '>' {
        token.lemonType, token.kind, len := TkNe, Operator, 2;
      } else if z1 == '<' {
        token.lemonType, token.kind, len := TkLShift, Operator, 2;
      } else {
        token.lemonType, token.kind, len := TkLt, Operator, 1;
      }
    } else if z0 == '>' {
      if z1 == '=' {
        token.lemonType, token.kind, len := TkGe, Operator, 2;
      } else if z1 == '>' {
        token.lemonType, token.kind, len := TkRShift, Operator, 2;
      } else {
        token.lemonType, token.kind, len := TkGt, Operator, 1;
      }
    } else if z0 == '!' {
      if z1 != '=' {
        token.lemonType, token.kind, len := TkIllegal, Invalid, 2;
      } else {
        token.lemonType, token.kind, len := TkNe, Operator, 2;
      }
    } else if z0 == '|' {
      if z1 != '|' {
        token.lemonType, token.kind, len := TkBitOr, Operator, 1;
      } else {
        token.lemonType, token.kind, len := TkConcat, Operator, 2;
      }
    } else if z0 == ',' {
      token.lemonType, token.kind, len := TkComma, Operator, 1;
    } else if z0 == '&' {
      token.lemonType, token.kind, len := TkBitAnd, Operator, 1;
    } else if z0 == '~' {
      token.lemonType, token.kind, len := TkBitNot, Operator, 1;
    } else if z0 == '`' || z0 == '\'' || z0 == '"' {
      len := LexQuoted(z, token, tolerant);
    } else if z0 == '.' && !env.isDigit(z1) {
      token.lemonType, token.kind, len := TkDot, Operator, 1;
    } else if env.isDigit(z0) || z0 == '.' {
      len := LexNumber(z, token, env);
    } else if z0 == '[' {
      len := LexBracket(z, token, tolerant, env);
    } else if z0 == '?' {
      token.lemonType, token.kind := TkVariable, BindParam;
      len := ScanRun(z, env, Digits, 1);
    } else if z0 == '$' || z0 == '@' || z0 == ':' {
      len := LexBindParameter(z, token, env);
    } else if (z0 == 'x' || z0 == 'X') && z1 == '\'' {
      len := LexBlob(z, token, tolerant, env);
    } else if IsIdChar(env, z0) {
      var i := ScanRun(z, env, IdChars, 1);
      token.lemonType := env.keywordId(z[..i]);
      token.kind := if token.lemonType == TkId then Other else Keyword;
      len := i;
    } else {
      // the for (;;) loop is left by break: an illegal character
      token.lemonType, token.kind, len := TkIllegal, Invalid, 1;
    }
  }
}
