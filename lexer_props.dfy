/**
 * Properties of the token the lexer finds at the start of its input, stated
 * over Lexer.LeadingToken, which Lexer.LexerGetToken is proved to produce.
 * Most rules assume a conventional classification (Env.Conventional): the
 * punctuation the lexer dispatches on is neither white space nor a digit.
 */
module LexerProperties {
  import opened Lexer

  /** Under a conventional classification a punctuation character starts
      neither a white-space run nor a number. */
  lemma PunctuationIsPlain(env: Env, c: char)
    requires env.Conventional()
    requires IsDispatchChar(c)
    ensures !env.isSpace(c) && !env.isDigit(c)
  {
  }

  /** A maximal run ends at one place only: the first character outside the
      class. */
  lemma {:induction false} RunEndUnique(z: string, env: Env, k: Run, from: nat, e: nat)
    requires env.Valid()
    requires from <= e
    requires forall j :: from <= j < e ==> InRun(env, k, CharAt(z, j))
    requires !InRun(env, k, CharAt(z, e))
    ensures RunEnd(z, env, k, from) == e
    decreases e - from
  {
    if from < e {
      RunEndUnique(z, env, k, from + 1, e);
    }
  }

  /** Leading white space is one SPACE token covering the whole run. */
  lemma SpaceRun(z: string, env: Env, tolerant: bool)
    requires env.Valid() && env.isSpace(CharAt(z, 0))
    ensures var t := LeadingToken(z, env, tolerant);
      && t.lemon == TkSpace && t.kind == Space && !t.invalid
      && 1 <= t.length <= |z|
      && (forall j :: 0 <= j < t.length ==> env.isSpace(CharAt(z, j)))
      && !env.isSpace(CharAt(z, t.length))
  {
  }

  /** A "--" comment runs up to, and not including, the end of the line or
      of the input. */
  lemma LineComment(z: string, env: Env, tolerant: bool)
    requires env.Conventional()
    requires CharAt(z, 0) == '-' && CharAt(z, 1) == '-'
    ensures var t := LeadingToken(z, env, tolerant);
      && t.lemon == TkComment && t.kind == Comment && !t.invalid
      && 2 <= t.length <= |z|
      && (forall j :: 2 <= j < t.length ==> CharAt(z, j) != NUL && CharAt(z, j) != '\n')
      && (CharAt(z, t.length) == '\n' || CharAt(z, t.length) == NUL)
  {
    PunctuationIsPlain(env, '-');
  }

  /** A block comment includes its closing star-slash; an unclosed one runs
      to the end of the input and is flagged invalid exactly in tolerant
      mode. */
  lemma BlockComment(z: string, env: Env, tolerant: bool)
    requires env.Conventional()
    requires CharAt(z, 0) == '/' && CharAt(z, 1) == '*'
    ensures var t := LeadingToken(z, env, tolerant);
      && t.lemon == TkComment && t.kind == Comment
      && 2 <= t.length
      && ((|| (4 <= t.length && t.length <= |z| && z[t.length - 2..t.length] == "*/"
               && CommentBody(z, 2, t.length - 2) && !t.invalid)
           || (CharAt(z, t.length) == NUL && CommentBody(z, 2, t.length) && t.invalid == tolerant)))
  {
    PunctuationIsPlain(env, '/');
    var t := LeadingToken(z, env, tolerant);
    assert t == BlockCommentToken(z, tolerant);
    if 4 <= t.length && CharAt(z, t.length - 2) == '*' && CharAt(z, t.length - 1) == '/' && !t.invalid
       && CommentBody(z, 2, t.length - 2) {
      assert z[t.length - 2..t.length] == [z[t.length - 2], z[t.length - 1]];
    }
  }

  /** '<' starts "<=", "<>", "<<" or a lone LT. */
  lemma LessThan(z: string, env: Env, tolerant: bool)
    requires env.Conventional()
    requires CharAt(z, 0) == '<'
    ensures var c1, t := CharAt(z, 1), LeadingToken(z, env, tolerant);
      && (c1 == '=' ==> t == Lexeme(2, TkLe, Operator, false))
      && (c1 == '>' ==> t == Lexeme(2, TkNe, Operator, false))
      && (c1 == '<' ==> t == Lexeme(2, TkLShift, Operator, false))
      && (c1 != '=' && c1 != '>' && c1 != '<' ==> t == Lexeme(1, TkLt, Operator, false))
  {
    PunctuationIsPlain(env, '<');
  }

  /** '>' starts ">=", ">>" or a lone GT. */
  lemma GreaterThan(z: string, env: Env, tolerant: bool)
    requires env.Conventional()
    requires CharAt(z, 0) == '>'
    ensures var c1, t := CharAt(z, 1), LeadingToken(z, env, tolerant);
      && (c1 == '=' ==> t == Lexeme(2, TkGe, Operator, false))
      && (c1 == '>' ==> t == Lexeme(2, TkRShift, Operator, false))
      && (c1 != '=' && c1 != '>' ==> t == Lexeme(1, TkGt, Operator, false))
  {
    PunctuationIsPlain(env, '>');
  }

  /** "!=" is the same terminal as "<>"; a '!' without '=' is an illegal
      token of length two, even at the end of the input. */
  lemma Bang(z: string, env: Env, tolerant: bool)
    requires env.Conventional()
    requires CharAt(z, 0) == '!'
    ensures var t := LeadingToken(z, env, tolerant);
      && (CharAt(z, 1) == '=' ==> t == Lexeme(2, TkNe, Operator, false))
      && (CharAt(z, 1) != '=' ==> t == Lexeme(2, TkIllegal, Invalid, false))
  {
    PunctuationIsPlain(env, '!');
  }

  /** "==" is one two-character EQ, '=' a one-character one. */
  lemma Equals(z: string, env: Env, tolerant: bool)
    requires env.Conventional()
    requires CharAt(z, 0) == '='
    ensures var t := LeadingToken(z, env, tolerant);
      && t.lemon == TkEq && t.kind == Operator
      && t.length == (if CharAt(z, 1) == '=' then 2 else 1)
  {
    PunctuationIsPlain(env, '=');
  }

  /** "||" is CONCAT, a lone '|' BITOR. */
  lemma Bar(z: string, env: Env, tolerant: bool)
    requires env.Conventional()
    requires CharAt(z, 0) == '|'
    ensures var t := LeadingToken(z, env, tolerant);
      && (CharAt(z, 1) == '|' ==> t == Lexeme(2, TkConcat, Operator, false))
      && (CharAt(z, 1) != '|' ==> t == Lexeme(1, TkBitOr, Operator, false))
  {
    PunctuationIsPlain(env, '|');
  }

  /** "->" and "->>" are one PTR token; '-' otherwise is MINUS unless a line
      comment starts. */
  lemma Minus(z: string, env: Env, tolerant: bool)
    requires env.Conventional()
    requires CharAt(z, 0) == '-'
    ensures var c1, t := CharAt(z, 1), LeadingToken(z, env, tolerant);
      && (c1 == '>' ==> t == Lexeme(if CharAt(z, 2) == '>' then 3 else 2, TkPtr, Operator, false))
      && (c1 != '-' && c1 != '>' ==> t == Lexeme(1, TkMinus, Operator, false))
  {
    PunctuationIsPlain(env, '-');
  }

  /** The single-character tokens. */
  lemma SingleCharacters(z: string, env: Env, tolerant: bool)
    requires env.Conventional()
    ensures var c0, c1, t := CharAt(z, 0), CharAt(z, 1), LeadingToken(z, env, tolerant);
      && (c0 == '(' ==> t == Lexeme(1, TkLp, ParLeft, false))
      && (c0 == ')' ==> t == Lexeme(1, TkRp, ParRight, false))
      && (c0 == ';' ==> t == Lexeme(1, TkSemi, Operator, false))
      && (c0 == '+' ==> t == Lexeme(1, TkPlus, Operator, false))
      && (c0 == '*' ==> t == Lexeme(1, TkStar, Operator, false))
      && (c0 == '/' && c1 != '*' ==> t == Lexeme(1, TkSlash, Operator, false))
      && (c0 == '%' ==> t == Lexeme(1, TkRem, Operator, false))
      && (c0 == ',' ==> t == Lexeme(1, TkComma, Operator, false))
      && (c0 == '&' ==> t == Lexeme(1, TkBitAnd, Operator, false))
      && (c0 == '~' ==> t == Lexeme(1, TkBitNot, Operator, false))
      && (c0 == '.' && !env.isDigit(c1) ==> t == Lexeme(1, TkDot, Operator, false))
  {
    var c0 := CharAt(z, 0);
    if IsPunctuation(c0) {
      PunctuationIsPlain(env, c0);
    }
  }

  /** A quoted token: a single quote makes a STRING, a backquote or double
      quote an ID; doubled delimiters are escapes inside it; an unclosed one
      runs to the end of the input and is ILLEGAL, or flagged invalid in
      tolerant mode. Its length is the only one for which the token is
      closed or open. */
  lemma Quoted(z: string, env: Env, tolerant: bool)
    requires env.Conventional()
    requires IsQuote(CharAt(z, 0))
    ensures var q, t := CharAt(z, 0), LeadingToken(z, env, tolerant);
      && (ClosedQuote(z, q, t.length) ==>
            && t.kind == (if q == '\'' then StringLit else Other)
            && t.lemon == (if q == '\'' then TkString else TkId) && !t.invalid)
      && (OpenQuote(z, q, t.length) && tolerant ==>
            && t.kind == (if q == '\'' then StringLit else Other) && t.invalid)
      && (OpenQuote(z, q, t.length) && !tolerant ==> t == Lexeme(t.length, TkIllegal, Invalid, false))
      && (forall n: nat :: ClosedQuote(z, q, n) || OpenQuote(z, q, n) <==> n == t.length)
  {
    var q, t := CharAt(z, 0), LeadingToken(z, env, tolerant);
    PunctuationIsPlain(env, q);
    assert t == QuotedToken(z, tolerant);
    if ClosedQuote(z, q, t.length) {
      ClosedIsNotOpen(z, q, t.length);
    }
    forall n: nat | ClosedQuote(z, q, n) || OpenQuote(z, q, n)
      ensures n == t.length
    {
      QuotedLengthUnique(z, tolerant, n);
    }
  }

  /** A quoted token is never both closed and open at the same length. */
  lemma {:induction false} ClosedIsNotOpen(z: string, q: char, n: nat)
    requires q != NUL && ClosedQuote(z, q, n)
    ensures !OpenQuote(z, q, n)
  {
    QuoteEndUnique(z, q, 1, n - 1);
    if OpenQuote(z, q, n) {
      QuoteEndUnique(z, q, 1, n);
    }
  }

  /** "0x" and a hex digit start an INTEGER covering every following hex
      digit. */
  lemma HexNumber(z: string, env: Env, tolerant: bool)
    requires env.Conventional()
    requires HexPrefix(z, env) && env.isDigit('0')
    ensures var t := LeadingToken(z, env, tolerant);
      && t.lemon == TkInteger && t.kind == Integer && !t.invalid && 3 <= t.length
      && (forall k :: 2 <= k < t.length ==> env.isHex(CharAt(z, k)))
      && !env.isHex(CharAt(z, t.length))
  {
    var t := LeadingToken(z, env, tolerant);
    assert !env.isSpace('0');
    assert t == NumberToken(z, env);
  }

  /** A decimal number is FLOAT when it has a fraction or an exponent and
      INTEGER otherwise; identifier characters right after it are consumed
      and make the whole token ILLEGAL. */
  lemma DecimalNumber(z: string, env: Env, tolerant: bool)
    requires env.Conventional()
    requires env.isDigit(CharAt(z, 0)) || (CharAt(z, 0) == '.' && env.isDigit(CharAt(z, 1)))
    requires !HexPrefix(z, env)
    ensures var t, x := LeadingToken(z, env, tolerant), NumericEnd(z, env);
      var float := CharAt(z, IntegerPartEnd(z, env)) == '.' || ExponentAt(z, env, MantissaEnd(z, env));
      && !t.invalid && x <= t.length
      && (forall k :: x <= k < t.length ==> IsIdChar(env, CharAt(z, k)))
      && !IsIdChar(env, CharAt(z, t.length))
      && (x < t.length <==> t == Lexeme(t.length, TkIllegal, Invalid, false))
      && (x == t.length && float ==> t == Lexeme(t.length, TkFloat, Float, false))
      && (x == t.length && !float ==> t == Lexeme(t.length, TkInteger, Integer, false))
  {
    var c0 := CharAt(z, 0);
    if c0 == '.' {
      PunctuationIsPlain(env, '.');
    }
    assert !env.isSpace(c0);
    assert LeadingToken(z, env, tolerant) == NumberToken(z, env);
  }

  /** A blob literal is a valid BLOB exactly when a quote closes it after an
      even number of hex digits; otherwise it is ILLEGAL, or a BLOB flagged
      invalid in tolerant mode. The closing quote, when present, is part of
      the token. */
  lemma BlobLiteral(z: string, env: Env, tolerant: bool)
    requires env.Conventional()
    requires (CharAt(z, 0) == 'x' || CharAt(z, 0) == 'X') && CharAt(z, 1) == '\''
    ensures var t := LeadingToken(z, env, tolerant);
      && (WellFormedBlob(z, env) <==> t.lemon == TkBlob && !t.invalid)
      && (WellFormedBlob(z, env) ==>
            && t.kind == Blob && t.length == RunEnd(z, env, XDigits, 2) + 1
            && (forall k :: 2 <= k < t.length - 1 ==> env.isXDigit(CharAt(z, k)))
            && t.length % 2 == 1)
      && (!WellFormedBlob(z, env) && tolerant ==> t.lemon == TkBlob && t.kind == Blob && t.invalid)
      && (!WellFormedBlob(z, env) && !tolerant ==> t == Lexeme(t.length, TkIllegal, Invalid, false))
      && (!WellFormedBlob(z, env) ==>
            && RunEnd(z, env, XDigits, 2) <= t.length
            && forall k :: RunEnd(z, env, XDigits, 2) <= k < t.length ==>
                 CharAt(z, k) != NUL && (k < t.length - 1 ==> CharAt(z, k) != '\''))
      && ((3 <= t.length && CharAt(z, t.length - 1) == '\'') || CharAt(z, t.length) == NUL)
  {
    BlobDispatch(z, env, tolerant);
    BlobShape(z, env, tolerant);
  }

  /** x' or X' reaches the blob rule: no earlier rule claims it. */
  lemma BlobDispatch(z: string, env: Env, tolerant: bool)
    requires env.Conventional()
    requires (CharAt(z, 0) == 'x' || CharAt(z, 0) == 'X') && CharAt(z, 1) == '\''
    ensures LeadingToken(z, env, tolerant) == BlobToken(z, env, tolerant)
  {
    var c0 := CharAt(z, 0);
    PunctuationIsPlain(env, c0);
    assert !env.isSpace(c0) && !env.isDigit(c0) && c0 != '.' && c0 != '[';
  }

  /** The blob rule on its own: well-formedness decides the codes, and
      the token ends after a quote or at the end of the input. */
  lemma BlobShape(z: string, env: Env, tolerant: bool)
    requires env.Valid()
    ensures var t := BlobToken(z, env, tolerant);
      && (WellFormedBlob(z, env) <==> t.lemon == TkBlob && !t.invalid)
      && (WellFormedBlob(z, env) ==>
            && t.kind == Blob && t.length == RunEnd(z, env, XDigits, 2) + 1
            && (forall k :: 2 <= k < t.length - 1 ==> env.isXDigit(CharAt(z, k)))
            && t.length % 2 == 1)
      && (!WellFormedBlob(z, env) && tolerant ==> t.lemon == TkBlob && t.kind == Blob && t.invalid)
      && (!WellFormedBlob(z, env) && !tolerant ==> t == Lexeme(t.length, TkIllegal, Invalid, false))
      && (!WellFormedBlob(z, env) ==>
            && RunEnd(z, env, XDigits, 2) <= t.length
            && forall k :: RunEnd(z, env, XDigits, 2) <= k < t.length ==>
                 CharAt(z, k) != NUL && (k < t.length - 1 ==> CharAt(z, k) != '\''))
      && ((3 <= t.length && CharAt(z, t.length - 1) == '\'') || CharAt(z, t.length) == NUL)
  {
  }

  /** '?' and its digits are a numbered bind parameter. */
  lemma NumberedParameter(z: string, env: Env, tolerant: bool)
    requires env.Conventional()
    requires CharAt(z, 0) == '?'
    ensures var t := LeadingToken(z, env, tolerant);
      && t.lemon == TkVariable && t.kind == BindParam && !t.invalid
      && (forall k :: 1 <= k < t.length ==> env.isDigit(CharAt(z, k)))
      && !env.isDigit(CharAt(z, t.length))
  {
    PunctuationIsPlain(env, '?');
  }

  /** Positions [from, to) of a parenthesised suffix: no NUL, no white
      space and no ')'. */
  predicate SuffixBody(z: string, env: Env, from: nat, to: nat)
  {
    forall k :: from <= k < to ==> CharAt(z, k) != NUL && !env.isSpace(CharAt(z, k)) && CharAt(z, k) != ')'
  }

  /** The token a '$', '@' or ':' parameter gives, with p the end of its
      name. A name without any identifier character is ILLEGAL and a name
      alone is a VARIABLE, both ending at p. A name followed by '(' is a
      VARIABLE ending just after the first ')' of the suffix, or, when white
      space or the end of the input comes first, an ILLEGAL token ending
      there. */
  predicate ParameterShape(z: string, env: Env, t: Lexeme)
    requires env.Valid()
  {
    var p := BindNameEnd(z, env, 1);
    var named := IdCharCount(z, env, 1, p) > 0;
    && (!named ==> t == Lexeme(p, TkIllegal, Invalid, false))
    && (named && CharAt(z, p) != '(' ==> t == Lexeme(p, TkVariable, BindParam, false))
    && (named && CharAt(z, p) == '(' ==>
          || (&& t == Lexeme(t.length, TkVariable, BindParam, false)
              && p + 1 < t.length && SuffixBody(z, env, p + 1, t.length - 1)
              && CharAt(z, t.length - 1) == ')')
          || (&& t == Lexeme(t.length, TkIllegal, Invalid, false)
              && p < t.length && SuffixBody(z, env, p + 1, t.length)
              && CharAt(z, t.length) != ')'
              && (CharAt(z, t.length) == NUL || env.isSpace(CharAt(z, t.length)))))
  }

  /** A '$', '@' or ':' parameter has the shape of the named-parameter
      rule. */
  lemma NamedParameter(z: string, env: Env, tolerant: bool)
    requires env.Conventional()
    requires IsBindPrefix(CharAt(z, 0))
    ensures ParameterShape(z, env, LeadingToken(z, env, tolerant))
  {
    NamedParameterDispatch(z, env, tolerant);
    NamedParameterShape(z, env);
  }

  /** '$', '@' and ':' reach the named-parameter rule. */
  lemma NamedParameterDispatch(z: string, env: Env, tolerant: bool)
    requires env.Conventional()
    requires IsBindPrefix(CharAt(z, 0))
    ensures LeadingToken(z, env, tolerant) == BindToken(z, env)
  {
    PunctuationIsPlain(env, CharAt(z, 0));
  }

  /** The named-parameter rule gives a token of that shape. */
  lemma NamedParameterShape(z: string, env: Env)
    requires env.Valid()
    ensures ParameterShape(z, env, BindToken(z, env))
  {
    var p := BindNameEnd(z, env, 1);
    if IdCharCount(z, env, 1, p) > 0 && CharAt(z, p) == '(' {
      ParenthesisedParameter(z, env);
    }
  }

  /** A named parameter followed by '(' ends just after the first ')' of
      its suffix, or is ILLEGAL when white space or the end of the input
      comes first. */
  lemma ParenthesisedParameter(z: string, env: Env)
    requires env.Valid()
    requires IdCharCount(z, env, 1, BindNameEnd(z, env, 1)) > 0 && CharAt(z, BindNameEnd(z, env, 1)) == '('
    ensures var t, p := BindToken(z, env), BindNameEnd(z, env, 1);
      || (&& t == Lexeme(t.length, TkVariable, BindParam, false)
          && p + 1 < t.length && SuffixBody(z, env, p + 1, t.length - 1)
          && CharAt(z, t.length - 1) == ')')
      || (&& t == Lexeme(t.length, TkIllegal, Invalid, false)
          && p < t.length && SuffixBody(z, env, p + 1, t.length)
          && CharAt(z, t.length) != ')'
          && (CharAt(z, t.length) == NUL || env.isSpace(CharAt(z, t.length))))
  {
    var t, p := BindToken(z, env), BindNameEnd(z, env, 1);
    var e := RunEnd(z, env, ParenBody, p + 1);
    forall k | p + 1 <= k < e
      ensures CharAt(z, k) != NUL && !env.isSpace(CharAt(z, k)) && CharAt(z, k) != ')'
    {
      assert InRun(env, ParenBody, CharAt(z, k));
    }
    assert SuffixBody(z, env, p + 1, e);
    if CharAt(z, e) == ')' {
      assert t == Lexeme(e + 1, TkVariable, BindParam, false);
    } else {
      assert t == Lexeme(e, TkIllegal, Invalid, false);
      assert !InRun(env, ParenBody, CharAt(z, e));
    }
  }

  /** The shape determines the token: only the rule's own token has it. */
  lemma ParameterShapeUnique(z: string, env: Env, t: Lexeme)
    requires env.Valid()
    requires ParameterShape(z, env, t)
    ensures t == BindToken(z, env)
  {
    var p := BindNameEnd(z, env, 1);
    if IdCharCount(z, env, 1, p) > 0 && CharAt(z, p) == '(' {
      if t.lemon == TkVariable {
        forall k | p + 1 <= k < t.length - 1
          ensures InRun(env, ParenBody, CharAt(z, k))
        {
        }
        RunEndUnique(z, env, ParenBody, p + 1, t.length - 1);
      } else {
        forall k | p + 1 <= k < t.length
          ensures InRun(env, ParenBody, CharAt(z, k))
        {
        }
        assert t == Lexeme(t.length, TkIllegal, Invalid, false);
        var c := CharAt(z, t.length);
        assert c == NUL || env.isSpace(c);
        assert !InRun(env, ParenBody, c);
        RunEndUnique(z, env, ParenBody, p + 1, t.length);
        assert BindToken(z, env) == Lexeme(t.length, TkIllegal, Invalid, false);
      }
    }
  }

  /** A word: the maximal run of identifier characters, a KEYWORD exactly
      when the keyword table does not answer TK3_ID, and OTHER otherwise. */
  lemma Word(z: string, env: Env, tolerant: bool)
    requires env.Valid()
    requires IsIdChar(env, CharAt(z, 0)) && !env.isDigit(CharAt(z, 0))
    requires !IsPunctuation(CharAt(z, 0))
    requires !((CharAt(z, 0) == 'x' || CharAt(z, 0) == 'X') && CharAt(z, 1) == '\'')
    ensures var t := LeadingToken(z, env, tolerant);
      && !t.invalid && 1 <= t.length <= |z|
      && (forall k :: 0 <= k < t.length ==> IsIdChar(env, z[k]))
      && !IsIdChar(env, CharAt(z, t.length))
      && t.lemon == env.keywordId(z[..t.length])
      && (t.kind == Keyword <==> env.keywordId(z[..t.length]) != TkId)
      && (t.kind == Other <==> env.keywordId(z[..t.length]) == TkId)
  {
    var t := LeadingToken(z, env, tolerant);
    assert t == WordToken(z, env);
    forall k | 0 <= k < t.length
      ensures IsIdChar(env, z[k])
    {
      assert CharAt(z, k) == z[k];
    }
  }

  /** A character that starts no rule is an ILLEGAL token of length one; in
      particular the empty input yields one. */
  lemma Illegal(z: string, env: Env, tolerant: bool)
    requires env.Valid()
    requires !IsDispatchChar(CharAt(z, 0))
    requires !env.isSpace(CharAt(z, 0)) && !env.isDigit(CharAt(z, 0)) && !IsIdChar(env, CharAt(z, 0))
    ensures LeadingToken(z, env, tolerant) == Lexeme(1, TkIllegal, Invalid, false)
  {
  }

  /** The empty input is an ILLEGAL token of length one. */
  lemma EmptyInput(env: Env, tolerant: bool)
    requires env.Valid()
    ensures LeadingToken("", env, tolerant) == Lexeme(1, TkIllegal, Invalid, false)
  {
  }
}
