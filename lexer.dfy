/**
 * The scanner of scanner.cpp: a cursor over a NUL-terminated source with a
 * line counter, producing one token per call. The source is a `string`; a
 * position past its end reads as the terminating NUL, and an embedded NUL
 * ends the input as it does in C.
 */
module Lexer {
  import opened Wrappers

  /** Token kinds, in the order of the parse-rule table. */
  datatype Kind =
    | Plus | Minus | Star | Slash | Not
    | LeftPar | RightPar | Comma | NewLine | Tab
    | Assign | Equal | NotEqual
    | Greater | GreaterEqual | Less | LessEqual
    | LeftSqb | RightSqb | BlockStart | BlockEnd
    | Identifier | String | Number | Char
    | And | Or | Var | Fun | Print | Read | ReadEnd
    | ReadString | ReadNumber | ReadChar
    | If | Else | Loop | True | False
    | Out | OutEnd | Error | Eof

  /** A token's text is its source slice, or the message of an error token. */
  datatype Token = Token(kind: Kind, lexeme: string, line: int)

  const UnterminatedString := "untewminated stwing."
  const UnterminatedChar := "untewminated c-chawactew towken."
  const EmptyChar := "empty c-chawactew constwant."
  const InvalidChar := "invawid chawactew towken."
  const UnexpectedChar := "unexpectwed chawactew."

  /** The character at position i, or NUL at and beyond the end. */
  function At(s: string, i: int): char
  {
    if 0 <= i < |s| then s[i] else '\0'
  }

  predicate IsAlpha(c: char) { 'a' <= c <= 'z' || 'A' <= c <= 'Z' }
  predicate IsDigit(c: char) { '0' <= c <= '9' }
  predicate IsIdentStart(c: char) { IsAlpha(c) || c == '.' || c == '^' || c == '?' }
  predicate IsIdentChar(c: char) { IsAlpha(c) || IsDigit(c) || c == '?' || c == '.' || c == '^' }
  predicate IsBlank(c: char) { c == ' ' || c == '\r' || c == '\t' || c == '\n' }
  predicate IsCommentStart(s: string, i: int) { At(s, i) == '{' && At(s, i + 1) == ':' }

  /** The end of the maximal run of identifier characters starting at i. */
  function IdentEnd(s: string, i: nat): (j: nat)
    requires i <= |s|
    ensures i <= j <= |s|
    ensures forall k :: i <= k < j ==> IsIdentChar(s[k])
    ensures !IsIdentChar(At(s, j))
    decreases |s| - i
  {
    if IsIdentChar(At(s, i)) then IdentEnd(s, i + 1) else i
  }

  /** The end of the maximal run of digits starting at i. */
  function DigitsEnd(s: string, i: nat): (j: nat)
    requires i <= |s|
    ensures i <= j <= |s|
    ensures forall k :: i <= k < j ==> IsDigit(s[k])
    ensures !IsDigit(At(s, j))
    decreases |s| - i
  {
    if IsDigit(At(s, i)) then DigitsEnd(s, i + 1) else i
  }

  /**
   * The end of a number whose first digit precedes i: digits, then a '.'
   * and more digits only when a digit follows the '.'.
   */
  function NumberEnd(s: string, i: nat): (j: nat)
    requires i <= |s|
    ensures i <= j <= |s|
    ensures forall k :: i <= k < j ==> IsDigit(s[k]) || (s[k] == '.' && k + 1 < j && IsDigit(s[k + 1]))
    ensures forall k, k' :: i <= k < k' < j && s[k] == '.' ==> s[k'] != '.'
    ensures !IsDigit(At(s, j))
    ensures (forall k :: i <= k < j ==> s[k] != '.') ==> !(At(s, j) == '.' && IsDigit(At(s, j + 1)))
  {
    var d := DigitsEnd(s, i);
    if At(s, d) == '.' && IsDigit(At(s, d + 1)) then DigitsEnd(s, d + 1) else d
  }

  /** The first position at or after i holding the delimiter d or the end of input. */
  function DelimEnd(s: string, i: nat, d: char): (j: nat)
    requires i <= |s|
    ensures i <= j <= |s|
    ensures At(s, j) == d || At(s, j) == '\0'
    ensures forall k :: i <= k < j ==> s[k] != d && s[k] != '\0'
    decreases |s| - i
  {
    if At(s, i) == d || At(s, i) == '\0' then i else DelimEnd(s, i + 1, d)
  }

  /** The newlines in s[i..j] that more input follows: those a string literal counts. */
  function CountedNewlines(s: string, i: nat, j: nat): (n: nat)
    requires i <= j <= |s|
    ensures n <= j - i
    decreases j - i
  {
    if j == i then 0
    else CountedNewlines(s, i, j - 1) + (if s[j - 1] == '\n' && At(s, j) != '\0' then 1 else 0)
  }

  /**
   * Where the comment loop of skip_whitespace leaves the cursor when started
   * on the '{' at i: each step either matches ':' '}' and stops, or moves on,
   * and the scan stops at the end of input. After a ':' that ends the input
   * the cursor stays on the end (see CommentEndAsWritten).
   */
  function CommentEnd(s: string, i: nat): (j: nat)
    requires i <= |s|
    ensures i <= j <= |s|
    ensures At(s, i) != '\0' ==> i < j
    ensures At(s, j) == '\0' || (i + 2 <= j && s[j - 2] == ':' && s[j - 1] == '}')
    decreases |s| - i
  {
    if At(s, i) == '\0' then i
    else if At(s, i) == ':' then
      if At(s, i + 1) == '}' then i + 2
      else if At(s, i + 1) == '\0' then i + 1
      else CommentEnd(s, i + 2)
    else CommentEnd(s, i + 1)
  }

  /**
   * The comment loop as written: after matching a ':' that ends the input,
   * the unconditional advance moves the cursor past the terminating NUL, and
   * the next loop test reads beyond the buffer. The position reached there is
   * returned and nothing further is modelled.
   */
  function CommentEndAsWritten(s: string, i: nat): int
    requires i <= |s|
    decreases |s| - i
  {
    if At(s, i) == '\0' then i
    else if At(s, i) == ':' then
      if At(s, i + 1) == '}' then i + 2
      else if At(s, i + 1) == '\0' then (if i + 1 < |s| then CommentEndAsWritten(s, i + 2) else i + 2)
      else CommentEndAsWritten(s, i + 2)
    else CommentEndAsWritten(s, i + 1)
  }

  /** A comment whose last character is a ':' drives the loop as written past the end of its input. */
  lemma CommentOverrunsOnTrailingColon()
    ensures CommentEndAsWritten("{: :", 0) == 5 > |"{: :"|
  {
  }

  /** On a source without NUL bytes, wherever the loop as written stays inside the input the corrected loop agrees with it. */
  lemma {:induction false} CommentEndAgrees(s: string, i: nat)
    requires i <= |s| && CommentEndAsWritten(s, i) <= |s|
    requires forall k :: 0 <= k < |s| ==> s[k] != '\0'
    ensures CommentEndAsWritten(s, i) == CommentEnd(s, i)
    decreases |s| - i
  {
    if At(s, i) == '\0' {
    } else if At(s, i) == ':' {
      if At(s, i + 1) != '}' && At(s, i + 1) != '\0' {
        CommentEndAgrees(s, i + 2);
      }
    } else {
      CommentEndAgrees(s, i + 1);
    }
  }

  /**
   * skip_whitespace from position i: blanks are passed, a newline counts only
   * when more input follows it, a comment is passed without counting lines.
   * The result is the position reached and the new line number.
   */
  function SkipWs(s: string, i: nat, line: int): (r: (nat, int))
    requires i <= |s|
    ensures i <= r.0 <= |s| && line <= r.1
    ensures !IsBlank(At(s, r.0)) && !IsCommentStart(s, r.0)
    decreases |s| - i
  {
    var c := At(s, i);
    if c == ' ' || c == '\r' || c == '\t' then SkipWs(s, i + 1, line)
    else if c == '\n' then SkipWs(s, i + 1, if At(s, i + 1) != '\0' then line + 1 else line)
    else if IsCommentStart(s, i) then SkipWs(s, CommentEnd(s, i), line)
    else (i, line)
  }

  /** Skipping never adds more lines than there are newline characters in the text skipped. */
  lemma {:induction false} SkipWsLineBound(s: string, i: nat, line: int)
    requires i <= |s|
    ensures var r := SkipWs(s, i, line); r.1 - line <= multiset(s[i..r.0])['\n']
    decreases |s| - i
  {
    var r := SkipWs(s, i, line);
    var c := At(s, i);
    if c == ' ' || c == '\r' || c == '\t' || c == '\n' {
      var line' := if c == '\n' && At(s, i + 1) != '\0' then line + 1 else line;
      SkipWsLineBound(s, i + 1, line');
      assert s[i..r.0] == [s[i]] + s[i + 1..r.0];
    } else if IsCommentStart(s, i) {
      var j := CommentEnd(s, i);
      SkipWsLineBound(s, j, line);
      assert s[i..r.0] == s[i..j] + s[j..r.0];
    }
  }

  /** Text without a newline character leaves the line number unchanged. */
  lemma SkipWsKeepsLine(s: string, i: nat, line: int)
    requires i <= |s| && '\n' !in s[i..]
    ensures SkipWs(s, i, line).1 == line
  {
    var r := SkipWs(s, i, line);
    SkipWsLineBound(s, i, line);
    assert s[i..r.0] <= s[i..] by {
      assert s[i..] == s[i..r.0] + s[r.0..];
    }
    assert '\n' !in s[i..r.0] by {
      forall k | 0 <= k < |s[i..r.0]| ensures s[i..r.0][k] != '\n' {
        assert s[i..r.0][k] == s[i..][k];
      }
    }
  }

  /** Skipping is idempotent: where it stops, it stops again. */
  lemma SkipWsIdempotent(s: string, i: nat, line: int)
    requires i <= |s|
    ensures var r := SkipWs(s, i, line); SkipWs(s, r.0, r.1) == r
  {
  }

  /** A newline followed by the end of input does not count; newlines inside a comment never do. */
  lemma SkipWsExamples()
    ensures SkipWs("\n", 0, 1) == (1, 1)
    ensures SkipWs("\nx", 0, 1) == (1, 2)
    ensures SkipWs("{:\n\n:}x", 0, 1) == (6, 1)
  {
  }

  /**
   * check_keyword: the word from start to current is the keyword when its
   * length is offset + |rest| and its tail is rest; otherwise an identifier,
   * or an error token for the '?' family.
   */
  function CheckKeyword(s: string, start: nat, current: nat, offset: nat, rest: string, kind: Kind, canBeId: bool): (k: Kind)
    requires start <= current <= |s|
    ensures k == kind <==> (current - start == offset + |rest| && s[start + offset..current] == rest) || (kind == Identifier && canBeId) || (kind == Error && !canBeId)
    ensures k != kind ==> k == if canBeId then Identifier else Error
  {
    if current - start == offset + |rest| && s[start + offset..current] == rest then kind
    else if canBeId then Identifier
    else Error
  }

  /** The words of the 'u' branch of identifier_kind, which the 'f' branch also falls into. */
  function UKeyword(s: string, start: nat, current: nat): Kind
    requires start <= current <= |s|
  {
    if At(s, start + 1) == 'w' then CheckKeyword(s, start, current, 2, "u", Var, true)
    else if At(s, start + 1) == 'n' then CheckKeyword(s, start, current, 2, "tiw", Loop, true)
    else Identifier
  }

  /**
   * identifier_kind, on the word from start to current. Like the source it
   * looks at the characters after the first by position, which for a
   * maximal identifier lie in the word or are a non-identifier character.
   */
  function IdentifierKind(s: string, start: nat, current: nat): (k: Kind)
    requires start < current <= |s|
    ensures k in {Identifier, Error, And, Read, If, Else, True, False, Fun, Var, Loop, Or, Print, Out}
  {
    match s[start]
    case 'a' => CheckKeyword(s, start, current, 1, "wnd", And, true)
    case 'i' => CheckKeyword(s, start, current, 1, "wi", Read, true)
    case '?' => CheckKeyword(s, start, current, 1, "w?", If, false)
    case 'e' => CheckKeyword(s, start, current, 1, "we", Else, true)
    case 't' => CheckKeyword(s, start, current, 1, "wue", True, true)
    case 'f' =>
      if At(s, start + 1) == 'a' then CheckKeyword(s, start, current, 2, "wse", False, true)
      else if At(s, start + 1) == 'w' then CheckKeyword(s, start, current, 2, "un", Fun, true)
      else UKeyword(s, start, current)
    case 'u' => UKeyword(s, start, current)
    case 'o' =>
      if At(s, start + 1) == 'w' then Or
      else if At(s, start + 1) == 'u' && At(s, start + 2) == 'o' then Print
      else if At(s, start + 1) == 'u' && At(s, start + 2) == 't' then Out
      else Identifier
    case _ => Identifier
  }

  /**
   * The keyword table identifier_kind implements, as a reference definition
   * on the word itself: exact keywords, the words recognised by prefix only
   * ("ow", "ouo", "out"), the "?w?" family, and "fntiw", which the
   * fall-through from the 'f' branch into the 'u' branch also makes a loop
   * keyword.
   */
  function KeywordOf(w: string): Kind
  {
    if w == "awnd" then And
    else if w == "iwi" then Read
    else if w == "?w?" then If
    else if w == "ewe" then Else
    else if w == "twue" then True
    else if w == "fawse" then False
    else if w == "fwun" then Fun
    else if w == "uwu" then Var
    else if w == "untiw" || w == "fntiw" then Loop
    else if |w| >= 2 && w[..2] == "ow" then Or
    else if |w| >= 3 && w[..3] == "ouo" then Print
    else if |w| >= 3 && w[..3] == "out" then Out
    else if |w| >= 1 && w[0] == '?' then Error
    else Identifier
  }

  /** A word is a given keyword exactly when its first character and its tail are. */
  lemma SplitWord(w: string, offset: nat, head: string, rest: string)
    requires offset <= |w| && |head| == offset
    ensures w == head + rest <==> w[..offset] == head && w[offset..] == rest
  {
    if w[..offset] == head && w[offset..] == rest {
      assert w == w[..offset] + w[offset..];
    }
  }

  /** The facts about a maximal identifier that the keyword proofs use. */
  ghost predicate WordFacts(s: string, start: nat, current: nat)
    requires start < current <= |s|
  {
    var w := s[start..current];
    && w[0] == s[start]
    && (forall o :: 0 <= o <= |w| ==> s[start + o..current] == w[o..])
    && (|w| >= 2 ==> w[1] == s[start + 1] && w[..2] == [w[0], w[1]])
    && (|w| >= 3 ==> w[2] == s[start + 2] && w[..3] == [w[0], w[1], w[2]])
    && (|w| < 2 ==> !IsIdentChar(At(s, start + 1)))
    && (|w| == 2 ==> !IsIdentChar(At(s, start + 2)))
  }

  lemma WordFactsHold(s: string, start: nat, current: nat)
    requires start < current <= |s|
    requires !IsIdentChar(At(s, current))
    ensures WordFacts(s, start, current)
  {
    var w := s[start..current];
    assert forall o :: 0 <= o <= |w| ==> s[start + o..current] == w[o..];
  }

  /** Words that differ in their first character are different words. */
  lemma FirstCharDiffers(w: string, v: string)
    requires |w| > 0 && |v| > 0 && w[0] != v[0]
    ensures w != v
  {
  }

  /** identifier_kind classifies a maximal identifier as the keyword table does. */
  lemma IdentifierKindIsKeywordOf(s: string, start: nat, current: nat)
    requires start < current <= |s|
    requires forall j :: start <= j < current ==> IsIdentChar(s[j])
    requires !IsIdentChar(At(s, current))
    ensures IdentifierKind(s, start, current) == KeywordOf(s[start..current])
  {
    WordFactsHold(s, start, current);
    var c := s[start];
    if c == 'a' {
      KeywordsFromA(s, start, current);
    } else if c == 'i' {
      KeywordsFromI(s, start, current);
    } else if c == '?' {
      KeywordsFromQuery(s, start, current);
    } else if c == 'e' {
      KeywordsFromE(s, start, current);
    } else if c == 't' {
      KeywordsFromT(s, start, current);
    } else if c == 'f' {
      KeywordsFromF(s, start, current);
    } else if c == 'u' {
      KeywordsFromU(s, start, current);
    } else if c == 'o' {
      PrefixKeywords(s, start, current);
    } else {
      var w := s[start..current];
      forall v | v in ["awnd", "iwi", "?w?", "ewe", "twue", "fawse", "fwun", "uwu", "untiw", "fntiw"]
        ensures w != v
      {
        FirstCharDiffers(w, v);
      }
    }
  }

  lemma KeywordsFromA(s: string, start: nat, current: nat)
    requires start < current <= |s| && WordFacts(s, start, current) && s[start] == 'a'
    ensures IdentifierKind(s, start, current) == KeywordOf(s[start..current])
  {
    var w := s[start..current];
    FirstCharDiffers(w, "iwi");
    FirstCharDiffers(w, "?w?");
    FirstCharDiffers(w, "ewe");
    FirstCharDiffers(w, "twue");
    FirstCharDiffers(w, "fawse");
    FirstCharDiffers(w, "fwun");
    FirstCharDiffers(w, "uwu");
    FirstCharDiffers(w, "untiw");
    FirstCharDiffers(w, "fntiw");
    SplitWord(w, 1, "a", "wnd");
  }

  lemma KeywordsFromI(s: string, start: nat, current: nat)
    requires start < current <= |s| && WordFacts(s, start, current) && s[start] == 'i'
    ensures IdentifierKind(s, start, current) == KeywordOf(s[start..current])
  {
    var w := s[start..current];
    FirstCharDiffers(w, "awnd");
    FirstCharDiffers(w, "?w?");
    FirstCharDiffers(w, "ewe");
    FirstCharDiffers(w, "twue");
    FirstCharDiffers(w, "fawse");
    FirstCharDiffers(w, "fwun");
    FirstCharDiffers(w, "uwu");
    FirstCharDiffers(w, "untiw");
    FirstCharDiffers(w, "fntiw");
    SplitWord(w, 1, "i", "wi");
  }

  lemma KeywordsFromQuery(s: string, start: nat, current: nat)
    requires start < current <= |s| && WordFacts(s, start, current) && s[start] == '?'
    ensures IdentifierKind(s, start, current) == KeywordOf(s[start..current])
  {
    var w := s[start..current];
    FirstCharDiffers(w, "awnd");
    FirstCharDiffers(w, "iwi");
    FirstCharDiffers(w, "ewe");
    FirstCharDiffers(w, "twue");
    FirstCharDiffers(w, "fawse");
    FirstCharDiffers(w, "fwun");
    FirstCharDiffers(w, "uwu");
    FirstCharDiffers(w, "untiw");
    FirstCharDiffers(w, "fntiw");
    SplitWord(w, 1, "?", "w?");
  }

  lemma KeywordsFromE(s: string, start: nat, current: nat)
    requires start < current <= |s| && WordFacts(s, start, current) && s[start] == 'e'
    ensures IdentifierKind(s, start, current) == KeywordOf(s[start..current])
  {
    var w := s[start..current];
    FirstCharDiffers(w, "awnd");
    FirstCharDiffers(w, "iwi");
    FirstCharDiffers(w, "?w?");
    FirstCharDiffers(w, "twue");
    FirstCharDiffers(w, "fawse");
    FirstCharDiffers(w, "fwun");
    FirstCharDiffers(w, "uwu");
    FirstCharDiffers(w, "untiw");
    FirstCharDiffers(w, "fntiw");
    SplitWord(w, 1, "e", "we");
  }

  lemma KeywordsFromT(s: string, start: nat, current: nat)
    requires start < current <= |s| && WordFacts(s, start, current) && s[start] == 't'
    ensures IdentifierKind(s, start, current) == KeywordOf(s[start..current])
  {
    var w := s[start..current];
    FirstCharDiffers(w, "awnd");
    FirstCharDiffers(w, "iwi");
    FirstCharDiffers(w, "?w?");
    FirstCharDiffers(w, "ewe");
    FirstCharDiffers(w, "fawse");
    FirstCharDiffers(w, "fwun");
    FirstCharDiffers(w, "uwu");
    FirstCharDiffers(w, "untiw");
    FirstCharDiffers(w, "fntiw");
    SplitWord(w, 1, "t", "wue");
  }

  lemma KeywordsFromF(s: string, start: nat, current: nat)
    requires start < current <= |s| && WordFacts(s, start, current) && s[start] == 'f'
    ensures IdentifierKind(s, start, current) == KeywordOf(s[start..current])
  {
    var w := s[start..current];
    FirstCharDiffers(w, "awnd");
    FirstCharDiffers(w, "iwi");
    FirstCharDiffers(w, "?w?");
    FirstCharDiffers(w, "ewe");
    FirstCharDiffers(w, "twue");
    FirstCharDiffers(w, "uwu");
    FirstCharDiffers(w, "untiw");
    if |w| >= 2 {
      SplitWord(w, 2, "fa", "wse");
      SplitWord(w, 2, "fw", "un");
      SplitWord(w, 2, "fn", "tiw");
    }
  }

  lemma KeywordsFromU(s: string, start: nat, current: nat)
    requires start < current <= |s| && WordFacts(s, start, current) && s[start] == 'u'
    ensures IdentifierKind(s, start, current) == KeywordOf(s[start..current])
  {
    var w := s[start..current];
    FirstCharDiffers(w, "awnd");
    FirstCharDiffers(w, "iwi");
    FirstCharDiffers(w, "?w?");
    FirstCharDiffers(w, "ewe");
    FirstCharDiffers(w, "twue");
    FirstCharDiffers(w, "fawse");
    FirstCharDiffers(w, "fwun");
    FirstCharDiffers(w, "fntiw");
    if |w| >= 2 {
      SplitWord(w, 2, "uw", "u");
      SplitWord(w, 2, "un", "tiw");
    }
  }

  lemma PrefixKeywords(s: string, start: nat, current: nat)
    requires start < current <= |s| && WordFacts(s, start, current)
    requires s[start] == 'o'
    ensures IdentifierKind(s, start, current) == KeywordOf(s[start..current])
  {
    var w := s[start..current];
    var keywords := ["awnd", "iwi", "?w?", "ewe", "twue", "fawse", "fwun", "uwu", "untiw", "fntiw"];
    forall v | v in keywords
      ensures w != v
    {
      FirstCharDiffers(w, v);
    }
  }

  /** The fall-through from the 'f' branch: "fntiw" is a loop keyword like "untiw". */
  lemma FallThroughQuirk()
    ensures KeywordOf("fntiw") == Loop
  {
  }

  /** Words beginning "ow" are all the or keyword. */
  lemma PrefixOnlyQuirk()
    ensures KeywordOf("owl") == Or
  {
    assert "owl"[..2] == "ow";
  }

  /** A '?' word other than "?w?" is an error token. */
  lemma QueryQuirk()
    ensures KeywordOf("?x") == Error
  {
    assert "?x"[0] == '?' && "?x"[1] == 'x' && "?x"[..2] != "ow";
  }

  /** The spelling of an operator kind; the empty string for every other kind. */
  function Spelling(k: Kind): string
  {
    match k
    case Plus => "+"            case Minus => "-"          case Star => "*"
    case Slash => "/"           case Not => "!"            case LeftPar => "("
    case RightPar => ")"        case Comma => ","          case NewLine => "~n"
    case Tab => "~t"            case Assign => ":="        case Equal => "="
    case NotEqual => "!="       case Greater => ">"        case GreaterEqual => ">="
    case Less => "<"            case LessEqual => "<="     case LeftSqb => "["
    case RightSqb => "]"        case BlockStart => "[:"    case BlockEnd => ":]"
    case ReadEnd => "<<"        case ReadString => "-s"    case ReadNumber => "-d"
    case ReadChar => "-c"       case OutEnd => ">>"
    case _ => ""
  }

  /**
   * The operator starting with c when d follows: its kind and length, the
   * two-character form taking precedence. None is an unexpected character.
   */
  function Symbol(c: char, d: char): (r: Option<(Kind, nat)>)
    ensures r.Some? ==> (r.value.1 == 1 || (r.value.1 == 2 && d != '\0'))
    ensures r.Some? ==> Spelling(r.value.0) == [c, d][..r.value.1]
  {
    match c
    case '+' => Some((Plus, 1))
    case '*' => Some((Star, 1))
    case '/' => Some((Slash, 1))
    case '=' => Some((Equal, 1))
    case '-' =>
      if d == 's' then Some((ReadString, 2))
      else if d == 'd' then Some((ReadNumber, 2))
      else if d == 'c' then Some((ReadChar, 2))
      else Some((Minus, 1))
    case '(' => Some((LeftPar, 1))
    case ')' => Some((RightPar, 1))
    case ',' => Some((Comma, 1))
    case '~' =>
      if d == 'n' then Some((NewLine, 2))
      else if d == 't' then Some((Tab, 2))
      else None
    case '!' => if d == '=' then Some((NotEqual, 2)) else Some((Not, 1))
    case '<' =>
      if d == '=' then Some((LessEqual, 2))
      else if d == '<' then Some((ReadEnd, 2))
      else Some((Less, 1))
    case '>' =>
      if d == '=' then Some((GreaterEqual, 2))
      else if d == '>' then Some((OutEnd, 2))
      else Some((Greater, 1))
    case '[' => if d == ':' then Some((BlockStart, 2)) else Some((LeftSqb, 1))
    case ']' => Some((RightSqb, 1))
    case ':' =>
      if d == '=' then Some((Assign, 2))
      else if d == ']' then Some((BlockEnd, 2))
      else None
    case _ => None
  }

  /** Every operator's spelling, followed by the end of input, scans back to that operator. */
  lemma SpellingScansBack(k: Kind)
    requires Spelling(k) != ""
    ensures Symbol(Spelling(k)[0], At(Spelling(k), 1)) == Some((k, |Spelling(k)|))
  {
  }

  /** The token scan_token returns and the scanner state it leaves. */
  datatype Scan = Scan(token: Token, start: nat, current: nat, line: int)

  function IdentifierScan(s: string, start: nat, line: int): (r: Scan)
    requires start < |s| && IsIdentStart(s[start])
    ensures r.start == start < r.current <= |s| && r.line == line
    ensures r.token == Token(r.token.kind, s[start..r.current], line)
    ensures forall k :: start < k < r.current ==> IsIdentChar(s[k])
    ensures !IsIdentChar(At(s, r.current))
    ensures r.token.kind == KeywordOf(r.token.lexeme)
  {
    var j := IdentEnd(s, start + 1);
    IdentifierKindIsKeywordOf(s, start, j);
    Scan(Token(IdentifierKind(s, start, j), s[start..j], line), start, j, line)
  }

  function NumberScan(s: string, start: nat, line: int): (r: Scan)
    requires start < |s| && IsDigit(s[start])
    ensures r.start == start < r.current <= |s| && r.line == line
    ensures r.token == Token(Number, s[start..r.current], line)
    ensures !IsDigit(At(s, r.current))
  {
    var j := NumberEnd(s, start + 1);
    Scan(Token(Number, s[start..j], line), start, j, line)
  }

  function StringScan(s: string, start: nat, line: int): (r: Scan)
    requires start < |s| && s[start] == '"'
    ensures r.start == start < r.current <= |s| && line <= r.line
    ensures r.token.kind == String || r.token == Token(Error, UnterminatedString, r.line)
    ensures r.token.kind == String <==> At(s, DelimEnd(s, start + 1, '"')) == '"'
    ensures r.token.kind == String ==>
      var w := r.token.lexeme;
      && w == s[start..r.current] && r.token.line == r.line
      && |w| >= 2 && w[0] == '"' && w[|w| - 1] == '"'
      && (forall k :: 0 < k < |w| - 1 ==> w[k] != '"')
  {
    var j := DelimEnd(s, start + 1, '"');
    var line' := line + CountedNewlines(s, start + 1, j);
    if At(s, j) == '\0' then Scan(Token(Error, UnterminatedString, line'), start, j, line')
    else Scan(Token(String, s[start..j + 1], line'), start, j + 1, line')
  }

  function CharScan(s: string, start: nat, line: int): (r: Scan)
    requires start < |s| && s[start] == '`'
    ensures r.start == start < r.current <= |s| && r.line == line
    ensures r.token.kind == Char || r.token.kind == Error
    ensures r.token.kind == Char <==> At(s, start + 1) != '\0' && At(s, start + 1) != '`' && At(s, start + 2) == '`'
    ensures r.token.kind == Char ==>
      r.token == Token(Char, s[start..r.current], line) && |r.token.lexeme| == 3 && r.current == start + 3
    ensures At(s, start + 1) == '`' ==> r.token == Token(Error, EmptyChar, line)
    ensures r.token.kind == Error ==>
      r.token.lexeme == UnterminatedChar || r.token.lexeme == EmptyChar || r.token.lexeme == InvalidChar
  {
    if At(s, start + 1) == '\0' then Scan(Token(Error, UnterminatedChar, line), start, start + 1, line)
    else if At(s, start + 1) == '`' then Scan(Token(Error, EmptyChar, line), start, start + 1, line)
    else
      var j := DelimEnd(s, start + 2, '`');
      if At(s, j) == '\0' then Scan(Token(Error, UnterminatedChar, line), start, j, line)
      else if j == start + 2 then Scan(Token(Char, s[start..start + 3], line), start, start + 3, line)
      else Scan(Token(Error, InvalidChar, line), start, j, line)
  }

  function SymbolScan(s: string, start: nat, line: int): (r: Scan)
    requires start < |s|
    ensures r.start == start < r.current <= start + 2 && r.current <= |s| && r.line == line
    ensures r.token.kind == Error ==> r.token == Token(Error, UnexpectedChar, line) && r.current == start + 1
    ensures r.token.kind != Error ==>
      r.token == Token(r.token.kind, s[start..r.current], line) && Spelling(r.token.kind) == s[start..r.current]
  {
    match Symbol(s[start], At(s, start + 1))
    case Some((k, n)) =>
      assert [s[start], At(s, start + 1)][..n] == s[start..start + n];
      Scan(Token(k, s[start..start + n], line), start, start + n, line)
    case None => Scan(Token(Error, UnexpectedChar, line), start, start + 1, line)
  }

  /** scan_token: skip blanks and comments, then scan one token from where that stops. */
  function NextToken(s: string, i: nat, line: int): (r: Scan)
    requires i <= |s|
    ensures r.start == SkipWs(s, i, line).0 && r.start <= r.current <= |s| && line <= r.line
    ensures r.token.kind == Eof <==> At(s, r.start) == '\0'
    ensures r.token.kind == Eof ==> r == Scan(Token(Eof, "", r.line), r.start, r.start, SkipWs(s, i, line).1)
    ensures r.token.kind != Eof ==> r.start < r.current
    ensures r.token.kind != Error ==> r.token.lexeme == s[r.start..r.current] && r.token.line == r.line
    ensures r.token.kind == String ==> |r.token.lexeme| >= 2
    ensures r.token.kind == Char ==> |r.token.lexeme| == 3
  {
    var (p, l) := SkipWs(s, i, line);
    if At(s, p) == '\0' then Scan(Token(Eof, "", l), p, p, l)
    else if IsIdentStart(s[p]) then IdentifierScan(s, p, l)
    else if IsDigit(s[p]) then NumberScan(s, p, l)
    else if s[p] == '"' then StringScan(s, p, l)
    else if s[p] == '`' then CharScan(s, p, l)
    else SymbolScan(s, p, l)
  }

  /** Once the input is exhausted, every further scan returns EOF and leaves the state unchanged. */
  lemma EofIsStable(s: string, i: nat, line: int)
    requires i <= |s| && NextToken(s, i, line).token.kind == Eof
    ensures var r := NextToken(s, i, line); NextToken(s, r.current, r.line) == r
  {
    SkipWsIdempotent(s, i, line);
  }

  class Scanner {
    const source: string
    var start: nat
    var current: nat
    var line: int

    ghost predicate Valid()
      reads this
    {
      start <= current <= |source|
    }

    /** init_scanner: both cursors at the beginning, on line 1. */
    constructor (source: string)
      ensures Valid() && this.source == source && start == 0 && current == 0 && line == 1
    {
      this.source := source;
      start, current, line := 0, 0, 1;
    }

    function Peek(): char
      reads this
    {
      At(source, current)
    }

    predicate IsAtEnd()
      reads this
    {
      Peek() == '\0'
    }

    function PeekNext(): char
      reads this
    {
      if IsAtEnd() then '\0' else At(source, current + 1)
    }

    method Advance() returns (c: char)
      requires Valid() && !IsAtEnd()
      modifies this
      ensures Valid() && current == old(current) + 1 && c == source[old(current)]
      ensures start == old(start) && line == old(line)
    {
      current := current + 1;
      c := source[current - 1];
    }

    method Match(expected: char) returns (matched: bool)
      requires Valid()
      modifies this
      ensures Valid() && matched == (!old(IsAtEnd()) && old(Peek()) == expected)
      ensures current == if matched then old(current) + 1 else old(current)
      ensures start == old(start) && line == old(line)
    {
      if IsAtEnd() || Peek() != expected {
        return false;
      }
      current := current + 1;
      return true;
    }

    function MakeToken(kind: Kind): Token
      reads this
      requires Valid()
    {
      Token(kind, source[start..current], line)
    }

    function ErrorToken(message: string): Token
      reads this
    {
      Token(Error, message, line)
    }

    /** The comment loop of skip_whitespace, started on the opening '{'. */
    method SkipComment()
      requires Valid()
      modifies this
      ensures Valid() && current == CommentEnd(source, old(current))
      ensures start == old(start) && line == old(line)
    {
      while !IsAtEnd()
        invariant Valid() && start == old(start) && line == old(line)
        invariant CommentEnd(source, current) == CommentEnd(source, old(current))
        decreases |source| - current
      {
        var colon := Match(':');
        if colon {
          var brace := Match('}');
          if brace {
            return;
          }
        }
        if !IsAtEnd() {
          var c := Advance();
        }
      }
    }

    method SkipWhitespace()
      requires Valid()
      modifies this
      ensures Valid() && (current, line) == SkipWs(source, old(current), old(line))
      ensures start == old(start)
    {
      while true
        invariant Valid() && start == old(start)
        invariant SkipWs(source, current, line) == SkipWs(source, old(current), old(line))
        decreases |source| - current
      {
        var c := Peek();
        if c == ' ' || c == '\r' || c == '\t' {
          c := Advance();
        } else if c == '\n' {
          c := Advance();
          if !IsAtEnd() {
            line := line + 1;
          }
        } else if c == '{' && PeekNext() == ':' {
          SkipComment();
        } else {
          return;
        }
      }
    }

    /** _identifier, after the first character has been consumed. */
    method ScanIdentifier() returns (tok: Token)
      requires Valid() && current == start + 1 && start < |source| && IsIdentStart(source[start])
      modifies this
      ensures Valid() && Scan(tok, start, current, line) == IdentifierScan(source, old(start), old(line))
    {
      while IsIdentChar(Peek())
        invariant Valid() && start == old(start) && line == old(line) && start < current
        invariant IdentEnd(source, current) == IdentEnd(source, start + 1)
        decreases |source| - current
      {
        var c := Advance();
      }
      tok := MakeToken(IdentifierKind(source, start, current));
    }

    /** The digit loops of _number. */
    method SkipDigits()
      requires Valid()
      modifies this
      ensures Valid() && current == DigitsEnd(source, old(current))
      ensures start == old(start) && line == old(line)
    {
      while IsDigit(Peek())
        invariant Valid() && start == old(start) && line == old(line) && old(current) <= current
        invariant DigitsEnd(source, current) == DigitsEnd(source, old(current))
        decreases |source| - current
      {
        var c := Advance();
      }
    }

    /** _number, after the first digit has been consumed. */
    method ScanNumber() returns (tok: Token)
      requires Valid() && current == start + 1 && start < |source| && IsDigit(source[start])
      modifies this
      ensures Valid() && Scan(tok, start, current, line) == NumberScan(source, old(start), old(line))
    {
      SkipDigits();
      if Peek() == '.' && IsDigit(PeekNext()) {
        var c := Advance();
        SkipDigits();
      }
      tok := MakeToken(Number);
    }

    /** _string, after the opening quote has been consumed. */
    method ScanString() returns (tok: Token)
      requires Valid() && current == start + 1 && start < |source| && source[start] == '"'
      modifies this
      ensures Valid() && Scan(tok, start, current, line) == StringScan(source, old(start), old(line))
    {
      while Peek() != '"' && !IsAtEnd()
        invariant Valid() && start == old(start) && start < current
        invariant current <= DelimEnd(source, start + 1, '"')
        invariant DelimEnd(source, current, '"') == DelimEnd(source, start + 1, '"')
        invariant line == old(line) + CountedNewlines(source, start + 1, current)
        decreases |source| - current
      {
        if Peek() == '\n' && PeekNext() != '\0' {
          line := line + 1;
        }
        var c := Advance();
      }
      if IsAtEnd() {
        return ErrorToken(UnterminatedString);
      }
      var c := Advance();
      tok := MakeToken(String);
    }

    /** _char, after the opening backtick has been consumed. */
    method ScanChar() returns (tok: Token)
      requires Valid() && current == start + 1 && start < |source| && source[start] == '`'
      modifies this
      ensures Valid() && Scan(tok, start, current, line) == CharScan(source, old(start), old(line))
    {
      if IsAtEnd() {
        return ErrorToken(UnterminatedChar);
      }
      if Peek() == '`' {
        return ErrorToken(EmptyChar);
      }
      var c := Advance();
      while true
        invariant Valid() && start == old(start) && line == old(line)
        invariant start + 2 <= current <= DelimEnd(source, start + 2, '`')
        invariant DelimEnd(source, current, '`') == DelimEnd(source, start + 2, '`')
        decreases |source| - current
      {
        if IsAtEnd() {
          return ErrorToken(UnterminatedChar);
        }
        if Peek() == '`' {
          if current - start == 2 {
            c := Advance();
            return MakeToken(Char);
          }
          return ErrorToken(InvalidChar);
        }
        c := Advance();
      }
    }

    /** scan_token. */
    method ScanToken() returns (tok: Token)
      requires Valid()
      modifies this
      ensures Valid() && Scan(tok, start, current, line) == NextToken(source, old(current), old(line))
    {
      SkipWhitespace();
      start := current;
      if IsAtEnd() {
        return MakeToken(Eof);
      }
      var c := Advance();
      if IsIdentStart(c) {
        tok := ScanIdentifier();
        return;
      }
      if IsDigit(c) {
        tok := ScanNumber();
        return;
      }
      if c == '"' {
        tok := ScanString();
        return;
      }
      if c == '`' {
        tok := ScanChar();
        return;
      }
      tok := ScanSymbol(c);
    }

    /** The operator cases of scan_token, after the first character has been consumed. */
    method ScanSymbol(c: char) returns (tok: Token)
      requires Valid() && current == start + 1 && start < |source| && source[start] == c
      modifies this
      ensures Valid() && Scan(tok, start, current, line) == SymbolScan(source, old(start), old(line))
    {
      var m: bool;
      match c {
        case '+' => tok := MakeToken(Plus);
        case '*' => tok := MakeToken(Star);
        case '/' => tok := MakeToken(Slash);
        case '=' => tok := MakeToken(Equal);
        case '-' =>
          m := Match('s');
          if m { return MakeToken(ReadString); }
          m := Match('d');
          if m { return MakeToken(ReadNumber); }
          m := Match('c');
          if m { return MakeToken(ReadChar); }
          tok := MakeToken(Minus);
        case '(' => tok := MakeToken(LeftPar);
        case ')' => tok := MakeToken(RightPar);
        case ',' => tok := MakeToken(Comma);
        case '~' =>
          m := Match('n');
          if m { return MakeToken(NewLine); }
          m := Match('t');
          if m { return MakeToken(Tab); }
          tok := ErrorToken(UnexpectedChar);
        case '!' =>
          m := Match('=');
          tok := MakeToken(if m then NotEqual else Not);
        case '<' =>
          m := Match('=');
          if m { return MakeToken(LessEqual); }
          m := Match('<');
          tok := MakeToken(if m then ReadEnd else Less);
        case '>' =>
          m := Match('=');
          if m { return MakeToken(GreaterEqual); }
          m := Match('>');
          tok := MakeToken(if m then OutEnd else Greater);
        case '[' =>
          m := Match(':');
          tok := MakeToken(if m then BlockStart else LeftSqb);
        case ']' => tok := MakeToken(RightSqb);
        case ':' =>
          if Peek() == '=' {
            var d := Advance();
            return MakeToken(Assign);
          } else if Peek() == ']' {
            var d := Advance();
            return MakeToken(BlockEnd);
          }
          tok := ErrorToken(UnexpectedChar);
        case _ => tok := ErrorToken(UnexpectedChar);
      }
    }
  }
}
