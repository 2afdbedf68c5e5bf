/** The tokenizer: a scanner over a character sequence that skips whitespace and
    reads one token at a time (a number, a string, an identifier or keyword, or a
    one-character symbol). */
module Lexing {
  import opened Wrappers

  datatype Token =
    | Number(value: real)
    | String(text: string)
    | Identifier(name: string)
    | Equal
    | Plus
    | Minus
    | Asterisk
    | Slash
    | LeftParen
    | RightParen
    | LeftBrace
    | RightBrace
    | Semicolon
    | If
    | Else
    | While
    | Let
    | EOF

  /** Why the scanner aborts: a character no token starts with, or a number lexeme
      that does not parse as a float. */
  datatype PanicReason = UnexpectedCharacter(ch: char) | InvalidNumber(lexeme: string)

  /** What one call of the scanner gives: a token, or a panic. */
  datatype Lexed = Next(token: Token) | Panicked(reason: PanicReason)

  /** A result together with the position just after what was consumed. */
  datatype Scanned = Scanned(result: Lexed, end: nat)

  /** Unicode's White_Space property, which is what Rust's `char::is_whitespace` tests. */
  predicate IsWhitespace(c: char)
  {
    var n := c as int;
    (0x09 <= n <= 0x0D) || n == 0x20 || n == 0x85 || n == 0xA0 || n == 0x1680
    || (0x2000 <= n <= 0x200A) || n == 0x2028 || n == 0x2029 || n == 0x202F
    || n == 0x205F || n == 0x3000
  }

  predicate IsDigit(c: char)
  {
    '0' <= c <= '9'
  }

  predicate IsAsciiLetter(c: char)
  {
    ('a' <= c <= 'z') || ('A' <= c <= 'Z')
  }

  /** An ASCII approximation of `char::is_alphanumeric`: letters and digits. */
  predicate IsAlphanumeric(c: char)
  {
    IsAsciiLetter(c) || IsDigit(c)
  }

  /** The characters each scanning loop accepts. */
  datatype CharClass = Whitespace | Digit | NumberPart | IdentifierPart | NotQuote

  predicate InClass(c: char, cls: CharClass)
  {
    match cls
    case Whitespace => IsWhitespace(c)
    case Digit => IsDigit(c)
    case NumberPart => IsDigit(c) || c == '.'
    case IdentifierPart => IsAlphanumeric(c) || c == '_'
    case NotQuote => c != '"'
  }

  /** The end of the longest run of `cls` characters starting at `i`. */
  function SpanEnd(s: string, i: nat, cls: CharClass): (j: nat)
    requires i <= |s|
    ensures i <= j <= |s|
    ensures forall k | i <= k < j :: InClass(s[k], cls)
    ensures j == |s| || !InClass(s[j], cls)
    decreases |s| - i
  {
    if i == |s| || !InClass(s[i], cls) then i else SpanEnd(s, i + 1, cls)
  }

  /** The run's end is determined by the run: any `k` that closes a run of `cls`
      characters from `i` is `SpanEnd(s, i, cls)`. */
  lemma SpanEndUnique(s: string, i: nat, cls: CharClass, k: nat)
    requires i <= k <= |s|
    requires forall m | i <= m < k :: InClass(s[m], cls)
    requires k == |s| || !InClass(s[k], cls)
    ensures SpanEnd(s, i, cls) == k
  {
  }

  function DigitValue(c: char): nat
    requires IsDigit(c)
  {
    (c as int - '0' as int) as nat
  }

  /** The value of a run of decimal digits. */
  function DigitsValue(ds: string): nat
    requires forall k | 0 <= k < |ds| :: IsDigit(ds[k])
  {
    if |ds| == 0 then 0 else DigitsValue(ds[..|ds| - 1]) * 10 + DigitValue(ds[|ds| - 1])
  }

  /** The value of the digits after a decimal point. */
  function FractionValue(ds: string): (f: real)
    requires forall k | 0 <= k < |ds| :: IsDigit(ds[k])
    ensures 0.0 <= f < 1.0
  {
    if |ds| == 0 then 0.0 else (DigitValue(ds[0]) as real + FractionValue(ds[1..])) / 10.0
  }

  /** What the number scanner can collect: a digit followed by digits and dots. */
  predicate IsNumberLexeme(lexeme: string)
  {
    |lexeme| > 0 && IsDigit(lexeme[0]) && forall k | 0 <= k < |lexeme| :: InClass(lexeme[k], NumberPart)
  }

  /** `parse::<f64>` on such a lexeme: digits with at most one point parse, to their
      exact decimal value; a second point makes the parse fail. */
  function ParseNumber(lexeme: string): (r: Option<real>)
    requires IsNumberLexeme(lexeme)
    ensures var whole := DigitsValue(lexeme[..SpanEnd(lexeme, 0, Digit)]) as real;
      r.Some? ==> whole <= r.value < whole + 1.0
  {
    var point := SpanEnd(lexeme, 0, Digit);
    if point == |lexeme| then assert lexeme[..point] == lexeme; Some(DigitsValue(lexeme) as real)
    else if SpanEnd(lexeme, point + 1, Digit) < |lexeme| then None
    else Some(DigitsValue(lexeme[..point]) as real + FractionValue(lexeme[point + 1..]))
  }

  /** The keyword a word spells, or an identifier token for any other word. */
  function Keyword(word: string): (t: Token)
    ensures t.Identifier? <==> word !in {"if", "else", "while", "let"}
    ensures t.Identifier? ==> t.name == word
  {
    if word == "if" then If
    else if word == "else" then Else
    else if word == "while" then While
    else if word == "let" then Let
    else Identifier(word)
  }

  /** The token of a one-character symbol. */
  function Punctuation(c: char): (t: Option<Token>)
    ensures t.Some? <==> c in "=+-*/(){};"
  {
    match c
    case '=' => Some(Equal)
    case '+' => Some(Plus)
    case '-' => Some(Minus)
    case '*' => Some(Asterisk)
    case '/' => Some(Slash)
    case '(' => Some(LeftParen)
    case ')' => Some(RightParen)
    case '{' => Some(LeftBrace)
    case '}' => Some(RightBrace)
    case ';' => Some(Semicolon)
    case _ => None
  }

  predicate StartsIdentifier(c: char)
  {
    IsAsciiLetter(c) || c == '_'
  }

  /** `next_token` from position `i`: skip whitespace, then read the token that the
      first remaining character starts. The end position says how much was consumed;
      every token except `EOF` consumes at least one character. */
  function Scan(s: string, i: nat): (r: Scanned)
    requires i <= |s|
    ensures i <= r.end <= |s|
    ensures r.result != Next(EOF) ==> r.end > i
  {
    var j := SpanEnd(s, i, Whitespace);
    if j == |s| then Scanned(Next(EOF), j) else ScanToken(s, j)
  }

  /** The token starting with the character at `j`. */
  function ScanToken(s: string, j: nat): (r: Scanned)
    requires j < |s|
    ensures j < r.end <= |s| && r.result != Next(EOF)
  {
    var c := s[j];
    if IsDigit(c) then ScanNumber(s, j)
    else if c == '"' then ScanString(s, j)
    else if StartsIdentifier(c) then ScanIdentifier(s, j)
    else
      match Punctuation(c)
      case Some(t) => Scanned(Next(t), j + 1)
      case None => Scanned(Panicked(UnexpectedCharacter(c)), j + 1)
  }

  /** A number: the longest run of digits and points from `j`, parsed. */
  function ScanNumber(s: string, j: nat): (r: Scanned)
    requires j < |s| && IsDigit(s[j])
    ensures j < r.end <= |s| && r.result != Next(EOF)
  {
    var k := SpanEnd(s, j + 1, NumberPart);
    var lexeme := s[j..k];
    match ParseNumber(lexeme)
    case None => Scanned(Panicked(InvalidNumber(lexeme)), k)
    case Some(v) => Scanned(Next(Number(v)), k)
  }

  /** A string: the characters after the opening quote at `j` up to the next quote,
      which is consumed, or up to the end of the input. */
  function ScanString(s: string, j: nat): (r: Scanned)
    requires j < |s|
    ensures j < r.end <= |s| && r.result != Next(EOF)
  {
    var close := SpanEnd(s, j + 1, NotQuote);
    Scanned(Next(String(s[j + 1..close])), if close < |s| then close + 1 else close)
  }

  /** A word: the longest run of letters, digits and underscores from `j`. */
  function ScanIdentifier(s: string, j: nat): (r: Scanned)
    requires j < |s|
    ensures j < r.end <= |s| && r.result != Next(EOF)
  {
    var k := SpanEnd(s, j + 1, IdentifierPart);
    Scanned(Next(Keyword(s[j..k])), k)
  }

  /** The scanner: the input and the position of the next unread character. */
  class Lexer {
    const input: string
    var pos: nat

    predicate Valid()
      reads this
    {
      pos <= |input|
    }

    /** `Lexer::new`. */
    constructor (input: string)
      ensures this.input == input && pos == 0 && Valid()
    {
      this.input := input;
      pos := 0;
    }

    /** `next_token`. A panic of the Rust code is returned as `Panicked`. */
    method NextToken() returns (result: Lexed)
      requires Valid()
      modifies this
      ensures Valid()
      ensures Scanned(result, pos) == Scan(input, old(pos))
    {
      SkipWhitespace();
      if pos == |input| {
        return Next(EOF);
      }
      var ch := input[pos];
      pos := pos + 1;
      ghost var start := pos - 1;
      if IsDigit(ch) {
        result := NumberToken(ch);
        assert [ch] + input[start + 1..pos] == input[start..pos];
        assert Scanned(result, pos) == ScanNumber(input, start);
      } else if ch == '"' {
        var token := StringToken();
        result := Next(token);
        assert Scanned(result, pos) == ScanString(input, start);
      } else if StartsIdentifier(ch) {
        var token := IdentifierToken(ch);
        result := Next(token);
        assert [ch] + input[start + 1..pos] == input[start..pos];
        assert token == Keyword(input[start..pos]);
        assert Scanned(result, pos) == ScanIdentifier(input, start);
      } else {
        match Punctuation(ch) {
          case Some(t) => result := Next(t);
          case None => result := Panicked(UnexpectedCharacter(ch));
        }
      }
    }

    /** `skip_whitespace`: consumes the whitespace run at the position and nothing else. */
    method SkipWhitespace()
      requires Valid()
      modifies this
      ensures Valid()
      ensures pos == SpanEnd(input, old(pos), Whitespace)
    {
      while pos < |input| && IsWhitespace(input[pos])
        invariant old(pos) <= pos <= |input|
        invariant SpanEnd(input, pos, Whitespace) == SpanEnd(input, old(pos), Whitespace)
        decreases |input| - pos
      {
        pos := pos + 1;
      }
    }

    /** `number`: the first digit has been consumed; collects the following digits
        and points and parses the lexeme. */
    method NumberToken(firstDigit: char) returns (result: Lexed)
      requires Valid() && IsDigit(firstDigit)
      modifies this
      ensures Valid()
      ensures pos == SpanEnd(input, old(pos), NumberPart)
      ensures var lexeme := [firstDigit] + input[old(pos)..pos];
        IsNumberLexeme(lexeme)
        && result == match ParseNumber(lexeme)
                     case None => Panicked(InvalidNumber(lexeme))
                     case Some(v) => Next(Number(v))
    {
      var number := [firstDigit];
      while pos < |input| && InClass(input[pos], NumberPart)
        invariant old(pos) <= pos <= |input|
        invariant number == [firstDigit] + input[old(pos)..pos]
        invariant SpanEnd(input, pos, NumberPart) == SpanEnd(input, old(pos), NumberPart)
        decreases |input| - pos
      {
        number := number + [input[pos]];
        pos := pos + 1;
      }
      assert IsNumberLexeme(number) by {
        forall k | 0 <= k < |number| ensures InClass(number[k], NumberPart) {
          if k > 0 {
            assert number[k] == input[old(pos) + k - 1];
          }
        }
      }
      match ParseNumber(number) {
        case None => result := Panicked(InvalidNumber(number));
        case Some(v) => result := Next(Number(v));
      }
    }

    /** `string`: the opening quote has been consumed; collects characters up to the
        closing quote, which is consumed too, or up to the end of the input. */
    method StringToken() returns (token: Token)
      requires Valid()
      modifies this
      ensures Valid()
      ensures var close := SpanEnd(input, old(pos), NotQuote);
        && token == String(input[old(pos)..close])
        && pos == (if close < |input| then close + 1 else close)
    {
      var text := "";
      while pos < |input|
        invariant old(pos) <= pos <= |input|
        invariant text == input[old(pos)..pos]
        invariant SpanEnd(input, pos, NotQuote) == SpanEnd(input, old(pos), NotQuote)
        decreases |input| - pos
      {
        var ch := input[pos];
        pos := pos + 1;
        if ch == '"' {
          return String(text);
        }
        text := text + [ch];
      }
      token := String(text);
    }

    /** `identifier`: the first character has been consumed; collects the following
        letters, digits and underscores and classifies the word. */
    method IdentifierToken(firstChar: char) returns (token: Token)
      requires Valid()
      modifies this
      ensures Valid()
      ensures pos == SpanEnd(input, old(pos), IdentifierPart)
      ensures token == Keyword([firstChar] + input[old(pos)..pos])
    {
      var ident := [firstChar];
      while pos < |input| && InClass(input[pos], IdentifierPart)
        invariant old(pos) <= pos <= |input|
        invariant ident == [firstChar] + input[old(pos)..pos]
        invariant SpanEnd(input, pos, IdentifierPart) == SpanEnd(input, old(pos), IdentifierPart)
        decreases |input| - pos
      {
        ident := ident + [input[pos]];
        pos := pos + 1;
      }
      token := Keyword(ident);
    }
  }

  /** `EOF` comes exactly when only whitespace is left; it consumes that whitespace,
      and scanning again from there gives `EOF` again. */
  lemma EofIffOnlyWhitespace(s: string, i: nat)
    requires i <= |s|
    ensures Scan(s, i).result == Next(EOF) <==> forall k | i <= k < |s| :: IsWhitespace(s[k])
    ensures Scan(s, i).result == Next(EOF) ==> Scan(s, i).end == |s| && Scan(s, Scan(s, i).end) == Scanned(Next(EOF), |s|)
  {
    var j := SpanEnd(s, i, Whitespace);
    if j < |s| {
      assert !IsWhitespace(s[j]);
    }
  }

  /** Different symbols have different tokens. */
  lemma PunctuationTable(c: char, d: char)
    ensures Punctuation(c).Some? && Punctuation(c) == Punctuation(d) ==> c == d
  {
  }

  /** A symbol after whitespace is read as its token and consumes one character. */
  lemma SymbolToken(ws: string, c: char, rest: string)
    requires forall k | 0 <= k < |ws| :: IsWhitespace(ws[k])
    requires Punctuation(c).Some?
    ensures Scan(ws + [c] + rest, 0) == Scanned(Next(Punctuation(c).value), |ws| + 1)
  {
    var s := ws + [c] + rest;
    assert s[|ws|] == c;
    SpanEndUnique(s, 0, Whitespace, |ws|);
  }

  /** Different words give different tokens. */
  lemma KeywordTable(w: string, v: string)
    ensures Keyword(w) == Keyword(v) ==> w == v
  {
  }

  /** A word: starts with an ASCII letter or `_` and goes on with letters, digits and
      underscores. */
  predicate IsWord(w: string)
  {
    |w| > 0 && StartsIdentifier(w[0]) && forall k | 0 <= k < |w| :: InClass(w[k], IdentifierPart)
  }

  /** A word after whitespace, followed by anything that cannot continue it, is read
      whole, as its keyword or identifier token. */
  lemma {:induction false} WordToken(ws: string, w: string, rest: string)
    requires forall k | 0 <= k < |ws| :: IsWhitespace(ws[k])
    requires IsWord(w)
    requires |rest| == 0 || !InClass(rest[0], IdentifierPart)
    ensures Scan(ws + w + rest, 0) == Scanned(Next(Keyword(w)), |ws| + |w|)
  {
    var s := ws + w + rest;
    assert s[|ws|] == w[0];
    SpanEndUnique(s, 0, Whitespace, |ws|);
    forall m | |ws| + 1 <= m < |ws| + |w| ensures InClass(s[m], IdentifierPart) {
      assert s[m] == w[m - |ws|];
    }
    if |rest| > 0 {
      assert s[|ws| + |w|] == rest[0];
    }
    SpanEndUnique(s, |ws| + 1, IdentifierPart, |ws| + |w|);
    assert s[|ws|..|ws| + |w|] == w;
  }

  /** A quoted text without quotes, after whitespace, is read as a string token and
      both quotes are consumed; without the closing quote the rest of the input is
      the text. */
  lemma {:induction false} StringTokens(ws: string, text: string, rest: string)
    requires forall k | 0 <= k < |ws| :: IsWhitespace(ws[k])
    requires forall k | 0 <= k < |text| :: text[k] != '"'
    ensures Scan(ws + ['"'] + text + ['"'] + rest, 0) == Scanned(Next(String(text)), |ws| + |text| + 2)
    ensures Scan(ws + ['"'] + text, 0) == Scanned(Next(String(text)), |ws| + |text| + 1)
  {
    var s := ws + ['"'] + text + ['"'] + rest;
    assert s[|ws|] == '"';
    SpanEndUnique(s, 0, Whitespace, |ws|);
    forall m | |ws| + 1 <= m < |ws| + 1 + |text| ensures InClass(s[m], NotQuote) {
      assert s[m] == text[m - |ws| - 1];
    }
    assert s[|ws| + 1 + |text|] == '"';
    SpanEndUnique(s, |ws| + 1, NotQuote, |ws| + 1 + |text|);
    assert s[|ws| + 1..|ws| + 1 + |text|] == text;
    var u := ws + ['"'] + text;
    assert u[|ws|] == '"';
    SpanEndUnique(u, 0, Whitespace, |ws|);
    forall m | |ws| + 1 <= m < |u| ensures InClass(u[m], NotQuote) {
      assert u[m] == text[m - |ws| - 1];
    }
    SpanEndUnique(u, |ws| + 1, NotQuote, |u|);
    assert u[|ws| + 1..|u|] == text;
  }

  /** A number lexeme fails to parse exactly when it holds two points. */
  lemma {:induction false} InvalidNumberIffTwoPoints(lexeme: string)
    requires IsNumberLexeme(lexeme)
    ensures ParseNumber(lexeme).None? <==>
      exists i, j | 0 <= i < j < |lexeme| :: lexeme[i] == '.' && lexeme[j] == '.'
  {
    var point := SpanEnd(lexeme, 0, Digit);
    if ParseNumber(lexeme).None? {
      var second := SpanEnd(lexeme, point + 1, Digit);
      assert lexeme[point] == '.' && lexeme[second] == '.';
    }
    if exists i, j | 0 <= i < j < |lexeme| :: lexeme[i] == '.' && lexeme[j] == '.' {
      var i, j :| 0 <= i < j < |lexeme| && lexeme[i] == '.' && lexeme[j] == '.';
      assert !InClass(lexeme[i], Digit) && !InClass(lexeme[j], Digit);
    }
  }

  function DigitChar(d: nat): (c: char)
    requires d < 10
    ensures IsDigit(c) && DigitValue(c) == d
  {
    (('0' as int) + d) as char
  }

  /** The decimal numeral of a natural number, without leading zeros. */
  function Numeral(n: nat): (ds: string)
    ensures |ds| > 0 && forall k | 0 <= k < |ds| :: IsDigit(ds[k])
    decreases n
  {
    if n < 10 then [DigitChar(n)] else Numeral(n / 10) + [DigitChar(n % 10)]
  }

  /** Reading a numeral's digits gives back the number. */
  lemma {:induction false} NumeralValue(n: nat)
    ensures DigitsValue(Numeral(n)) == n
    decreases n
  {
    var ds := Numeral(n);
    if n >= 10 {
      NumeralValue(n / 10);
      assert ds[..|ds| - 1] == Numeral(n / 10);
    }
  }

  /** The numeral of `n` after whitespace, followed by anything that cannot continue
      a number, is read as the number token of value `n`. */
  lemma {:induction false} NumeralToken(ws: string, n: nat, rest: string)
    requires forall k | 0 <= k < |ws| :: IsWhitespace(ws[k])
    requires |rest| == 0 || !InClass(rest[0], NumberPart)
    ensures Scan(ws + Numeral(n) + rest, 0) == Scanned(Next(Number(n as real)), |ws| + |Numeral(n)|)
  {
    var ds := Numeral(n);
    var s := ws + ds + rest;
    assert s[|ws|] == ds[0];
    SpanEndUnique(s, 0, Whitespace, |ws|);
    forall m | |ws| + 1 <= m < |ws| + |ds| ensures InClass(s[m], NumberPart) {
      assert s[m] == ds[m - |ws|];
    }
    if |rest| > 0 {
      assert s[|ws| + |ds|] == rest[0];
    }
    SpanEndUnique(s, |ws| + 1, NumberPart, |ws| + |ds|);
    assert s[|ws|..|ws| + |ds|] == ds;
    SpanEndUnique(ds, 0, Digit, |ds|);
    NumeralValue(n);
  }

  /** A character that starts no token panics the scanner, and a number lexeme with
      two points panics it with that lexeme; nothing else does. */
  lemma ScanPanics(s: string, i: nat)
    requires i <= |s|
    ensures var r := Scan(s, i); var j := SpanEnd(s, i, Whitespace);
      r.result.Panicked? <==>
        j < |s| && (
          (!IsDigit(s[j]) && s[j] != '"' && !StartsIdentifier(s[j]) && Punctuation(s[j]).None?)
          || (IsDigit(s[j]) && ParseNumber(s[j..SpanEnd(s, j + 1, NumberPart)]).None?))
    ensures var r := Scan(s, i); var j := SpanEnd(s, i, Whitespace);
      r.result.Panicked? && r.result.reason.UnexpectedCharacter? ==> r.result.reason.ch == s[j] && r.end == j + 1
  {
  }
}
