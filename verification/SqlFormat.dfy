/** Translating question-mark SQL into the DB-API format style.

    The scanner looks one character ahead. It is proved against a lexer that
    reads one character at a time and never looks ahead, and the lexer's
    translation is proved to mean the original text. */
module SqlFormat {
  import opened Basics

  // ---- the lexer ----

  /** Where a text stands after a prefix. `Slash`, `Dash` and `Ended` are code
      whose last character may still turn out to open a comment or to be the
      first of a doubled quote. */
  datatype Lex =
    | Code | Slash | Dash | Ended(quote: char)
    | Line | Block | BlockStar
    | Quoted(quote: char) | Escaped(quote: char)
  {
    predicate InCode() {
      Code? || Slash? || Dash? || Ended?
    }
  }

  predicate IsQuote(c: char) {
    c == '\'' || c == '"' || c == '`'
  }

  function AfterCode(c: char): Lex {
    if c == '/' then Slash
    else if c == '-' then Dash
    else if c == '#' then Line
    else if IsQuote(c) then Quoted(c)
    else Code
  }

  function After(at: Lex, c: char): Lex {
    match at
    case Code => AfterCode(c)
    case Slash => if c == '*' then BlockStar else AfterCode(c)
    case Dash => if c == '-' then Line else AfterCode(c)
    case Ended(q) => if c == q then Quoted(q) else AfterCode(c)
    case Line => if c == '\n' then Code else Line
    case Block => if c == '*' then BlockStar else Block
    case BlockStar => if c == '/' then Code else if c == '*' then BlockStar else Block
    case Quoted(q) => if c == '\\' then Escaped(q) else if c == q then Ended(q) else Quoted(q)
    case Escaped(q) => Quoted(q)
  }

  /** A question mark in code is a placeholder; anywhere else it is text. */
  predicate Placeholder(at: Lex, c: char) {
    c == '?' && at.InCode()
  }

  function Placeholders(at: Lex, sql: string): nat
    decreases sql
  {
    if sql == "" then 0
    else (if Placeholder(at, sql[0]) then 1 else 0) + Placeholders(After(at, sql[0]), sql[1..])
  }

  /** The text with its placeholders filled in order. */
  function Fill(at: Lex, sql: string, values: seq<string>): string
    requires |values| == Placeholders(at, sql)
    decreases sql
  {
    if sql == "" then ""
    else if Placeholder(at, sql[0]) then values[0] + Fill(After(at, sql[0]), sql[1..], values[1..])
    else [sql[0]] + Fill(After(at, sql[0]), sql[1..], values)
  }

  function Coded(at: Lex, c: char): string {
    if Placeholder(at, c) then "%s" else if c == '%' then "%%" else [c]
  }

  function Translated(at: Lex, sql: string): string
    decreases sql
  {
    if sql == "" then "" else Coded(at, sql[0]) + Translated(After(at, sql[0]), sql[1..])
  }

  // ---- the driver ----

  /** The DB-API format rule: `%s` takes the next value, `%%` is a percent sign,
      and a text with any other conversion, or with too few or too many values,
      is refused. */
  function Expand(text: string, values: seq<string>): Option<string> {
    if text == "" then if values == [] then Some("") else None
    else if text[0] != '%' then
      var rest := Expand(text[1..], values);
      if rest.Some? then Some([text[0]] + rest.value) else None
    else if |text| < 2 then None
    else if text[1] == '%' then
      var rest := Expand(text[2..], values);
      if rest.Some? then Some("%" + rest.value) else None
    else if text[1] == 's' && values != [] then
      var rest := Expand(text[2..], values[1..]);
      if rest.Some? then Some(values[0] + rest.value) else None
    else None
  }

  lemma {:induction false} ExpandTranslated(at: Lex, sql: string, values: seq<string>)
    ensures Expand(Translated(at, sql), values)
         == if |values| == Placeholders(at, sql) then Some(Fill(at, sql, values)) else None
    decreases sql
  {
    if sql != "" {
      var c, rest := sql[0], Translated(After(at, sql[0]), sql[1..]);
      var text := Coded(at, c) + rest;
      assert text[|Coded(at, c)|..] == rest;
      if Placeholder(at, c) {
        if values != [] {
          ExpandTranslated(After(at, c), sql[1..], values[1..]);
        }
      } else {
        ExpandTranslated(After(at, c), sql[1..], values);
      }
    }
  }

  // ---- the scanner ----

  datatype Comment = NoComment | LineComment | BlockComment

  predicate At(sql: string, i: nat, c: char) {
    i < |sql| && sql[i] == c
  }

  /** What the scanner's two variables stand for. */
  function Meaning(quote: Option<char>, comment: Comment): Lex {
    match comment
    case LineComment => Line
    case BlockComment => Block
    case NoComment => if quote.Some? then Quoted(quote.value) else Code
  }

  lemma OneStep(at: Lex, sql: string, i: nat)
    requires i < |sql|
    ensures Translated(at, sql[i..]) == Coded(at, sql[i]) + Translated(After(at, sql[i]), sql[i + 1..])
  {
    assert sql[i..][1..] == sql[i + 1..];
  }

  /** A slash not followed by a star, a dash not followed by a dash, and a quote
      not followed by itself leave plain code; a block comment's star not
      followed by a slash leaves the comment as it was. */
  lemma Forget(sql: string, i: nat, quote: char)
    requires i <= |sql|
    ensures !At(sql, i, '*') ==> Translated(Slash, sql[i..]) == Translated(Code, sql[i..])
    ensures At(sql, i, '*') ==> Translated(Slash, sql[i..]) == Translated(Block, sql[i..])
    ensures !At(sql, i, '-') ==> Translated(Dash, sql[i..]) == Translated(Code, sql[i..])
    ensures At(sql, i, '-') ==> Translated(Dash, sql[i..]) == Translated(Line, sql[i..])
    ensures !At(sql, i, quote) ==> Translated(Ended(quote), sql[i..]) == Translated(Code, sql[i..])
    ensures !At(sql, i, '/') ==> Translated(BlockStar, sql[i..]) == Translated(Block, sql[i..])
    ensures i == |sql| ==> Translated(Escaped(quote), sql[i..]) == Translated(Quoted(quote), sql[i..])
  {
    if i < |sql| {
      OneStep(Code, sql, i); OneStep(Slash, sql, i); OneStep(Dash, sql, i); OneStep(Ended(quote), sql, i);
      OneStep(Block, sql, i); OneStep(BlockStar, sql, i); OneStep(Line, sql, i);
    }
  }

  /** Percent signs doubled, everything else as it is. */
  function Doubled(text: string): string {
    if text == "" then "" else (if text[0] == '%' then "%%" else [text[0]]) + Doubled(text[1..])
  }

  /** The text written so far and what is still to be translated make the whole. */
  ghost predicate Whole(result: string, at: Lex, sql: string, i: nat) {
    i <= |sql| && result + Translated(at, sql[i..]) == Translated(Code, sql)
  }

  lemma Start(sql: string)
    ensures Whole("", Code, sql, 0)
  {
    assert sql[0..] == sql;
  }

  lemma Finish(result: string, at: Lex, sql: string)
    requires Whole(result, at, sql, |sql|)
    ensures result == Translated(Code, sql)
  {
    assert sql[|sql|..] == "";
  }

  lemma Advance(result: string, at: Lex, sql: string, i: nat)
    requires i < |sql| && Whole(result, at, sql, i)
    ensures Whole(result + Coded(at, sql[i]), After(at, sql[i]), sql, i + 1)
  {
    var c, rest := sql[i], Translated(After(at, sql[i]), sql[i + 1..]);
    OneStep(at, sql, i);
    assert result + (Coded(at, c) + rest) == (result + Coded(at, c)) + rest;
  }

  /** What the lexer remembers of its last character and the scanner does not. */
  function Settled(at: Lex, sql: string, i: nat): Lex {
    match at
    case Slash => if At(sql, i, '*') then Block else Code
    case Dash => if At(sql, i, '-') then Line else Code
    case Ended(q) => if At(sql, i, q) then at else Code
    case BlockStar => if At(sql, i, '/') then at else Block
    case Escaped(q) => if i < |sql| then at else Quoted(q)
    case _ => at
  }

  lemma Settle(result: string, at: Lex, sql: string, i: nat)
    requires Whole(result, at, sql, i)
    ensures Whole(result, Settled(at, sql, i), sql, i)
  {
    Forget(sql, i, if at.Ended? || at.Escaped? then at.quote else '?');
  }

  lemma DoubledPair(c: char, d: char)
    requires c != '%'
    ensures Doubled([c, d]) == [c] + if d == '%' then "%%" else [d]
  {
    assert [c, d][1..] == [d] && [d][1..] == "";
    assert Doubled([d]) == if d == '%' then "%%" else [d];
  }

  method MysqlParameters(sql: string) returns (result: string)
    ensures result == Translated(Code, sql)
  {
    hide Translated, Doubled, Whole;
    result := "";
    var quote: Option<char>, comment, index := None, NoComment, 0;
    Start(sql);
    while index < |sql|
      invariant index <= |sql|
      invariant quote.Some? ==> IsQuote(quote.value) && comment.NoComment?
      invariant Whole(result, Meaning(quote, comment), sql, index)
    {
      var c := sql[index];
      ghost var at := Meaning(quote, comment);
      Advance(result, at, sql, index);
      Settle(result + Coded(at, c), After(at, c), sql, index + 1);
      if comment.LineComment? {
        if c == '\n' {
          comment := NoComment;
        }
      } else if comment.BlockComment? {
        if c == '*' && At(sql, index + 1, '/') {
          Advance(result + "*", BlockStar, sql, index + 1);
          assert result + "*" + "/" == result + "*/";
          result := result + "*/";
          index, comment := index + 2, NoComment;
          continue;
        }
      } else if quote.Some? {
        if c == '\\' && index + 1 < |sql| {
          ghost var d := sql[index + 1];
          Advance(result + [c], Escaped(quote.value), sql, index + 1);
          DoubledPair(c, d);
          assert sql[index..index + 2] == [c, d];
          assert result + [c] + Coded(Escaped(quote.value), d) == result + ([c] + Coded(Escaped(quote.value), d));
          result := result + Doubled(sql[index..index + 2]);
          index := index + 2;
          continue;
        }
        if c == quote.value {
          if At(sql, index + 1, quote.value) {
            Advance(result + [c], Ended(c), sql, index + 1);
            assert result + [c] + [c] == result + [c, c];
            result := result + [c, c];
            index := index + 2;
            continue;
          }
          quote := None;
        }
      } else if c == '/' && At(sql, index + 1, '*') {
        comment := BlockComment;
      } else if (c == '-' && At(sql, index + 1, '-')) || c == '#' {
        comment := LineComment;
      } else if IsQuote(c) {
        quote := Some(c);
      } else if c == '?' {
        result := result + "%s";
        index := index + 1;
        continue;
      }
      result := result + if c == '%' then "%%" else [c];
      index := index + 1;
    }
    Finish(result, Meaning(quote, comment), sql);
  }

  // ---- what the translation promises ----

  /** Expanding the translated text gives the original with exactly its code
      placeholders replaced, in order; any other number of values is refused. */
  lemma TranslationMeansTheSame(sql: string, values: seq<string>)
    ensures Expand(Translated(Code, sql), values)
         == if |values| == Placeholders(Code, sql) then Some(Fill(Code, sql, values)) else None
  {
    ExpandTranslated(Code, sql, values);
  }

  lemma {:induction false} FillWithMarks(at: Lex, sql: string, marks: seq<string>)
    requires |marks| == Placeholders(at, sql) && forall k :: 0 <= k < |marks| ==> marks[k] == "?"
    ensures Fill(at, sql, marks) == sql
    decreases sql
  {
    if sql != "" {
      FillWithMarks(After(at, sql[0]), sql[1..], if Placeholder(at, sql[0]) then marks[1..] else marks);
      assert sql == [sql[0]] + sql[1..];
    }
  }

  /** Filling every placeholder with a question mark undoes the translation, so
      two texts with the same translation are the same text. */
  lemma TranslationIsReversible(sql: string)
    ensures Expand(Translated(Code, sql), seq(Placeholders(Code, sql), _ => "?")) == Some(sql)
  {
    var marks := seq(Placeholders(Code, sql), _ => "?");
    ExpandTranslated(Code, sql, marks);
    FillWithMarks(Code, sql, marks);
  }

  function LexAfter(at: Lex, sql: string): Lex
    decreases sql
  {
    if sql == "" then at else LexAfter(After(at, sql[0]), sql[1..])
  }

  /** The k-th character is replaced exactly when it is a question mark that the
      text before it leaves in code: the count of placeholders is additive. */
  lemma {:induction false} PlaceholdersSplit(at: Lex, before: string, rest: string)
    ensures Placeholders(at, before + rest) == Placeholders(at, before) + Placeholders(LexAfter(at, before), rest)
    ensures Translated(at, before + rest) == Translated(at, before) + Translated(LexAfter(at, before), rest)
    decreases before
  {
    if before == "" {
      assert before + rest == rest;
    } else {
      assert (before + rest)[1..] == before[1..] + rest;
      PlaceholdersSplit(After(at, before[0]), before[1..], rest);
      assert (before + rest)[0] == before[0];
      var c, tail := Coded(at, before[0]), Translated(After(at, before[0]), before[1..]);
      assert c + (tail + Translated(LexAfter(at, before), rest)) == (c + tail) + Translated(LexAfter(at, before), rest);
    }
  }

  /** A comment or a literal shields what it holds: a block comment ends at the
      first star-slash after its opening slash, which `/` + `*` + `/` already is. */
  lemma ShortestComment(rest: string)
    ensures Placeholders(Code, "/*/" + rest) == Placeholders(Code, rest)
  {
    PlaceholdersSplit(Code, "/*/", rest);
    assert LexAfter(Code, "/*/") == Code && Placeholders(Code, "/*/") == 0 by {
      assert "/*/"[1..] == "*/" && "*/"[1..] == "/" && "/"[1..] == "";
    }
  }

  // ---- what is text and what is code ----

  lemma {:induction false} LineHolds(text: string)
    requires '\n' !in text
    ensures LexAfter(Line, text) == Line && Placeholders(Line, text) == 0
    decreases text
  {
    if text != "" {
      assert text[0] in text;
      LineHolds(text[1..]);
    }
  }

  /** A comment from two dashes or a hash to the end of its line holds no placeholder. */
  lemma LineCommentsShield(opening: string, text: string, rest: string)
    requires (opening == "--" || opening == "#") && '\n' !in text
    ensures Placeholders(Code, opening + text + "\n" + rest) == Placeholders(Code, rest)
  {
    LineHolds(text);
    assert "--"[1..] == "-" && "-"[1..] == "" && "#"[1..] == "" && "\n"[1..] == "";
    assert LexAfter(Code, opening) == Line && Placeholders(Code, opening) == 0;
    FourPieces(opening, text, "\n", rest);
  }

  lemma {:induction false} LexSplits(at: Lex, before: string, rest: string)
    ensures LexAfter(at, before + rest) == LexAfter(LexAfter(at, before), rest)
    decreases before
  {
    if before == "" {
      assert before + rest == rest;
    } else {
      assert (before + rest)[1..] == before[1..] + rest;
      LexSplits(After(at, before[0]), before[1..], rest);
    }
  }

  /** Four pieces of text, each read where the one before leaves off. */
  lemma FourPieces(a: string, b: string, c: string, d: string)
    ensures var x := LexAfter(Code, a);
      var y := LexAfter(x, b);
      var z := LexAfter(y, c);
      Placeholders(Code, a + b + c + d)
        == Placeholders(Code, a) + Placeholders(x, b) + Placeholders(y, c) + Placeholders(z, d)
  {
    hide LexAfter, Placeholders;
    PlaceholdersSplit(Code, a, b);
    LexSplits(Code, a, b);
    PlaceholdersSplit(Code, a + b, c);
    LexSplits(Code, a + b, c);
    PlaceholdersSplit(Code, a + b + c, d);
  }

  predicate NoEnd(text: string) {
    forall i :: 0 <= i < |text| - 1 ==> !(text[i] == '*' && text[i + 1] == '/')
  }

  lemma {:induction false} BlockHolds(at: Lex, text: string)
    requires (at == Block || at == BlockStar) && NoEnd(text) && (at == BlockStar && text != "" ==> text[0] != '/')
    ensures LexAfter(at, text) == Block || LexAfter(at, text) == BlockStar
    ensures Placeholders(at, text) == 0
    decreases text
  {
    if text != "" {
      assert forall i :: 0 <= i < |text| - 1 ==> text[1..][i] == text[i + 1];
      BlockHolds(After(at, text[0]), text[1..]);
    }
  }

  /** A block comment up to its first end holds no placeholder. */
  lemma BlockCommentsShield(text: string, rest: string)
    requires NoEnd(text) && (text != "" ==> text[0] != '/')
    ensures Placeholders(Code, "/*" + text + "*/" + rest) == Placeholders(Code, rest)
  {
    BlockHolds(BlockStar, text);
    assert "/*"[1..] == "*" && "*"[1..] == "" && "*/"[1..] == "/" && "/"[1..] == "";
    assert LexAfter(Code, "/*") == BlockStar && Placeholders(Code, "/*") == 0;
    FourPieces("/*", text, "*/", rest);
    assert LexAfter(LexAfter(BlockStar, text), "*/") == Code && Placeholders(LexAfter(BlockStar, text), "*/") == 0;
  }

  /** The text of a literal: an escape takes the next character with it, and a quote is doubled. */
  predicate LiteralText(quote: char, text: string)
    decreases text
  {
    if text == "" then true
    else if text[0] == '\\' then |text| >= 2 && LiteralText(quote, text[2..])
    else if text[0] == quote then |text| >= 2 && text[1] == quote && LiteralText(quote, text[2..])
    else LiteralText(quote, text[1..])
  }

  lemma {:induction false} LiteralHolds(quote: char, text: string)
    requires LiteralText(quote, text) && IsQuote(quote)
    ensures LexAfter(Quoted(quote), text) == Quoted(quote) && Placeholders(Quoted(quote), text) == 0
    decreases text
  {
    if text != "" {
      if text[0] == '\\' || text[0] == quote {
        assert text[1..][1..] == text[2..];
        LiteralHolds(quote, text[2..]);
      } else {
        LiteralHolds(quote, text[1..]);
      }
    }
  }

  lemma OneChar(at: Lex, c: char)
    ensures LexAfter(at, [c]) == After(at, c) && Placeholders(at, [c]) == if Placeholder(at, c) then 1 else 0
  {
    assert [c][1..] == "";
  }

  /** A literal in single, double or backward quotes holds no placeholder. */
  lemma LiteralsShield(quote: char, text: string, rest: string)
    requires quote == '\'' || quote == '"' || quote == '`'
    requires LiteralText(quote, text) && (rest != "" ==> rest[0] != quote)
    ensures Placeholders(Code, [quote] + text + [quote] + rest) == Placeholders(Code, rest)
  {
    LiteralHolds(quote, text);
    OneChar(Code, quote);
    OneChar(Quoted(quote), quote);
    AfterLiteral(quote, rest);
    hide LexAfter, Placeholders, LiteralText;
    FourPieces([quote], text, [quote], rest);
  }

  lemma AfterLiteral(quote: char, rest: string)
    requires rest != "" ==> rest[0] != quote
    ensures Placeholders(Ended(quote), rest) == Placeholders(Code, rest)
  {
  }

  /** The question marks of a text. */
  function Marks(text: string): set<int> {
    set i | 0 <= i < |text| && text[i] == '?'
  }

  lemma OneMoreMark(text: string, c: char)
    ensures |Marks(text + [c])| == |Marks(text)| + if c == '?' then 1 else 0
  {
    var all := Marks(text + [c]);
    assert all - {|text|} == Marks(text);
    assert |text| in all <==> c == '?';
  }

  lemma PlainCharIsCode(c: char)
    requires c !in "'\"`#-/"
    ensures After(Code, c) == Code
  {
    assert c != '\'' && c != '"' && c != '`' && c != '#' && c != '-' && c != '/';
  }

  /** Where no comment and no literal can begin, every question mark is a placeholder. */
  lemma {:induction false} PlainTextIsCode(text: string)
    requires forall c :: c in text ==> c !in "'\"`#-/"
    ensures Placeholders(Code, text) == |Marks(text)|
    ensures LexAfter(Code, text) == Code
    decreases |text|
  {
    if text == "" {
      assert Marks(text) == {};
    } else {
      var before, c := text[..|text| - 1], text[|text| - 1];
      assert before + [c] == text && c in text;
      PlainCharIsCode(c);
      hide Marks, After;
      PlainTextIsCode(before);
      OneChar(Code, c);
      PlaceholdersSplit(Code, before, [c]);
      LexSplits(Code, before, [c]);
      OneMoreMark(before, c);
    }
  }
}
