/** The e-mail search filter: escaping the search text and matching it with ILIKE ... ESCAPE '\'. */
module LikeSearch {
  import opened Wrappers

  datatype SearchMode = Prefix | Contains

  /** `str.replace` with a one-character needle. */
  function Replace(text: string, needle: char, with: string): string {
    if text == [] then []
    else (if text[0] == needle then with else [text[0]]) + Replace(text[1..], needle, with)
  }

  function EscapeLikePattern(value: string): string {
    Replace(Replace(Replace(value, '\\', "\\\\"), '%', "\\%"), '_', "\\_")
  }

  predicate IsSpecial(c: char) {
    c == '\\' || c == '%' || c == '_'
  }

  /** The same, one character at a time. */
  function Escaped(text: string): string {
    if text == [] then []
    else (if IsSpecial(text[0]) then ['\\', text[0]] else [text[0]]) + Escaped(text[1..])
  }

  function SearchPattern(search: string, mode: SearchMode): string {
    match mode
    case Contains => "%" + EscapeLikePattern(search) + "%"
    case Prefix => EscapeLikePattern(search) + "%"
  }

  // ---- LIKE with escape character `\` (section 8.5 of ISO/IEC 9075-2) ----

  datatype Token = Literal(c: char) | AnyOne | AnyMany

  /** A pattern may not end in a lone escape character. */
  function Tokens(pattern: string): Option<seq<Token>> {
    if pattern == [] then Some([])
    else if pattern[0] == '\\' then
      if |pattern| == 1 then None
      else
        var rest := Tokens(pattern[2..]);
        if rest.None? then None else Some([Literal(pattern[1])] + rest.value)
    else
      var rest := Tokens(pattern[1..]);
      if rest.None? then None else Some([Unescaped(pattern[0])] + rest.value)
  }

  function Unescaped(c: char): Token {
    if c == '%' then AnyMany else if c == '_' then AnyOne else Literal(c)
  }

  predicate Matches(tokens: seq<Token>, text: string)
    decreases |tokens|
  {
    if tokens == [] then
      text == []
    else
      match tokens[0]
      case Literal(c) => text != [] && text[0] == c && Matches(tokens[1..], text[1..])
      case AnyOne => text != [] && Matches(tokens[1..], text[1..])
      case AnyMany => exists k :: 0 <= k <= |text| && Matches(tokens[1..], text[k..])
  }

  predicate Like(pattern: string, text: string) {
    var tokens := Tokens(pattern);
    tokens.Some? && Matches(tokens.value, text)
  }

  function Fold(fold: char -> char, text: string): (r: string)
    ensures |r| == |text|
    ensures forall i :: 0 <= i < |text| ==> r[i] == fold(text[i])
  {
    if text == [] then [] else [fold(text[0])] + Fold(fold, text[1..])
  }

  /** ILIKE folds the case of pattern and text. */
  predicate ILike(fold: char -> char, pattern: string, text: string) {
    Like(Fold(fold, pattern), Fold(fold, text))
  }

  /** Case folding leaves the pattern characters alone and maps nothing else to them. */
  ghost predicate KeepsSpecials(fold: char -> char) {
    forall c :: IsSpecial(c) || IsSpecial(fold(c)) ==> fold(c) == c
  }

  // ---- the three replacements are one character-wise escape ----

  lemma {:induction false} ReplaceConcat(a: string, b: string, needle: char, with: string)
    ensures Replace(a + b, needle, with) == Replace(a, needle, with) + Replace(b, needle, with)
  {
    if a == [] {
      assert a + b == b;
    } else {
      assert (a + b)[1..] == a[1..] + b;
      ReplaceConcat(a[1..], b, needle, with);
    }
  }

  lemma ReplaceShort(a: char, b: char, needle: char, with: string)
    ensures Replace([a], needle, with) == if a == needle then with else [a]
    ensures Replace([a, b], needle, with) == (if a == needle then with else [a]) + (if b == needle then with else [b])
  {
    assert [a][1..] == [] && [a, b][1..] == [b] && [b][1..] == [];
  }

  lemma EscapeOneCharacter(c: char)
    ensures EscapeLikePattern([c]) == if IsSpecial(c) then ['\\', c] else [c]
  {
    ReplaceShort(c, c, '\\', "\\\\");
    var once := Replace([c], '\\', "\\\\");
    assert once == if c == '\\' then ['\\', '\\'] else [c];
    ReplaceShort('\\', '\\', '%', "\\%");
    ReplaceShort(c, c, '%', "\\%");
    var twice := Replace(once, '%', "\\%");
    assert twice == if c == '\\' then ['\\', '\\'] else if c == '%' then ['\\', '%'] else [c];
    ReplaceShort('\\', '\\', '_', "\\_");
    ReplaceShort('\\', '%', '_', "\\_");
    ReplaceShort(c, c, '_', "\\_");
  }

  lemma {:induction false} EscapeIsCharacterwise(value: string)
    ensures EscapeLikePattern(value) == Escaped(value)
  {
    if value != [] {
      var first, rest := [value[0]], value[1..];
      assert value == first + rest;
      var once := Replace(first, '\\', "\\\\");
      var onceRest := Replace(rest, '\\', "\\\\");
      ReplaceConcat(first, rest, '\\', "\\\\");
      ReplaceConcat(once, onceRest, '%', "\\%");
      ReplaceConcat(Replace(once, '%', "\\%"), Replace(onceRest, '%', "\\%"), '_', "\\_");
      EscapeOneCharacter(value[0]);
      EscapeIsCharacterwise(rest);
    }
  }

  // ---- what an escaped text matches ----

  function Literals(text: string): seq<Token> {
    if text == [] then [] else [Literal(text[0])] + Literals(text[1..])
  }

  lemma TokensOfPlain(c: char, rest: string)
    requires c != '\\' && Tokens(rest).Some?
    ensures Tokens([c] + rest) == Some([Unescaped(c)] + Tokens(rest).value)
  {
    assert ([c] + rest)[1..] == rest;
  }

  lemma TokensOfPair(c: char, rest: string)
    requires Tokens(rest).Some?
    ensures Tokens(['\\', c] + rest) == Some([Literal(c)] + Tokens(rest).value)
  {
    assert (['\\', c] + rest)[2..] == rest;
  }

  /** Escaped text followed by anything reads as that text, literally, followed by the rest. */
  lemma {:induction false} TokensOfEscaped(text: string, rest: string)
    requires Tokens(rest).Some?
    ensures Tokens(Escaped(text) + rest) == Some(Literals(text) + Tokens(rest).value)
  {
    hide Tokens;
    if text == [] {
      assert Escaped(text) + rest == rest;
      assert Literals(text) + Tokens(rest).value == Tokens(rest).value;
    } else {
      TokensOfEscaped(text[1..], rest);
      var tail := Escaped(text[1..]) + rest;
      if IsSpecial(text[0]) {
        TokensOfPair(text[0], tail);
        assert Escaped(text) + rest == ['\\', text[0]] + tail;
      } else {
        TokensOfPlain(text[0], tail);
        assert Escaped(text) + rest == [text[0]] + tail;
      }
      assert [Literal(text[0])] + (Literals(text[1..]) + Tokens(rest).value) == Literals(text) + Tokens(rest).value;
    }
  }

  lemma {:induction false} LiteralsThenAnything(search: string, text: string)
    ensures Matches(Literals(search) + [AnyMany], text) <==> search <= text
  {
    var tokens := Literals(search) + [AnyMany];
    if search == [] {
      assert tokens == [AnyMany] && tokens[1..] == [];
      assert Matches(tokens[1..], text[|text|..]);
    } else {
      assert tokens[0] == Literal(search[0]);
      assert tokens[1..] == Literals(search[1..]) + [AnyMany];
      if text != [] {
        LiteralsThenAnything(search[1..], text[1..]);
        assert search <= text <==> search[0] == text[0] && search[1..] <= text[1..] by {
          assert search == [search[0]] + search[1..] && text == [text[0]] + text[1..];
        }
      }
    }
  }

  lemma {:induction false} FoldOfEscaped(fold: char -> char, text: string)
    requires KeepsSpecials(fold)
    ensures Fold(fold, Escaped(text)) == Escaped(Fold(fold, text))
  {
    if text != [] {
      FoldOfEscaped(fold, text[1..]);
      var c := text[0];
      assert IsSpecial(fold(c)) == IsSpecial(c);
      assert IsSpecial('\\');
      if IsSpecial(c) {
        FoldConcat(fold, ['\\', c], Escaped(text[1..]));
        assert Fold(fold, ['\\', c]) == ['\\', c];
      } else {
        FoldConcat(fold, [c], Escaped(text[1..]));
        assert Fold(fold, [c]) == [fold(c)];
      }
    }
  }

  lemma FoldConcat(fold: char -> char, a: string, b: string)
    ensures Fold(fold, a + b) == Fold(fold, a) + Fold(fold, b)
  {
  }

  lemma TokensOfPercent()
    ensures Tokens("%") == Some([AnyMany])
  {
    assert Tokens("") == Some([]);
    TokensOfPlain('%', "");
    assert ['%'] + "" == "%";
    assert [AnyMany] + [] == [AnyMany];
  }

  /** Prefix mode finds exactly the texts that start with the search text, case aside. */
  lemma PrefixSearch(fold: char -> char, search: string, text: string)
    requires KeepsSpecials(fold)
    ensures ILike(fold, SearchPattern(search, Prefix), text) <==> Fold(fold, search) <= Fold(fold, text)
  {
    EscapeIsCharacterwise(search);
    FoldConcat(fold, Escaped(search), "%");
    assert IsSpecial('%');
    assert Fold(fold, "%") == "%";
    FoldOfEscaped(fold, search);
    TokensOfPercent();
    TokensOfEscaped(Fold(fold, search), "%");
    LiteralsThenAnything(Fold(fold, search), Fold(fold, text));
  }

  predicate OccursIn(needle: string, hay: string) {
    exists k :: 0 <= k <= |hay| && needle <= hay[k..]
  }

  lemma SomewhereIn(needle: string, hay: string)
    ensures Matches([AnyMany] + (Literals(needle) + [AnyMany]), hay) <==> OccursIn(needle, hay)
  {
    hide Matches, Literals;
    var tail := Literals(needle) + [AnyMany];
    AnythingThen(tail, hay);
    forall k | 0 <= k <= |hay|
      ensures Matches(tail, hay[k..]) <==> needle <= hay[k..]
    {
      LiteralsThenAnything(needle, hay[k..]);
    }
  }

  /** Contains mode finds exactly the texts in which the search text occurs somewhere, case aside. */
  lemma ContainsSearch(fold: char -> char, search: string, text: string)
    requires KeepsSpecials(fold)
    ensures ILike(fold, SearchPattern(search, Contains), text) <==> OccursIn(Fold(fold, search), Fold(fold, text))
  {
    hide Matches, Tokens, EscapeLikePattern, Fold, SearchPattern, Literals, KeepsSpecials, OccursIn;
    TokensOfContainsPattern(fold, search);
    SomewhereIn(Fold(fold, search), Fold(fold, text));
  }

  lemma TokensOfContainsPattern(fold: char -> char, search: string)
    requires KeepsSpecials(fold)
    ensures Tokens(Fold(fold, SearchPattern(search, Contains)))
         == Some([AnyMany] + (Literals(Fold(fold, search)) + [AnyMany]))
  {
    hide Tokens, EscapeLikePattern, Fold, SearchPattern, Literals;
    var needle := Fold(fold, search);
    FoldOfContainsPattern(fold, search);
    TokensOfPercent();
    TokensOfEscaped(needle, "%");
    TokensOfPlain('%', Escaped(needle) + "%");
    assert ['%'] + (Escaped(needle) + "%") == "%" + Escaped(needle) + "%";
  }

  lemma AnythingThen(tail: seq<Token>, text: string)
    ensures Matches([AnyMany] + tail, text) <==> exists k :: 0 <= k <= |text| && Matches(tail, text[k..])
  {
    assert ([AnyMany] + tail)[1..] == tail;
  }

  lemma FoldOfContainsPattern(fold: char -> char, search: string)
    requires KeepsSpecials(fold)
    ensures Fold(fold, SearchPattern(search, Contains)) == "%" + Escaped(Fold(fold, search)) + "%"
  {
    hide EscapeLikePattern;
    EscapeIsCharacterwise(search);
    assert IsSpecial('%');
    assert Fold(fold, "%") == "%";
    FoldConcat(fold, "%" + Escaped(search), "%");
    FoldConcat(fold, "%", Escaped(search));
    FoldOfEscaped(fold, search);
  }
}
