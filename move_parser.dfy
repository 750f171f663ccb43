/** The move-notation parser: a string of whitespace-separated tokens such as
    "R U' F2" becomes a sequence of move descriptors. The string operations
    it relies on (trimming, upper-casing, splitting on runs of whitespace) are
    modelled as functions with the meaning they have in JavaScript. */
module MoveParser {
  import opened Wrappers
  import opened Constants

  /** A move descriptor: the face token, +1 for the canonical turn or -1 for
      its inverse, and whether the turn is a half turn. */
  datatype Move = Move(face: char, direction: int, double: bool)

  /** The characters JavaScript's `trim` removes and `\s` matches: the
      WhiteSpace and LineTerminator code points. */
  predicate IsWhitespace(c: char) {
    var u := c as int;
    || 0x09 <= u <= 0x0D          // tab, line feed, vertical tab, form feed, carriage return
    || u == 0x20 || u == 0xA0 || u == 0x1680
    || 0x2000 <= u <= 0x200A      // the en/em/thin... spaces
    || u == 0x2028 || u == 0x2029 // line and paragraph separators
    || u == 0x202F || u == 0x205F || u == 0x3000
    || u == 0xFEFF                // byte order mark
  }

  predicate NoWhitespace(s: string) {
    forall k :: 0 <= k < |s| ==> !IsWhitespace(s[k])
  }

  /** Upper-casing of one character, for the ASCII letters. */
  function ToUpper(c: char): char {
    if IsLowerAscii(c) then (c as int - 32) as char else c
  }

  function UpperCase(s: string): (r: string)
    ensures |r| == |s|
    ensures forall k :: 0 <= k < |s| ==> r[k] == ToUpper(s[k])
  {
    seq(|s|, k requires 0 <= k < |s| => ToUpper(s[k]))
  }

  function TrimStart(s: string): string {
    if s != [] && IsWhitespace(s[0]) then TrimStart(s[1..]) else s
  }

  function TrimEnd(s: string): string {
    if s != [] && IsWhitespace(s[|s| - 1]) then TrimEnd(s[..|s| - 1]) else s
  }

  /** JavaScript's `String.prototype.trim`. */
  function Trim(s: string): string {
    TrimEnd(TrimStart(s))
  }

  /** Length of the leading run of non-whitespace characters. */
  function WordLength(s: string): (n: nat)
    ensures n <= |s|
    ensures forall k :: 0 <= k < n ==> !IsWhitespace(s[k])
    ensures n < |s| ==> IsWhitespace(s[n])
  {
    if s == [] || IsWhitespace(s[0]) then 0 else 1 + WordLength(s[1..])
  }

  /** Length of the leading run of whitespace characters. */
  function GapLength(s: string): (n: nat)
    ensures n <= |s|
    ensures forall k :: 0 <= k < n ==> IsWhitespace(s[k])
    ensures n < |s| ==> !IsWhitespace(s[n])
  {
    if s == [] || !IsWhitespace(s[0]) then 0 else 1 + GapLength(s[1..])
  }

  /** JavaScript's `s.split(/\s+/)`: the pieces between maximal runs of
      whitespace, with an empty piece before a leading run and after a
      trailing one; the empty string splits into one empty piece. */
  function Split(s: string): seq<string>
    decreases |s|
  {
    var n := WordLength(s);
    if n == |s| then [s]
    else
      var rest := s[n..];
      [s[..n]] + Split(rest[GapLength(rest)..])
  }

  /** The token list the parser walks: trimmed, upper-cased, split. */
  function Tokenize(input: string): seq<string> {
    Split(UpperCase(Trim(input)))
  }

  /** What one token contributes: nothing for the empty token or an unknown
      face; otherwise its first character is the face and the rest are
      modifiers, where a `'` anywhere makes the turn inverse and a `2`
      anywhere makes it a half turn. */
  function Accept(token: string): Option<Move> {
    if token == [] then None
    else if token[0] !in MoveDefinitions then None
    else
      var modifier := token[1..];
      Some(Move(token[0], if '\'' in modifier then -1 else 1, '2' in modifier))
  }

  function AcceptedMoves(token: string): seq<Move> {
    match Accept(token)
    case None => []
    case Some(m) => [m]
  }

  /** The descriptors of a token list, in token order. */
  function ParseTokens(tokens: seq<string>): seq<Move> {
    if tokens == [] then []
    else ParseTokens(tokens[..|tokens| - 1]) + AcceptedMoves(tokens[|tokens| - 1])
  }

  /** The specification of `ParseMoveString`. */
  function Parse(input: string): seq<Move> {
    ParseTokens(Tokenize(input))
  }

  /** Parses `input` token by token, pushing one descriptor per accepted token. */
  method ParseMoveString(input: string) returns (moves: seq<Move>)
    ensures moves == Parse(input)
  {
    moves := [];
    var tokens := Split(UpperCase(Trim(input)));
    var validFaces := MoveDefinitions.Keys;
    for i := 0 to |tokens|
      invariant moves == ParseTokens(tokens[..i])
    {
      var token := tokens[i];
      assert tokens[..i + 1][..i] == tokens[..i];
      if token == [] {
        continue;
      }
      var face := token[0];
      var modifier := token[1..];
      if face !in validFaces {
        continue;
      }
      var direction := 1;
      var double := false;
      if '\'' in modifier {
        direction := -1;
      }
      if '2' in modifier {
        double := true;
      }
      moves := moves + [Move(face, direction, double)];
    }
    assert tokens[..|tokens|] == tokens;
  }

  // ---------------------------------------------------------------------
  // Trimming, upper-casing and splitting

  lemma {:induction false} TrimStartShape(s: string)
    ensures |TrimStart(s)| <= |s| && TrimStart(s) == s[|s| - |TrimStart(s)|..]
    ensures TrimStart(s) != [] ==> !IsWhitespace(TrimStart(s)[0])
    ensures forall k :: 0 <= k < |s| - |TrimStart(s)| ==> IsWhitespace(s[k])
  {
    if s != [] && IsWhitespace(s[0]) {
      var tail := s[1..];
      TrimStartShape(tail);
      assert TrimStart(s) == TrimStart(tail);
      assert tail[|tail| - |TrimStart(tail)|..] == s[|s| - |TrimStart(tail)|..];
      forall k | 1 <= k < |s| - |TrimStart(s)|
        ensures IsWhitespace(s[k])
      {
        assert s[k] == tail[k - 1];
      }
    }
  }

  lemma {:induction false} TrimEndShape(s: string)
    ensures |TrimEnd(s)| <= |s| && TrimEnd(s) == s[..|TrimEnd(s)|]
    ensures TrimEnd(s) != [] ==> !IsWhitespace(TrimEnd(s)[|TrimEnd(s)| - 1])
    ensures forall k :: |TrimEnd(s)| <= k < |s| ==> IsWhitespace(s[k])
  {
    if s != [] && IsWhitespace(s[|s| - 1]) {
      TrimEndShape(s[..|s| - 1]);
    }
  }

  /** A trimmed string is empty or starts and ends with a non-whitespace character. */
  lemma TrimShape(s: string)
    ensures Trim(s) != [] ==> !IsWhitespace(Trim(s)[0]) && !IsWhitespace(Trim(s)[|Trim(s)| - 1])
    ensures (forall k :: 0 <= k < |s| ==> IsWhitespace(s[k])) ==> Trim(s) == []
    ensures NoWhitespace(s) ==> Trim(s) == s
  {
    var t := TrimStart(s);
    TrimStartShape(s);
    TrimEndShape(t);
    if NoWhitespace(s) {
      if s != [] {
        assert !IsWhitespace(s[0]);
      }
      assert t == s;
      if s != [] {
        assert !IsWhitespace(s[|s| - 1]);
      }
    }
  }

  lemma UpperCasePreservesWhitespace(c: char)
    ensures IsWhitespace(ToUpper(c)) == IsWhitespace(c)
    ensures !IsLowerAscii(ToUpper(c))
    ensures ToUpper(ToUpper(c)) == ToUpper(c)
  {
  }

  lemma {:induction false} TrimStartUpperCase(s: string)
    ensures TrimStart(UpperCase(s)) == UpperCase(TrimStart(s))
  {
    if s != [] {
      UpperCasePreservesWhitespace(s[0]);
      assert UpperCase(s)[1..] == UpperCase(s[1..]);
      if IsWhitespace(s[0]) {
        TrimStartUpperCase(s[1..]);
      }
    }
  }

  lemma {:induction false} TrimEndUpperCase(s: string)
    ensures TrimEnd(UpperCase(s)) == UpperCase(TrimEnd(s))
  {
    if s != [] {
      UpperCasePreservesWhitespace(s[|s| - 1]);
      assert UpperCase(s)[..|s| - 1] == UpperCase(s[..|s| - 1]);
      if IsWhitespace(s[|s| - 1]) {
        TrimEndUpperCase(s[..|s| - 1]);
      }
    }
  }

  /** Trimming and upper-casing commute, and upper-casing is idempotent. */
  lemma TrimUpperCase(s: string)
    ensures Trim(UpperCase(s)) == UpperCase(Trim(s))
    ensures UpperCase(UpperCase(s)) == UpperCase(s)
  {
    TrimStartUpperCase(s);
    TrimEndUpperCase(TrimStart(s));
    forall k | 0 <= k < |s|
      ensures UpperCase(UpperCase(s))[k] == UpperCase(s)[k]
    {
      UpperCasePreservesWhitespace(s[k]);
    }
  }

  lemma SplitWord(s: string)
    requires NoWhitespace(s)
    ensures Split(s) == [s]
  {
  }

  /** Every piece of a split is free of whitespace and made of characters of
      the split string. */
  lemma {:induction false} SplitPieces(s: string)
    ensures forall t :: t in Split(s) ==> NoWhitespace(t) && forall c :: c in t ==> c in s
    decreases |s|
  {
    var n := WordLength(s);
    if n < |s| {
      var rest := s[n..];
      var next := rest[GapLength(rest)..];
      SplitPieces(next);
      forall t | t in Split(s)
        ensures NoWhitespace(t) && forall c :: c in t ==> c in s
      {
        if t != s[..n] {
          assert t in Split(next);
          forall c | c in t
            ensures c in s
          {
            assert c in next;
            var k :| 0 <= k < |next| && next[k] == c;
            assert s[n + GapLength(rest) + k] == c;
          }
        }
      }
    }
  }

  /** A string that starts and ends with non-whitespace splits into non-empty pieces. */
  lemma {:induction false} SplitTrimmed(s: string)
    requires s != [] && !IsWhitespace(s[0]) && !IsWhitespace(s[|s| - 1])
    ensures forall t :: t in Split(s) ==> t != []
    decreases |s|
  {
    var n := WordLength(s);
    if n < |s| {
      var rest := s[n..];
      var next := rest[GapLength(rest)..];
      assert next != [] && next[|next| - 1] == s[|s| - 1];
      SplitTrimmed(next);
    }
  }

  /** The token list holds the single empty token exactly when the input is
      blank; otherwise no token is empty. */
  lemma TokenizeShape(input: string)
    ensures Trim(input) == [] ==> Tokenize(input) == [[]]
    ensures Trim(input) != [] ==> forall t :: t in Tokenize(input) ==> t != []
    ensures forall t :: t in Tokenize(input) ==> NoWhitespace(t) && forall c :: c in t ==> !IsLowerAscii(c)
  {
    var u := UpperCase(Trim(input));
    TrimShape(input);
    if Trim(input) != [] {
      UpperCasePreservesWhitespace(Trim(input)[0]);
      UpperCasePreservesWhitespace(Trim(input)[|Trim(input)| - 1]);
      SplitTrimmed(u);
    }
    SplitPieces(u);
    forall t, c | t in Tokenize(input) && c in t
      ensures !IsLowerAscii(c)
    {
      var k :| 0 <= k < |u| && u[k] == c;
      UpperCasePreservesWhitespace(Trim(input)[k]);
    }
  }

  // ---------------------------------------------------------------------
  // The token walk

  /** Parsing a concatenation of token lists parses each in turn: output
      order follows token order. */
  lemma {:induction false} ParseTokensAppend(a: seq<string>, b: seq<string>)
    ensures ParseTokens(a + b) == ParseTokens(a) + ParseTokens(b)
    decreases |b|
  {
    if b == [] {
      assert a + b == a;
    } else {
      var front := b[..|b| - 1];
      assert (a + b)[..|a + b| - 1] == a + front;
      ParseTokensAppend(a, front);
    }
  }

  /** At most one descriptor per token, and exactly one per token when every
      token is accepted. */
  lemma {:induction false} ParseTokensLength(tokens: seq<string>)
    ensures |ParseTokens(tokens)| <= |tokens|
    ensures |ParseTokens(tokens)| == |tokens| <==> forall t :: t in tokens ==> Accept(t).Some?
  {
    if tokens != [] {
      var front := tokens[..|tokens| - 1];
      ParseTokensLength(front);
      assert forall t :: t in tokens <==> t in front || t == tokens[|tokens| - 1];
    }
  }

  /** When every token is accepted, descriptor i is the one of token i. */
  lemma {:induction false} ParseTokensPointwise(tokens: seq<string>)
    requires forall t :: t in tokens ==> Accept(t).Some?
    ensures |ParseTokens(tokens)| == |tokens|
    ensures forall i :: 0 <= i < |tokens| ==> ParseTokens(tokens)[i] == Accept(tokens[i]).value
  {
    ParseTokensLength(tokens);
    if tokens != [] {
      var front := tokens[..|tokens| - 1];
      assert forall t :: t in front ==> t in tokens;
      ParseTokensPointwise(front);
    }
  }

  /** Every descriptor is produced by some token. */
  lemma {:induction false} ParseTokensOrigin(tokens: seq<string>)
    ensures forall m :: m in ParseTokens(tokens) ==> exists t :: t in tokens && Accept(t) == Some(m)
  {
    if tokens != [] {
      var front := tokens[..|tokens| - 1];
      ParseTokensOrigin(front);
      forall m | m in ParseTokens(tokens)
        ensures exists t :: t in tokens && Accept(t) == Some(m)
      {
        if m in ParseTokens(front) {
          var t :| t in front && Accept(t) == Some(m);
          assert t in tokens;
        } else {
          assert Accept(tokens[|tokens| - 1]) == Some(m);
        }
      }
    }
  }

  // ---------------------------------------------------------------------
  // Properties of Parse

  /** Blank input yields no descriptor; its token list is the single empty
      token, which is skipped. */
  lemma ParseBlank(input: string)
    requires forall k :: 0 <= k < |input| ==> IsWhitespace(input[k])
    ensures Tokenize(input) == [[]]
    ensures Parse(input) == []
  {
    TrimShape(input);
    TokenizeShape(input);
    assert ParseTokens([[]]) == ParseTokens([]) + AcceptedMoves([]);
  }

  /** Every descriptor names an upper-case table key, so the lower-case
      entries of the table are never produced, and its direction is +1 or -1. */
  lemma ParseFaces(input: string)
    ensures forall m :: m in Parse(input) ==>
      m.face in MoveDefinitions && m.face in UpperKeys && m.direction in {-1, 1}
  {
    var tokens := Tokenize(input);
    ParseTokensOrigin(tokens);
    TokenizeShape(input);
    UpperKeysAreNonLowerKeys();
    forall m | m in Parse(input)
      ensures m.face in MoveDefinitions && m.face in UpperKeys && m.direction in {-1, 1}
    {
      var t :| t in tokens && Accept(t) == Some(m);
      assert t[0] in t;
    }
  }

  /** Unknown faces are dropped, so there are never more descriptors than tokens. */
  lemma ParseLength(input: string)
    ensures |Parse(input)| <= |Tokenize(input)|
    ensures |Parse(input)| == |Tokenize(input)| <==> forall t :: t in Tokenize(input) ==> Accept(t).Some?
  {
    ParseTokensLength(Tokenize(input));
  }

  /** One token `f` followed by modifiers: a known face (in either case) gives
      exactly one descriptor whose direction is -1 iff a `'` occurs among the
      modifiers and which is a half turn iff a `2` occurs among them, in any
      order; an unknown face gives none. */
  lemma ParseSingleToken(f: char, modifier: string)
    requires !IsWhitespace(f) && NoWhitespace(modifier)
    ensures ToUpper(f) in MoveDefinitions ==>
      Parse([f] + modifier) == [Move(ToUpper(f), if '\'' in modifier then -1 else 1, '2' in modifier)]
    ensures ToUpper(f) !in MoveDefinitions ==> Parse([f] + modifier) == []
  {
    var s := [f] + modifier;
    assert NoWhitespace(s);
    TrimShape(s);
    var u := UpperCase(s);
    forall k | 0 <= k < |u|
      ensures !IsWhitespace(u[k])
    {
      UpperCasePreservesWhitespace(s[k]);
    }
    SplitWord(u);
    assert u[1..] == UpperCase(modifier);
    assert ('\'' in u[1..]) == ('\'' in modifier);
    assert ('2' in u[1..]) == ('2' in modifier);
    assert ParseTokens([u]) == ParseTokens([]) + AcceptedMoves(u);
  }

  /** Parsing ignores letter case: a string and its upper-cased form parse alike. */
  lemma ParseCaseInsensitive(input: string)
    ensures Parse(UpperCase(input)) == Parse(input)
  {
    TrimUpperCase(input);
    TrimUpperCase(Trim(input));
  }

  /** A modifier character other than `'` and `2` has no effect: deleting it
      leaves the token's descriptor unchanged. */
  lemma IgnoredModifier(token: string, k: nat)
    requires 1 <= k < |token| && token[k] != '\'' && token[k] != '2'
    ensures Accept(token[..k] + token[k + 1..]) == Accept(token)
  {
    var shorter := token[..k] + token[k + 1..];
    assert shorter[0] == token[0];
    assert shorter[1..] == token[1..k] + token[k + 1..];
    assert token[1..] == token[1..k] + [token[k]] + token[k + 1..];
  }
}
