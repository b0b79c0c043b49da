/** The weight files of labs/self_improvement/training.py: a printer that puts flat arrays on one
    line, read back as JSON text (sections 2, 4, 5 and 7 of RFC 8259). */
module WeightPrinter {
  import opened Basics

  /** Scalars and member names are kept as the lexemes that encode them. */
  datatype Json = Object(members: seq<Member>) | Array(items: seq<Json>) | Scalar(lexeme: string)

  datatype Member = Member(name: string, value: Json)

  datatype Token = Mark(c: char) | Lexeme(text: string)

  // ---- Reading text ----

  predicate IsSpace(c: char) {
    c == ' ' || c == '\n' || c == '\t' || c == '\r'
  }

  predicate IsMark(c: char) {
    c == '{' || c == '}' || c == '[' || c == ']' || c == ':' || c == ','
  }

  predicate InWord(c: char) {
    !IsSpace(c) && !IsMark(c) && c != '"'
  }

  function WordEnd(s: string, i: nat): (n: nat)
    requires i <= |s|
    ensures i <= n <= |s|
    decreases |s| - i
  {
    if i < |s| && InWord(s[i]) then WordEnd(s, i + 1) else i
  }

  /** Where a string that is open at i ends: after the first quote that is not escaped. */
  function StringEnd(s: string, i: nat): (n: Option<nat>)
    ensures n.Some? ==> i < n.value <= |s|
    decreases |s| - i
  {
    if i >= |s| || s[i] < ' ' then None
    else if s[i] == '"' then Some(i + 1)
    else if s[i] == '\\' then StringEnd(s, i + 2)
    else StringEnd(s, i + 1)
  }

  function Cat(a: Option<seq<Token>>, b: Option<seq<Token>>): Option<seq<Token>> {
    if a.Some? && b.Some? then Some(a.value + b.value) else None
  }

  lemma CatAssoc(a: Option<seq<Token>>, b: Option<seq<Token>>, c: Option<seq<Token>>)
    ensures Cat(Cat(a, b), c) == Cat(a, Cat(b, c))
  {
    if a.Some? && b.Some? && c.Some? { assert (a.value + b.value) + c.value == a.value + (b.value + c.value); }
  }

  lemma CatNil(a: Option<seq<Token>>)
    ensures Cat(a, Some([])) == a && Cat(Some([]), a) == a
  {
    if a.Some? { assert a.value + [] == a.value && [] + a.value == a.value; }
  }

  /** The end of the space, mark, string or word that text begins with. */
  function PieceEnd(s: string): (n: Option<nat>)
    requires s != ""
    ensures n.Some? ==> 0 < n.value <= |s|
  {
    if IsSpace(s[0]) || IsMark(s[0]) then Some(1)
    else if s[0] == '"' then StringEnd(s, 1)
    else Some(WordEnd(s, 1))
  }

  function PieceTokens(piece: string): seq<Token>
    requires piece != ""
  {
    if IsSpace(piece[0]) then [] else if IsMark(piece[0]) then [Mark(piece[0])] else [Lexeme(piece)]
  }

  function Lex(s: string): Option<seq<Token>>
    decreases |s|
  {
    if s == "" then Some([])
    else
      var n := PieceEnd(s);
      if n.None? then None else Cat(Some(PieceTokens(s[..n.value])), Lex(s[n.value..]))
  }

  predicate StringLexeme(s: string) {
    s != "" && s[0] == '"' && StringEnd(s, 1) == Some(|s|)
  }

  predicate WordLexeme(s: string) {
    s != "" && forall i :: 0 <= i < |s| ==> InWord(s[i])
  }

  predicate WellFormed(v: Json) {
    match v
    case Object(members) =>
      forall i :: 0 <= i < |members| ==> StringLexeme(members[i].name) && WellFormed(members[i].value)
    case Array(items) => forall i :: 0 <= i < |items| ==> WellFormed(items[i])
    case Scalar(lexeme) => StringLexeme(lexeme) || WordLexeme(lexeme)
  }

  // ---- The compact token stream of a value ----

  function Comma(more: bool): seq<Token> {
    if more then [Mark(',')] else []
  }

  function Tokens(v: Json): seq<Token> {
    match v
    case Object(_) => [Mark('{')] + MemberTokens(v, 0)
    case Array(_) => [Mark('[')] + ItemTokens(v, 0)
    case Scalar(lexeme) => [Lexeme(lexeme)]
  }

  function MemberTokens(v: Json, i: nat): seq<Token>
    requires v.Object? && i <= |v.members|
    decreases v, |v.members| - i
  {
    if i == |v.members| then [Mark('}')]
    else
      [Lexeme(v.members[i].name), Mark(':')] + Tokens(v.members[i].value) +
      Comma(i + 1 < |v.members|) + MemberTokens(v, i + 1)
  }

  function ItemTokens(v: Json, i: nat): seq<Token>
    requires v.Array? && i <= |v.items|
    decreases v, |v.items| - i
  {
    if i == |v.items| then [Mark(']')]
    else Tokens(v.items[i]) + Comma(i + 1 < |v.items|) + ItemTokens(v, i + 1)
  }

  // The marks of the grammar, on the smallest values and on a list of each kind.

  lemma ArrayMarks(s: string, t: string)
    ensures Tokens(Array([])) == [Mark('['), Mark(']')]
    ensures Tokens(Array([Scalar(s), Scalar(t)])) == [Mark('['), Lexeme(s), Mark(','), Lexeme(t), Mark(']')]
  {
    var v := Array([Scalar(s), Scalar(t)]);
    assert ItemTokens(v, 1) == [Lexeme(t), Mark(']')];
    assert ItemTokens(v, 0) == [Lexeme(s), Mark(','), Lexeme(t), Mark(']')];
  }

  lemma ObjectMarks(k: string, s: string, l: string, t: string)
    ensures Tokens(Object([])) == [Mark('{'), Mark('}')]
    ensures Tokens(Object([Member(k, Scalar(s)), Member(l, Scalar(t))])) ==
            [Mark('{'), Lexeme(k), Mark(':'), Lexeme(s), Mark(','), Lexeme(l), Mark(':'), Lexeme(t), Mark('}')]
  {
    var v := Object([Member(k, Scalar(s)), Member(l, Scalar(t))]);
    assert MemberTokens(v, 1) == [Lexeme(l), Mark(':'), Lexeme(t), Mark('}')];
    assert MemberTokens(v, 0) == [Lexeme(k), Mark(':'), Lexeme(s), Mark(',')] + MemberTokens(v, 1);
  }

  // ---- Parsing tokens ----

  datatype Parsed<T> = Parsed(value: T, rest: seq<Token>) | Stuck

  predicate Starts(ts: seq<Token>, c: char) {
    ts != [] && ts[0] == Mark(c)
  }

  function ParseValue(ts: seq<Token>): (p: Parsed<Json>)
    ensures p.Parsed? ==> |p.rest| < |ts|
    decreases |ts|, 0
  {
    if Starts(ts, '{') then
      if Starts(ts[1..], '}') then Parsed(Object([]), ts[2..])
      else
        var p := ParseMembers(ts[1..]);
        if p.Stuck? then Stuck else Parsed(Object(p.value), p.rest)
    else if Starts(ts, '[') then
      if Starts(ts[1..], ']') then Parsed(Array([]), ts[2..])
      else
        var p := ParseItems(ts[1..]);
        if p.Stuck? then Stuck else Parsed(Array(p.value), p.rest)
    else if ts != [] && ts[0].Lexeme? then Parsed(Scalar(ts[0].text), ts[1..])
    else Stuck
  }

  function ParseMembers(ts: seq<Token>): (p: Parsed<seq<Member>>)
    ensures p.Parsed? ==> |p.rest| < |ts|
    decreases |ts|
  {
    if |ts| < 2 || !ts[0].Lexeme? || !StringLexeme(ts[0].text) || ts[1] != Mark(':') then Stuck
    else
      var p := ParseValue(ts[2..]);
      if p.Stuck? then Stuck
      else if Starts(p.rest, '}') then Parsed([Member(ts[0].text, p.value)], p.rest[1..])
      else if Starts(p.rest, ',') then
        var more := ParseMembers(p.rest[1..]);
        if more.Stuck? then Stuck else Parsed([Member(ts[0].text, p.value)] + more.value, more.rest)
      else Stuck
  }

  function ParseItems(ts: seq<Token>): (p: Parsed<seq<Json>>)
    ensures p.Parsed? ==> |p.rest| < |ts|
    decreases |ts|, 1
  {
    var p := ParseValue(ts);
    if p.Stuck? then Stuck
    else if Starts(p.rest, ']') then Parsed([p.value], p.rest[1..])
    else if Starts(p.rest, ',') then
      var more := ParseItems(p.rest[1..]);
      if more.Stuck? then Stuck else Parsed([p.value] + more.value, more.rest)
    else Stuck
  }

  /** The token stream of a value parses back to it, whatever follows. */
  lemma {:induction false} ParseTokens(v: Json, rest: seq<Token>)
    requires WellFormed(v)
    ensures ParseValue(Tokens(v) + rest) == Parsed(v, rest)
    decreases v
  {
    var ts := Tokens(v) + rest;
    match v {
      case Scalar(lexeme) => assert ts[1..] == rest;
      case Object(members) =>
        assert ts[1..] == MemberTokens(v, 0) + rest;
        if members == [] {
          assert ts[2..] == rest;
        } else {
          ParseMemberTokens(v, 0, rest);
          assert members[0..] == members;
        }
      case Array(items) =>
        assert ts[1..] == ItemTokens(v, 0) + rest;
        if items == [] {
          assert ts[2..] == rest;
        } else {
          FirstToken(items[0]);
          ParseItemTokens(v, 0, rest);
          assert items[0..] == items;
        }
    }
  }

  lemma FirstToken(v: Json)
    ensures Tokens(v) != [] && Tokens(v)[0] != Mark(']')
  {
  }

  // One element of a list, the last or with more behind it.

  lemma ItemsEnd(ts: seq<Token>, x: Json, rest: seq<Token>)
    requires ParseValue(ts) == Parsed(x, [Mark(']')] + rest)
    ensures ParseItems(ts) == Parsed([x], rest)
  {
    assert ([Mark(']')] + rest)[1..] == rest;
  }

  lemma ItemsGoOn(ts: seq<Token>, x: Json, tail: seq<Token>, xs: seq<Json>, rest: seq<Token>)
    requires ParseValue(ts) == Parsed(x, [Mark(',')] + tail) && ParseItems(tail) == Parsed(xs, rest)
    ensures ParseItems(ts) == Parsed([x] + xs, rest)
  {
    assert ([Mark(',')] + tail)[1..] == tail;
  }

  lemma MembersEnd(name: string, ts: seq<Token>, x: Json, rest: seq<Token>)
    requires StringLexeme(name) && ParseValue(ts) == Parsed(x, [Mark('}')] + rest)
    ensures ParseMembers([Lexeme(name), Mark(':')] + ts) == Parsed([Member(name, x)], rest)
  {
    assert ([Lexeme(name), Mark(':')] + ts)[2..] == ts;
    assert ([Mark('}')] + rest)[1..] == rest;
  }

  lemma MembersGoOn(name: string, ts: seq<Token>, x: Json, tail: seq<Token>, xs: seq<Member>, rest: seq<Token>)
    requires StringLexeme(name) && ParseValue(ts) == Parsed(x, [Mark(',')] + tail)
             && ParseMembers(tail) == Parsed(xs, rest)
    ensures ParseMembers([Lexeme(name), Mark(':')] + ts) == Parsed([Member(name, x)] + xs, rest)
  {
    assert ([Lexeme(name), Mark(':')] + ts)[2..] == ts;
    assert ([Mark(',')] + tail)[1..] == tail;
  }

  lemma Regroup<T>(a: seq<T>, b: seq<T>, c: seq<T>, d: seq<T>, rest: seq<T>)
    ensures a + b + c + d + rest == a + (b + (c + (d + rest)))
    ensures b + c + d + rest == b + (c + (d + rest))
  {
  }

  lemma {:induction false} ParseMemberTokens(v: Json, i: nat, rest: seq<Token>)
    requires WellFormed(v) && v.Object? && i < |v.members|
    ensures ParseMembers(MemberTokens(v, i) + rest) == Parsed(v.members[i..], rest)
    decreases v, |v.members| - i
  {
    var m, comma, more := v.members[i], Comma(i + 1 < |v.members|), MemberTokens(v, i + 1);
    Regroup([Lexeme(m.name), Mark(':')], Tokens(m.value), comma, more, rest);
    ParseTokens(m.value, comma + (more + rest));
    if i + 1 < |v.members| {
      ParseMemberTokens(v, i + 1, rest);
      MembersGoOn(m.name, Tokens(m.value) + (comma + (more + rest)), m.value, more + rest, v.members[i + 1..], rest);
      assert v.members[i..] == [m] + v.members[i + 1..];
    } else {
      assert comma + (more + rest) == [Mark('}')] + rest;
      MembersEnd(m.name, Tokens(m.value) + (comma + (more + rest)), m.value, rest);
      assert v.members[i..] == [m];
    }
  }

  lemma {:induction false} ParseItemTokens(v: Json, i: nat, rest: seq<Token>)
    requires WellFormed(v) && v.Array? && i < |v.items|
    ensures ParseItems(ItemTokens(v, i) + rest) == Parsed(v.items[i..], rest)
    decreases v, |v.items| - i
  {
    var x, comma, more := v.items[i], Comma(i + 1 < |v.items|), ItemTokens(v, i + 1);
    Regroup([], Tokens(x), comma, more, rest);
    ParseTokens(x, comma + (more + rest));
    if i + 1 < |v.items| {
      ParseItemTokens(v, i + 1, rest);
      ItemsGoOn(Tokens(x) + (comma + (more + rest)), x, more + rest, v.items[i + 1..], rest);
      assert v.items[i..] == [x] + v.items[i + 1..];
    } else {
      assert comma + (more + rest) == [Mark(']')] + rest;
      ItemsEnd(Tokens(x) + (comma + (more + rest)), x, rest);
      assert v.items[i..] == [x];
    }
  }

  // ---- Lexing is local ----

  lemma {:induction false} WordEndPrefix(a: string, b: string, i: nat)
    requires i <= |a|
    requires WordEnd(a, i) < |a| || b == "" || !InWord(b[0])
    ensures WordEnd(a + b, i) == WordEnd(a, i)
    decreases |a| - i
  {
    if i < |a| && InWord(a[i]) { WordEndPrefix(a, b, i + 1); }
  }

  lemma {:induction false} WordEndsInWord(s: string, i: nat)
    requires i <= |s| && (i > 0 ==> InWord(s[i - 1])) && WordEnd(s, i) > 0
    ensures InWord(s[WordEnd(s, i) - 1])
    decreases |s| - i
  {
    if i < |s| && InWord(s[i]) { WordEndsInWord(s, i + 1); }
  }

  lemma {:induction false} StringEndPrefix(a: string, b: string, i: nat)
    requires StringEnd(a, i).Some?
    ensures StringEnd(a + b, i) == StringEnd(a, i)
    decreases |a| - i
  {
    if a[i] == '\\' {
      StringEndPrefix(a, b, i + 2);
    } else if a[i] != '"' {
      StringEndPrefix(a, b, i + 1);
    }
  }

  /** No word runs across the boundary. */
  predicate Apart(a: string, b: string) {
    a == "" || b == "" || !InWord(a[|a| - 1]) || !InWord(b[0])
  }

  lemma PieceEndPrefix(a: string, b: string)
    requires a != "" && PieceEnd(a).Some? && Apart(a, b)
    ensures PieceEnd(a + b) == PieceEnd(a)
  {
    if a[0] == '"' {
      StringEndPrefix(a, b, 1);
    } else if InWord(a[0]) {
      WordEndsInWord(a, 1);
      WordEndPrefix(a, b, 1);
    }
  }

  /** Text that lexes by itself lexes in front of anything a word does not run into. */
  lemma {:induction false} LexConcat(a: string, b: string)
    requires Lex(a).Some? && Apart(a, b)
    ensures Lex(a + b) == Cat(Lex(a), Lex(b))
    decreases |a|
  {
    if a == "" {
      CatNil(Lex(b));
      assert a + b == b;
    } else {
      PieceEndPrefix(a, b);
      var n := PieceEnd(a).value;
      assert (a + b)[..n] == a[..n] && (a + b)[n..] == a[n..] + b;
      LexConcat(a[n..], b);
      CatAssoc(Some(PieceTokens(a[..n])), Lex(a[n..]), Lex(b));
    }
  }

  /** A single piece. */
  lemma LexPiece(s: string)
    requires s != "" && PieceEnd(s) == Some(|s|)
    ensures Lex(s) == Some(PieceTokens(s))
  {
    assert s[..|s|] == s && s[|s|..] == "";
    CatNil(Some(PieceTokens(s)));
  }

  lemma {:induction false} WordEndAll(s: string, i: nat)
    requires i <= |s| && forall k :: 0 <= k < |s| ==> InWord(s[k])
    ensures WordEnd(s, i) == |s|
    decreases |s| - i
  {
    if i < |s| { WordEndAll(s, i + 1); }
  }

  lemma LexLexeme(s: string)
    requires StringLexeme(s) || WordLexeme(s)
    ensures Lex(s) == Some([Lexeme(s)])
  {
    if WordLexeme(s) { WordEndAll(s, 1); }
    LexPiece(s);
  }

  function Spaces(n: nat): string {
    if n == 0 then "" else " " + Spaces(n - 1)
  }

  lemma LexSpace(s: string)
    requires s != "" && IsSpace(s[0])
    ensures Lex(s) == Lex(s[1..])
  {
    CatNil(Lex(s[1..]));
  }

  lemma {:induction false} LexSpaces(n: nat)
    ensures Lex(Spaces(n)) == Some([]) && forall i :: 0 <= i < |Spaces(n)| ==> Spaces(n)[i] == ' '
  {
    if n > 0 {
      LexSpaces(n - 1);
      LexSpace(Spaces(n));
      assert Spaces(n)[1..] == Spaces(n - 1);
    }
  }

  function Lstrip(s: string): string {
    if s != "" && IsSpace(s[0]) then Lstrip(s[1..]) else s
  }

  lemma {:induction false} LexLstrip(s: string)
    ensures Lex(Lstrip(s)) == Lex(s)
    decreases |s|
  {
    if s != "" && IsSpace(s[0]) {
      LexSpace(s);
      LexLstrip(s[1..]);
    }
  }

  // ---- Lines ----

  /** The lines of a file, each lexed by itself. */
  function Stream(lines: seq<string>): Option<seq<Token>> {
    if lines == [] then Some([]) else Cat(Lex(lines[0]), Stream(lines[1..]))
  }

  /** "\n".join(lines) + "\n". */
  function Text(lines: seq<string>): string {
    if lines == [] then "" else lines[0] + "\n" + Text(lines[1..])
  }

  lemma {:induction false} LexText(lines: seq<string>)
    requires Stream(lines).Some?
    ensures Lex(Text(lines)) == Stream(lines)
  {
    if lines != [] {
      var rest := "\n" + Text(lines[1..]);
      LexText(lines[1..]);
      LexSpace(rest);
      assert rest[1..] == Text(lines[1..]);
      LexConcat(lines[0], rest);
      assert Text(lines) == lines[0] + rest;
    }
  }

  lemma {:induction false} StreamConcat(a: seq<string>, b: seq<string>)
    ensures Stream(a + b) == Cat(Stream(a), Stream(b))
  {
    if a == [] {
      CatNil(Stream(b));
      assert a + b == b;
    } else {
      assert (a + b)[1..] == a[1..] + b;
      StreamConcat(a[1..], b);
      CatAssoc(Lex(a[0]), Stream(a[1..]), Stream(b));
    }
  }

  lemma StreamOne(line: string)
    ensures Stream([line]) == Lex(line)
  {
    assert [line][1..] == [];
    CatNil(Lex(line));
  }

  lemma StreamPush(lines: seq<string>, line: string)
    ensures Stream(lines + [line]) == Cat(Stream(lines), Lex(line))
  {
    StreamConcat(lines, [line]);
    StreamOne(line);
  }

  lemma StreamComma(lines: seq<string>)
    requires lines != [] && Stream(lines).Some?
    ensures Stream(lines[|lines| - 1 := lines[|lines| - 1] + ","]) == Some(Stream(lines).value + [Mark(',')])
  {
    var n := |lines| - 1;
    var front, last := lines[..n], lines[n];
    StreamPush(front, last);
    assert lines == front + [last];
    LexPiece(",");
    LexConcat(last, ",");
    StreamPush(front, last + ",");
    assert lines[n := last + ","] == front + [last + ","];
    CatAssoc(Stream(front), Lex(last), Lex(","));
  }

  /** A child's lines, put behind what precedes it on its first line. */
  lemma StreamChild(lines: seq<string>, head: string, rendered: seq<string>)
    requires Stream(lines).Some? && Lex(head).Some? && Stream(rendered).Some? && rendered != []
             && (head == "" || head[|head| - 1] == ' ')
    ensures Stream(lines + [head + Lstrip(rendered[0])] + rendered[1..]) ==
            Some(Stream(lines).value + Lex(head).value + Stream(rendered).value)
  {
    var first := Lstrip(rendered[0]);
    LexLstrip(rendered[0]);
    LexConcat(head, first);
    StreamPush(lines, head + first);
    StreamConcat(lines + [head + first], rendered[1..]);
    CatAssoc(Stream(lines), Lex(head), Lex(first));
    CatAssoc(Cat(Stream(lines), Lex(head)), Lex(first), Stream(rendered[1..]));
  }

  lemma LexMark(n: nat, c: char)
    requires IsMark(c)
    ensures Lex(Spaces(n) + [c]) == Some([Mark(c)])
  {
    LexSpaces(n);
    LexPiece([c]);
    LexConcat(Spaces(n), [c]);
    CatNil(Lex([c]));
  }

  lemma LexColon()
    ensures Lex(": ") == Some([Mark(':')])
  {
    LexPiece(":");
    LexPiece(" ");
    LexConcat(":", " ");
    CatNil(Lex(":"));
    assert ":" + " " == ": ";
  }

  lemma LexName(n: nat, name: string)
    requires StringLexeme(name)
    ensures Lex(Spaces(n) + name + ": ") == Some([Lexeme(name), Mark(':')])
  {
    LexSpaces(n);
    LexLexeme(name);
    LexConcat(Spaces(n), name);
    CatNil(Lex(name));
    LexColon();
    LexConcat(Spaces(n) + name, ": ");
    assert [Lexeme(name)] + [Mark(':')] == [Lexeme(name), Mark(':')];
  }

  // ---- The printer ----

  predicate Flat(items: seq<Json>) {
    forall i :: 0 <= i < |items| ==> items[i].Scalar?
  }

  function LineCount(v: Json): nat {
    match v
    case Scalar(_) => 1
    case Object(_) => 2 + MemberLines(v, |v.members|)
    case Array(items) => if Flat(items) then 1 else 2 + ItemLines(v, |items|)
  }

  function MemberLines(v: Json, i: nat): nat
    requires v.Object? && i <= |v.members|
    decreases v, i
  {
    if i == 0 then 0 else MemberLines(v, i - 1) + LineCount(v.members[i - 1].value)
  }

  function ItemLines(v: Json, i: nat): nat
    requires v.Array? && i <= |v.items|
    decreases v, i
  {
    if i == 0 then 0 else ItemLines(v, i - 1) + LineCount(v.items[i - 1])
  }

  // ---- Layout ----

  /** The line starts with exactly n spaces. */
  predicate IndentedBy(line: string, n: nat) {
    n < |line| && !IsSpace(line[n]) && forall i :: 0 <= i < n ==> line[i] == ' '
  }

  /** How deep every line of a value printed at a level is indented: its first line follows what comes
      before it, its children one level deeper, its closing mark where it began. */
  function Depths(v: Json, level: nat): (ds: seq<nat>)
    ensures |ds| == LineCount(v) > 0 && ds[0] == 0
    decreases v
  {
    match v
    case Scalar(_) => [0]
    case Object(_) => [0] + MemberDepths(v, level, |v.members|) + [level]
    case Array(items) => if Flat(items) then [0] else [0] + ItemDepths(v, level, |items|) + [level]
  }

  function MemberDepths(v: Json, level: nat, i: nat): (ds: seq<nat>)
    requires v.Object? && i <= |v.members|
    ensures |ds| == MemberLines(v, i)
    decreases v, i
  {
    if i == 0 then []
    else MemberDepths(v, level, i - 1) + [level + 1] + Depths(v.members[i - 1].value, level + 1)[1..]
  }

  function ItemDepths(v: Json, level: nat, i: nat): (ds: seq<nat>)
    requires v.Array? && i <= |v.items|
    ensures |ds| == ItemLines(v, i)
    decreases v, i
  {
    if i == 0 then [] else ItemDepths(v, level, i - 1) + [level + 1] + Depths(v.items[i - 1], level + 1)[1..]
  }

  ghost predicate Indented(lines: seq<string>, depths: seq<nat>) {
    |lines| == |depths| && forall i :: 0 <= i < |lines| ==> IndentedBy(lines[i], 2 * depths[i])
  }

  /** The lines of a child as they are added: its first line behind the head, a comma behind its last. */
  function AddedLine(head: string, rendered: seq<string>, more: bool, j: nat): string
    requires j < |rendered|
  {
    (if j == 0 then head + Lstrip(rendered[0]) else rendered[j]) + if more && j == |rendered| - 1 then "," else ""
  }

  lemma ChildIndented(lines: seq<string>, depths: seq<nat>, head: string, rendered: seq<string>, below: seq<nat>,
                      more: bool,
                      level: nat, longer: seq<string>)
    requires Indented(lines, depths) && Indented(rendered, below) && rendered != []
    requires IndentedBy(head + Lstrip(rendered[0]), 2 * (level + 1))
    requires |longer| == |lines| + |rendered| && longer[..|lines|] == lines
    requires forall j :: 0 <= j < |rendered| ==> longer[|lines| + j] == AddedLine(head, rendered, more, j)
    ensures Indented(longer, depths + [level + 1] + below[1..])
  {
    var all := depths + [level + 1] + below[1..];
    forall i | 0 <= i < |longer| ensures IndentedBy(longer[i], 2 * all[i]) {
      if i < |lines| {
        assert longer[i] == lines[i] && all[i] == depths[i];
      } else {
        var j := i - |lines|;
        assert longer[i] == AddedLine(head, rendered, more, j);
        assert all[i] == if j == 0 then level + 1 else below[j];
      }
    }
  }

  lemma SpacesLead(n: nat, rest: string)
    requires rest != "" && !IsSpace(rest[0])
    ensures IndentedBy(Spaces(n) + rest, n)
  {
    LexSpaces(n);
    SpacesLength(n);
  }

  lemma {:induction false} SpacesLength(n: nat)
    ensures |Spaces(n)| == n
  {
    if n > 0 { SpacesLength(n - 1); }
  }

  // Moving one child from what is still to be printed to what has been.

  lemma MemberPrinted(v: Json, i: nat, done: seq<Token>)
    requires v.Object? && i < |v.members|
    ensures done + MemberTokens(v, i)
            == done + [Lexeme(v.members[i].name), Mark(':')] + Tokens(v.members[i].value) +
               Comma(i + 1 < |v.members|) + MemberTokens(v, i + 1)
  {
  }

  lemma ItemPrinted(v: Json, i: nat, done: seq<Token>)
    requires v.Array? && i < |v.items|
    ensures done + ItemTokens(v, i) == done + Tokens(v.items[i]) + Comma(i + 1 < |v.items|) + ItemTokens(v, i + 1)
  {
  }

  /** json.dumps of a flat list, with "," between its items. */
  method DumpFlat(v: Json) returns (line: string)
    requires WellFormed(v) && v.Array? && Flat(v.items)
    ensures Lex(line) == Some(Tokens(v)) && line != "" && line[0] == '['
  {
    line := AddMark("", '[');
    for i := 0 to |v.items|
      invariant line != "" && line[0] == '[' && Lex(line).Some? && Lex(line).value + ItemTokens(v, i) == Tokens(v)
      invariant i < |v.items| ==> !InWord(line[|line| - 1])
    {
      ItemPrinted(v, i, Lex(line).value);
      line := AddScalar(line, v.items[i].lexeme, i + 1 < |v.items|);
    }
    line := AddMark(line, ']');
  }

  method AddMark(line: string, c: char) returns (longer: string)
    requires Lex(line).Some? && IsMark(c)
    ensures longer == line + [c] && !InWord(longer[|longer| - 1]) && Lex(longer) == Some(Lex(line).value + [Mark(c)])
  {
    LexPiece([c]);
    LexConcat(line, [c]);
    longer := line + [c];
  }

  method AddScalar(line: string, lexeme: string, more: bool) returns (longer: string)
    requires Lex(line).Some? && line != "" && !InWord(line[|line| - 1]) && (StringLexeme(lexeme) || WordLexeme(lexeme))
    ensures line <= longer && (more ==> !InWord(longer[|longer| - 1]))
    ensures Lex(longer) == Some(Lex(line).value + [Lexeme(lexeme)] + Comma(more))
  {
    LexLexeme(lexeme);
    LexConcat(line, lexeme);
    longer := line + lexeme;
    assert Lex(longer).value + [] == Lex(longer).value;
    if more {
      longer := AddMark(longer, ',');
    }
  }

  /** A child's lines go behind the head of its first line; a comma goes behind its last line. */
  method AddChild(lines: seq<string>, head: string, rendered: seq<string>, more: bool) returns (longer: seq<string>)
    requires Stream(lines).Some? && Lex(head).Some? && Stream(rendered).Some? && rendered != []
             && (head == "" || head[|head| - 1] == ' ')
    ensures |longer| == |lines| + |rendered| && longer[..|lines|] == lines
    ensures forall j :: 0 <= j < |rendered| ==> longer[|lines| + j] == AddedLine(head, rendered, more, j)
    ensures Stream(longer) == Some(Stream(lines).value + Lex(head).value + Stream(rendered).value + Comma(more))
  {
    StreamChild(lines, head, rendered);
    var placed := lines + [head + Lstrip(rendered[0])] + rendered[1..];
    longer := AddComma(placed, more);
    LinesPlaced(lines, head, rendered, more, longer);
  }

  method AddComma(lines: seq<string>, more: bool) returns (ended: seq<string>)
    requires lines != [] && Stream(lines).Some?
    ensures |ended| == |lines| && ended[..|lines| - 1] == lines[..|lines| - 1]
    ensures ended[|lines| - 1] == lines[|lines| - 1] + if more then "," else ""
    ensures Stream(ended) == Some(Stream(lines).value + Comma(more))
  {
    ended := lines;
    if more {
      StreamComma(lines);
      ended := lines[|lines| - 1 := lines[|lines| - 1] + ","];
    } else {
      assert Stream(lines).value + [] == Stream(lines).value && lines[|lines| - 1] + "" == lines[|lines| - 1];
    }
  }

  lemma LinesPlaced(lines: seq<string>, head: string, rendered: seq<string>, more: bool, longer: seq<string>)
    requires rendered != []
    requires var placed := lines + [head + Lstrip(rendered[0])] + rendered[1..];
             && |longer| == |placed| && longer[..|placed| - 1] == placed[..|placed| - 1]
             && longer[|placed| - 1] == placed[|placed| - 1] + if more then "," else ""
    ensures |longer| == |lines| + |rendered| && longer[..|lines|] == lines
    ensures forall j :: 0 <= j < |rendered| ==> longer[|lines| + j] == AddedLine(head, rendered, more, j)
  {
    var placed, last := lines + [head + Lstrip(rendered[0])] + rendered[1..], |lines| + |rendered| - 1;
    forall i | 0 <= i < last ensures longer[i] == placed[i] {
      assert longer[i] == longer[..last][i] && placed[i] == placed[..last][i];
    }
    forall j | 0 <= j < |rendered| ensures longer[|lines| + j] == AddedLine(head, rendered, more, j) {
      var line := if j == 0 then head + Lstrip(rendered[0]) else rendered[j];
      assert placed[|lines| + j] == line;
      assert line + "" == line;
    }
  }

  method AddMember(lines: seq<string>, level: nat, name: string, rendered: seq<string>, more: bool,
                   ghost depths: seq<nat>, ghost below: seq<nat>)
    returns (longer: seq<string>)
    requires Stream(lines).Some? && StringLexeme(name) && Stream(rendered).Some? && rendered != []
    requires Indented(lines, depths) && Indented(rendered, below)
    ensures |longer| == |lines| + |rendered| && Indented(longer, depths + [level + 1] + below[1..])
    ensures Stream(longer) ==
            Some(Stream(lines).value + [Lexeme(name), Mark(':')] + Stream(rendered).value + Comma(more))
  {
    var head := Spaces(2 * (level + 1)) + name + ": ";
    LexName(2 * (level + 1), name);
    longer := AddChild(lines, head, rendered, more);
    SpacesLead(2 * (level + 1), name + ": " + Lstrip(rendered[0]));
    assert head + Lstrip(rendered[0]) == Spaces(2 * (level + 1)) + (name + ": " + Lstrip(rendered[0]));
    ChildIndented(lines, depths, head, rendered, below, more, level, longer);
  }

  method AddItem(lines: seq<string>, level: nat, rendered: seq<string>, more: bool, ghost depths: seq<nat>,
                 ghost below: seq<nat>)
    returns (longer: seq<string>)
    requires Stream(lines).Some? && Stream(rendered).Some? && rendered != []
    requires Indented(lines, depths) && Indented(rendered, below) && below[0] == 0
    ensures |longer| == |lines| + |rendered| && Indented(longer, depths + [level + 1] + below[1..])
    ensures Stream(longer) == Some(Stream(lines).value + Stream(rendered).value + Comma(more))
  {
    var head := Spaces(2 * (level + 1));
    LexSpaces(2 * (level + 1));
    longer := AddChild(lines, head, rendered, more);
    assert Stream(lines).value + [] == Stream(lines).value;
    SpacesLead(2 * (level + 1), Lstrip(rendered[0]));
    ChildIndented(lines, depths, head, rendered, below, more, level, longer);
  }

  method CloseLines(lines: seq<string>, level: nat, c: char, ghost depths: seq<nat>) returns (longer: seq<string>)
    requires Stream(lines).Some? && IsMark(c) && Indented(lines, depths)
    ensures |longer| == |lines| + 1 && Stream(longer) == Some(Stream(lines).value + [Mark(c)])
    ensures Indented(longer, depths + [level])
  {
    SpacesLead(2 * level, [c]);
    LexMark(2 * level, c);
    StreamPush(lines, Spaces(2 * level) + [c]);
    longer := lines + [Spaces(2 * level) + [c]];
  }

  method OpenLines(c: char) returns (lines: seq<string>)
    requires IsMark(c)
    ensures |lines| == 1 && Stream(lines) == Some([Mark(c)]) && Indented(lines, [0])
  {
    LexPiece([c]);
    StreamOne([c]);
    lines := [[c]];
  }

  /** The first i members are printed. */
  ghost predicate MembersPrinted(v: Json, level: nat, i: nat, lines: seq<string>)
    requires v.Object? && i <= |v.members|
  {
    && Stream(lines).Some? && Stream(lines).value + MemberTokens(v, i) == Tokens(v)
    && Indented(lines, [0] + MemberDepths(v, level, i))
  }

  method NextMember(v: Json, level: nat, i: nat, lines: seq<string>) returns (longer: seq<string>)
    requires WellFormed(v) && v.Object? && i < |v.members| && MembersPrinted(v, level, i, lines)
    ensures MembersPrinted(v, level, i + 1, longer)
    decreases v, 0
  {
    var m := v.members[i];
    var rendered := RenderWeightJson(m.value, level + 1);
    MemberPrinted(v, i, Stream(lines).value);
    ghost var depths, below := [0] + MemberDepths(v, level, i), Depths(m.value, level + 1);
    longer := AddMember(lines, level, m.name, rendered, i < |v.members| - 1, depths, below);
    OneDeeper(MemberDepths(v, level, i), level + 1, below[1..]);
  }

  lemma OneDeeper(before: seq<nat>, depth: nat, below: seq<nat>)
    ensures [0] + before + [depth] + below == [0] + (before + [depth] + below)
  {
  }

  method RenderObject(v: Json, level: nat) returns (lines: seq<string>)
    requires WellFormed(v) && v.Object?
    ensures Stream(lines) == Some(Tokens(v)) && Indented(lines, Depths(v, level))
    decreases v, 1
  {
    lines := OpenLines('{');
    for i := 0 to |v.members|
      invariant MembersPrinted(v, level, i, lines)
    {
      lines := NextMember(v, level, i, lines);
    }
    lines := CloseLines(lines, level, '}', [0] + MemberDepths(v, level, |v.members|));
  }

  ghost predicate ItemsPrinted(v: Json, level: nat, i: nat, lines: seq<string>)
    requires v.Array? && i <= |v.items|
  {
    && Stream(lines).Some? && Stream(lines).value + ItemTokens(v, i) == Tokens(v)
    && Indented(lines, [0] + ItemDepths(v, level, i))
  }

  method NextItem(v: Json, level: nat, i: nat, lines: seq<string>) returns (longer: seq<string>)
    requires WellFormed(v) && v.Array? && i < |v.items| && ItemsPrinted(v, level, i, lines)
    ensures ItemsPrinted(v, level, i + 1, longer)
    decreases v, 0
  {
    var rendered := RenderWeightJson(v.items[i], level + 1);
    ItemPrinted(v, i, Stream(lines).value);
    ghost var depths, below := [0] + ItemDepths(v, level, i), Depths(v.items[i], level + 1);
    longer := AddItem(lines, level, rendered, i < |v.items| - 1, depths, below);
    OneDeeper(ItemDepths(v, level, i), level + 1, below[1..]);
  }

  method RenderArray(v: Json, level: nat) returns (lines: seq<string>)
    requires WellFormed(v) && v.Array? && !Flat(v.items)
    ensures Stream(lines) == Some(Tokens(v)) && Indented(lines, Depths(v, level))
    decreases v, 1
  {
    lines := OpenLines('[');
    for i := 0 to |v.items|
      invariant ItemsPrinted(v, level, i, lines)
    {
      lines := NextItem(v, level, i, lines);
    }
    lines := CloseLines(lines, level, ']', [0] + ItemDepths(v, level, |v.items|));
  }

  /** Commas land where the grammar wants them, whether a child takes one line or many. */
  method RenderWeightJson(v: Json, level: nat) returns (lines: seq<string>)
    requires WellFormed(v)
    ensures Stream(lines) == Some(Tokens(v)) && |lines| == LineCount(v) && lines != []
    ensures Indented(lines, Depths(v, level))
    ensures v.Array? ==> (|lines| == 1 <==> forall i :: 0 <= i < |v.items| ==> v.items[i].Scalar?)
    ensures v.Scalar? ==> |lines| == 1
    ensures v.Object? ==> |lines| >= 2 + |v.members|
    decreases v, 2
  {
    match v {
      case Scalar(lexeme) =>
        LexLexeme(lexeme);
        StreamOne(lexeme);
        return [lexeme];
      case Object(_) =>
        lines := RenderObject(v, level);
        MembersTakeLines(v, |v.members|);
      case Array(items) =>
        if Flat(items) {
          var line := DumpFlat(v);
          StreamOne(line);
          return [line];
        }
        lines := RenderArray(v, level);
    }
  }

  lemma {:induction false} MembersTakeLines(v: Json, i: nat)
    requires v.Object? && i <= |v.members|
    ensures MemberLines(v, i) >= i
  {
    if i > 0 {
      MembersTakeLines(v, i - 1);
      assert |Depths(v.members[i - 1].value, 0)| == LineCount(v.members[i - 1].value);
    }
  }

  /** The text of a file, read as JSON. */
  function Load(text: string): Option<Json> {
    var tokens := Lex(text);
    if tokens.None? then None
    else
      var p := ParseValue(tokens.value);
      if p.Parsed? && p.rest == [] then Some(p.value) else None
  }

  /** What is saved reads back as what was saved. */
  method SaveWeights(v: Json) returns (text: string)
    requires WellFormed(v)
    ensures Load(text) == Some(v)
  {
    var lines := RenderWeightJson(v, 0);
    LexText(lines);
    ParseTokens(v, []);
    assert Tokens(v) + [] == Tokens(v);
    text := Text(lines);
  }
}
