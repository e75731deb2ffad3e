/** JSON text as the programs write it, and how many bytes it takes in UTF-8. */
module JsonText {

  // ---- Characters and strings ----

  function CharBytes(c: char): nat {
    if c < '\U{80}' then 1 else if c < '\U{800}' then 2 else if c < '\U{10000}' then 3 else 4
  }

  function Utf8(s: string): nat {
    if s == [] then 0 else CharBytes(s[0]) + Utf8(s[1..])
  }

  predicate Ascii(s: string) {
    forall i :: 0 <= i < |s| ==> s[i] < '\U{80}'
  }

  function HexDigit(n: nat): char
    requires n < 16
  {
    "0123456789abcdef"[n]
  }

  function EscapedChar(c: char): string {
    if c == '\"' then "\\\"" else if c == '\\' then "\\\\"
    else if c == '\n' then "\\n" else if c == '\r' then "\\r" else if c == '\t' then "\\t"
    else if c == '\U{8}' then "\\b" else if c == '\U{C}' then "\\f"
    else if c < ' ' then "\\u00" + [HexDigit(c as int / 16), HexDigit(c as int % 16)]
    else [c]
  }

  /** Characters outside ASCII are written as they are. */
  function Escaped(s: string): string {
    if s == [] then [] else EscapedChar(s[0]) + Escaped(s[1..])
  }

  function EscapedBytes(s: string): nat {
    Utf8(Escaped(s))
  }

  /** How many characters of a string are written with a backslash, control characters aside. */
  function Quotes(s: string): nat {
    if s == [] then 0 else (if s[0] == '\"' || s[0] == '\\' then 1 else 0) + Quotes(s[1..])
  }

  lemma {:induction false} Utf8OfConcat(a: string, b: string)
    ensures Utf8(a + b) == Utf8(a) + Utf8(b)
  {
    if a == [] {
      assert a + b == b;
    } else {
      Utf8OfConcat(a[1..], b);
      assert (a + b)[1..] == a[1..] + b;
    }
  }

  lemma {:induction false} AsciiBytes(s: string)
    requires Ascii(s)
    ensures Utf8(s) == |s|
  {
    if s != [] {
      AsciiBytes(s[1..]);
    }
  }

  lemma EscapedCharBytes(c: char)
    ensures Utf8(EscapedChar(c)) <= 6
    ensures c >= ' ' ==> Utf8(EscapedChar(c)) == CharBytes(c) + if c == '\"' || c == '\\' then 1 else 0
  {
    var e := EscapedChar(c);
    if Ascii(e) {
      AsciiBytes(e);
    } else {
      assert e == [c] && e[1..] == [];
    }
  }

  /** No character takes more than six bytes. */
  lemma {:induction false} EscapedAtMost(s: string)
    ensures EscapedBytes(s) <= 6 * |s|
  {
    if s != [] {
      EscapedAtMost(s[1..]);
      EscapedCharBytes(s[0]);
      Utf8OfConcat(EscapedChar(s[0]), Escaped(s[1..]));
    }
  }

  /** A string without control characters grows by one byte for each quotation mark and backslash. */
  lemma {:induction false} EscapingAddsQuotes(s: string)
    requires forall i :: 0 <= i < |s| ==> s[i] >= ' '
    ensures EscapedBytes(s) == Utf8(s) + Quotes(s)
  {
    if s != [] {
      EscapingAddsQuotes(s[1..]);
      EscapedCharBytes(s[0]);
      Utf8OfConcat(EscapedChar(s[0]), Escaped(s[1..]));
    }
  }

  /** The bits that n bytes of UTF-8 have for a code point: 7 in one byte, else what the first byte leaves and six in
      each further one. */
  function Payload(n: nat): nat
    requires 1 <= n <= 4
  {
    if n == 1 then 7 else 7 - n + 6 * (n - 1)
  }

  function TwoTo(n: nat): nat {
    if n == 0 then 1 else 2 * TwoTo(n - 1)
  }

  /** A character takes the fewest bytes that have room for its code point. */
  lemma CharactersTakeTheFewestBytes(c: char)
    ensures 1 <= CharBytes(c) <= 4 && c as int < TwoTo(Payload(CharBytes(c)))
    ensures CharBytes(c) > 1 ==> c as int >= TwoTo(Payload(CharBytes(c) - 1))
  {
    assert TwoTo(7) == 128;
    assert TwoTo(9) == 512 && TwoTo(11) == 2048;
    assert TwoTo(13) == 8192 && TwoTo(15) == 32_768 && TwoTo(16) == 65_536;
    assert TwoTo(18) == 262_144 && TwoTo(20) == 1_048_576 && TwoTo(21) == 2_097_152;
  }

  /** Which characters are written with a backslash, and how: the two that JSON reserves, the five control characters
      with a letter of their own, and the other control characters by their code. */
  lemma EscapesAreThese(c: char)
    ensures EscapedChar('\"') == "\\\"" && EscapedChar('\\') == "\\\\"
    ensures EscapedChar('\n') == "\\n" && EscapedChar('\r') == "\\r" && EscapedChar('\t') == "\\t"
    ensures EscapedChar('\U{8}') == "\\b" && EscapedChar('\U{C}') == "\\f"
    ensures EscapedChar('\U{0}') == "\\u0000" && EscapedChar('\U{B}') == "\\u000b" && EscapedChar('\U{1F}') == "\\u001f"
    ensures c >= ' ' && c != '\"' && c != '\\' ==> EscapedChar(c) == [c]
    ensures c < ' ' && c !in {'\n', '\r', '\t', '\U{8}', '\U{C}'} ==> |EscapedChar(c)| == 6 && EscapedChar(c)[..4] == "\\u00"
  {
  }

  // ---- Sums over lists of strings ----

  datatype Measure = InUtf8 | InEscapes | InQuotes

  function Measured(m: Measure, s: string): nat {
    match m
    case InUtf8 => Utf8(s)
    case InEscapes => EscapedBytes(s)
    case InQuotes => Quotes(s)
  }

  function SumOf(m: Measure, s: seq<string>): nat {
    if s == [] then 0 else Measured(m, s[0]) + SumOf(m, s[1..])
  }

  lemma {:induction false} SumOfConcat(m: Measure, a: seq<string>, b: seq<string>)
    ensures SumOf(m, a + b) == SumOf(m, a) + SumOf(m, b)
  {
    if a == [] {
      assert a + b == b;
    } else {
      var rest := a[1..];
      SumOfConcat(m, rest, b);
      var whole := a + b;
      assert whole[1..] == rest + b && whole[0] == a[0];
    }
  }

  lemma TakeOut(b: seq<string>, x: string) returns (before: seq<string>, after: seq<string>)
    requires x in b
    ensures b == before + [x] + after && multiset(before + after) == multiset(b) - multiset{x}
  {
    var k :| 0 <= k < |b| && b[k] == x;
    before, after := b[..k], b[k + 1..];
    assert b == before + [x] + after;
    assert multiset(before + after) == multiset(before) + multiset(after);
  }

  lemma SumWithOneMore(m: Measure, before: seq<string>, x: string, after: seq<string>)
    ensures SumOf(m, before + [x] + after) == Measured(m, x) + SumOf(m, before + after)
  {
    SumOfConcat(m, before + [x], after);
    SumOfConcat(m, before, [x]);
    SumOfConcat(m, before, after);
    assert [x][1..] == [];
  }

  lemma TailOf(a: seq<string>)
    requires a != []
    ensures multiset(a[1..]) == multiset(a) - multiset{a[0]} && a[0] in multiset(a)
  {
    assert a == [a[0]] + a[1..];
  }

  /** A sum does not depend on the order of the list. */
  lemma {:induction false} SumInAnyOrder(m: Measure, a: seq<string>, b: seq<string>)
    requires multiset(a) == multiset(b)
    ensures SumOf(m, a) == SumOf(m, b)
    decreases |a|
  {
    assert |a| == |multiset(a)| == |multiset(b)| == |b|;
    if a != [] {
      TailOf(a);
      assert a[0] in b;
      var before, after := TakeOut(b, a[0]);
      SumInAnyOrder(m, a[1..], before + after);
      SumWithOneMore(m, before, a[0], after);
    }
  }

  lemma OneMoreBounded(bound: nat, n: nat)
    ensures bound * (n + 1) == bound * n + bound
  {
  }

  lemma {:induction false} SumOfEqual(m: Measure, s: seq<string>, each: nat)
    requires forall i :: 0 <= i < |s| ==> Measured(m, s[i]) == each
    ensures SumOf(m, s) == each * |s|
  {
    if s != [] {
      SumOfEqual(m, s[1..], each);
      OneMoreBounded(each, |s[1..]|);
    }
  }

  lemma {:induction false} SumOfEscaped(s: seq<string>)
    requires forall k :: 0 <= k < |s| ==> forall i :: 0 <= i < |s[k]| ==> s[k][i] >= ' '
    ensures SumOf(InEscapes, s) == SumOf(InUtf8, s) + SumOf(InQuotes, s)
  {
    if s != [] {
      EscapingAddsQuotes(s[0]);
      SumOfEscaped(s[1..]);
    }
  }

  // ---- Values and their text ----

  datatype Scalar = Int(n: int) | Float(x: real) | Bool(b: bool) | Null

  /** A parsed JSON value; numbers, booleans and null are leaves. */
  datatype Tree = Leaf(value: Scalar) | Str(text: string) | List(items: seq<Tree>) | Obj(members: seq<Member>)

  datatype Member = Member(key: string, value: Tree)

  /** How numbers are written. */
  datatype Writer = Writer(integer: int -> string, float: real -> string)

  const NUMBER_WIDTH := 24

  /** Numbers are written in ASCII; no float, and no integer up to `largest`, takes more than 24 characters. */
  ghost predicate SaneWriter(w: Writer, largest: nat) {
    && (forall n :: 0 <= n <= largest ==> Ascii(w.integer(n)) && 1 <= |w.integer(n)| <= NUMBER_WIDTH)
    && (forall x :: Ascii(w.float(x)) && 1 <= |w.float(x)| <= NUMBER_WIDTH)
  }

  function ScalarText(w: Writer, v: Scalar): string {
    match v
    case Int(n) => w.integer(n)
    case Float(x) => w.float(x)
    case Bool(b) => if b then "true" else "false"
    case Null => "null"
  }

  function Quoted(s: string): string {
    "\"" + Escaped(s) + "\""
  }

  function Spaces(n: nat): string {
    if n == 0 then "" else " " + Spaces(n - 1)
  }

  /** A line feed and two spaces for each level. */
  function NewLine(depth: nat): string {
    "\n" + Spaces(2 * depth)
  }

  /** The text of a value at a depth, indented by two spaces a level, one item a line. */
  function Render(w: Writer, t: Tree, depth: nat): string {
    match t
    case Leaf(v) => ScalarText(w, v)
    case Str(text) => Quoted(text)
    case List(items) => if items == [] then "[]" else "[" + RenderItems(w, items, depth + 1) + NewLine(depth) + "]"
    case Obj(members) => if members == [] then "{}" else "{" + RenderMembers(w, members, depth + 1) + NewLine(depth) + "}"
  }

  function RenderItems(w: Writer, items: seq<Tree>, depth: nat): string
    requires items != []
  {
    NewLine(depth) + Render(w, items[0], depth) + if |items| == 1 then "" else "," + RenderItems(w, items[1..], depth)
  }

  function RenderMembers(w: Writer, members: seq<Member>, depth: nat): string
    requires members != []
  {
    NewLine(depth) + (Quoted(members[0].key) + ": " + Render(w, members[0].value, depth))
    + if |members| == 1 then "" else "," + RenderMembers(w, members[1..], depth)
  }

  // ---- The size of the text ----

  function Size(w: Writer, t: Tree, depth: nat): nat {
    match t
    case Leaf(v) => Utf8(ScalarText(w, v))
    case Str(text) => 2 + EscapedBytes(text)
    case List(items) => if items == [] then 2 else 2 + 2 * depth + ItemsSize(w, items, depth + 1)
    case Obj(members) => if members == [] then 2 else 2 + 2 * depth + MembersSize(w, members, depth + 1)
  }

  /** Each item with its line feed, indentation and comma. */
  function ItemsSize(w: Writer, items: seq<Tree>, depth: nat): nat {
    if items == [] then 0 else 2 + 2 * depth + Size(w, items[0], depth) + ItemsSize(w, items[1..], depth)
  }

  function MembersSize(w: Writer, members: seq<Member>, depth: nat): nat {
    if members == [] then 0 else MemberSize(w, members[0], depth) + MembersSize(w, members[1..], depth)
  }

  function MemberSize(w: Writer, member: Member, depth: nat): nat {
    6 + 2 * depth + EscapedBytes(member.key) + Size(w, member.value, depth)
  }

  lemma {:induction false} SpacesBytes(n: nat)
    ensures Utf8(Spaces(n)) == n
  {
    if n > 0 {
      SpacesBytes(n - 1);
      assert Spaces(n)[1..] == Spaces(n - 1);
    }
  }

  lemma NewLineBytes(depth: nat)
    ensures Utf8(NewLine(depth)) == 1 + 2 * depth
  {
    SpacesBytes(2 * depth);
    assert NewLine(depth)[1..] == Spaces(2 * depth);
  }

  lemma QuotedBytes(s: string)
    ensures Utf8(Quoted(s)) == 2 + EscapedBytes(s)
  {
    AsciiBytes("\"");
    Utf8OfConcat("\"" + Escaped(s), "\"");
    Utf8OfConcat("\"", Escaped(s));
  }

  lemma BracketedBytes(open: string, inner: string, depth: nat, close: string)
    requires |open| == |close| == 1 && Ascii(open) && Ascii(close)
    ensures Utf8(open + inner + NewLine(depth) + close) == 3 + 2 * depth + Utf8(inner)
  {
    AsciiBytes(open);
    AsciiBytes(close);
    NewLineBytes(depth);
    Utf8OfConcat(open + inner + NewLine(depth), close);
    Utf8OfConcat(open + inner, NewLine(depth));
    Utf8OfConcat(open, inner);
  }

  lemma LineBytes(depth: nat, item: string, rest: string)
    ensures Utf8(NewLine(depth) + item + rest) == 1 + 2 * depth + Utf8(item) + Utf8(rest)
    ensures Utf8("," + rest) == 1 + Utf8(rest)
  {
    AsciiBytes(",");
    NewLineBytes(depth);
    Utf8OfConcat(NewLine(depth) + item, rest);
    Utf8OfConcat(NewLine(depth), item);
    Utf8OfConcat(",", rest);
  }

  lemma NamedBytes(key: string, value: string)
    ensures Utf8(Quoted(key) + ": " + value) == 4 + EscapedBytes(key) + Utf8(value)
  {
    AsciiBytes(": ");
    QuotedBytes(key);
    Utf8OfConcat(Quoted(key) + ": ", value);
    Utf8OfConcat(Quoted(key), ": ");
  }

  /** The size is that of the text in UTF-8. */
  lemma {:induction false} RenderedSize(w: Writer, t: Tree, depth: nat)
    ensures Utf8(Render(w, t, depth)) == Size(w, t, depth)
  {
    match t
    case Leaf(_) =>
    case Str(text) => QuotedBytes(text);
    case List(items) =>
      if items == [] {
        AsciiBytes("[]");
      } else {
        RenderedItemsSize(w, items, depth + 1);
        BracketedBytes("[", RenderItems(w, items, depth + 1), depth, "]");
      }
    case Obj(members) =>
      if members == [] {
        AsciiBytes("{}");
      } else {
        RenderedMembersSize(w, members, depth + 1);
        BracketedBytes("{", RenderMembers(w, members, depth + 1), depth, "}");
      }
  }

  lemma {:induction false} RenderedItemsSize(w: Writer, items: seq<Tree>, depth: nat)
    requires items != []
    ensures Utf8(RenderItems(w, items, depth)) + 1 == ItemsSize(w, items, depth)
  {
    RenderedSize(w, items[0], depth);
    LineBytes(depth, Render(w, items[0], depth), if |items| == 1 then "" else "," + RenderItems(w, items[1..], depth));
    if |items| > 1 {
      RenderedItemsSize(w, items[1..], depth);
      LineBytes(depth, "", RenderItems(w, items[1..], depth));
    }
  }

  lemma {:induction false} RenderedMembersSize(w: Writer, members: seq<Member>, depth: nat)
    requires members != []
    ensures Utf8(RenderMembers(w, members, depth)) + 1 == MembersSize(w, members, depth)
  {
    RenderedSize(w, members[0].value, depth);
    var line := Quoted(members[0].key) + ": " + Render(w, members[0].value, depth);
    NamedBytes(members[0].key, Render(w, members[0].value, depth));
    LineBytes(depth, line, if |members| == 1 then "" else "," + RenderMembers(w, members[1..], depth));
    if |members| > 1 {
      RenderedMembersSize(w, members[1..], depth);
      LineBytes(depth, "", RenderMembers(w, members[1..], depth));
    }
  }

  lemma {:induction false} MembersSizeOfConcat(w: Writer, a: seq<Member>, b: seq<Member>, depth: nat)
    ensures MembersSize(w, a + b, depth) == MembersSize(w, a, depth) + MembersSize(w, b, depth)
  {
    if a == [] {
      assert a + b == b;
    } else {
      var (rest, whole) := (a[1..], a + b);
      MembersSizeOfConcat(w, rest, b, depth);
      assert whole[1..] == rest + b && whole[0] == a[0];
    }
  }

  predicate MembersWithin(w: Writer, members: seq<Member>, depth: nat, bound: nat) {
    forall i :: 0 <= i < |members| ==> MemberSize(w, members[i], depth) <= bound
  }

  lemma {:induction false} MembersAtMost(w: Writer, members: seq<Member>, depth: nat, bound: nat)
    requires MembersWithin(w, members, depth, bound)
    ensures MembersSize(w, members, depth) <= bound * |members|
  {
    if members != [] {
      assert MembersWithin(w, members[1..], depth, bound);
      MembersAtMost(w, members[1..], depth, bound);
      OneMoreBounded(bound, |members[1..]|);
    }
  }

  predicate ItemsWithin(w: Writer, items: seq<Tree>, depth: nat, bound: nat) {
    forall i :: 0 <= i < |items| ==> 2 + 2 * depth + Size(w, items[i], depth) <= bound
  }

  lemma {:induction false} ItemsAtMost(w: Writer, items: seq<Tree>, depth: nat, bound: nat)
    requires ItemsWithin(w, items, depth, bound)
    ensures ItemsSize(w, items, depth) <= bound * |items|
  {
    if items != [] {
      assert ItemsWithin(w, items[1..], depth, bound);
      ItemsAtMost(w, items[1..], depth, bound);
      OneMoreBounded(bound, |items[1..]|);
    }
  }

  /** Values without parts, written out: nothing is put inside an empty list. */
  lemma SimpleValuesAreWritten(w: Writer, depth: nat, n: int, x: real)
    ensures Render(w, Leaf(Null), depth) == "null"
    ensures Render(w, Leaf(Bool(true)), depth) == "true" && Render(w, Leaf(Bool(false)), depth) == "false"
    ensures Render(w, Leaf(Int(n)), depth) == w.integer(n) && Render(w, Leaf(Float(x)), depth) == w.float(x)
    ensures Render(w, List([]), depth) == "[]" && Render(w, Obj([]), depth) == "{}" && Render(w, Str("x"), depth) == "\"x\""
  {
    assert "x"[1..] == [];
  }

  lemma FirstIndents()
    ensures NewLine(0) == "\n" && NewLine(1) == "\n  " && NewLine(2) == "\n    "
  {
    assert Spaces(2) == " " + Spaces(1) && Spaces(1) == " " + Spaces(0);
    assert Spaces(4) == " " + Spaces(3) && Spaces(3) == " " + Spaces(2);
  }

  /** A list, written out: one item a line, two spaces a level, a comma after each but the last. */
  lemma AListIsWritten(w: Writer)
    ensures Render(w, List([Leaf(Null), Leaf(Null)]), 0) == "[\n  null,\n  null\n]"
  {
    var (one, two) := ([Leaf(Null)], [Leaf(Null), Leaf(Null)]);
    FirstIndents();
    assert two[1..] == one;
    assert RenderItems(w, one, 1) == "\n  null";
    assert RenderItems(w, two, 1) == "\n  null,\n  null";
  }

  lemma TwoMembers(w: Writer, a: Member, b: Member, depth: nat)
    ensures RenderMembers(w, [a, b], depth) ==
            NewLine(depth) + (Quoted(a.key) + ": " + Render(w, a.value, depth))
            + ("," + (NewLine(depth) + (Quoted(b.key) + ": " + Render(w, b.value, depth))))
  {
    assert [a, b][1..] == [b];
    assert RenderMembers(w, [b], depth) == NewLine(depth) + (Quoted(b.key) + ": " + Render(w, b.value, depth)) + "";
  }

  lemma QuotedLetter(c: char)
    requires 'a' <= c <= 'z'
    ensures Quoted([c]) == "\"" + [c] + "\""
  {
    assert [c][1..] == [] && EscapedChar(c) == [c];
    assert Escaped([c]) == [c] + [];
  }

  /** An object, written out one level deep: one member a line, a colon and a space after each name. */
  lemma AnObjectIsWritten(w: Writer)
    ensures Render(w, Obj([Member("a", Leaf(Null)), Member("b", Leaf(Null))]), 1) ==
            "{" + (NewLine(2) + ("\"" + ['a'] + "\"" + ": " + "null") + ("," + (NewLine(2) + ("\"" + ['b'] + "\"" + ": " + "null"))))
            + NewLine(1) + "}"
  {
    TwoMembers(w, Member("a", Leaf(Null)), Member("b", Leaf(Null)), 2);
    QuotedLetter('a');
    QuotedLetter('b');
  }
}
