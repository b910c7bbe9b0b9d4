/** The JSON tree (`JsonElement`), its printer, and the lexical classes printer and reader share. */
module JsonTree {
  import opened Decimals
  import opened OrderedMap

  /** The element types the reader can build; an object's members are an ordered map. */
  datatype Json =
    | Object(members: seq<Entry<Json>>)
    | Array(items: seq<Json>)
    | String(text: string)
    | Int(n: int)
    | Bool(b: bool)
    | Null

  const INT_MIN := -0x8000_0000
  const INT_MAX := 0x7FFF_FFFF

  /** What C++ types guarantee of every element: `int` range, and map order of the keys. */
  ghost predicate WellFormed(t: Json) {
    match t
    case Object(ms) => Sorted(false, ms) && forall e | e in ms :: WellFormed(e.value)
    case Array(xs) => forall x | x in xs :: WellFormed(x)
    case Int(n) => INT_MIN <= n <= INT_MAX
    case _ => true
  }

  // ----- Decimal numbers -----

  /** `ostream << int`. */
  function Decimal(n: int): string {
    if n < 0 then "-" + Digits(-n) else Digits(n)
  }

  // ----- Strings -----

  /** A raw string body that the scanner cannot leave early: every backslash is paired
      and no bare quote occurs. */
  predicate Escaped(s: string) {
    s == "" || if s[0] == '\\' then |s| >= 2 && Escaped(s[2..]) else s[0] != '"' && Escaped(s[1..])
  }

  const BACKSPACE: char := 8 as char
  const FORM_FEED: char := 12 as char

  /** The blanks `scan` starts skipping at; a carriage return is not one of them. */
  predicate ScanSpace(c: char) {
    c == ' ' || c == '\n' || c == '\t' || c == BACKSPACE || c == FORM_FEED
  }

  /** The blanks `skipSpaces` passes once it has started. */
  predicate SkipSpace(c: char) {
    ScanSpace(c) || c == '\r'
  }

  /** Blank text that may stand between tokens. */
  predicate Gap(g: string) {
    (forall c | c in g :: SkipSpace(c)) && (g == "" || ScanSpace(g[0]))
  }

  // ----- The printer -----

  function ToString(t: Json): string {
    match t
    case Object(ms) => "{" + MembersText(ms) + "}"
    case Array(xs) => "[" + ItemsText(xs) + "]"
    case String(s) => "\"" + s + "\""
    case Int(n) => Decimal(n)
    case Bool(b) => if b then "true" else "false"
    case Null => "null"
  }

  function ItemsText(xs: seq<Json>): string {
    if xs == [] then "" else ToString(xs[0]) + (if |xs| == 1 then "" else "," + ItemsText(xs[1..]))
  }

  function MembersText(ms: seq<Entry<Json>>): string {
    if ms == [] then ""
    else "\"" + ms[0].key + "\":" + ToString(ms[0].value)
         + (if |ms| == 1 then "" else "," + MembersText(ms[1..]))
  }

  // ----- The same text, token by token -----

  function Tokens(t: Json): seq<string>
  {
    match t
    case Object(ms) => ["{"] + MemberTokens(ms) + ["}"]
    case Array(xs) => ["["] + ItemTokens(xs) + ["]"]
    case _ => [ToString(t)]
  }

  function ItemTokens(xs: seq<Json>): seq<string> {
    if xs == [] then [] else Tokens(xs[0]) + (if |xs| == 1 then [] else [","] + ItemTokens(xs[1..]))
  }

  function MemberTokens(ms: seq<Entry<Json>>): seq<string>
    decreases ms, 1
  {
    if ms == [] then []
    else ["\"" + ms[0].key + "\""] + ([":"] + (Tokens(ms[0].value) + LaterTokens(ms)))
  }

  /** What follows the first member's value among the tokens. */
  function LaterTokens(ms: seq<Entry<Json>>): seq<string>
    requires ms != []
    decreases ms, 0
  {
    if |ms| == 1 then [] else [","] + MemberTokens(ms[1..])
  }

  /** The tokens in order, token i followed by gap i. */
  function Lay(ts: seq<string>, gaps: seq<string>): string
    requires |gaps| == |ts|
  {
    if ts == [] then "" else ts[0] + gaps[0] + Lay(ts[1..], gaps[1..])
  }

  function NoGaps(n: nat): seq<string>
  {
    seq(n, _ => "")
  }

  lemma {:induction false} LayConcat(a: seq<string>, b: seq<string>, ga: seq<string>, gb: seq<string>)
    requires |ga| == |a| && |gb| == |b|
    ensures Lay(a + b, ga + gb) == Lay(a, ga) + Lay(b, gb)
  {
    if a == [] {
      assert a + b == b && ga + gb == gb;
    } else {
      assert (a + b)[1..] == a[1..] + b && (ga + gb)[1..] == ga[1..] + gb;
      LayConcat(a[1..], b, ga[1..], gb);
      calc {
        Lay(a + b, ga + gb);
        a[0] + ga[0] + Lay(a[1..] + b, ga[1..] + gb);
        a[0] + ga[0] + (Lay(a[1..], ga[1..]) + Lay(b, gb));
        Lay(a, ga) + Lay(b, gb);
      }
    }
  }

  lemma LayOne(t: string)
    ensures Lay([t], NoGaps(1)) == t
  {
    assert Lay([t], NoGaps(1)) == t + "" + Lay([], []);
  }

  lemma LayPlain(a: seq<string>, b: seq<string>)
    ensures Lay(a + b, NoGaps(|a + b|)) == Lay(a, NoGaps(|a|)) + Lay(b, NoGaps(|b|))
  {
    assert NoGaps(|a + b|) == NoGaps(|a|) + NoGaps(|b|);
    LayConcat(a, b, NoGaps(|a|), NoGaps(|b|));
  }

  /** Laid out without gaps, the tokens of a tree are exactly what `toString` prints. */
  lemma {:induction false} PrintIsLay(t: Json)
    ensures Lay(Tokens(t), NoGaps(|Tokens(t)|)) == ToString(t)
    decreases t, 1
  {
    match t
    case Object(ms) =>
      PrintMembersIsLay(ms);
      LayPlain(["{"], MemberTokens(ms));
      LayPlain(["{"] + MemberTokens(ms), ["}"]);
      LayOne("{");
      LayOne("}");
    case Array(xs) =>
      PrintItemsIsLay(xs);
      LayPlain(["["], ItemTokens(xs));
      LayPlain(["["] + ItemTokens(xs), ["]"]);
      LayOne("[");
      LayOne("]");
    case _ =>
      LayOne(ToString(t));
  }

  lemma {:induction false} PrintItemsIsLay(xs: seq<Json>)
    ensures Lay(ItemTokens(xs), NoGaps(|ItemTokens(xs)|)) == ItemsText(xs)
    decreases xs, 0
  {
    if xs != [] {
      PrintIsLay(xs[0]);
      if |xs| == 1 {
        assert ItemTokens(xs) == Tokens(xs[0]);
      } else {
        PrintItemsIsLay(xs[1..]);
        LayPlain([","], ItemTokens(xs[1..]));
        LayPlain(Tokens(xs[0]), [","] + ItemTokens(xs[1..]));
        LayOne(",");
      }
    }
  }

  lemma LayMember(name: string, v: seq<string>, later: seq<string>)
    ensures var ts := [name] + ([":"] + (v + later));
            Lay(ts, NoGaps(|ts|)) == name + (":" + (Lay(v, NoGaps(|v|)) + Lay(later, NoGaps(|later|))))
  {
    hide Lay;
    LayOne(name);
    LayOne(":");
    LayPlain([name], [":"] + (v + later));
    LayPlain([":"], v + later);
    LayPlain(v, later);
  }

  lemma {:induction false} PrintMembersIsLay(ms: seq<Entry<Json>>)
    ensures Lay(MemberTokens(ms), NoGaps(|MemberTokens(ms)|)) == MembersText(ms)
    decreases ms, 0
  {
    if ms != [] {
      hide Lay, Tokens, ToString;
      PrintIsLay(ms[0].value);
      LayMember("\"" + ms[0].key + "\"", Tokens(ms[0].value), LaterTokens(ms));
      if |ms| == 1 {
        LayNone();
      } else {
        PrintMembersIsLay(ms[1..]);
        LayPlain([","], MemberTokens(ms[1..]));
        LayOne(",");
      }
    }
  }

  lemma LayNone()
    ensures Lay([], NoGaps(0)) == ""
  {
  }
}
