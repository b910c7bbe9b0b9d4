/** Reading back what `toString` printed, with any blanks between tokens: for every
tree, the reader rebuilds it if and only if the tree lies in the readable fragment. */
module JsonRoundTrip {
  import opened Decimals
  import opened OrderedMap
  import opened JsonTree
  import opened JsonMachine

  /** The values the reader can take back. */
  ghost predicate Readable(t: Json) {
    match t
    case Object(ms) =>
      ms != [] && forall e | e in ms :: e.key != "" && Escaped(e.key) && Readable(e.value)
    case Array(xs) => forall x | x in xs :: Readable(x)
    case String(s) => Escaped(s)
    case Int(n) => Decimal(n)[0] != '5'
    case Bool(b) => b
    case Null => true
  }

  /** Every string and key body in the tree is well escaped. */
  ghost predicate StringsEscaped(t: Json) {
    match t
    case Object(ms) => forall e | e in ms :: Escaped(e.key) && StringsEscaped(e.value)
    case Array(xs) => forall x | x in xs :: StringsEscaped(x)
    case String(s) => Escaped(s)
    case _ => true
  }

  ghost predicate Gaps(gs: seq<string>) {
    forall g | g in gs :: Gap(g)
  }

  /** The machine is about to read a value into its innermost container. */
  ghost predicate Expecting(c: Config) {
    && Ready(c)
    && TakesValue(c.legal)
    && if Top(c.work.frames).node.Object? then c.key != "" else c.key == ""
  }

  ghost predicate Ready(c: Config) {
    && c.started && !c.error && c.fault.NoFault?
    && c.work.Open? && c.work.frames != []
    && (Top(c.work.frames).node.Object? || Top(c.work.frames).node.Array?)
  }

  predicate TakesValue(m: Mask) {
    m.InArrayMask? || m.AfterSeparatorMask? || m.AfterColonMask?
  }

  /** After a value: a separator or a closing bracket may come. */
  predicate Finishes(m: Mask) {
    m.AfterCloseMask? || m.AfterStringMask? || m.AfterScalarMask?
  }

  function LegalAfter(t: Json): Mask {
    match t
    case Object(_) => AfterCloseMask
    case Array(_) => AfterCloseMask
    case String(_) => AfterStringMask
    case _ => AfterScalarMask
  }

  /** The machine with its innermost container replaced and no key pending. */
  function Fill(c: Config, node: Json, legal: Mask): (r: Config)
    requires c.work.Open? && c.work.frames != []
    ensures r.work.Open? && r.work.frames != []
  {
    c.(work := Open(SetTop(c.work.frames, node)), key := "", legal := legal)
  }

  /** The machine once `t` has been read. */
  function Took(c: Config, t: Json): Config
    requires c.work.Open? && c.work.frames != []
  {
    Fill(c, AddChild(Top(c.work.frames).node, c.key, t), LegalAfter(t))
  }

  /** The machine once a container has been opened for the value to come. */
  function Entered(c: Config, empty: Json): (r: Config)
    requires c.work.Open? && c.work.frames != []
    ensures r.work.Open? && r.work.frames != []
  {
    c.(work := Open(c.work.frames + [Frame(c.key, empty)]), key := "",
       legal := if empty.Object? then InObjectMask else InArrayMask)
  }

  /** The text can be followed by this: a token that may come after a value. */
  predicate Follows(more: string) {
    more != "" && (more[0] == ',' || more[0] == ']' || more[0] == '}')
  }

  predicate Solid(more: string) {
    more != "" && !SkipSpace(more[0])
  }

  // ----- Blanks and single tokens -----

  lemma {:induction false} DropGap(g: string, more: string)
    requires forall c | c in g :: SkipSpace(c)
    requires more == "" || Solid(more)
    ensures DropSpaces(g + more) == more
  {
    if g == "" {
      assert g + more == more;
    } else {
      assert g[0] in g;
      assert (g + more)[1..] == g[1..] + more;
      DropGap(g[1..], more);
    }
  }

  lemma GapStart(g: string, more: string)
    requires Gap(g) && (more == "" || Solid(more))
    ensures TokenStart(g + more) == more
  {
    DropGap(g, more);
    if g == "" {
      assert g + more == more;
    }
  }

  /** Blanks before a token change nothing. */
  lemma GapSkip(c: Config, g: string, more: string)
    requires Shaped(c.work) && !c.error && c.fault.NoFault? && Gap(g) && Solid(more)
    requires c.rest == g + more
    ensures Run(c) == Run(c.(rest := more))
  {
    hide Dispatch;
    GapStart(g, more);
    assert TokenStart(more) == more;
    assert Step(c) == Step(c.(rest := more));
  }

  /** A round that leaves `g + more` unread, seen past the blanks. */
  lemma Onward(c: Config, d: Config, g: string, more: string)
    requires Shaped(c.work) && Live(c) && Step(c) == d
    requires !d.error && d.fault.NoFault? && Gap(g) && Solid(more) && d.rest == g + more
    ensures Run(c) == Run(d.(rest := more))
  {
    hide Step;
    GapSkip(d, g, more);
  }

  /** A round that flags an error ends the run. */
  lemma Rejected(c: Config)
    requires Shaped(c.work) && Live(c) && Step(c).error
    ensures Run(c).error
  {
    hide Step;
    assert Run(c) == Run(Step(c));
  }

  predicate Punctuation(t: Token) {
    t.ObjectBegin? || t.ObjectEnd? || t.ArrayBegin? || t.ArrayEnd? || t.Separator? || t.Colon?
  }

  /** The unread text is the one-character token `ch`, then a gap, then `more`. */
  ghost predicate Marked(s: string, ch: char, g: string, more: string) {
    s != "" && s[0] == ch && s[1..] == g + more && Gap(g) && Solid(more)
  }

  lemma MarkedText(s: string, ch: char, g: string, more: string)
    requires s == [ch] + g + more && Gap(g) && Solid(more)
    ensures Marked(s, ch, g, more)
  {
  }

  /** A legal one-character token is dispatched and the blanks after it are passed over. */
  lemma Mark(c: Config, g: string, more: string)
    requires Shaped(c.work) && Live(c) && !SkipSpace(c.rest[0])
    requires Allows(c.legal, TokenAt(c.rest))
    requires Punctuation(TokenAt(c.rest))
    requires Marked(c.rest, c.rest[0], g, more)
    ensures var d := Dispatch(c, TokenAt(c.rest));
            && Shaped(d.work)
            && (if d.error then Run(c).error
                else d.fault.NoFault? ==> Run(c) == Run(d.(rest := more)))
  {
    hide AddChild, Run, OpenContainer, CloseContainer;
    var d := Dispatch(c, TokenAt(c.rest));
    assert Step(c) == d && d.rest == c.rest[1..];
    if d.error {
      Rejected(c);
    } else if d.fault.NoFault? {
      Onward(c, d, g, more);
    }
  }

  lemma {:induction false} QuoteFound(s: string, tail: string)
    requires Escaped(s)
    ensures QuoteAt(s + "\"" + tail) == |s|
  {
    var all := s + "\"" + tail;
    if s != "" {
      var step := if s[0] == '\\' then 2 else 1;
      assert all[step..] == s[step..] + "\"" + tail;
      QuoteFound(s[step..], tail);
    }
  }

  lemma {:induction false} DigitsEnd(s: string, more: string)
    requires forall c | c in s :: IsDigit(c)
    requires more == "" || !IsDigit(more[0])
    ensures DigitRun(s + more) == |s|
  {
    if s == "" {
      assert s + more == more;
    } else {
      assert s[0] in s;
      assert (s + more)[1..] == s[1..] + more;
      DigitsEnd(s[1..], more);
    }
  }

  lemma LayFirst(ts: seq<string>, gs: seq<string>, more: string)
    requires |gs| == |ts| && ts != [] && ts[0] != ""
    ensures Lay(ts, gs) + more != "" && (Lay(ts, gs) + more)[0] == ts[0][0]
  {
  }

  lemma FirstToken(t: Json)
    ensures Tokens(t) != [] && Tokens(t)[0] != "" && ToString(t) != ""
    ensures Tokens(t)[0][0] == ToString(t)[0] && !SkipSpace(ToString(t)[0])
  {
    match t
    case Int(n) =>
      var size := if n < 0 then -n else n;
      DigitsValue(size);
      assert Decimal(n)[0] == '-' || Decimal(n)[0] in Digits(size);
    case _ =>
  }

  /** A token's first character is never a blank. */
  lemma FirstSolid(t: Json, gs: seq<string>, more: string)
    requires |gs| == |Tokens(t)|
    ensures Solid(Lay(Tokens(t), gs) + more)
    ensures (Lay(Tokens(t), gs) + more)[0] == ToString(t)[0]
  {
    hide Lay, Tokens, ToString;
    FirstToken(t);
    LayFirst(Tokens(t), gs, more);
  }

  lemma DecimalShape(n: int)
    requires INT_MIN <= n <= INT_MAX
    ensures var d := Decimal(n);
            && d != "" && (d[0] == '-' || IsDigit(d[0]))
            && (forall ch | ch in d[1..] :: IsDigit(ch))
            && Stoi(d) == (true, n)
  {
    var s := Digits(if n < 0 then -n else n);
    DigitsValue(if n < 0 then -n else n);
    assert s[0] in s;
    assert forall ch | ch in Decimal(n)[1..] :: ch in s;
    if n < 0 {
      assert Decimal(n)[1..] == s;
    }
  }

  // ----- Scalars: one round each -----

  lemma NumberText(c: Config, n: int, tail: string)
    requires Shaped(c.work) && INT_MIN <= n <= INT_MAX
    requires c.rest == Decimal(n) + tail && Decimal(n)[0] != '5'
    requires tail != "" && !IsDigit(tail[0]) && tail[0] != '.'
    ensures TokenAt(c.rest) == NumberToken && ReadNumber(c) == AddScalar(c, Int(n)).(rest := tail)
  {
    hide AddScalar, Stoi;
    var d := Decimal(n);
    DecimalShape(n);
    assert c.rest[1..] == d[1..] + tail;
    DigitsEnd(d[1..], tail);
    assert c.rest[..|d|] == d;
  }

  /** `scan` knows no number that starts with a five. */
  lemma FiveRefused(c: Config)
    requires Shaped(c.work) && Live(c) && c.rest[0] == '5'
    ensures Step(c).error
  {
    hide Dispatch;
  }

  lemma StepNumber(c: Config, n: int, tail: string)
    requires Expecting(c) && c.rest != "" && TokenAt(c.rest) == NumberToken
    requires ReadNumber(c) == AddScalar(c, Int(n)).(rest := tail)
    ensures Step(c) == Took(c, Int(n)).(rest := tail)
  {
    hide AddChild, ReadNumber, ReadString, OpenContainer, CloseContainer, DropSpaces;
  }

  lemma StepInt(c: Config, n: int, tail: string)
    requires Expecting(c) && INT_MIN <= n <= INT_MAX
    requires c.rest == Decimal(n) + tail
    requires tail != "" && !IsDigit(tail[0]) && tail[0] != '.'
    ensures Live(c) && if Decimal(n)[0] == '5' then Step(c).error else Step(c) == Took(c, Int(n)).(rest := tail)
  {
    hide Step, Took, ReadNumber;
    DecimalShape(n);
    if Decimal(n)[0] == '5' {
      FiveRefused(c);
    } else {
      NumberText(c, n, tail);
      StepNumber(c, n, tail);
    }
  }

  lemma ScalarRest(c: Config, v: Json, more: string)
    requires Shaped(c.work)
    ensures AddScalar(c.(rest := more), v) == AddScalar(c, v).(rest := more)
  {
    hide AddChild;
  }

  /** The scanner will find `text` between quotes, and then `more` past the blanks. */
  ghost predicate Quoted(s: string, text: string, more: string) {
    && s != "" && s[0] == '"'
    && Escaped(text)
    && var q := QuoteAt(s[1..]);
    && q >= 0 && s[1..][..q] == text && DropSpaces(s[1..][q + 1..]) == more
  }

  lemma QuotedText(s: string, text: string, g: string, more: string)
    requires Escaped(text) && Gap(g) && Solid(more)
    requires s == "\"" + text + "\"" + g + more
    ensures Quoted(s, text, more)
  {
    hide Escaped, QuoteAt;
    var body := s[1..];
    assert body == text + "\"" + (g + more);
    QuoteFound(text, g + more);
    assert body[..|text|] == text;
    assert body[|text| + 1..] == g + more;
    DropGap(g, more);
  }

  lemma StringText(c: Config, text: string, more: string)
    requires Shaped(c.work) && Quoted(c.rest, text, more) && Follows(more)
    ensures ReadString(c) == AddScalar(c, String(text)).(rest := more)
  {
    hide AddScalar, Escaped, QuoteAt, DropSpaces;
    ScalarRest(c, String(text), more);
  }

  lemma KeyText(c: Config, key: string, more: string)
    requires Shaped(c.work) && Quoted(c.rest, key, more) && c.key == "" && more != "" && more[0] == ':'
    ensures ReadString(c) == c.(rest := more, key := key)
  {
    hide AddScalar, Escaped, QuoteAt, DropSpaces;
  }

  lemma StepText(c: Config, text: string, more: string)
    requires Expecting(c) && Quoted(c.rest, text, more) && Follows(more)
    ensures Live(c) && Step(c) == Took(c, String(text)).(rest := more)
  {
    hide AddChild, ReadNumber, ReadString, OpenContainer, CloseContainer, Escaped, QuoteAt, DropSpaces;
    StringText(c, text, more);
  }

  lemma StepWord(c: Config, t: Json, tail: string)
    requires Expecting(c) && (t.Bool? || t.Null?)
    requires c.rest == ToString(t) + tail
    ensures Live(c) && if t == Bool(false) then Step(c).error else Step(c) == Took(c, t).(rest := tail)
  {
    hide AddChild, ReadString, ReadNumber, OpenContainer, CloseContainer, DropSpaces;
    if t != Bool(false) {
      assert c.rest[..4] == ToString(t);
    }
  }

  // ----- Values, items and members -----

  lemma TailStart(g: string, more: string)
    requires Gap(g) && Follows(more)
    ensures var tail := g + more; tail != "" && !IsDigit(tail[0]) && tail[0] != '.'
  {
  }

  lemma LayLast(ts: seq<string>, gs: seq<string>)
    requires |ts| == 1 == |gs|
    ensures Lay(ts, gs) == ts[0] + gs[0]
  {
    assert Lay(ts[1..], gs[1..]) == "";
  }

  lemma LayScalar(t: Json, gs: seq<string>)
    requires !t.Object? && !t.Array? && |gs| == |Tokens(t)|
    ensures |gs| == 1 && Lay(Tokens(t), gs) == ToString(t) + gs[0]
  {
    LayLast(Tokens(t), gs);
  }

  ghost predicate Keyless(c: Config) {
    Ready(c) && Top(c.work.frames).node.Object? && c.key == "" && TakesValue(c.legal)
  }

  lemma KeylessWord(c: Config)
    requires Keyless(c) && Solid(c.rest)
    requires var t := TokenAt(c.rest); IsValueToken(t) && !t.StringToken? && !t.NumberToken?
    ensures Step(c).error
  {
    hide AddChild, DropSpaces, ReadString, ReadNumber, CloseContainer;
  }

  lemma KeylessText(c: Config, text: string, more: string)
    requires Keyless(c) && Quoted(c.rest, text, more) && Follows(more)
    ensures Live(c) && Step(c).error
  {
    hide AddChild, DropSpaces, ReadString, ReadNumber, CloseContainer, OpenContainer, Escaped, QuoteAt;
    StringText(c, text, more);
  }

  lemma KeylessNumber(c: Config, n: int, tail: string)
    requires Keyless(c) && c.rest != "" && TokenAt(c.rest) == NumberToken
    requires ReadNumber(c) == AddScalar(c, Int(n)).(rest := tail)
    ensures Step(c).error
  {
    hide AddChild, DropSpaces, ReadString, ReadNumber, CloseContainer, OpenContainer;
  }

  lemma KeylessInt(c: Config, n: int, tail: string)
    requires Keyless(c) && INT_MIN <= n <= INT_MAX && c.rest == Decimal(n) + tail
    requires tail != "" && !IsDigit(tail[0]) && tail[0] != '.'
    ensures Live(c) && Step(c).error
  {
    hide Step, ReadNumber;
    DecimalShape(n);
    if Decimal(n)[0] == '5' {
      FiveRefused(c);
    } else {
      NumberText(c, n, tail);
      KeylessNumber(c, n, tail);
    }
  }

  /** With no key pending inside an object, any value is refused. */
  lemma KeylessValue(c: Config, t: Json, gs: seq<string>, more: string)
    requires Keyless(c)
    requires WellFormed(t) && StringsEscaped(t) && |gs| == |Tokens(t)| && Gaps(gs) && Follows(more)
    requires c.rest == Lay(Tokens(t), gs) + more
    ensures Run(c).error
  {
    hide Step, Run, Lay, Tokens, Quoted, Escaped;
    FirstSolid(t, gs, more);
    if t.Object? || t.Array? || t.Null? || t.Bool? {
      FirstClass(t);
      KeylessWord(c);
    } else {
      LayScalar(t, gs);
      if t.String? {
        QuotedText(c.rest, t.text, gs[0], more);
        KeylessText(c, t.text, more);
      } else {
        TailStart(gs[0], more);
        assert c.rest == Decimal(t.n) + (gs[0] + more);
        KeylessInt(c, t.n, gs[0] + more);
      }
    }
    Rejected(c);
  }

  lemma FirstClass(t: Json)
    requires t.Object? || t.Array? || t.Null? || t.Bool?
    ensures ToString(t) != "" && var k := Classify(ToString(t)[0]);
            IsValueToken(k) && !k.StringToken? && !k.NumberToken?
  {
  }

  lemma Scalar(c: Config, t: Json, g: string, more: string)
    requires Expecting(c) && WellFormed(t) && StringsEscaped(t) && !t.Object? && !t.Array?
    requires Gap(g) && Follows(more)
    requires c.rest == ToString(t) + g + more
    ensures if Readable(t) then Run(c) == Run(Took(c, t).(rest := more)) else Run(c).error
  {
    hide Step, Took;
    TailStart(g, more);
    assert c.rest == ToString(t) + (g + more);
    match t {
      case String(s) =>
        QuotedText(c.rest, s, g, more);
        StepText(c, s, more);
      case Int(n) => StepInt(c, n, g + more);
      case _ => StepWord(c, t, g + more);
    }
    if !Readable(t) {
      Rejected(c);
    } else if t.String? {
      assert Run(c) == Run(Step(c));
    } else {
      TookLive(c, t);
      Onward(c, Took(c, t).(rest := g + more), g, more);
      assert Took(c, t).(rest := g + more).(rest := more) == Took(c, t).(rest := more);
    }
  }

  lemma TookLive(c: Config, t: Json)
    requires Expecting(c)
    ensures Shaped(Took(c, t).work) && !Took(c, t).error && Took(c, t).fault.NoFault?
  {
  }

  lemma DispatchOpen(c: Config, empty: Json)
    requires Expecting(c) && (empty == Object([]) || empty == Array([]))
    requires c.rest != "" && c.rest[0] == (if empty.Object? then '{' else '[')
    ensures Allows(c.legal, TokenAt(c.rest))
    ensures Dispatch(c, TokenAt(c.rest)) == Entered(c, empty).(rest := c.rest[1..])
  {
    hide AddScalar, ReadString, ReadNumber, CloseContainer;
  }

  lemma Enter(c: Config, empty: Json, g: string, more: string)
    requires Expecting(c) && (empty == Object([]) || empty == Array([]))
    requires Marked(c.rest, if empty.Object? then '{' else '[', g, more)
    ensures Run(c) == Run(Entered(c, empty).(rest := more))
  {
    hide Gap, Run, Step, Dispatch;
    DispatchOpen(c, empty);
    Mark(c, g, more);
  }

  lemma DispatchClose(c: Config)
    requires Ready(c) && c.rest != ""
    requires c.rest[0] == (if Top(c.work.frames).node.Object? then '}' else ']')
    ensures Dispatch(c, TokenAt(c.rest))
         == c.(work := Pop(c.work.frames), legal := AfterCloseMask, rest := c.rest[1..])
  {
    hide Pop, AddScalar, ReadString, ReadNumber, OpenContainer;
  }

  lemma Leave(c: Config, g: string, more: string)
    requires Ready(c)
    requires Allows(c.legal, if Top(c.work.frames).node.Object? then ObjectEnd else ArrayEnd)
    requires Marked(c.rest, if Top(c.work.frames).node.Object? then '}' else ']', g, more)
    ensures Run(c) == Run(c.(work := Pop(c.work.frames), legal := AfterCloseMask, rest := more))
  {
    hide Gap, Pop, Run, Step, Dispatch;
    DispatchClose(c);
    Mark(c, g, more);
  }

  /** Closing what was opened hands the finished container to the enclosing one. */
  lemma EnterLeave(c: Config, t: Json, empty: Json, legal: Mask)
    requires Expecting(c) && (t.Object? || t.Array?)
    ensures var e := Fill(Entered(c, empty), t, legal);
            Pop(e.work.frames) == Took(c, t).work
  {
    var fs := c.work.frames;
    var e := Fill(Entered(c, empty), t, legal);
    assert e.work.frames == fs + [Frame(c.key, t)];
    assert e.work.frames[..|fs|] == fs;
  }

  /** The closing bracket of a container opened at `c` and filled up to `t`. */
  lemma Finish(c: Config, t: Json, empty: Json, legal: Mask, g: string, more: string, closing: string)
    requires Expecting(c) && (t.Object? || t.Array?)
    requires Marked(closing, if t.Object? then '}' else ']', g, more)
    requires Allows(legal, if t.Object? then ObjectEnd else ArrayEnd)
    ensures Run(Fill(Entered(c, empty), t, legal).(rest := closing)) == Run(Took(c, t).(rest := more))
  {
    hide Run, Pop, Took, Marked;
    var e := Fill(Entered(c, empty), t, legal).(rest := closing);
    Leave(e, g, more);
    EnterLeave(c, t, empty, legal);
    TookShape(c, t, Fill(Entered(c, empty), t, legal), more);
  }

  lemma TookShape(c: Config, t: Json, e: Config, more: string)
    requires Expecting(c) && (t.Object? || t.Array?)
    requires e.work.Open? && e.work.frames != [] && Took(c, t).work == Pop(e.work.frames)
    requires e == c.(work := e.work, key := "", legal := e.legal)
    ensures Took(c, t).(rest := more) == e.(work := Pop(e.work.frames), legal := AfterCloseMask, rest := more)
  {
  }

  lemma Comma(c: Config, g: string, more: string)
    requires Ready(c) && Finishes(c.legal) && Marked(c.rest, ',', g, more)
    ensures Run(c) == Run(c.(legal := AfterSeparatorMask, rest := more))
  {
    hide Run, Step, Gap;
    Mark(c, g, more);
  }

  lemma LayCons(t: string, ts: seq<string>, gs: seq<string>)
    requires |gs| == 1 + |ts|
    ensures Lay([t] + ts, gs) == t + gs[0] + Lay(ts, gs[1..])
  {
    assert ([t] + ts)[1..] == ts;
  }

  lemma LaySplit(a: seq<string>, b: seq<string>, gs: seq<string>)
    requires |gs| == |a + b|
    ensures Lay(a + b, gs) == Lay(a, gs[..|a|]) + Lay(b, gs[|a|..])
  {
    assert gs == gs[..|a|] + gs[|a|..];
    LayConcat(a, b, gs[..|a|], gs[|a|..]);
  }

  /** `open middle close`, with the gap after each bracket. */
  lemma LayBracket(open: string, mid: seq<string>, close: string, gs: seq<string>)
    requires |gs| == |mid| + 2
    ensures Lay([open] + mid + [close], gs)
         == open + gs[0] + (Lay(mid, gs[1..|mid| + 1]) + (close + gs[|mid| + 1]))
  {
    hide Lay;
    assert [open] + mid + [close] == [open] + (mid + [close]);
    LayCons(open, mid + [close], gs);
    var inner := gs[1..];
    LaySplit(mid, [close], inner);
    LayLast([close], inner[|mid|..]);
    assert inner[..|mid|] == gs[1..|mid| + 1];
  }

  /** Reading a value: the machine ends up having taken it exactly when it is readable. */
  lemma {:induction false} Value(c: Config, t: Json, gs: seq<string>, more: string)
    requires Expecting(c) && WellFormed(t) && StringsEscaped(t)
    requires |gs| == |Tokens(t)| && Gaps(gs) && Follows(more)
    requires c.rest == Lay(Tokens(t), gs) + more
    ensures if Readable(t) then Run(c) == Run(Took(c, t).(rest := more)) else Run(c).error
    decreases t, 1
  {
    hide Run, Step;
    match t
    case Array(xs) => ArrayValue(c, xs, gs, more);
    case Object(ms) => ObjectValue(c, ms, gs, more);
    case _ =>
      LayLast(Tokens(t), gs);
      Scalar(c, t, gs[0], more);
  }

  lemma ArrayInner(xs: seq<Json>, gs: seq<string>)
    requires |gs| == |Tokens(Array(xs))|
    ensures var n := |ItemTokens(xs)|;
            && |gs| == n + 2
            && var inner := Lay(ItemTokens(xs), gs[1..n + 1]) + ("]" + gs[n + 1]);
            && Lay(Tokens(Array(xs)), gs) == "[" + gs[0] + inner
            && Solid(inner)
  {
    var n := |ItemTokens(xs)|;
    LayBracket("[", ItemTokens(xs), "]", gs);
    if xs != [] {
      FirstItem(xs, gs[1..n + 1], "]" + gs[n + 1]);
    }
  }

  lemma {:induction false} ArrayValue(c: Config, xs: seq<Json>, gs: seq<string>, more: string)
    requires var t := Array(xs);
             && Expecting(c) && WellFormed(t) && StringsEscaped(t)
             && |gs| == |Tokens(t)| && Gaps(gs) && Follows(more)
             && c.rest == Lay(Tokens(t), gs) + more
    ensures var t := Array(xs);
            if Readable(t) then Run(c) == Run(Took(c, t).(rest := more)) else Run(c).error
    decreases xs, 2
  {
    hide Run, Step, Pop, Lay, Tokens, Took;
    ArrayInner(xs, gs);
    var n := |ItemTokens(xs)|;
    var closing := "]" + gs[n + 1] + more;
    var inner := Lay(ItemTokens(xs), gs[1..n + 1]) + closing;
    assert c.rest == "[" + gs[0] + inner;
    MarkedText(c.rest, '[', gs[0], inner);
    MarkedText(closing, ']', gs[n + 1], more);
    Enter(c, Array([]), gs[0], inner);
    FillArray(c, Entered(c, Array([])).(rest := inner), xs, gs[1..n + 1], gs[n + 1], more, closing);
  }

  lemma {:induction false} FillArray(c: Config, d: Config, xs: seq<Json>, gs: seq<string>,
                                      g: string, more: string, closing: string)
    requires Expecting(c) && WellFormed(Array(xs)) && StringsEscaped(Array(xs))
    requires |gs| == |ItemTokens(xs)| && Gaps(gs) && Follows(more)
    requires Marked(closing, ']', g, more) && Follows(closing)
    requires d == Entered(c, Array([])).(rest := Lay(ItemTokens(xs), gs) + closing)
    ensures if Readable(Array(xs)) then Run(d) == Run(Took(c, Array(xs)).(rest := more)) else Run(d).error
    decreases xs, 1
  {
    if xs == [] {
      hide Run, Step, Pop, Took;
      assert d.rest == closing;
      assert Fill(d, Array([]), d.legal) == d;
      Finish(c, Array([]), Array([]), d.legal, g, more, closing);
    } else {
      hide Run, Step, Pop, Took, Escaped, Lay, ItemTokens, Fill, LegalAfter;
      Items(d, [], xs, gs, closing);
      assert [] + xs == xs;
      Filled(c, d, Array(xs), Array([]), xs[|xs| - 1], g, more, closing);
    }
  }

  lemma LegalAfterCloses(t: Json)
    ensures Finishes(LegalAfter(t))
  {
  }

  /** A container opened at `c` and filled up to `t`, its last value being `last`, gets closed. */
  lemma Filled(c: Config, d: Config, t: Json, empty: Json, last: Json, g: string, more: string, closing: string)
    requires Expecting(c) && (t.Object? || t.Array?)
    requires Marked(closing, if t.Object? then '}' else ']', g, more)
    requires d == Entered(c, empty).(rest := d.rest)
    ensures Run(Fill(d, t, LegalAfter(last)).(rest := closing)) == Run(Took(c, t).(rest := more))
  {
    hide Run, Took, LegalAfter;
    LegalAfterCloses(last);
    Finish(c, t, empty, LegalAfter(last), g, more, closing);
  }

  /** What follows the first item among the tokens. */
  function LaterItems(xs: seq<Json>): seq<string>
    requires xs != []
  {
    if |xs| == 1 then [] else [","] + ItemTokens(xs[1..])
  }

  lemma ItemSplit(xs: seq<Json>, gs: seq<string>)
    requires xs != [] && |gs| == |ItemTokens(xs)|
    ensures var n := |Tokens(xs[0])|;
            && |gs| == n + |LaterItems(xs)|
            && Lay(ItemTokens(xs), gs) == Lay(Tokens(xs[0]), gs[..n]) + Lay(LaterItems(xs), gs[n..])
  {
    LaySplit(Tokens(xs[0]), LaterItems(xs), gs);
  }

  lemma FirstItem(xs: seq<Json>, gs: seq<string>, more: string)
    requires xs != [] && |gs| == |ItemTokens(xs)|
    ensures Solid(Lay(ItemTokens(xs), gs) + more)
  {
    var n := |Tokens(xs[0])|;
    ItemSplit(xs, gs);
    FirstSolid(xs[0], gs[..n], Lay(LaterItems(xs), gs[n..]) + more);
  }

  lemma ItemTail(xs: seq<Json>, gs: seq<string>, more: string)
    requires xs != [] && |gs| == |LaterItems(xs)| && Follows(more)
    ensures Follows(Lay(LaterItems(xs), gs) + more)
  {
  }

  lemma {:induction false} Items(c: Config, done: seq<Json>, xs: seq<Json>, gs: seq<string>, more: string)
    requires Ready(c) && Top(c.work.frames).node == Array(done) && c.key == "" && TakesValue(c.legal)
    requires xs != [] && WellFormed(Array(xs)) && StringsEscaped(Array(xs))
    requires |gs| == |ItemTokens(xs)| && Gaps(gs) && Follows(more)
    requires c.rest == Lay(ItemTokens(xs), gs) + more
    ensures if Readable(Array(xs))
            then Run(c) == Run(Fill(c, Array(done + xs), LegalAfter(xs[|xs| - 1])).(rest := more))
            else Run(c).error
    decreases xs, 0
  {
    hide Run, Step, Lay, Took, ItemTokens, Tokens, Escaped, LegalAfter;
    var x, n := xs[0], |Tokens(xs[0])|;
    assert x in xs;
    ItemSplit(xs, gs);
    var tail := Lay(LaterItems(xs), gs[n..]) + more;
    assert c.rest == Lay(Tokens(x), gs[..n]) + tail;
    ItemTail(xs, gs[n..], more);
    Value(c, x, gs[..n], tail);
    if Readable(x) {
      TookItem(c, done, x, tail);
      NextItem(c, done, xs, gs[n..], more, tail);
    }
  }

  lemma TookItem(c: Config, done: seq<Json>, x: Json, tail: string)
    requires Ready(c) && Top(c.work.frames).node == Array(done)
    ensures Took(c, x).(rest := tail) == Fill(c, Array(done + [x]), LegalAfter(x)).(rest := tail)
  {
  }

  lemma RestOfArray(xs: seq<Json>)
    requires |xs| > 1 && WellFormed(Array(xs)) && StringsEscaped(Array(xs))
    ensures WellFormed(Array(xs[1..])) && StringsEscaped(Array(xs[1..]))
    ensures Readable(Array(xs)) <==> Readable(xs[0]) && Readable(Array(xs[1..]))
  {
    assert xs == [xs[0]] + xs[1..];
  }

  lemma FilledReady(c: Config, node: Json, legal: Mask, text: string)
    requires Ready(c) && (node.Object? || node.Array?)
    ensures var e := Fill(c, node, legal).(rest := text);
            Ready(e) && Top(e.work.frames).node == node && e.key == "" && e.legal == legal && e.rest == text
  {
  }

  lemma FillLegal(c: Config, node: Json, a: Mask, b: Mask, tail: string, text: string)
    requires Ready(c)
    ensures Fill(c, node, a).(rest := tail).(legal := b, rest := text) == Fill(c, node, b).(rest := text)
  {
  }

  /** From behind an element to the start of the next. */
  lemma PastComma(c: Config, node: Json, v: Json, ts: seq<string>, gs: seq<string>, more: string, tail: string)
    requires Ready(c) && (node.Object? || node.Array?)
    requires |gs| == 1 + |ts| && Gaps(gs)
    requires tail == Lay([","] + ts, gs) + more && Solid(Lay(ts, gs[1..]) + more)
    ensures var e := Fill(c, node, AfterSeparatorMask).(rest := Lay(ts, gs[1..]) + more);
            && Ready(e) && Top(e.work.frames).node == node && e.key == "" && e.legal == AfterSeparatorMask
            && Run(Fill(c, node, LegalAfter(v)).(rest := tail)) == Run(e)
  {
    hide Run, Lay, LegalAfter, Gap, Fill, Solid, Marked, Finishes;
    var text := Lay(ts, gs[1..]) + more;
    LayCons(",", ts, gs);
    assert tail == [','] + gs[0] + text;
    MarkedText(tail, ',', gs[0], text);
    LegalAfterCloses(v);
    FilledReady(c, node, LegalAfter(v), tail);
    Comma(Fill(c, node, LegalAfter(v)).(rest := tail), gs[0], text);
    FillLegal(c, node, LegalAfter(v), AfterSeparatorMask, tail, text);
    FilledReady(c, node, AfterSeparatorMask, text);
  }

  lemma {:induction false} NextItem(c: Config, done: seq<Json>, xs: seq<Json>,
                                    gs: seq<string>, more: string, tail: string)
    requires Ready(c) && Top(c.work.frames).node == Array(done)
    requires xs != [] && WellFormed(Array(xs)) && StringsEscaped(Array(xs))
    requires |gs| == |LaterItems(xs)| && Gaps(gs) && Follows(more)
    requires tail == Lay(LaterItems(xs), gs) + more && Readable(xs[0])
    ensures var d := Fill(c, Array(done + [xs[0]]), LegalAfter(xs[0])).(rest := tail);
            if Readable(Array(xs))
            then Run(d) == Run(Fill(c, Array(done + xs), LegalAfter(xs[|xs| - 1])).(rest := more))
            else Run(d).error
    decreases xs, 0, 0
  {
    if |xs| == 1 {
      hide Run, LegalAfter, Fill;
      assert xs == [xs[0]];
      assert tail == more;
    } else {
      hide Run, Lay, ItemTokens, LegalAfter, Fill, WellFormed, StringsEscaped, Readable;
      RestOfArray(xs);
      MoreItems(c, done, xs[0], xs[1..], gs, more, tail);
      assert done + [xs[0]] + xs[1..] == done + xs;
    }
  }

  lemma {:induction false} MoreItems(c: Config, done: seq<Json>, x: Json, ys: seq<Json>,
                                     gs: seq<string>, more: string, tail: string)
    requires Ready(c) && Top(c.work.frames).node == Array(done)
    requires ys != [] && WellFormed(Array(ys)) && StringsEscaped(Array(ys))
    requires |gs| == 1 + |ItemTokens(ys)| && Gaps(gs) && Follows(more)
    requires tail == Lay([","] + ItemTokens(ys), gs) + more
    ensures var d := Fill(c, Array(done + [x]), LegalAfter(x)).(rest := tail);
            if Readable(Array(ys))
            then Run(d) == Run(Fill(c, Array(done + [x] + ys), LegalAfter(ys[|ys| - 1])).(rest := more))
            else Run(d).error
    decreases ys, 1
  {
    hide Run, Lay, ItemTokens, LegalAfter, Fill, WellFormed, StringsEscaped, Readable;
    FirstItem(ys, gs[1..], more);
    PastComma(c, Array(done + [x]), x, ItemTokens(ys), gs, more, tail);
    var text := Lay(ItemTokens(ys), gs[1..]) + more;
    Items(Fill(c, Array(done + [x]), AfterSeparatorMask).(rest := text), done + [x], ys, gs[1..], more);
    FillTwice(c, Array(done + [x]), Array(done + [x] + ys), AfterSeparatorMask, LegalAfter(ys[|ys| - 1]), text, more);
  }

  lemma FillTwice(c: Config, a: Json, b: Json, la: Mask, lb: Mask, text: string, more: string)
    requires c.work.Open? && c.work.frames != []
    ensures Fill(Fill(c, a, la).(rest := text), b, lb).(rest := more) == Fill(c, b, lb).(rest := more)
  {
    assert SetTop(SetTop(c.work.frames, a), b) == SetTop(c.work.frames, b);
  }

  lemma ObjectInner(ms: seq<Entry<Json>>, gs: seq<string>)
    requires |gs| == |Tokens(Object(ms))|
    ensures var n := |MemberTokens(ms)|;
            && |gs| == n + 2
            && var inner := Lay(MemberTokens(ms), gs[1..n + 1]) + ("}" + gs[n + 1]);
            && Lay(Tokens(Object(ms)), gs) == "{" + gs[0] + inner
            && Solid(inner)
  {
    var n := |MemberTokens(ms)|;
    LayBracket("{", MemberTokens(ms), "}", gs);
    if ms != [] {
      FirstMember(ms, gs[1..n + 1], "}" + gs[n + 1]);
    }
  }

  lemma {:induction false} ObjectValue(c: Config, ms: seq<Entry<Json>>, gs: seq<string>, more: string)
    requires var t := Object(ms);
             && Expecting(c) && WellFormed(t) && StringsEscaped(t)
             && |gs| == |Tokens(t)| && Gaps(gs) && Follows(more)
             && c.rest == Lay(Tokens(t), gs) + more
    ensures var t := Object(ms);
            if Readable(t) then Run(c) == Run(Took(c, t).(rest := more)) else Run(c).error
    decreases ms, 2
  {
    hide Run, Step, Pop, Lay, Tokens, Took;
    ObjectInner(ms, gs);
    var n := |MemberTokens(ms)|;
    var closing := "}" + gs[n + 1] + more;
    var inner := Lay(MemberTokens(ms), gs[1..n + 1]) + closing;
    assert c.rest == "{" + gs[0] + inner;
    MarkedText(c.rest, '{', gs[0], inner);
    MarkedText(closing, '}', gs[n + 1], more);
    Enter(c, Object([]), gs[0], inner);
    FillObject(c, Entered(c, Object([])).(rest := inner), ms, gs[1..n + 1], gs[n + 1], more, closing);
  }

  lemma {:induction false} FillObject(c: Config, d: Config, ms: seq<Entry<Json>>, gs: seq<string>,
                                      g: string, more: string, closing: string)
    requires Expecting(c) && WellFormed(Object(ms)) && StringsEscaped(Object(ms))
    requires |gs| == |MemberTokens(ms)| && Gaps(gs) && Follows(more)
    requires Marked(closing, '}', g, more) && Follows(closing)
    requires d == Entered(c, Object([])).(rest := Lay(MemberTokens(ms), gs) + closing)
    ensures if Readable(Object(ms)) then Run(d) == Run(Took(c, Object(ms)).(rest := more)) else Run(d).error
    decreases ms, 1
  {
    if ms == [] {
      hide Run, Took, Step, Escaped, WellFormed, StringsEscaped;
      assert d.rest == closing;
      NoMembers(d);
    } else {
      hide Run, Step, Pop, Took, Escaped, Lay, MemberTokens, Fill, LegalAfter;
      Members(d, [], ms, gs, closing);
      assert [] + ms == ms;
      Filled(c, d, Object(ms), Object([]), ms[|ms| - 1].value, g, more, closing);
    }
  }

  /** `{}` is refused: after `{` only a string is legal. */
  lemma NoMembers(c: Config)
    requires Ready(c) && c.legal == InObjectMask && c.rest != "" && c.rest[0] == '}'
    ensures Run(c).error
  {
    hide Dispatch;
    Rejected(c);
  }

  /** A key and its colon. */
  lemma KeyColon(c: Config, key: string, g: string, more: string)
    requires Ready(c) && c.key == "" && Allows(c.legal, StringToken)
    requires Gap(g) && Solid(more) && Quoted(c.rest, key, ":" + g + more)
    ensures Run(c) == Run(c.(key := key, legal := AfterColonMask, rest := more))
  {
    var d := c.(key := key, legal := AfterStringMask, rest := ":" + g + more);
    StepKey(c, key, d.rest);
    assert Run(c) == Run(Step(c)) by { hide Step; }
    MarkedText(d.rest, ':', g, more);
    ColonStep(d, g, more);
  }

  lemma StepKey(c: Config, key: string, more: string)
    requires Ready(c) && c.key == "" && Allows(c.legal, StringToken)
    requires Quoted(c.rest, key, more) && more != "" && more[0] == ':'
    ensures Live(c) && Step(c) == c.(key := key, legal := AfterStringMask, rest := more)
  {
    hide AddChild, ReadString, ReadNumber, OpenContainer, CloseContainer, Escaped, DropSpaces, QuoteAt;
    KeyText(c, key, more);
  }

  lemma ColonStep(c: Config, g: string, more: string)
    requires Ready(c) && Allows(c.legal, Colon) && Marked(c.rest, ':', g, more)
    ensures Run(c) == Run(c.(legal := AfterColonMask, rest := more))
  {
    hide Run, Step, Gap;
    Mark(c, g, more);
  }

  lemma LayPair(key: string, colon: string, a: seq<string>, b: seq<string>, gs: seq<string>)
    requires |gs| == |a| + |b| + 2
    ensures Lay([key] + ([colon] + (a + b)), gs)
         == key + gs[0] + (colon + gs[1] + (Lay(a, gs[2..|a| + 2]) + Lay(b, gs[|a| + 2..])))
  {
    hide Lay;
    LayCons(key, [colon] + (a + b), gs);
    LayCons(colon, a + b, gs[1..]);
    assert gs[1..][1..] == gs[2..];
    LaySplit(a, b, gs[2..]);
    assert gs[2..][..|a|] == gs[2..|a| + 2];
    assert gs[2..][|a|..] == gs[|a| + 2..];
  }

  lemma MemberSplit(ms: seq<Entry<Json>>, gs: seq<string>)
    requires ms != [] && |gs| == |MemberTokens(ms)|
    ensures var v, n := ms[0].value, |Tokens(ms[0].value)|;
            && |gs| == n + 2 + |LaterTokens(ms)|
            && Lay(MemberTokens(ms), gs)
            == "\"" + ms[0].key + "\"" + gs[0]
               + (":" + gs[1] + (Lay(Tokens(v), gs[2..n + 2]) + Lay(LaterTokens(ms), gs[n + 2..])))
  {
    hide Lay;
    var name := "\"" + ms[0].key + "\"";
    LayPair(name, ":", Tokens(ms[0].value), LaterTokens(ms), gs);
  }

  lemma FirstMember(ms: seq<Entry<Json>>, gs: seq<string>, more: string)
    requires ms != [] && |gs| == |MemberTokens(ms)|
    ensures Solid(Lay(MemberTokens(ms), gs) + more)
  {
    hide Lay;
    MemberSplit(ms, gs);
  }

  lemma {:induction false} Members(c: Config, done: seq<Entry<Json>>, ms: seq<Entry<Json>>,
                                   gs: seq<string>, more: string)
    requires Ready(c) && Top(c.work.frames).node == Object(done) && c.key == "" && Allows(c.legal, StringToken)
    requires ms != [] && WellFormed(Object(ms)) && StringsEscaped(Object(ms)) && Sorted(false, done + ms)
    requires |gs| == |MemberTokens(ms)| && Gaps(gs) && Follows(more)
    requires c.rest == Lay(MemberTokens(ms), gs) + more
    ensures if Readable(Object(ms))
            then Run(c) == Run(Fill(c, Object(done + ms), LegalAfter(ms[|ms| - 1].value)).(rest := more))
            else Run(c).error
    decreases ms, 0
  {
    hide Run, Step, Lay, Took, MemberTokens, Escaped;
    var m, v, n := ms[0], ms[0].value, |Tokens(ms[0].value)|;
    assert m in ms;
    MemberSplit(ms, gs);
    var mine, later := gs[2..n + 2], gs[n + 2..];
    var tail := Lay(LaterTokens(ms), later) + more;
    var text := Lay(Tokens(v), mine) + tail;
    assert c.rest == "\"" + m.key + "\"" + gs[0] + (":" + gs[1] + text);
    FirstSolid(v, mine, tail);
    QuotedText(c.rest, m.key, gs[0], ":" + gs[1] + text);
    KeyColon(c, m.key, gs[1], text);
    var d := c.(key := m.key, legal := AfterColonMask, rest := text);
    MemberTail(ms, later, more);
    if m.key == "" {
      KeylessValue(d, v, mine, tail);
    } else {
      Value(d, v, mine, tail);
      if Readable(v) {
        assert Sorted(false, done + [m]) by { assert done + [m] == (done + ms)[..|done| + 1]; }
        TookMember(c, d, done, m, tail);
        NextMember(c, done, ms, later, more, tail);
      }
    }
  }

  lemma TookMember(c: Config, d: Config, done: seq<Entry<Json>>, m: Entry<Json>, tail: string)
    requires Ready(c) && Top(c.work.frames).node == Object(done) && Sorted(false, done + [m])
    requires d == c.(key := m.key, legal := d.legal, rest := d.rest)
    ensures Took(d, m.value).(rest := tail) == Fill(c, Object(done + [m]), LegalAfter(m.value)).(rest := tail)
  {
    PutLast(false, done, m);
  }

  lemma MemberTail(ms: seq<Entry<Json>>, gs: seq<string>, more: string)
    requires ms != [] && |gs| == |LaterTokens(ms)| && Follows(more)
    ensures Follows(Lay(LaterTokens(ms), gs) + more)
  {
  }

  lemma RestOfObject(done: seq<Entry<Json>>, ms: seq<Entry<Json>>)
    requires |ms| > 1 && WellFormed(Object(ms)) && StringsEscaped(Object(ms)) && Sorted(false, done + ms)
    ensures WellFormed(Object(ms[1..])) && StringsEscaped(Object(ms[1..]))
    ensures done + [ms[0]] + ms[1..] == done + ms
    ensures Readable(Object(ms)) <==>
              ms[0].key != "" && Readable(ms[0].value) && Readable(Object(ms[1..]))
  {
    hide Escaped;
    assert ms == [ms[0]] + ms[1..];
  }

  lemma {:induction false} NextMember(c: Config, done: seq<Entry<Json>>, ms: seq<Entry<Json>>,
                                      gs: seq<string>, more: string, tail: string)
    requires Ready(c) && Top(c.work.frames).node == Object(done)
    requires ms != [] && WellFormed(Object(ms)) && StringsEscaped(Object(ms)) && Sorted(false, done + ms)
    requires |gs| == |LaterTokens(ms)| && Gaps(gs) && Follows(more)
    requires tail == Lay(LaterTokens(ms), gs) + more
    requires ms[0].key != "" && Readable(ms[0].value)
    ensures var d := Fill(c, Object(done + [ms[0]]), LegalAfter(ms[0].value)).(rest := tail);
            if Readable(Object(ms))
            then Run(d) == Run(Fill(c, Object(done + ms), LegalAfter(ms[|ms| - 1].value)).(rest := more))
            else Run(d).error
    decreases ms, 0, 0
  {
    if |ms| == 1 {
      hide Run, LegalAfter, Fill, Escaped;
      assert ms == [ms[0]];
      assert tail == more;
    } else {
      hide Run, Lay, MemberTokens, LegalAfter, Fill, WellFormed, StringsEscaped, Readable, Sorted;
      var m, ns := ms[0], ms[1..];
      FirstMember(ns, gs[1..], more);
      PastComma(c, Object(done + [m]), m.value, MemberTokens(ns), gs, more, tail);
      RestOfObject(done, ms);
      var text := Lay(MemberTokens(ns), gs[1..]) + more;
      Members(Fill(c, Object(done + [m]), AfterSeparatorMask).(rest := text), done + [m], ns, gs[1..], more);
      FillTwice(c, Object(done + [m]), Object(done + ms), AfterSeparatorMask, LegalAfter(ms[|ms| - 1].value),
                text, more);
    }
  }
}
