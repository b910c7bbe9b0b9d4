/** The main results about the reader: what any accepted text can produce, and
exactly which trees survive printing and reading back. */
module JsonTheorems {
  import opened Decimals
  import opened OrderedMap
  import opened JsonTree
  import opened JsonMachine
  import opened JsonRoundTrip

  // ----- What reading can produce -----

  /** A tree the reader can have built. */
  ghost predicate Genuine(t: Json) {
    match t
    case Object(ms) =>
      Sorted(false, ms) && forall e | e in ms :: e.key != "" && Escaped(e.key) && Genuine(e.value)
    case Array(xs) => forall x | x in xs :: Genuine(x)
    case String(s) => Escaped(s)
    case Int(n) => INT_MIN <= n <= INT_MAX
    case Bool(b) => b
    case Null => true
  }

  ghost predicate GenuineFrames(fs: seq<Frame>) {
    && fs != []
    && (forall f | f in fs :: Genuine(f.node))
    && (forall i | 0 < i < |fs| :: Escaped(fs[i].slot) && (fs[i - 1].node.Object? ==> fs[i].slot != ""))
  }

  ghost predicate Sound(c: Config) {
    && Shaped(c.work)
    && Escaped(c.key)
    && (!c.error && c.started ==>
          match c.work
          case Open(fs) => GenuineFrames(fs)
          case Closed(t) => Genuine(t))
  }

  /** Before the first token. */
  ghost predicate Fresh(c: Config) {
    !c.started && c.work.Open? && |c.work.frames| == 1 && c.legal == StartMask
  }

  lemma AddChildGenuine(node: Json, slot: string, child: Json)
    requires Genuine(node) && Genuine(child) && Escaped(slot) && (node.Object? ==> slot != "")
    ensures Genuine(AddChild(node, slot, child))
  {
    if node.Object? {
      PutSorted(false, node.members, slot, child);
      PutEntries(node.members, slot, child);
    }
  }

  lemma {:induction false} PutEntries(es: seq<Entry<Json>>, key: string, v: Json)
    ensures forall e | e in Put(false, es, key, v) ::
              e == Entry(key, v) || e in es
  {
    if es != [] {
      PutEntries(es[1..], key, v);
    }
  }

  lemma SetTopGenuine(fs: seq<Frame>, node: Json)
    requires GenuineFrames(fs) && Genuine(node) && (node.Object? ==> Top(fs).node.Object?)
    ensures GenuineFrames(SetTop(fs, node))
  {
    var gs := SetTop(fs, node);
    forall f | f in gs ensures Genuine(f.node) {
      var i :| 0 <= i < |gs| && gs[i] == f;
      assert i < |fs| - 1 ==> f == fs[i] && f in fs;
    }
  }

  lemma PopGenuine(fs: seq<Frame>)
    requires GenuineFrames(fs)
    ensures match Pop(fs) case Open(gs) => GenuineFrames(gs) case Closed(t) => Genuine(t)
  {
    var n := |fs|;
    assert fs[n - 1] in fs;
    if n > 1 {
      var below := fs[..n - 1];
      assert GenuineFrames(below) by {
        forall f | f in below ensures Genuine(f.node) { assert f in fs; }
      }
      assert below[n - 2] == fs[n - 2] && fs[n - 2] in fs;
      AddChildGenuine(fs[n - 2].node, fs[n - 1].slot, fs[n - 1].node);
      SetTopGenuine(below, AddChild(fs[n - 2].node, fs[n - 1].slot, fs[n - 1].node));
    }
  }

  lemma ScalarSound(c: Config, v: Json)
    requires Sound(c) && c.started && !c.error
    requires Genuine(v) && !v.Object?
    ensures Sound(AddScalar(c, v))
  {
    var d := AddScalar(c, v);
    if !d.error {
      var top := Top(c.work.frames);
      assert top in c.work.frames;
      AddChildGenuine(top.node, c.key, v);
      SetTopGenuine(c.work.frames, AddChild(top.node, c.key, v));
    }
  }

  lemma ContainersSound(c: Config, empty: Json, isObject: bool)
    requires Sound(c) && !c.error && c.started
    requires empty == Object([]) || empty == Array([])
    ensures Sound(OpenContainer(c, empty))
    ensures Sound(CloseContainer(c, isObject))
  {
    hide Pop, AddChild;
    if c.work.Open? {
      PopGenuine(c.work.frames);
      PushGenuine(c, empty);
    }
  }

  lemma PushGenuine(c: Config, empty: Json)
    requires Sound(c) && !c.error && c.started && c.work.Open?
    requires empty == Object([]) || empty == Array([])
    ensures Top(c.work.frames).node.Object? && c.key != "" ==> GenuineFrames(c.work.frames + [Frame(c.key, empty)])
    ensures Top(c.work.frames).node.Array? ==> GenuineFrames(c.work.frames + [Frame("", empty)])
  {
  }

  lemma {:induction false} QuoteEscaped(s: string)
    ensures QuoteAt(s) >= 0 ==> Escaped(s[..QuoteAt(s)])
  {
    if s != "" && s[0] != '"' {
      var step := if s[0] == '\\' then 2 else 1;
      if step <= |s| {
        QuoteEscaped(s[step..]);
        var q := QuoteAt(s[step..]);
        if q >= 0 {
          assert s[..step + q][step..] == s[step..][..q];
        }
      }
    }
  }

  lemma TextSound(c: Config)
    requires Sound(c) && c.started && !c.error && c.rest != ""
    ensures Sound(ReadString(c))
  {
    hide AddScalar, DropSpaces, Escaped;
    QuoteEscaped(c.rest[1..]);
    var q := QuoteAt(c.rest[1..]);
    if q >= 0 {
      var d := c.(rest := DropSpaces(c.rest[1..][q + 1..]));
      ScalarSound(d, String(c.rest[1..][..q]));
    }
  }

  lemma NumberSound(c: Config)
    requires Sound(c) && c.started && !c.error && c.rest != "" && Classify(c.rest[0]) == NumberToken
    ensures Sound(ReadNumber(c))
  {
    hide AddScalar, Stoi;
    var r := Stoi(c.rest[..1 + DigitRun(c.rest[1..])]);
    if r.0 {
      ScalarSound(c, Int(r.1));
    }
  }

  lemma StepSound(c: Config)
    requires Sound(c) && Live(c)
    requires c.started || Fresh(c)
    ensures Sound(Step(c)) && (!Step(c).error ==> Step(c).started)
  {
    hide AddScalar, OpenContainer, CloseContainer, ReadString, ReadNumber, TokenStart;
    var at := c.(rest := TokenStart(c.rest));
    var t := TokenAt(at.rest);
    if Allows(c.legal, t) {
      if c.started {
        DispatchSound(at);
      } else {
        StartSound(at);
      }
    }
  }

  lemma StartSound(c: Config)
    requires Sound(c) && !c.error && !c.started && c.work.Open? && |c.work.frames| == 1
    requires TokenAt(c.rest) == ArrayBegin || TokenAt(c.rest) == ObjectBegin
    ensures var d := Dispatch(c, TokenAt(c.rest)); Sound(d) && d.started
  {
    hide ReadString, ReadNumber, CloseContainer, AddScalar;
  }

  lemma DispatchSound(c: Config)
    requires Sound(c) && !c.error && c.started
    ensures var d := Dispatch(c, TokenAt(c.rest)); Sound(d) && (!d.error ==> d.started)
  {
    hide AddScalar, OpenContainer, CloseContainer, ReadString, ReadNumber;
    KeepsStarted(c, TokenAt(c.rest));
    match TokenAt(c.rest)
    case ObjectBegin => ContainersSound(c, Object([]), true);
    case ArrayBegin => ContainersSound(c, Array([]), true);
    case ObjectEnd => ContainersSound(c, Array([]), true);
    case ArrayEnd => ContainersSound(c, Array([]), false);
    case StringToken => TextSound(c);
    case NumberToken => NumberSound(c);
    case NullToken => ScalarSound(c, Null);
    case TrueToken => ScalarSound(c, Bool(true));
    case FalseToken => FalseKey(c);
    case _ =>
  }

  lemma FalseKey(c: Config)
    requires Sound(c)
    ensures Escaped(AddScalar(c, Bool(false)).key)
  {
    hide AddChild;
  }

  lemma KeepsStarted(c: Config, t: Token)
    requires Shaped(c.work) && t == TokenAt(c.rest)
    ensures c.started ==> Dispatch(c, t).started
  {
    hide AddScalar, OpenContainer, CloseContainer, ReadString, ReadNumber;
  }

  lemma {:induction false} RunSound(c: Config)
    requires Sound(c)
    requires c.started || c.error || Fresh(c)
    ensures Sound(Run(c))
    ensures Live(c) && !Run(c).error ==> Run(c).started
    decreases if Live(c) then |c.rest| + 1 else 0
  {
    hide Step;
    if Live(c) {
      StepSound(c);
      RunSound(Step(c));
    }
  }

  lemma StartIsSound(text: string, val: Json)
    ensures Sound(Start(text, val))
  {
  }

  lemma {:induction false} PlugGenuine(fs: seq<Frame>)
    requires GenuineFrames(fs)
    ensures Genuine(Plug(fs)) && Plug(fs).Object? == fs[0].node.Object?
  {
    assert fs[0] in fs;
    if |fs| > 1 {
      PlugGenuine(fs[1..]);
      AddChildGenuine(fs[0].node, fs[1].slot, Plug(fs[1..]));
    }
  }

  lemma EmptyText(val: Json)
    ensures Run(Start("", val)) == Start("", val)
  {
  }

  /** Whatever text is accepted, the tree it leaves is genuine: keys are non-empty and in map
      order, every raw string is well escaped, every number fits an int, and `false` never
      occurs. The one exception is the empty text, which is accepted for every element and
      leaves what was there. */
  lemma AcceptedIsGenuine(text: string, val: Json, t: Json)
    requires Reads(text, val, t)
    ensures if text == "" then t == val else Genuine(t)
  {
    hide Run;
    var c := Start(text, val);
    if text == "" {
      EmptyText(val);
    } else {
      StartIsSound(text, val);
      RunSound(c);
      if Run(c).work.Open? {
        PlugGenuine(Run(c).work.frames);
      }
    }
  }

  lemma EmptyIsAccepted(val: Json)
    ensures Reads("", val, val)
  {
    EmptyText(val);
  }

  lemma {:induction false} GenuineBounds(t: Json)
    requires Genuine(t)
    ensures WellFormed(t) && StringsEscaped(t)
  {
    match t
    case Object(ms) =>
      forall e | e in ms ensures WellFormed(e.value) && StringsEscaped(e.value) { GenuineBounds(e.value); }
    case Array(xs) => forall x | x in xs ensures WellFormed(x) && StringsEscaped(x) { GenuineBounds(x); }
    case _ =>
  }

  lemma {:induction false} ReadableIsEscaped(t: Json)
    requires Readable(t)
    ensures StringsEscaped(t)
  {
    match t
    case Object(ms) => forall e | e in ms ensures StringsEscaped(e.value) { ReadableIsEscaped(e.value); }
    case Array(xs) => forall x | x in xs ensures StringsEscaped(x) { ReadableIsEscaped(x); }
    case _ =>
  }

  // ----- The root -----

  function Rooted(c: Config, empty: Json): Config {
    c.(work := Open([Frame("", empty)]), started := true,
       legal := if empty.Object? then InObjectMask else InArrayMask)
  }

  lemma RootOpens(text: string, val: Json, empty: Json, lead: string, g: string, more: string)
    requires empty == Object([]) || empty == Array([])
    requires Gap(lead) && Gap(g) && Solid(more)
    requires text == lead + ((if empty.Object? then "{" else "[") + g + more)
    ensures Parse(text, val) == Run(Rooted(Start(text, val), empty).(rest := more))
  {
    hide Run, Step, Dispatch, Top;
    var c := Start(text, val);
    var s := (if empty.Object? then "{" else "[") + g + more;
    GapSkip(c, lead, s);
    assert s[1..] == g + more;
    RootDispatch(c.(rest := s), empty);
    MarkedText(s, s[0], g, more);
    Mark(c.(rest := s), g, more);
  }

  lemma RootDispatch(c: Config, empty: Json)
    requires !c.started && c.work.Open? && |c.work.frames| == 1 && c.work.frames[0].slot == "" && c.rest != ""
    requires (empty == Object([]) && c.rest[0] == '{') || (empty == Array([]) && c.rest[0] == '[')
    ensures Dispatch(c, TokenAt(c.rest)) == Rooted(c, empty).(rest := c.rest[1..])
  {
    assert SetTop(c.work.frames, empty) == [Frame("", empty)];
  }

  lemma RootCloses(c: Config, t: Json, g: string)
    requires c.started && !c.error && c.fault.NoFault? && c.work == Open([Frame("", t)]) && Gap(g)
    requires t.Object? || t.Array?
    requires Allows(c.legal, if t.Object? then ObjectEnd else ArrayEnd)
    requires c.rest != "" && c.rest[0] == (if t.Object? then '}' else ']') && c.rest[1..] == g
    ensures var d := Run(c); !d.error && d.fault.NoFault? && d.work == Closed(t)
  {
    hide Gap;
    var d := c.(work := Closed(t), legal := AfterCloseMask, rest := g);
    DispatchClose(c);
    assert Step(c) == d by { hide Dispatch; }
    assert Run(c) == Run(d) by { hide Step; }
    TrailingBlanks(d);
  }

  lemma RootFilled(d: Config, t: Json, last: Json, g: string, closing: string)
    requires d.started && !d.error && d.fault.NoFault? && d.work.Open? && |d.work.frames| == 1
    requires d.work.frames[0].slot == "" && (t.Object? || t.Array?) && Gap(g)
    requires closing == (if t.Object? then "}" else "]") + g
    ensures var r := Run(Fill(d, t, LegalAfter(last)).(rest := closing));
            !r.error && r.fault.NoFault? && r.work == Closed(t)
  {
    hide Run, LegalAfter;
    LegalAfterCloses(last);
    var e := Fill(d, t, LegalAfter(last)).(rest := closing);
    assert e.work.frames == [Frame("", t)];
    assert closing[1..] == g;
    RootCloses(e, t, g);
  }

  lemma TrailingBlanks(c: Config)
    requires Shaped(c.work) && !c.error && c.fault.NoFault? && Allows(c.legal, Eof) && Gap(c.rest)
    ensures var d := Run(c); !d.error && d.fault.NoFault? && d.work == c.work
  {
    GapStart(c.rest, "");
    assert c.rest + "" == c.rest;
    if c.rest != "" {
      assert Step(c) == c.(rest := "", legal := NoneLegal);
    }
  }

  lemma RootArray(xs: seq<Json>, lead: string, gs: seq<string>, val: Json, text: string)
    requires var t := Array(xs);
             && WellFormed(t) && StringsEscaped(t)
             && |gs| == |Tokens(t)| && Gap(lead) && Gaps(gs)
             && text == lead + Lay(Tokens(t), gs)
    ensures Reads(text, val, Array(xs)) <==> Readable(Array(xs))
  {
    hide Run, Step, Pop, Lay, Tokens;
    ArrayInner(xs, gs);
    var n := |ItemTokens(xs)|;
    var inner := Lay(ItemTokens(xs), gs[1..n + 1]) + ("]" + gs[n + 1]);
    RootOpens(text, val, Array([]), lead, gs[0], inner);
    RootItems(Rooted(Start(text, val), Array([])).(rest := inner), xs, gs[1..n + 1], gs[n + 1], "]" + gs[n + 1]);
  }

  lemma RootItems(d: Config, xs: seq<Json>, gs: seq<string>, g: string, closing: string)
    requires WellFormed(Array(xs)) && StringsEscaped(Array(xs))
    requires |gs| == |ItemTokens(xs)| && Gaps(gs) && Gap(g)
    requires d.started && !d.error && d.fault.NoFault? && d.key == "" && d.legal == InArrayMask
    requires d.work == Open([Frame("", Array([]))])
    requires closing == "]" + g && d.rest == Lay(ItemTokens(xs), gs) + closing
    ensures var r := Run(d);
            (!r.error && r.fault.NoFault? && Built(r.work) == Array(xs)) <==> Readable(Array(xs))
  {
    if xs == [] {
      hide Run, Pop;
      assert d.rest == closing;
      RootCloses(d, Array([]), g);
    } else {
      hide Run, Step, Pop, Took, Lay, ItemTokens, Escaped, LegalAfter, Fill;
      Items(d, [], xs, gs, closing);
      if Readable(Array(xs)) {
        assert [] + xs == xs;
        RootFilled(d, Array(xs), xs[|xs| - 1], g, closing);
      }
    }
  }

  lemma RootObject(ms: seq<Entry<Json>>, lead: string, gs: seq<string>, val: Json, text: string)
    requires var t := Object(ms);
             && WellFormed(t) && StringsEscaped(t)
             && |gs| == |Tokens(t)| && Gap(lead) && Gaps(gs)
             && text == lead + Lay(Tokens(t), gs)
    ensures Reads(text, val, Object(ms)) <==> Readable(Object(ms))
  {
    hide Run, Step, Pop, Lay, Tokens;
    ObjectInner(ms, gs);
    var n := |MemberTokens(ms)|;
    var inner := Lay(MemberTokens(ms), gs[1..n + 1]) + ("}" + gs[n + 1]);
    RootOpens(text, val, Object([]), lead, gs[0], inner);
    RootMembers(Rooted(Start(text, val), Object([])).(rest := inner), ms, gs[1..n + 1], gs[n + 1], "}" + gs[n + 1]);
  }

  lemma RootMembers(d: Config, ms: seq<Entry<Json>>, gs: seq<string>, g: string, closing: string)
    requires WellFormed(Object(ms)) && StringsEscaped(Object(ms))
    requires |gs| == |MemberTokens(ms)| && Gaps(gs) && Gap(g)
    requires d.started && !d.error && d.fault.NoFault? && d.key == "" && d.legal == InObjectMask
    requires d.work == Open([Frame("", Object([]))])
    requires closing == "}" + g && d.rest == Lay(MemberTokens(ms), gs) + closing
    ensures var r := Run(d);
            (!r.error && r.fault.NoFault? && Built(r.work) == Object(ms)) <==> Readable(Object(ms))
  {
    if ms == [] {
      hide Run, Step, WellFormed, StringsEscaped;
      assert d.rest == closing;
      NoMembers(d);
    } else {
      RootSome(d, ms, gs, g, closing);
    }
  }

  lemma RootSome(d: Config, ms: seq<Entry<Json>>, gs: seq<string>, g: string, closing: string)
    requires ms != [] && WellFormed(Object(ms)) && StringsEscaped(Object(ms))
    requires |gs| == |MemberTokens(ms)| && Gaps(gs) && Gap(g)
    requires d.started && !d.error && d.fault.NoFault? && d.key == "" && d.legal == InObjectMask
    requires d.work == Open([Frame("", Object([]))])
    requires closing == "}" + g && d.rest == Lay(MemberTokens(ms), gs) + closing
    ensures var r := Run(d);
            (!r.error && r.fault.NoFault? && Built(r.work) == Object(ms)) <==> Readable(Object(ms))
  {
    hide Run, Step, Pop, Took, Lay, MemberTokens, Escaped, LegalAfter, Fill, StringsEscaped, Readable, Gap;
    assert [] + ms == ms;
    Members(d, [], ms, gs, closing);
    if Readable(Object(ms)) {
      RootFilled(d, Object(ms), ms[|ms| - 1].value, g, closing);
    }
  }

  lemma RootScalar(t: Json, lead: string, gs: seq<string>, val: Json, text: string)
    requires !t.Object? && !t.Array? && |gs| == |Tokens(t)| && Gap(lead)
    requires text == lead + Lay(Tokens(t), gs)
    ensures Parse(text, val).error
  {
    hide Run, Dispatch;
    var s := Lay(Tokens(t), gs);
    FirstSolid(t, gs, "");
    assert s + "" == s;
    var c := Start(text, val);
    GapSkip(c, lead, s);
    if t.Int? {
      var size := if t.n < 0 then -t.n else t.n;
      DigitsValue(size);
      assert Decimal(t.n)[0] == '-' || Decimal(t.n)[0] in Digits(size);
    }
    Rejected(c.(rest := s));
  }

  // ----- The round trip -----

  /** Printing any tree, with blanks anywhere between its tokens, and reading it back gives
      the tree again exactly when its root is a container and every value in it is readable. */
  lemma RoundTrip(t: Json, lead: string, gs: seq<string>, val: Json, text: string)
    requires WellFormed(t) && |gs| == |Tokens(t)| && Gap(lead) && Gaps(gs)
    requires text == lead + Lay(Tokens(t), gs)
    ensures Reads(text, val, t) <==> (t.Object? || t.Array?) && Readable(t)
  {
    hide Run, Genuine;
    if !StringsEscaped(t) {
      if Readable(t) { ReadableIsEscaped(t); }
      if Reads(text, val, t) {
        FirstSolid(t, gs, "");
        AcceptedIsGenuine(text, val, t);
        GenuineBounds(t);
      }
    } else {
      match t
      case Array(xs) => RootArray(xs, lead, gs, val, text);
      case Object(ms) => RootObject(ms, lead, gs, val, text);
      case _ => RootScalar(t, lead, gs, val, text);
    }
  }

  /** The plain case: `parser` on `toString()`. */
  lemma PrintThenRead(t: Json, val: Json)
    requires WellFormed(t)
    ensures Reads(ToString(t), val, t) <==> (t.Object? || t.Array?) && Readable(t)
  {
    hide Run;
    var gs := NoGaps(|Tokens(t)|);
    PrintIsLay(t);
    assert "" + ToString(t) == ToString(t);
    RoundTrip(t, "", gs, val, ToString(t));
  }
}
