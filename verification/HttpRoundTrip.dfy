/** Parsing a printed request gives the request back. */
module HttpRoundTrip {
  import opened Decimals
  import opened OrderedMap
  import opened HttpMessage
  import opened HttpParser

  // ----- Text at a position -----

  predicate At(buf: string, p: nat, w: string) {
    p + |w| <= |buf| && buf[p..p + |w|] == w
  }

  lemma AtSplit(buf: string, p: nat, a: string, b: string)
    requires At(buf, p, a + b)
    ensures At(buf, p, a) && At(buf, p + |a|, b)
  {
    var w := buf[p..p + |a + b|];
    assert buf[p..p + |a|] == w[..|a|] == a;
    assert buf[p + |a|..p + |a| + |b|] == w[|a|..] == b;
  }

  lemma AtFirst(buf: string, p: nat, w: string)
    requires At(buf, p, w) && w != ""
    ensures p < |buf| && buf[p] == w[0] && At(buf, p + 1, w[1..])
  {
    AtSplit(buf, p, [w[0]], w[1..]);
    assert [w[0]] + w[1..] == w;
    assert buf[p..p + |w|][0] == w[0];
  }

  /** One character that does not end the parse. */
  lemma RunStep(s: Scan, buf: string, p: nat, x: bool)
    requires !Halted(s.cs) && p < |buf| && !Halted(Next(s, buf, p, x).cs)
    ensures Run(s, buf, p, x) == Run(Next(s, buf, p, x), buf, p + 1, x)
  {
  }

  // ----- The method -----

  function MethodState(k: nat): nat
    requires 1 <= k
  {
    if k == 1 then 2 else 173 + k
  }

  lemma MethodStep(s: Scan, buf: string, p: nat, x: bool, k: nat)
    requires 1 <= k < 20 && s.cs == MethodState(k) && p < |buf| && MethodChar(buf[p])
    ensures Run(s, buf, p, x) == Run(s.(cs := MethodState(k + 1)), buf, p + 1, x)
  {
    RunStep(s, buf, p, x);
  }

  lemma {:induction false} MethodSegment(s: Scan, buf: string, p: nat, x: bool, w: string, k: nat)
    requires 1 <= k && k + |w| <= 20 && s.cs == MethodState(k) && At(buf, p, w)
    requires forall i | 0 <= i < |w| :: MethodChar(w[i])
    ensures Run(s, buf, p, x) == Run(s.(cs := MethodState(k + |w|)), buf, p + |w|, x)
    decreases |w|
  {
    hide Run, At, MethodChar, MethodState;
    if w != "" {
      AtFirst(buf, p, w);
      MethodStep(s, buf, p, x, k);
      MethodSegment(s.(cs := MethodState(k + 1)), buf, p + 1, x, w[1..], k + 1);
    }
  }

  ghost predicate MethodWord(w: string) {
    1 <= |w| <= 20 && forall k | 0 <= k < |w| :: MethodChar(w[k])
  }

  lemma EarlyNames(i: nat)
    requires i < 12
    ensures MethodWord(METHODS[i])
  {
  }

  lemma MiddleNames(i: nat)
    requires 12 <= i < 23
    ensures MethodWord(METHODS[i])
  {
  }

  lemma LateNames(i: nat)
    requires 23 <= i < |METHODS| && i != MSEARCH
    ensures MethodWord(METHODS[i])
  {
  }

  lemma MethodNames(i: nat)
    requires i < |METHODS| && i != MSEARCH
    ensures 1 <= |METHODS[i]| <= 20 && forall k | 0 <= k < |METHODS[i]| :: MethodChar(METHODS[i][k])
  {
    hide MethodChar;
    if i < 12 {
      EarlyNames(i);
    } else if i < 23 {
      MiddleNames(i);
    } else {
      LateNames(i);
    }
  }

  // ----- The target -----

  predicate PathText(w: string, x: bool) {
    w == "" ||
    if w[0] == '%' then |w| >= 3 && Hex(w[1]) && Hex(w[2]) && PathText(w[3..], x)
    else PathChar(w[0], x) && PathText(w[1..], x)
  }

  predicate QueryText(w: string, x: bool) {
    w == "" ||
    if w[0] == '%' then |w| >= 3 && Hex(w[1]) && Hex(w[2]) && QueryText(w[3..], x)
    else QueryChar(w[0], x) && QueryText(w[1..], x)
  }

  lemma EscapeSegment(s: Scan, buf: string, p: nat, x: bool, w: string)
    requires s.cs == 27 || s.cs == 31
    requires |w| >= 2 && Hex(w[0]) && Hex(w[1]) && At(buf, p, w)
    ensures At(buf, p + 2, w[2..])
    ensures Run(s, buf, p, x) == Run(s.(cs := if s.cs == 27 then 26 else 30), buf, p + 2, x)
  {
    AtFirst(buf, p, w);
    AtFirst(buf, p + 1, w[1..]);
    assert w[1..][1..] == w[2..];
    RunStep(s, buf, p, x);
    RunStep(Next(s, buf, p, x), buf, p + 1, x);
  }

  lemma PathStep(s: Scan, buf: string, p: nat, x: bool)
    requires (s.cs == 26 || s.cs == 33) && p < |buf| && (s.cs == 33 ==> buf[p] != '/')
    requires buf[p] == '%' || PathChar(buf[p], x)
    ensures Run(s, buf, p, x) == Run(s.(cs := if buf[p] == '%' then 27 else 26), buf, p + 1, x)
  {
    RunStep(s, buf, p, x);
  }

  lemma QueryStep(s: Scan, buf: string, p: nat, x: bool)
    requires (s.cs == 29 || s.cs == 30) && p < |buf|
    requires buf[p] == '%' || QueryChar(buf[p], x)
    ensures var q := if s.cs == 29 then p else s.queryStart;
            Run(s, buf, p, x) == Run(s.(cs := if buf[p] == '%' then 31 else 30, queryStart := q), buf, p + 1, x)
  {
    RunStep(s, buf, p, x);
  }

  lemma {:induction false} PathSegment(s: Scan, buf: string, p: nat, x: bool, w: string)
    requires s.cs == 26 || (s.cs == 33 && (w == "" || w[0] != '/'))
    requires PathText(w, x) && At(buf, p, w)
    ensures Run(s, buf, p, x) == Run(s.(cs := if w == "" then s.cs else 26), buf, p + |w|, x)
    decreases |w|
  {
    hide Run, PathChar, Hex;
    if w != "" {
      AtFirst(buf, p, w);
      PathStep(s, buf, p, x);
      if w[0] == '%' {
        EscapeSegment(s.(cs := 27), buf, p + 1, x, w[1..]);
        assert w[1..][2..] == w[3..];
        PathSegment(s.(cs := 26), buf, p + 3, x, w[3..]);
      } else {
        PathSegment(s.(cs := 26), buf, p + 1, x, w[1..]);
      }
    }
  }

  lemma {:induction false} QuerySegment(s: Scan, buf: string, p: nat, x: bool, w: string)
    requires (s.cs == 29 && w != "") || s.cs == 30
    requires QueryText(w, x) && At(buf, p, w)
    ensures var q := if s.cs == 29 then p else s.queryStart;
            Run(s, buf, p, x) == Run(s.(cs := 30, queryStart := q), buf, p + |w|, x)
    decreases |w|
  {
    hide Run, QueryChar, Hex;
    if w != "" {
      AtFirst(buf, p, w);
      QueryStep(s, buf, p, x);
      var q := if s.cs == 29 then p else s.queryStart;
      if w[0] == '%' {
        EscapeSegment(s.(cs := 31, queryStart := q), buf, p + 1, x, w[1..]);
        assert w[1..][2..] == w[3..];
        QuerySegment(s.(cs := 30, queryStart := q), buf, p + 3, x, w[3..]);
      } else {
        QuerySegment(s.(cs := 30, queryStart := q), buf, p + 1, x, w[1..]);
      }
    }
  }

  lemma {:induction false} QueryJoin(a: string, b: string, x: bool)
    requires QueryText(a, x) && QueryText(b, x)
    ensures QueryText(a + b, x)
  {
    if a == "" {
      assert a + b == b;
    } else if a[0] == '%' {
      assert (a + b)[3..] == a[3..] + b;
      QueryJoin(a[3..], b, x);
    } else {
      assert (a + b)[1..] == a[1..] + b;
      QueryJoin(a[1..], b, x);
    }
  }

  lemma {:induction false} PairsText(q: Fields, x: bool)
    requires forall e | e in q :: QueryText(e.key, x) && QueryText(e.value, x)
    ensures QueryText(PrintPairs(q), x)
    ensures q != [] ==> PrintPairs(q) != ""
  {
    if q != [] {
      var e := q[0];
      QueryJoin("=", e.value, x);
      QueryJoin(e.key, "=" + e.value, x);
      assert e.key + "=" + e.value == e.key + ("=" + e.value);
      if |q| > 1 {
        PairsText(q[1..], x);
        QueryJoin("&", PrintPairs(q[1..]), x);
        QueryJoin(e.key + "=" + e.value, "&" + PrintPairs(q[1..]), x);
      } else {
        assert PrintPairs(q) == e.key + "=" + e.value;
      }
    }
  }

  // ----- The version -----

  /** From the H to the last digit. */
  lemma VersionSegment(s: Scan, buf: string, p: nat, x: bool, d: char)
    requires s.cs == 4 && (d == '0' || d == '1') && At(buf, p, "HTTP/1." + [d])
    ensures Run(s, buf, p, x) == Run(s.(cs := 12, mark := p), buf, p + 8, x)
  {
    ProtocolSegment(s, buf, p, x, "HTTP/1." + [d], 0);
  }

  lemma ProtocolStep(s: Scan, buf: string, p: nat, x: bool)
    requires 4 <= s.cs <= 11 && p < |buf|
    requires if s.cs == 11 then buf[p] == '0' || buf[p] == '1' else buf[p] == PROTOCOL[s.cs - 4]
    ensures Run(s, buf, p, x) == Run(s.(cs := s.cs + 1, mark := if s.cs == 4 then p else s.mark), buf, p + 1, x)
  {
    RunStep(s, buf, p, x);
  }

  lemma {:induction false} ProtocolSegment(s: Scan, buf: string, p: nat, x: bool, w: string, k: nat)
    requires k <= 8 && s.cs == 4 + k && At(buf, p, w) && |w| == 8 - k
    requires forall i | 0 <= i < 7 - k :: w[i] == PROTOCOL[k + i]
    requires k <= 7 ==> w[7 - k] == '0' || w[7 - k] == '1'
    ensures Run(s, buf, p, x) == Run(s.(cs := 12, mark := if k == 0 then p else s.mark), buf, p + |w|, x)
    decreases 8 - k
  {
    hide Run;
    if k < 8 {
      AtFirst(buf, p, w);
      ProtocolStep(s, buf, p, x);
      ProtocolSegment(s.(cs := s.cs + 1, mark := if k == 0 then p else s.mark), buf, p + 1, x, w[1..], k + 1);
    }
  }

  // ----- Header lines -----

  /** What the automaton reads as a field name. */
  predicate FieldName(w: string) {
    w != "" && w[0] != '\r' && NameChar(w[0]) && forall i | 0 < i < |w| :: NameChar(w[i]) || w[i] == '\n'
  }

  /** What it reads through as a field value: no NUL, DEL or line end. */
  predicate FieldValue(v: string) {
    forall i | 0 <= i < |v| :: ValueChar(v[i]) && v[i] != '\r' && v[i] != '\n'
  }

  predicate Blank(c: char) { c == ' ' || c == '\t' }

  /** A value without its leading blanks, which the automaton skips. */
  function Strip(v: string): (r: string)
    ensures |r| <= |v|
  {
    if v == "" || !Blank(v[0]) then v else Strip(v[1..])
  }

  lemma {:induction false} StripSuffix(v: string)
    ensures v[|v| - |Strip(v)|..] == Strip(v)
  {
    if v != "" && Blank(v[0]) {
      StripSuffix(v[1..]);
    }
  }

  lemma {:induction false} NameSegment(s: Scan, buf: string, p: nat, x: bool, w: string)
    requires s.cs == 14 && At(buf, p, w) && forall i | 0 <= i < |w| :: w[i] != ':' && (NameChar(w[i]) || w[i] == '\n')
    ensures Run(s, buf, p, x) == Run(s, buf, p + |w|, x)
    decreases |w|
  {
    if w != "" {
      AtFirst(buf, p, w);
      RunStep(s, buf, p, x);
      NameSegment(s, buf, p + 1, x, w[1..]);
    }
  }

  lemma ValueStep(s: Scan, buf: string, p: nat, x: bool)
    requires s.cs == 16 && p < |buf| && ValueChar(buf[p]) && buf[p] != '\r' && buf[p] != '\n'
    ensures Run(s, buf, p, x) == Run(s, buf, p + 1, x)
  {
    RunStep(s, buf, p, x);
  }

  lemma ValueTail(v: string)
    requires FieldValue(v) && v != ""
    ensures FieldValue(v[1..]) && ValueChar(v[0]) && v[0] != '\r' && v[0] != '\n'
  {
  }

  lemma {:induction false} ValueSegment(s: Scan, buf: string, p: nat, x: bool, w: string)
    requires s.cs == 16 && At(buf, p, w) && FieldValue(w)
    ensures Run(s, buf, p, x) == Run(s, buf, p + |w|, x)
    decreases |w|
  {
    hide Run, At, FieldValue, ValueChar;
    if w != "" {
      AtFirst(buf, p, w);
      ValueTail(w);
      ValueStep(s, buf, p, x);
      ValueSegment(s, buf, p + 1, x, w[1..]);
    }
  }

  /** The colon cannot be part of a name. */
  lemma NameHasNoColon(w: string)
    requires FieldName(w)
    ensures forall i | 0 <= i < |w| :: w[i] != ':'
  {
  }

  lemma NameStart(s: Scan, buf: string, p: nat, x: bool)
    requires s.cs == 13 && p < |buf| && NameChar(buf[p]) && buf[p] != '\r'
    ensures Run(s, buf, p, x) == Run(s.(cs := 14, fieldStart := p), buf, p + 1, x)
  {
    RunStep(s, buf, p, x);
  }

  lemma ColonStep(s: Scan, buf: string, p: nat, x: bool)
    requires s.cs == 14 && p < |buf| && buf[p] == ':' && s.fieldStart <= p
    ensures Run(s, buf, p, x) == Run(s.(cs := 15, fieldLen := p - s.fieldStart), buf, p + 1, x)
  {
    RunStep(s, buf, p, x);
  }

  lemma BlankStep(s: Scan, buf: string, p: nat, x: bool)
    requires s.cs == 15 && p < |buf| && buf[p] == ' '
    ensures Run(s, buf, p, x) == Run(s.(mark := p), buf, p + 1, x)
  {
    RunStep(s, buf, p, x);
  }

  /** From the start of a line to the blank after its colon. */
  lemma NamePart(s: Scan, buf: string, p: nat, x: bool, name: string)
    requires s.cs == 13 && FieldName(name) && At(buf, p, name + ": ")
    ensures var q := p + |name| + 2;
            Run(s, buf, p, x) == Run(s.(cs := 15, fieldStart := p, fieldLen := |name|, mark := q - 1), buf, q, x)
  {
    hide Run, NameChar;
    NameHasNoColon(name);
    AtSplit(buf, p, name, ": ");
    AtFirst(buf, p, name);
    AtFirst(buf, p + |name|, ": ");
    AtFirst(buf, p + |name| + 1, ": "[1..]);
    NameStart(s, buf, p, x);
    var s1 := s.(cs := 14, fieldStart := p);
    NameSegment(s1, buf, p + 1, x, name[1..]);
    ColonStep(s1, buf, p + |name|, x);
    BlankStep(s1.(cs := 15, fieldLen := |name|), buf, p + |name| + 1, x);
  }

  lemma SkipStep(s: Scan, buf: string, p: nat, x: bool)
    requires s.cs == 15 && p < |buf| && Blank(buf[p])
    ensures Run(s, buf, p, x) == Run(s.(mark := p), buf, p + 1, x)
  {
    RunStep(s, buf, p, x);
  }

  lemma ValueStart(s: Scan, buf: string, p: nat, x: bool)
    requires s.cs == 15 && p < |buf| && ValueChar(buf[p]) && !Blank(buf[p]) && buf[p] != '\r' && buf[p] != '\n'
    ensures Run(s, buf, p, x) == Run(s.(cs := 16, mark := p), buf, p + 1, x)
  {
    RunStep(s, buf, p, x);
  }

  /** Where the value proper starts, or where its end is when there is none. */
  function ValueMark(s: Scan, p: nat, v: string): Scan {
    if Strip(v) == "" then s.(mark := if v == "" then s.mark else p + |v| - 1)
    else s.(cs := 16, mark := p + |v| - |Strip(v)|)
  }

  lemma MarkEmpty(s: Scan, p: nat)
    ensures ValueMark(s, p, "") == s
  {
  }

  lemma MarkBlank(s: Scan, p: nat, v: string)
    requires v != "" && Blank(v[0])
    ensures ValueMark(s, p, v) == ValueMark(s.(mark := p), p + 1, v[1..])
  {
    assert Strip(v) == Strip(v[1..]);
  }

  lemma MarkStart(s: Scan, p: nat, v: string)
    requires v != "" && !Blank(v[0])
    ensures ValueMark(s, p, v) == s.(cs := 16, mark := p)
  {
  }

  /** From after the blank to the carriage return. */
  lemma {:induction false} ValuePart(s: Scan, buf: string, p: nat, x: bool, v: string)
    requires s.cs == 15 && FieldValue(v) && At(buf, p, v)
    ensures Run(s, buf, p, x) == Run(ValueMark(s, p, v), buf, p + |v|, x)
    decreases |v|
  {
    hide Run, ValueChar, Blank, FieldValue, At, ValueMark, Strip;
    if v == "" {
      MarkEmpty(s, p);
    } else {
      AtFirst(buf, p, v);
      ValueTail(v);
      if Blank(v[0]) {
        MarkBlank(s, p, v);
        SkipStep(s, buf, p, x);
        ValuePart(s.(mark := p), buf, p + 1, x, v[1..]);
      } else {
        MarkStart(s, p, v);
        ValueStart(s, buf, p, x);
        ValueSegment(s.(cs := 16, mark := p), buf, p + 1, x, v[1..]);
      }
    }
  }

  function Trim(e: Entry<string>): Entry<string> { Entry(e.key, Strip(e.value)) }

  function Trimmed(es: Fields): Fields {
    if es == [] then [] else [Trim(es[0])] + Trimmed(es[1..])
  }

  /** After a whole line the field is in the map. */
  function AfterLine(s: Scan, p: nat, e: Entry<string>): Scan {
    s.(cs := 13, fieldStart := p, fieldLen := |e.key|, mark := p + |e.key| + 2 + |e.value| - |Strip(e.value)|,
       req := s.req.(headers := Put(true, s.req.headers, e.key, Strip(e.value))))
  }

  /** The carriage return after a value hands the field over. */
  lemma FieldStep(s: Scan, buf: string, p: nat, x: bool, name: string, value: string)
    requires p < |buf| && buf[p] == '\r' && name != ""
    requires At(buf, s.fieldStart, name) && s.fieldLen == |name|
    requires (s.cs == 15 && value == "") || (s.cs == 16 && s.mark <= p && buf[s.mark..p] == value)
    ensures var m := if s.cs == 15 then p else s.mark;
            var headers := Put(true, s.req.headers, name, value);
            Run(s, buf, p, x) == Run(s.(cs := 17, mark := m, req := s.req.(headers := headers)), buf, p + 1, x)
  {
    hide Put;
    RunStep(s, buf, p, x);
    assert buf[p..p] == "";
  }

  lemma FeedStep(s: Scan, buf: string, p: nat, x: bool)
    requires s.cs == 17 && p < |buf| && buf[p] == '\n'
    ensures Run(s, buf, p, x) == Run(s.(cs := 13), buf, p + 1, x)
  {
    RunStep(s, buf, p, x);
  }

  /** From the carriage return to the start of the next line. */
  lemma LineEnd(s: Scan, buf: string, p: nat, x: bool, e: Entry<string>)
    requires e.key != "" && At(buf, p, e.key) && At(buf, p + |e.key| + 2, e.value)
    requires At(buf, p + |e.key| + 2 + |e.value|, "\r\n")
    ensures var k := p + |e.key| + 2;
            Run(ValueMark(s.(cs := 15, fieldStart := p, fieldLen := |e.key|, mark := k - 1), k, e.value), buf,
                k + |e.value|, x) == Run(AfterLine(s, p, e), buf, k + |e.value| + 2, x)
  {
    hide Run, Put, Strip;
    var k, v := p + |e.key| + 2, p + |e.key| + 2 + |e.value|;
    var s1 := s.(cs := 15, fieldStart := p, fieldLen := |e.key|, mark := k - 1);
    AtFirst(buf, v, "\r\n");
    AtFirst(buf, v + 1, "\r\n"[1..]);
    StripSuffix(e.value);
    AtSuffix(buf, k, e.value, |e.value| - |Strip(e.value)|);
    FieldStep(ValueMark(s1, k, e.value), buf, v, x, e.key, Strip(e.value));
    FeedStep(AfterLine(s, p, e).(cs := 17), buf, v + 1, x);
  }

  lemma LineText(e: Entry<string>)
    ensures Line(e) == (e.key + ": ") + (e.value + "\r\n") && |Line(e)| == |e.key| + |e.value| + 4
  {
  }

  lemma LineSegment(s: Scan, buf: string, p: nat, x: bool, e: Entry<string>)
    requires s.cs == 13 && FieldName(e.key) && FieldValue(e.value) && At(buf, p, Line(e))
    ensures Run(s, buf, p, x) == Run(AfterLine(s, p, e), buf, p + |Line(e)|, x)
  {
    hide Run, FieldName, FieldValue, At, ValueMark, AfterLine, Line;
    var k := p + |e.key| + 2;
    LineText(e);
    AtSplit(buf, p, e.key + ": ", e.value + "\r\n");
    AtSplit(buf, k, e.value, "\r\n");
    AtSplit(buf, p, e.key, ": ");
    NameNotEmpty(e.key);
    NamePart(s, buf, p, x, e.key);
    ValuePart(s.(cs := 15, fieldStart := p, fieldLen := |e.key|, mark := k - 1), buf, k, x, e.value);
    LineEnd(s, buf, p, x, e);
  }

  lemma AtSuffix(buf: string, p: nat, w: string, n: nat)
    requires At(buf, p, w) && n <= |w|
    ensures buf[p + n..p + |w|] == w[n..]
  {
    assert w == w[..n] + w[n..];
    AtSplit(buf, p, w[..n], w[n..]);
  }

  lemma NameNotEmpty(name: string)
    requires FieldName(name)
    ensures name != ""
  {
  }

  lemma AfterLineAt(s: Scan, p: nat, e: Entry<string>)
    ensures AfterLine(s, p, e).cs == 13
  {
  }

  function AfterLines(s: Scan, p: nat, es: Fields): Scan
    decreases |es|
  {
    if es == [] then s else AfterLines(AfterLine(s, p, es[0]), p + |Line(es[0])|, es[1..])
  }

  lemma {:induction false} AfterLinesKeeps(s: Scan, p: nat, es: Fields)
    requires s.cs == 13
    ensures var n := AfterLines(s, p, es);
            n.cs == 13 && n.error == s.error && n.req == s.req.(headers := PutAll(s.req.headers, Trimmed(es)))
    decreases |es|
  {
    if es != [] {
      AfterLinesKeeps(AfterLine(s, p, es[0]), p + |Line(es[0])|, es[1..]);
    }
  }

  lemma {:induction false} LinesSegment(s: Scan, buf: string, p: nat, x: bool, es: Fields)
    requires s.cs == 13 && At(buf, p, Lines(es))
    requires forall e | e in es :: FieldName(e.key) && FieldValue(e.value)
    ensures Run(s, buf, p, x) == Run(AfterLines(s, p, es), buf, p + |Lines(es)|, x)
    decreases |es|
  {
    hide Run, At, FieldName, FieldValue, AfterLine, Line;
    if es != [] {
      AfterLineAt(s, p, es[0]);
      AtSplit(buf, p, Line(es[0]), Lines(es[1..]));
      LineSegment(s, buf, p, x, es[0]);
      LinesSegment(AfterLine(s, p, es[0]), buf, p + |Line(es[0])|, x, es[1..]);
    }
  }

  /** The empty line ends the head. */
  lemma EndSegment(s: Scan, buf: string, p: nat, x: bool)
    requires s.cs == 13 && At(buf, p, "\r\n")
    ensures Run(s, buf, p, x) == (s.(cs := DONE, fieldStart := p, bodyStart := p + 2), p + 2)
  {
    AtFirst(buf, p, "\r\n");
    AtFirst(buf, p + 1, "\r\n"[1..]);
    RunStep(s, buf, p, x);
  }

  // ----- The parts of the head -----

  lemma FirstStep(s: Scan, buf: string, p: nat, x: bool)
    requires s.cs == 1 && p < |buf| && MethodChar(buf[p])
    ensures Run(s, buf, p, x) == Run(s.(cs := 2, mark := p), buf, p + 1, x)
  {
    RunStep(s, buf, p, x);
  }

  lemma MethodEndStep(s: Scan, buf: string, p: nat, x: bool, i: nat)
    requires InMethod(s.cs) && p < |buf| && buf[p] == ' '
    requires i < |METHODS| && At(buf, s.mark, METHODS[i])
    ensures Run(s, buf, p, x) == Run(s.(cs := 3, req := s.req.(verb := i)), buf, p + 1, x)
  {
    var at := buf[s.mark..|buf|];
    assert at[..|METHODS[i]|] == METHODS[i];
    MethodByPrefix(at, i);
    hide CharsToHttpMethod;
    RunStep(s, buf, p, x);
  }

  lemma MethodPart(buf: string, x: bool, i: nat)
    requires i < |METHODS| && i != MSEARCH && At(buf, 0, METHODS[i] + " ")
    ensures Run(FRESH, buf, 0, x) == Run(FRESH.(cs := 3, req := BLANK.(verb := i)), buf, |METHODS[i]| + 1, x)
  {
    hide Run, MethodChar;
    var w := METHODS[i];
    MethodNames(i);
    AtSplit(buf, 0, w, " ");
    AtFirst(buf, 0, w);
    AtFirst(buf, |w|, " ");
    FirstStep(FRESH, buf, 0, x);
    MethodSegment(FRESH.(cs := MethodState(1)), buf, 1, x, w[1..], 1);
    MethodEndStep(FRESH.(cs := MethodState(|w|)), buf, |w|, x, i);
  }

  lemma SlashStep(s: Scan, buf: string, p: nat, x: bool)
    requires s.cs == 3 && p < |buf| && buf[p] == '/'
    ensures Run(s, buf, p, x) == Run(s.(cs := 33, mark := p), buf, p + 1, x)
  {
    RunStep(s, buf, p, x);
  }

  lemma PathEndStep(s: Scan, buf: string, p: nat, x: bool, path: string)
    requires (s.cs == 26 || s.cs == 33) && p < |buf| && (buf[p] == ' ' || buf[p] == '?')
    requires s.mark <= p && buf[s.mark..p] == path
    ensures Run(s, buf, p, x)
         == Run(s.(cs := if buf[p] == ' ' then 4 else 29, req := s.req.(path := path)), buf, p + 1, x)
  {
    RunStep(s, buf, p, x);
  }

  /** An origin-form path: a slash, not followed by a second one. */
  predicate PathLegal(path: string, x: bool) {
    path != "" && path[0] == '/' && (|path| > 1 ==> path[1] != '/') && PathText(path[1..], x)
  }

  lemma PathPart(s: Scan, buf: string, p: nat, x: bool, path: string, end: char)
    requires s.cs == 3 && PathLegal(path, x) && (end == ' ' || end == '?') && At(buf, p, path + [end])
    ensures Run(s, buf, p, x)
         == Run(s.(cs := if end == ' ' then 4 else 29, mark := p, req := s.req.(path := path)), buf, p + |path| + 1, x)
  {
    hide Run, PathText;
    AtSplit(buf, p, path, [end]);
    AtFirst(buf, p, path);
    AtFirst(buf, p + |path|, [end]);
    SlashStep(s, buf, p, x);
    var s1 := s.(cs := 33, mark := p);
    PathSegment(s1, buf, p + 1, x, path[1..]);
    PathEndStep(s1.(cs := if path[1..] == "" then 33 else 26), buf, p + |path|, x, path);
  }

  lemma QueryEndStep(s: Scan, buf: string, p: nat, x: bool, text: string)
    requires s.cs == 30 && p < |buf| && buf[p] == ' ' && s.queryStart <= p && buf[s.queryStart..p] == text
    ensures Run(s, buf, p, x) == Run(s.(cs := 4, req := s.req.(query := QueryOf(s.req.query, text))), buf, p + 1, x)
  {
    hide QueryOf;
    RunStep(s, buf, p, x);
  }

  /** Every key and value is legal text for a query. */
  ghost predicate QueryLegal(q: Fields, x: bool) {
    Sorted(true, q) && forall e | e in q :: QueryText(e.key, x) && QueryText(e.value, x)
  }

  lemma PairsLegal(q: Fields, x: bool)
    requires QueryLegal(q, x)
    ensures QueryText(PrintPairs(q), x) && (q != [] ==> PrintPairs(q) != "")
  {
    hide QueryText, PrintPairs;
    PairsText(q, x);
  }

  lemma QueryPart(s: Scan, buf: string, p: nat, x: bool, q: Fields)
    requires s.cs == 29 && q != [] && QueryLegal(q, x) && s.req.query == [] && At(buf, p, PrintPairs(q) + " ")
    ensures Run(s, buf, p, x)
         == Run(s.(cs := 4, queryStart := p, req := s.req.(query := QueryOf([], PrintPairs(q)))), buf,
                p + |PrintPairs(q)| + 1, x)
  {
    hide Run, QueryLegal, QueryText, PrintPairs, QueryOf;
    var text := PrintPairs(q);
    PairsLegal(q, x);
    AtSplit(buf, p, text, " ");
    AtFirst(buf, p + |text|, " ");
    QuerySegment(s, buf, p, x, text);
    QueryEndStep(s.(cs := 30, queryStart := p), buf, p + |text|, x, text);
  }

  lemma VersionEndStep(s: Scan, buf: string, p: nat, x: bool, v: nat)
    requires s.cs == 12 && p < |buf| && buf[p] == '\r' && VersionLegal(v)
    requires s.mark <= p && buf[s.mark..p] == "HTTP/1." + [if v == 0x10 then '0' else '1']
    ensures Run(s, buf, p, x) == Run(s.(cs := 17, req := s.req.(version := v)), buf, p + 1, x)
  {
    assert "HTTP/1." + ['1'] == "HTTP/1.1" && "HTTP/1." + ['0'] == "HTTP/1.0";
    assert "HTTP/1.0"[7] != "HTTP/1.1"[7];
    RunStep(s, buf, p, x);
  }

  lemma VersionPart(s: Scan, buf: string, p: nat, x: bool, v: nat)
    requires s.cs == 4 && VersionLegal(v) && At(buf, p, PrintVersion(v) + "\r\n")
    ensures |PrintVersion(v)| == 8
    ensures Run(s, buf, p, x) == Run(s.(cs := 13, mark := p, req := s.req.(version := v)), buf, p + 10, x)
  {
    hide Run, Digits, PrintVersion;
    VersionText(v);
    var t := PrintVersion(v);
    AtSplit(buf, p, t, "\r\n");
    AtFirst(buf, p + 8, "\r\n");
    AtFirst(buf, p + 9, "\r\n"[1..]);
    VersionSegment(s, buf, p, x, if v == 0x10 then '0' else '1');
    VersionEndStep(s.(cs := 12, mark := p), buf, p + 8, x, v);
    FeedStep(s.(cs := 17, mark := p, req := s.req.(version := v)), buf, p + 9, x);
  }

  // ----- The round trip -----

  ghost predicate HeadersLegal(es: Fields) {
    Sorted(true, es) && forall e | e in es && !IsConnection(e.key) :: FieldName(e.key) && FieldValue(e.value)
  }

  /** An origin-form path, legal query text, a known version, and header lines that the automaton
      reads through. */
  ghost predicate Legal(r: Request, x: bool) {
    && r.verb < |METHODS|
    && PathLegal(r.path, x) && QueryLegal(r.query, x) && VersionLegal(r.version) && HeadersLegal(r.headers)
  }

  /** What comes back: the query is cut at its separators, the connection header is not printed,
      blanks before a value are skipped, a body announces its length. */
  function Received(r: Request): Request {
    r.(query := QueryOf([], PrintPairs(r.query)),
       headers := PutAll(Trimmed(Shown(r.headers)), LengthLine(r.body)), body := "")
  }

  lemma {:induction false} LinesJoin(a: Fields, b: Fields)
    ensures Lines(a) + Lines(b) == Lines(a + b)
  {
    if a == [] {
      assert a + b == b;
    } else {
      assert (a + b)[1..] == a[1..] + b;
      LinesJoin(a[1..], b);
    }
  }

  lemma {:induction false} PutAllJoin(es: Fields, a: Fields, b: Fields)
    ensures PutAll(es, a + b) == PutAll(PutAll(es, a), b)
    decreases |a|
  {
    if a == [] {
      assert a + b == b;
    } else {
      assert (a + b)[1..] == a[1..] + b;
      PutAllJoin(Put(true, es, a[0].key, a[0].value), a[1..], b);
    }
  }

  lemma LengthName()
    ensures FieldName("content-length")
  {
  }

  lemma DigitIsValueChar(c: char)
    requires IsDigit(c)
    ensures ValueChar(c) && c != '\r' && c != '\n' && !Blank(c)
  {
  }

  lemma LengthValue(n: nat)
    ensures FieldValue(Digits(n)) && Strip(Digits(n)) == Digits(n)
  {
    hide Digits, IsDigit, ValueChar, Blank;
    var d := Digits(n);
    DigitsValue(n);
    forall i | 0 <= i < |d| ensures ValueChar(d[i]) && d[i] != '\r' && d[i] != '\n' && !Blank(d[i]) {
      assert d[i] in d;
      DigitIsValueChar(d[i]);
    }
  }

  lemma LengthLineLegal(body: string)
    ensures forall e | e in LengthLine(body) :: FieldName(e.key) && FieldValue(e.value)
    ensures Trimmed(LengthLine(body)) == LengthLine(body)
  {
    hide FieldName, FieldValue, Digits, Strip;
    LengthName();
    LengthValue(|body|);
  }

  lemma {:induction false} TrimmedJoin(a: Fields, b: Fields)
    ensures Trimmed(a + b) == Trimmed(a) + Trimmed(b)
  {
    if a == [] {
      assert a + b == b;
    } else {
      assert (a + b)[1..] == a[1..] + b;
      TrimmedJoin(a[1..], b);
    }
  }

  lemma {:induction false} TrimmedAt(es: Fields)
    ensures |Trimmed(es)| == |es| && forall i | 0 <= i < |es| :: Trimmed(es)[i] == Trim(es[i])
  {
    hide Trim;
    if es != [] {
      TrimmedAt(es[1..]);
    }
  }

  lemma TrimmedSorted(es: Fields)
    requires Sorted(true, es)
    ensures Sorted(true, Trimmed(es))
  {
    TrimmedAt(es);
  }

  lemma HeadersPart(s: Scan, buf: string, p: nat, x: bool, r: Request)
    requires s.cs == 13 && s.req.headers == [] && HeadersLegal(r.headers)
    requires At(buf, p, Lines(Shown(r.headers)) + Lines(LengthLine(r.body)) + "\r\n")
    ensures var q := p + |Lines(Shown(r.headers)) + Lines(LengthLine(r.body))| + 2;
            var (n, e) := Run(s, buf, p, x);
            && e == q && n.cs == DONE && n.bodyStart == q && n.error == s.error
            && n.req == s.req.(headers := Received(r).headers)
  {
    hide Run, FieldName, FieldValue, IsConnection, Lines, Shown, LengthLine, PutAll, Trimmed;
    var shown, more := Shown(r.headers), LengthLine(r.body);
    ShownSorted(r.headers);
    LengthLineLegal(r.body);
    TrimmedSorted(shown);
    TrimmedJoin(shown, more);
    LinesJoin(shown, more);
    var text := Lines(shown + more);
    AtSplit(buf, p, text, "\r\n");
    LinesSegment(s, buf, p, x, shown + more);
    AfterLinesKeeps(s, p, shown + more);
    EndSegment(AfterLines(s, p, shown + more), buf, p + |text|, x);
    PutAllJoin([], Trimmed(shown), more);
    assert [] + Trimmed(shown) == Trimmed(shown);
    PutAllRebuilds([], Trimmed(shown));
  }

  lemma NoPairs()
    ensures QueryOf([], PrintPairs([])) == []
  {
  }

  lemma TargetText(path: string, q: Fields)
    ensures path + PrintQuery(q) + " " == if q == [] then path + [' '] else (path + ['?']) + (PrintPairs(q) + " ")
  {
    hide PrintPairs;
  }

  lemma QueryTarget(s: Scan, buf: string, p: nat, x: bool, path: string, q: Fields)
    requires s.cs == 3 && PathLegal(path, x) && QueryLegal(q, x) && s.req.query == [] && q != []
    requires At(buf, p, (path + ['?']) + (PrintPairs(q) + " "))
    ensures Run(s, buf, p, x)
         == Run(s.(cs := 4, mark := p, queryStart := p + |path| + 1,
                   req := s.req.(path := path, query := QueryOf([], PrintPairs(q)))), buf,
                p + |path| + |PrintPairs(q)| + 2, x)
  {
    hide Run, PathLegal, QueryLegal, PrintPairs, At, QueryOf;
    AtSplit(buf, p, path + ['?'], PrintPairs(q) + " ");
    PathPart(s, buf, p, x, path, '?');
    QueryPart(s.(cs := 29, mark := p, req := s.req.(path := path)), buf, p + |path| + 1, x, q);
  }

  /** From the start of the request line to the start of the version. */
  lemma TargetPart(s: Scan, buf: string, p: nat, x: bool, r: Request) returns (n: Scan)
    requires s.cs == 3 && PathLegal(r.path, x) && QueryLegal(r.query, x) && s.req.query == []
    requires At(buf, p, r.path + PrintQuery(r.query) + " ")
    ensures Run(s, buf, p, x) == Run(n, buf, p + |r.path + PrintQuery(r.query)| + 1, x)
    ensures n.cs == 4 && n.error == s.error
    ensures n.req == s.req.(path := r.path, query := QueryOf([], PrintPairs(r.query)))
  {
    hide Run, PathLegal, QueryLegal, PrintPairs, PrintQuery, At, QueryOf;
    TargetText(r.path, r.query);
    if r.query == [] {
      PathPart(s, buf, p, x, r.path, ' ');
      n := s.(cs := 4, mark := p, req := s.req.(path := r.path));
      NoPairs();
    } else {
      QueryTarget(s, buf, p, x, r.path, r.query);
      n := s.(cs := 4, mark := p, queryStart := p + |r.path| + 1,
              req := s.req.(path := r.path, query := QueryOf([], PrintPairs(r.query))));
    }
  }

  /** One parse of a printed request, whatever follows it, reads exactly its head and finds the
      same method, path, query, version and headers, with the body starting where the head ends. */
  lemma ParsePrinted(r: Request, x: bool, buf: string)
    requires Legal(r, x) && r.verb != MSEARCH && PrintHead(r) <= buf
    ensures var (n, e) := Run(FRESH, buf, 0, x);
            && e == |PrintHead(r)| && n.bodyStart == |PrintHead(r)|
            && n.cs == DONE && n.error == 0 && n.req == Received(r)
  {
    hide Run, PathLegal, QueryLegal, HeadersLegal, PrintQuery, Lines, Shown, LengthLine, PrintVersion, PutAll;
    hide At, PrintHead, QueryOf, PrintPairs, Trimmed;
    var m, target := METHODS[r.verb] + " ", r.path + PrintQuery(r.query) + " ";
    var version := PrintVersion(r.version) + "\r\n";
    var fields := Lines(Shown(r.headers)) + Lines(LengthLine(r.body)) + "\r\n";
    HeadInParts(r, m, target, version, fields);
    FourParts(buf, m, target, version, fields);
    MethodPart(buf, x, r.verb);
    var s1 := FRESH.(cs := 3, req := BLANK.(verb := r.verb));
    var s2 := TargetPart(s1, buf, |m|, x, r);
    VersionPart(s2, buf, |m| + |target|, x, r.version);
    var s3 := s2.(cs := 13, mark := |m| + |target|, req := s2.req.(version := r.version));
    HeadersPart(s3, buf, |m| + |target| + |version|, x, r);
  }

  lemma FourParts(buf: string, a: string, b: string, c: string, d: string)
    requires a + (b + (c + d)) <= buf
    ensures At(buf, 0, a) && At(buf, |a|, b) && At(buf, |a| + |b|, c) && At(buf, |a| + |b| + |c|, d)
  {
    assert At(buf, 0, a + (b + (c + d)));
    AtSplit(buf, 0, a, b + (c + d));
    AtSplit(buf, |a|, b, c + d);
    AtSplit(buf, |a| + |b|, c, d);
  }

  lemma HeadInParts(r: Request, m: string, target: string, version: string, fields: string)
    requires r.verb < |METHODS| && m == METHODS[r.verb] + " " && target == r.path + PrintQuery(r.query) + " "
    requires version == PrintVersion(r.version) + "\r\n"
    requires fields == Lines(Shown(r.headers)) + Lines(LengthLine(r.body)) + "\r\n"
    ensures PrintHead(r) == m + (target + (version + fields))
  {
    hide PrintQuery, PrintVersion, Lines, Shown, LengthLine;
  }

  /** The one method name with a character that is not legal in a method. */
  lemma SearchRefused(buf: string, x: bool)
    requires METHODS[MSEARCH] <= buf
    ensures Run(FRESH, buf, 0, x).0.cs == ERROR
  {
    assert buf[0] == METHODS[MSEARCH][0] == 'M' && buf[1] == METHODS[MSEARCH][1] == '-';
    hide MethodChar;
    assert MethodChar('M') && !MethodChar('-');
    RunStep(FRESH, buf, 0, x);
    assert Next(FRESH.(cs := 2), buf, 1, x).cs == ERROR;
  }

  /** A legal request without a body survives printing and parsing if and only if its method is
      not M-SEARCH, no query key holds a separator and no query value an ampersand, it has no
      connection header, and no header value begins with a blank. */
  lemma RoundTrip(r: Request, x: bool)
    requires Legal(r, x) && r.body == ""
    ensures var (n, e) := Run(FRESH, ToString(r), 0, x);
            n.cs == DONE && n.error == 0 && n.req == r && e == |ToString(r)| == n.bodyStart <==>
              && r.verb != MSEARCH
              && (forall e | e in r.query :: Separable(e))
              && forall h | h in r.headers :: !IsConnection(h.key) && (h.value != "" ==> !Blank(h.value[0]))
  {
    hide Run, PathLegal, Strip, Blank, IsConnection, QueryText, QueryOf, PrintPairs, Separable;
    assert PrintHead(r) + "" == PrintHead(r);
    if r.verb == MSEARCH {
      SearchRefused(ToString(r), x) by {
        NameFirst(r);
      }
    } else {
      ParsePrinted(r, x, ToString(r));
      QueryBack(r.query);
      SameHeaders(r.headers);
    }
  }

  lemma NameFirst(r: Request)
    requires r.verb < |METHODS|
    ensures METHODS[r.verb] <= ToString(r)
  {
    hide PrintQuery, PrintVersion, Lines, Shown, LengthLine;
  }

  lemma {:induction false} AllShown(es: Fields)
    requires forall e | e in es :: !IsConnection(e.key)
    ensures Shown(es) == es
  {
    hide IsConnection;
    if es != [] {
      AllShown(es[1..]);
    }
  }

  lemma {:induction false} StripStart(v: string)
    ensures Strip(v) != "" ==> !Blank(Strip(v)[0])
    ensures Strip(v) == v <==> (v != "" ==> !Blank(v[0]))
  {
    if v != "" && Blank(v[0]) {
      StripStart(v[1..]);
    }
  }

  /** The headers that come back are the ones sent exactly when none is left out or trimmed. */
  lemma SameHeaders(es: Fields)
    requires Sorted(true, es)
    ensures Trimmed(Shown(es)) == es <==>
              forall h | h in es :: !IsConnection(h.key) && (h.value != "" ==> !Blank(h.value[0]))
  {
    hide Sorted, IsConnection, Strip, Blank;
    var shown := Shown(es);
    ShownSorted(es);
    TrimmedAt(shown);
    if Trimmed(shown) == es {
      forall h | h in es ensures !IsConnection(h.key) && (h.value != "" ==> !Blank(h.value[0])) {
        var i :| 0 <= i < |es| && es[i] == h;
        assert shown[i] in shown;
        StripStart(shown[i].value);
      }
    } else if forall h | h in es :: !IsConnection(h.key) && (h.value != "" ==> !Blank(h.value[0])) {
      AllShown(es);
      forall i | 0 <= i < |es| ensures Trimmed(es)[i] == es[i] {
        StripStart(es[i].value);
      }
      assert false;
    }
  }
}
