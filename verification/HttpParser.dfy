/** The request parser: the states of the generated automaton that read an origin-form request,
with their marks and callbacks. Everything else it accepts leads to the state `OUTSIDE`. */
module HttpParser {
  import opened OrderedMap
  import opened HttpMessage

  // ----- Character classes -----

  /** A byte as the signed `char` the automaton compares. */
  function Code(c: char): int {
    if c as int < 128 then c as int else -1
  }

  predicate MethodChar(c: char) { '0' <= c <= '9' || 'A' <= c <= 'Z' }

  /** Characters that are legal only when the parser was told to be relaxed. */
  predicate Unwise(c: char) { c == '^' || c == '{' || c == '}' }

  /** Legal in a query, besides percent escapes. */
  predicate QueryChar(c: char, relaxed: bool) {
    var k := Code(c);
    || k < 0 || c == '!' || c == '=' || c == '_' || c == '~'
    || (36 <= k <= 59) || (63 <= k <= 90) || (97 <= k <= 122)
    || (relaxed && Unwise(c))
  }

  /** Legal in a path, besides percent escapes; the slash included. */
  predicate PathChar(c: char, relaxed: bool) {
    QueryChar(c, relaxed) && c != '?'
  }

  predicate Hex(c: char) { '0' <= c <= '9' || 'A' <= c <= 'F' || 'a' <= c <= 'f' }

  /** Legal in a field name, control characters as the automaton has them. */
  predicate NameChar(c: char) {
    var k := Code(c);
    || c == '!' || c == '|' || c == '~'
    || (1 <= k <= 8) || (11 <= k <= 31) || (35 <= k <= 39) || (42 <= k <= 43)
    || (45 <= k <= 46) || (48 <= k <= 57) || (65 <= k <= 90) || (94 <= k <= 122)
  }

  predicate ValueChar(c: char) { Code(c) != 0 && Code(c) != 127 }

  // ----- The automaton -----

  const ERROR: nat := 0
  const DONE: nat := 348
  const OUTSIDE: nat := 1000

  /** What the parser holds: its state, its marks into the buffer, the request, the error code. */
  datatype Scan = Scan(
    cs: nat, mark: nat, fieldStart: nat, fieldLen: nat, queryStart: nat, bodyStart: nat, req: Request, error: nat)

  const FRESH := Scan(1, 0, 0, 0, 0, 0, BLANK, 0)

  function Slice(buf: string, from: nat, to: nat): string {
    if from <= to <= |buf| then buf[from..to] else ""
  }

  function OnMethod(s: Scan, buf: string): Scan {
    var m := CharsToHttpMethod(Slice(buf, s.mark, |buf|));
    if m == |METHODS| then s.(error := 1000) else s.(req := s.req.(verb := m))
  }

  function OnPath(s: Scan, buf: string, p: nat): Scan {
    s.(req := s.req.(path := Slice(buf, s.mark, p)))
  }

  function OnQuery(s: Scan, buf: string, p: nat): Scan {
    s.(req := s.req.(query := QueryOf(s.req.query, Slice(buf, s.queryStart, p))))
  }

  function OnVersion(s: Scan, buf: string, p: nat): Scan {
    var v := Slice(buf, s.mark, p);
    if v == "HTTP/1.1" then s.(req := s.req.(version := 0x11))
    else if v == "HTTP/1.0" then s.(req := s.req.(version := 0x10))
    else s.(error := 1001)
  }

  /** A field without a name is dropped. */
  function OnField(s: Scan, buf: string, p: nat): Scan {
    if s.fieldLen == 0 then s
    else
      var name, value := Slice(buf, s.fieldStart, s.fieldStart + s.fieldLen), Slice(buf, s.mark, p);
      s.(req := s.req.(headers := Put(true, s.req.headers, name, value)))
  }

  function Go(s: Scan, cs: nat): Scan { s.(cs := cs) }

  /** States 2 and 175 to 193: inside the method. */
  predicate InMethod(cs: nat) { cs == 2 || 175 <= cs <= 193 }

  function NextMethod(s: Scan, buf: string, p: nat, c: char): Scan {
    if c == ' ' then Go(OnMethod(s, buf), 3)
    else if MethodChar(c) && s.cs != 193 then Go(s, if s.cs == 2 then 175 else s.cs + 1)
    else Go(s, ERROR)
  }

  function NextTarget(s: Scan, p: nat, c: char, relaxed: bool): Scan {
    if c == '/' then Go(s.(mark := p), 33)
    else if c in " #%?!;=@_~" || 36 <= Code(c) <= 57 || 65 <= Code(c) <= 90 || 97 <= Code(c) <= 122
            || (relaxed && Unwise(c))
    then Go(s, OUTSIDE)
    else Go(s, ERROR)
  }

  /** States 26 and 33: inside the path; a second slash right away starts an authority. */
  function NextPath(s: Scan, buf: string, p: nat, c: char, relaxed: bool): Scan {
    if c == ' ' then Go(OnPath(s, buf, p), 4)
    else if c == '?' then Go(OnPath(s, buf, p), 29)
    else if c == '#' || (c == '/' && s.cs == 33) then Go(s, OUTSIDE)
    else if c == '%' then Go(s, 27)
    else if PathChar(c, relaxed) then Go(s, 26)
    else Go(s, ERROR)
  }

  /** States 29 and 30: at the start of the query, and inside it. */
  function NextQuery(s: Scan, buf: string, p: nat, c: char, relaxed: bool): Scan {
    var s' := if s.cs == 29 then s.(queryStart := p) else s;
    if c == ' ' then Go(OnQuery(s', buf, p), 4)
    else if c == '#' then Go(s, OUTSIDE)
    else if c == '%' then Go(s', 31)
    else if QueryChar(c, relaxed) then Go(s', 30)
    else Go(s, ERROR)
  }

  /** States 27, 28, 31 and 32: the two digits of a percent escape. */
  function NextEscape(s: Scan, c: char): Scan {
    if !Hex(c) then Go(s, ERROR)
    else Go(s, if s.cs == 27 then 28 else if s.cs == 28 then 26 else if s.cs == 31 then 32 else 30)
  }

  const PROTOCOL := "HTTP/1."

  /** States 4 to 11: the fixed text of the version, then its last digit. */
  function NextVersion(s: Scan, p: nat, c: char): Scan
    requires 4 <= s.cs <= 11
  {
    if s.cs == 11 then Go(s, if c == '0' || c == '1' then 12 else ERROR)
    else if c == PROTOCOL[s.cs - 4] then Go(if s.cs == 4 then s.(mark := p) else s, s.cs + 1)
    else Go(s, ERROR)
  }

  /** State 12: the end of the request line. */
  function NextLineEnd(s: Scan, buf: string, p: nat, c: char): Scan {
    if c == '\n' then Go(OnVersion(s, buf, p), 13)
    else if c == '\r' then Go(OnVersion(s, buf, p), 17)
    else Go(s, ERROR)
  }

  /** States 13 and 18: the start of a line, and a line that began with a carriage return. */
  function NextLine(s: Scan, p: nat, c: char): Scan {
    if s.cs == 13 then
      if c == '\n' then Go(s.(fieldStart := p, bodyStart := p + 1), DONE)
      else if c == '\r' then Go(s.(fieldStart := p), 18)
      else if NameChar(c) then Go(s.(fieldStart := p), 14)
      else Go(s, ERROR)
    else
      if c == '\n' then Go(s.(bodyStart := p + 1), DONE)
      else NextName(s, p, c)
  }

  /** State 14: inside a field name, where a line feed passes too. */
  function NextName(s: Scan, p: nat, c: char): Scan {
    if c == ':' then Go(s.(fieldLen := if s.fieldStart <= p then p - s.fieldStart else 0), 15)
    else if NameChar(c) || (c == '\n' && s.cs == 14) then Go(s, 14)
    else Go(s, ERROR)
  }

  /** States 15 and 16: the blanks before a field value, and the value. */
  function NextValue(s: Scan, buf: string, p: nat, c: char): Scan {
    var s' := if s.cs == 15 then s.(mark := p) else s;
    if !ValueChar(c) then Go(s, ERROR)
    else if c == '\n' then Go(OnField(s', buf, p), 13)
    else if c == '\r' then Go(OnField(s', buf, p), 17)
    else if s.cs == 15 && (c == ' ' || c == '\t') then s'
    else Go(s', 16)
  }

  function Next(s: Scan, buf: string, p: nat, relaxed: bool): Scan
    requires p < |buf|
  {
    var c := buf[p];
    if s.cs == 1 then
      if MethodChar(c) then Go(s.(mark := p), 2)
      else Go(s, if c == '<' || c == '@' then OUTSIDE else ERROR)
    else if InMethod(s.cs) then NextMethod(s, buf, p, c)
    else if s.cs == 3 then NextTarget(s, p, c, relaxed)
    else if s.cs == 26 || s.cs == 33 then NextPath(s, buf, p, c, relaxed)
    else if s.cs == 29 || s.cs == 30 then NextQuery(s, buf, p, c, relaxed)
    else if s.cs == 27 || s.cs == 28 || s.cs == 31 || s.cs == 32 then NextEscape(s, c)
    else if 4 <= s.cs <= 11 then NextVersion(s, p, c)
    else if s.cs == 12 then NextLineEnd(s, buf, p, c)
    else if s.cs == 13 || s.cs == 18 then NextLine(s, p, c)
    else if s.cs == 14 then NextName(s, p, c)
    else if s.cs == 15 || s.cs == 16 then NextValue(s, buf, p, c)
    else if s.cs == 17 then Go(s, if c == '\n' then 13 else ERROR)
    else s
  }

  predicate Halted(cs: nat) { cs == ERROR || cs == DONE || cs >= OUTSIDE }

  /** Where a whole-buffer parse ends: the final record and how many characters it consumed.
      The character an error is found at is not consumed, the one that ends the head is. */
  function Run(s: Scan, buf: string, p: nat, relaxed: bool): (Scan, nat)
    requires p <= |buf|
    decreases |buf| - p
  {
    if Halted(s.cs) || p == |buf| then (s, p)
    else
      var s' := Next(s, buf, p, relaxed);
      if s'.cs == DONE then (s', p + 1)
      else if Halted(s'.cs) then (s', p)
      else Run(s', buf, p + 1, relaxed)
  }

  /** Every mark is behind the reading position, and a field name is complete where it is used. */
  predicate Placed(s: Scan, p: nat) {
    && s.mark <= p && s.fieldStart <= p && s.queryStart <= p
    && (s.cs == 15 || s.cs == 16 ==> s.fieldStart + s.fieldLen <= p)
  }

  /** For every input the automaton only ever looks back: no callback is handed a range that
      starts after it ends or leaves the buffer. */
  lemma NextPlaced(s: Scan, buf: string, p: nat, relaxed: bool)
    requires p < |buf| && Placed(s, p)
    ensures Placed(Next(s, buf, p, relaxed), p + 1)
  {
    hide CharsToHttpMethod, QueryOf, Put, PathChar, QueryChar, NameChar, ValueChar;
  }

  // ----- The parser object -----

  class Parser {
    var cs: nat
    var mark: nat
    var fieldStart: nat
    var fieldLen: nat
    var queryStart: nat
    var bodyStart: nat
    var nread: nat
    /** Never initialised by the library: any value can be found here. */
    const uriRelaxed: bool
    const request: HttpRequest
    var error: nat

    ghost function State(): Scan
      reads this, request
    {
      Scan(cs, mark, fieldStart, fieldLen, queryStart, bodyStart, request.Value(), error)
    }

    constructor (relaxed: bool)
      ensures State() == FRESH && uriRelaxed == relaxed && fresh(request)
    {
      cs, mark, fieldStart, fieldLen, queryStart, bodyStart, nread := 1, 0, 0, 0, 0, 0, 0;
      error, uriRelaxed := 0, relaxed;
      request := new HttpRequest();
    }

    /** The text from the mark on begins with a method's name, and that is the method; or it
        begins with none, and the error is set. */
    method OnRequestMethod(buf: string)
      requires mark <= |buf|
      modifies request, `error
      ensures State() == OnMethod(old(State()), buf)
      ensures forall i | 0 <= i < |METHODS| && METHODS[i] <= buf[mark..|buf|] ::
                request.verb == i && error == old(error)
      ensures (forall i | 0 <= i < |METHODS| :: !(METHODS[i] <= buf[mark..|buf|])) ==>
                error == 1000 && request.Value() == old(request.Value())
    {
      forall i | 0 <= i < |METHODS|
        ensures CharsToHttpMethod(buf[mark..|buf|]) == i <==> METHODS[i] <= buf[mark..|buf|]
      {
        MethodByPrefix(buf[mark..|buf|], i);
      }
      hide CharsToHttpMethod;
      var m := CharsToHttpMethod(buf[mark..|buf|]);
      if m == |METHODS| {
        error := 1000;
      } else {
        request.verb := m;
      }
    }

    /** The inverse of printing a version: a printed known version is read back, any other text
        sets the error. */
    method OnRequestVersion(buf: string, p: nat)
      requires mark <= p <= |buf|
      modifies request, `error
      ensures State() == OnVersion(old(State()), buf, p)
      ensures forall v | VersionLegal(v) && buf[mark..p] == PrintVersion(v) ::
                request.version == v && error == old(error)
      ensures (forall v | VersionLegal(v) :: buf[mark..p] != PrintVersion(v)) ==>
                error == 1001 && request.Value() == old(request.Value())
    {
      hide PrintVersion;
      VersionText(0x10);
      VersionText(0x11);
      assert "HTTP/1." + ['1'] == "HTTP/1.1" && "HTTP/1." + ['0'] == "HTTP/1.0";
      assert VersionLegal(0x10) && VersionLegal(0x11);
      assert "HTTP/1.0"[7] != "HTTP/1.1"[7];
      var at := buf[mark..p];
      if at == "HTTP/1.1" {
        request.version := 0x11;
      } else if at == "HTTP/1.0" {
        request.version := 0x10;
      } else {
        error := 1001;
      }
    }

    /** A field without a name is dropped; any other updates the header map at its lower-case
        name with its value, and keeps the map in order. */
    method OnHttpField(buf: string, p: nat)
      requires mark <= p <= |buf| && fieldStart + fieldLen <= |buf|
      modifies request
      ensures State() == OnField(old(State()), buf, p)
      ensures fieldLen == 0 ==> request.Value() == old(request.Value())
      ensures old(Sorted(true, request.headers)) ==> Sorted(true, request.headers)
      ensures fieldLen > 0 && old(Sorted(true, request.headers)) ==>
                Contents(true, request.headers)
                == old(Contents(true, request.headers))[Lower(buf[fieldStart..fieldStart + fieldLen]) := buf[mark..p]]
    {
      hide Sorted, Contents, Put;
      if fieldLen == 0 {
        return;
      }
      request.AddHeaderKey(buf[fieldStart..fieldStart + fieldLen], buf[mark..p]);
    }

    /** One round of the automaton. */
    method Step(buf: string, p: nat)
      requires p < |buf| && Placed(State(), p)
      modifies `cs, `mark, `fieldStart, `fieldLen, `queryStart, `bodyStart, request, `error
      ensures State() == Next(old(State()), buf, p, uriRelaxed)
    {
      hide CharsToHttpMethod, QueryOf, Put, PathChar, QueryChar, NameChar, ValueChar, MethodChar, Unwise, Hex,
        OnMethod, OnVersion, OnField;
      var c := buf[p];
      if cs == 1 {
        if MethodChar(c) {
          mark := p;
          cs := 2;
        } else {
          cs := if c == '<' || c == '@' then OUTSIDE else ERROR;
        }
      } else if InMethod(cs) {
        if c == ' ' {
          OnRequestMethod(buf);
          cs := 3;
        } else if MethodChar(c) && cs != 193 {
          cs := if cs == 2 then 175 else cs + 1;
        } else {
          cs := ERROR;
        }
      } else if cs == 3 {
        StepTarget(c, p);
      } else if cs == 26 || cs == 33 {
        StepPath(buf, p);
      } else if cs == 29 || cs == 30 {
        StepQuery(buf, p);
      } else if cs == 27 || cs == 28 || cs == 31 || cs == 32 {
        if !Hex(c) {
          cs := ERROR;
        } else {
          cs := if cs == 27 then 28 else if cs == 28 then 26 else if cs == 31 then 32 else 30;
        }
      } else if 4 <= cs <= 11 {
        StepVersion(c, p);
      } else if cs == 12 {
        if c == '\n' || c == '\r' {
          OnRequestVersion(buf, p);
          cs := if c == '\n' then 13 else 17;
        } else {
          cs := ERROR;
        }
      } else if cs == 13 || cs == 14 || cs == 18 {
        StepLine(c, p);
      } else if cs == 15 || cs == 16 {
        StepValue(buf, p);
      } else if cs == 17 {
        cs := if c == '\n' then 13 else ERROR;
      }
    }

    method StepTarget(c: char, p: nat)
      modifies `cs, `mark
      ensures State() == NextTarget(old(State()), p, c, uriRelaxed)
    {
      if c == '/' {
        mark := p;
        cs := 33;
      } else if c in " #%?!;=@_~" || 36 <= Code(c) <= 57 || 65 <= Code(c) <= 90 || 97 <= Code(c) <= 122 {
        cs := OUTSIDE;
      } else {
        cs := if uriRelaxed && Unwise(c) then OUTSIDE else ERROR;
      }
    }

    method StepPath(buf: string, p: nat)
      requires p < |buf| && mark <= p
      modifies `cs, request
      ensures State() == NextPath(old(State()), buf, p, buf[p], uriRelaxed)
    {
      hide PathChar;
      var c := buf[p];
      if c == ' ' || c == '?' {
        request.path := buf[mark..p];
        cs := if c == ' ' then 4 else 29;
      } else if c == '#' || (c == '/' && cs == 33) {
        cs := OUTSIDE;
      } else if c == '%' {
        cs := 27;
      } else {
        cs := if PathChar(c, uriRelaxed) then 26 else ERROR;
      }
    }

    method StepQuery(buf: string, p: nat)
      requires p < |buf| && queryStart <= p
      modifies `cs, `queryStart, request
      ensures State() == NextQuery(old(State()), buf, p, buf[p], uriRelaxed)
    {
      hide QueryChar, QueryOf;
      var c := buf[p];
      if c == '#' {
        cs := OUTSIDE;
      } else if c != ' ' && c != '%' && !QueryChar(c, uriRelaxed) {
        cs := ERROR;
      } else {
        if cs == 29 {
          queryStart := p;
        }
        if c == ' ' {
          request.SetQuery(buf[queryStart..p]);
          cs := 4;
        } else {
          cs := if c == '%' then 31 else 30;
        }
      }
    }

    method StepVersion(c: char, p: nat)
      requires 4 <= cs <= 11
      modifies `cs, `mark
      ensures State() == NextVersion(old(State()), p, c)
    {
      if cs == 11 {
        cs := if c == '0' || c == '1' then 12 else ERROR;
      } else if c == PROTOCOL[cs - 4] {
        if cs == 4 {
          mark := p;
        }
        cs := cs + 1;
      } else {
        cs := ERROR;
      }
    }

    method StepLine(c: char, p: nat)
      requires (cs == 13 || cs == 14 || cs == 18) && fieldStart <= p
      modifies `cs, `fieldStart, `fieldLen, `bodyStart
      ensures State() == if old(cs) == 14 then NextName(old(State()), p, c) else NextLine(old(State()), p, c)
    {
      hide NameChar;
      if c == '\n' && cs != 14 {
        if cs == 13 {
          fieldStart := p;
        }
        bodyStart := p + 1;
        cs := DONE;
      } else if c == '\r' && cs == 13 {
        fieldStart := p;
        cs := 18;
      } else if c == ':' && cs != 13 {
        fieldLen := p - fieldStart;
        cs := 15;
      } else if NameChar(c) || c == '\n' {
        if cs == 13 {
          fieldStart := p;
        }
        cs := 14;
      } else {
        cs := ERROR;
      }
    }

    method StepValue(buf: string, p: nat)
      requires p < |buf| && mark <= p && (cs == 15 || cs == 16) && fieldStart + fieldLen <= p
      modifies `cs, `mark, request
      ensures State() == NextValue(old(State()), buf, p, buf[p])
    {
      hide OnField;
      var c := buf[p];
      if Code(c) == 0 || Code(c) == 127 {
        cs := ERROR;
      } else {
        if cs == 15 {
          mark := p;
        }
        if c == '\n' || c == '\r' {
          OnHttpField(buf, p);
          cs := if c == '\n' then 13 else 17;
        } else if !(cs == 15 && (c == ' ' || c == '\t')) {
          cs := 16;
        }
      }
    }

    /** `http_parser_execute` on the whole buffer by a fresh parser. */
    method Execute(buf: string) returns (n: nat)
      requires State() == FRESH
      modifies this, request
      ensures (State(), n) == Run(FRESH, buf, 0, uriRelaxed)
      ensures n <= |buf|
    {
      hide Next;
      if buf == "" {
        return 0;
      }
      nread, mark, fieldLen, fieldStart := 0, 0, 0, 0;
      var p := 0;
      while p < |buf| && !Halted(cs)
        invariant nread == 0 && p <= |buf| && (Halted(cs) || Placed(State(), p))
        invariant !Halted(cs) ==> Run(State(), buf, p, uriRelaxed) == Run(FRESH, buf, 0, uriRelaxed)
        invariant Halted(cs) ==> (State(), p) == Run(FRESH, buf, 0, uriRelaxed)
        decreases |buf| - p, !Halted(cs)
      {
        NextPlaced(State(), buf, p, uriRelaxed);
        Step(buf, p);
        if cs == DONE || !Halted(cs) {
          p := p + 1;
        }
      }
      assert p == |buf| && !Halted(cs) ==> Run(State(), buf, p, uriRelaxed) == (State(), p);
      nread := nread + p;
      n := nread;
    }

    /** `HttpRequestParser::execute`: what was not consumed moves to the front of the buffer. */
    method ExecuteInPlace(data: array<char>, len: nat) returns (offset: nat)
      requires State() == FRESH && len <= data.Length
      modifies this, request, data
      ensures offset <= len && (State(), offset) == Run(FRESH, old(data[..len]), 0, uriRelaxed)
      ensures data[..len - offset] == old(data[offset..len])
    {
      ghost var buf := data[..len];
      offset := Execute(data[..len]);
      forall i | 0 <= i < len - offset {
        data[i] := data[offset + i];
      }
      assert data[..len - offset] == buf[offset..];
    }
  }
}
