/** HTTP requests: their method table, query and header maps, and how they are printed. */
module HttpMessage {
  import opened Decimals
  import opened OrderedMap

  // ----- Methods -----

  /** The method names, by number. */
  const METHODS := [
    "DELETE", "GET", "HEAD", "POST", "PUT", "CONNECT", "OPTIONS", "TRACE", "COPY", "LOCK", "MKCOL", "MOVE",
    "PROPFIND", "PROPPATCH", "SEARCH", "UNLOCK", "BIND", "REBIND", "UNBIND", "ACL", "REPORT", "MKACTIVITY",
    "CHECKOUT", "MERGE", "M-SEARCH", "NOTIFY", "SUBSCRIBE", "UNSUBSCRIBE", "PATCH", "PURGE", "MKCALENDAR",
    "LINK", "UNLINK", "SOURCE"]

  const MSEARCH: nat := 24

  /** `CharsToHttpMethod`: the first name of the table that the text begins with, or the size
      of the table. The text is not cut at the end of the method. */
  function MatchFrom(names: seq<string>, text: string): (i: nat)
    ensures i <= |names| && (i < |names| ==> names[i] <= text)
  {
    if names == [] || names[0] <= text then 0 else 1 + MatchFrom(names[1..], text)
  }

  function CharsToHttpMethod(text: string): nat {
    MatchFrom(METHODS, text)
  }

  function CharAt(t: string, k: nat): char {
    if k < |t| then t[k] else ' '
  }

  /** Which method a text can begin with, told from its first five characters. */
  function Candidate(t: string): nat {
    var c1, c2, c4 := CharAt(t, 1), CharAt(t, 2), CharAt(t, 4);
    match CharAt(t, 0)
    case 'D' => 0
    case 'G' => 1
    case 'H' => 2
    case 'P' =>
      if c1 == 'O' then 3 else if c1 == 'A' then 28
      else if c1 == 'U' then (if c2 == 'T' then 4 else 29)
      else if c4 == 'F' then 12 else 13
    case 'C' => if c1 == 'H' then 22 else if c2 == 'N' then 5 else 8
    case 'O' => 6
    case 'T' => 7
    case 'L' => if c1 == 'O' then 9 else 31
    case 'M' =>
      if c1 == 'O' then 11 else if c1 == 'E' then 23 else if c1 == '-' then 24
      else if c2 == 'C' then (if CharAt(t, 3) == 'O' then 10 else 30) else 21
    case 'S' => if c1 == 'E' then 14 else if c1 == 'U' then 26 else 33
    case 'U' => if c2 == 'B' then 18 else if c2 == 'S' then 27 else if CharAt(t, 3) == 'O' then 15 else 32
    case 'B' => 16
    case 'R' => if c2 == 'B' then 17 else 20
    case 'A' => 19
    case _ => 25
  }

  lemma EarlyCandidate(t: string, j: nat)
    requires j < 17 && METHODS[j] <= t
    ensures Candidate(t) == j
  {
    var n := METHODS[j];
    assert forall k | 0 <= k < |n| :: t[k] == n[k];
  }

  lemma LateCandidate(t: string, j: nat)
    requires 17 <= j < |METHODS| && METHODS[j] <= t
    ensures Candidate(t) == j
  {
    var n := METHODS[j];
    assert forall k | 0 <= k < |n| :: t[k] == n[k];
  }

  lemma CandidateOf(t: string, j: nat)
    requires j < |METHODS| && METHODS[j] <= t
    ensures Candidate(t) == j
  {
    hide Candidate;
    if j < 17 {
      EarlyCandidate(t, j);
    } else {
      LateCandidate(t, j);
    }
  }

  lemma {:induction false} MatchFromStops(names: seq<string>, t: string, i: nat)
    requires i < |names| && names[i] <= t
    ensures MatchFrom(names, t) <= i
  {
    if i > 0 {
      MatchFromStops(names[1..], t, i - 1);
    }
  }

  /** No two names of the table begin the same text, so the order of the table and the missing
      cut do not matter: a text is read as method i exactly when it begins with name i. */
  lemma MethodByPrefix(t: string, i: nat)
    requires i < |METHODS|
    ensures CharsToHttpMethod(t) == i <==> METHODS[i] <= t
  {
    if METHODS[i] <= t {
      MatchFromStops(METHODS, t, i);
      CandidateOf(t, i);
      CandidateOf(t, CharsToHttpMethod(t));
    }
  }

  // ----- Messages -----

  /** Keys of all three maps of a message are compared in lower case. */
  type Fields = seq<Entry<string>>

  datatype Request = Request(verb: nat, path: string, query: Fields, version: nat, headers: Fields, body: string)

  /** What the parser fills in: `GET / HTTP/1.1` without any field. */
  const BLANK := Request(1, "/", [], 0x11, [], "")

  function PutAll(es: Fields, more: Fields): Fields
    decreases |more|
  {
    if more == [] then es else PutAll(Put(true, es, more[0].key, more[0].value), more[1..])
  }

  /** Entries written in the order of their map give the same map. */
  lemma {:induction false} PutAllRebuilds(es: Fields, more: Fields)
    requires Sorted(true, es + more)
    ensures PutAll(es, more) == es + more
    decreases |more|
  {
    if more == [] {
      assert es + more == es;
    } else {
      var all := es + more;
      assert all == (es + [more[0]]) + more[1..];
      assert forall i, j | 0 <= i < j < |es| + 1 :: (es + [more[0]])[i] == all[i] && (es + [more[0]])[j] == all[j];
      PutLast(true, es, more[0]);
      PutAllRebuilds(es + [more[0]], more[1..]);
    }
  }

  // ----- Printing -----

  function PrintPairs(q: Fields): string {
    if q == [] then ""
    else q[0].key + "=" + q[0].value + (if |q| == 1 then "" else "&" + PrintPairs(q[1..]))
  }

  function PrintQuery(q: Fields): string {
    if q == [] then "" else "?" + PrintPairs(q)
  }

  function PrintVersion(v: nat): string {
    "HTTP/" + Digits(v / 16) + "." + Digits(v % 16)
  }

  function Line(e: Entry<string>): string {
    e.key + ": " + e.value + "\r\n"
  }

  /** `strcasecmp` with "connection" finds them equal. */
  predicate IsConnection(key: string) { Lower(key) == "connection" }

  /** The headers that are printed. */
  function Shown(es: Fields): Fields {
    if es == [] then []
    else if IsConnection(es[0].key) then Shown(es[1..])
    else [es[0]] + Shown(es[1..])
  }

  function Lines(es: Fields): string {
    if es == [] then "" else Line(es[0]) + Lines(es[1..])
  }

  /** The length of a body is printed as one more header. */
  function LengthLine(body: string): Fields {
    if body == "" then [] else [Entry("content-length", Digits(|body|))]
  }

  function PrintHead(r: Request): string
    requires r.verb < |METHODS|
  {
    METHODS[r.verb] + " " + r.path + PrintQuery(r.query) + " " + PrintVersion(r.version) + "\r\n"
    + Lines(Shown(r.headers)) + Lines(LengthLine(r.body)) + "\r\n"
  }

  /** `HttpRequest::toString`. */
  function ToString(r: Request): string
    requires r.verb < |METHODS|
  {
    PrintHead(r) + r.body
  }

  /** Leaving entries out keeps the order. */
  lemma {:induction false} ShownSorted(es: Fields)
    requires Sorted(true, es)
    ensures Sorted(true, Shown(es))
    ensures forall e | e in Shown(es) :: e in es && !IsConnection(e.key)
  {
    if es != [] {
      assert Sorted(true, es[1..]);
      ShownSorted(es[1..]);
      if !IsConnection(es[0].key) {
        var r := Shown(es);
        forall i, j | 0 <= i < j < |r| ensures KeyLess(true, r[i].key, r[j].key) {
          if i == 0 {
            assert r[j] in es[1..];
          }
        }
      }
    }
  }

  /** The two versions the parser knows. */
  predicate VersionLegal(v: nat) { v == 0x10 || v == 0x11 }

  lemma VersionText(v: nat)
    requires VersionLegal(v)
    ensures PrintVersion(v) == "HTTP/1." + [if v == 0x10 then '0' else '1']
  {
    assert Digits(0) == "0" && Digits(1) == "1";
  }

  // ----- Reading a query -----

  /** First position of a character, or the length. */
  function Find(s: string, c: char): (i: nat)
    ensures i <= |s| && (i < |s| ==> s[i] == c)
  {
    if s == "" || s[0] == c then 0 else 1 + Find(s[1..], c)
  }

  /** One piece between ampersands; a piece without an equals sign is ignored. */
  function PutPiece(q: Fields, piece: string): Fields {
    var i := Find(piece, '=');
    if i < |piece| then Put(true, q, piece[..i], piece[i + 1..]) else q
  }

  /** `setQuery`: pieces as `getline` cuts them; nothing follows a final ampersand. */
  function QueryOf(q: Fields, text: string): Fields
    decreases |text|
  {
    if text == "" then q
    else
      var i := Find(text, '&');
      var q' := PutPiece(q, text[..i]);
      if i < |text| then QueryOf(q', text[i + 1..]) else q'
  }

  lemma FirstPiece(q: Fields, text: string)
    requires text != ""
    ensures var i := Find(text, '&');
            QueryOf(q, text) == QueryOf(PutPiece(q, text[..i]), if i < |text| then text[i + 1..] else "")
  {
    hide Find, PutPiece;
  }

  lemma NoText(q: Fields)
    ensures QueryOf(q, "") == q
  {
  }

  predicate Lacks(s: string, c: char) { forall i | 0 <= i < |s| :: s[i] != c }

  lemma {:induction false} FindAfter(a: string, c: char, b: string)
    requires Lacks(a, c)
    ensures Find(a + [c] + b, c) == |a|
  {
    var t := a + [c] + b;
    if a != "" {
      assert t[1..] == a[1..] + [c] + b;
      FindAfter(a[1..], c, b);
    }
  }

  lemma {:induction false} FindNone(a: string, c: char)
    requires Lacks(a, c)
    ensures Find(a, c) == |a|
  {
    if a != "" {
      FindNone(a[1..], c);
    }
  }

  /** The pairs a query can carry: no separator inside a key or a value where it would cut. */
  predicate Separable(e: Entry<string>) {
    Lacks(e.key, '=') && Lacks(e.key, '&') && Lacks(e.value, '&')
  }

  lemma PieceReads(q: Fields, e: Entry<string>)
    requires Separable(e)
    ensures PutPiece(q, e.key + "=" + e.value) == Put(true, q, e.key, e.value)
  {
    var piece := e.key + "=" + e.value;
    FindAfter(e.key, '=', e.value);
    assert piece[..|e.key|] == e.key && piece[|e.key| + 1..] == e.value;
  }

  /** Reading what was printed puts the printed pairs, in order. */
  lemma {:induction false} QueryReads(q: Fields, pairs: Fields)
    requires forall e | e in pairs :: Separable(e)
    ensures QueryOf(q, PrintPairs(pairs)) == PutAll(q, pairs)
    decreases |pairs|
  {
    if pairs != [] {
      var e := pairs[0];
      var piece := e.key + "=" + e.value;
      PieceReads(q, e);
      assert Lacks(piece, '&');
      if |pairs| == 1 {
        FindNone(piece, '&');
        assert PrintPairs(pairs) == piece;
        assert piece[..|piece|] == piece && pairs[1..] == [];
      } else {
        var rest := PrintPairs(pairs[1..]);
        var text := PrintPairs(pairs);
        assert text == piece + "&" + rest;
        FindAfter(piece, '&', rest);
        assert text[..|piece|] == piece && text[|piece| + 1..] == rest;
        QueryReads(Put(true, q, e.key, e.value), pairs[1..]);
      }
    }
  }

  lemma {:induction false} FindFirst(s: string, c: char)
    ensures Lacks(s[..Find(s, c)], c)
  {
    if s != "" && s[0] != c {
      FindFirst(s[1..], c);
      assert s[..Find(s, c)] == [s[0]] + s[1..][..Find(s[1..], c)];
    }
  }

  ghost predicate AllSeparable(q: Fields) { forall e | e in q :: Separable(e) }

  lemma {:induction false} PutSeparable(q: Fields, key: string, value: string)
    requires AllSeparable(q) && Separable(Entry(key, value))
    ensures AllSeparable(Put(true, q, key, value))
  {
    hide Norm, Less, Lacks;
    if q != [] {
      assert Separable(q[0]);
      PutSeparable(q[1..], key, value);
    }
  }

  /** What is read from a query can always be carried by one: a key holds no separator, a value
      no ampersand. */
  lemma {:induction false} QueryOfSeparable(q: Fields, text: string)
    requires AllSeparable(q)
    ensures AllSeparable(QueryOf(q, text))
    decreases |text|
  {
    hide AllSeparable;
    if text != "" {
      var i := Find(text, '&');
      FindFirst(text, '&');
      PieceSeparable(q, text[..i]);
      if i < |text| {
        QueryOfSeparable(PutPiece(q, text[..i]), text[i + 1..]);
      }
    }
  }

  lemma PieceSeparable(q: Fields, piece: string)
    requires AllSeparable(q) && Lacks(piece, '&')
    ensures AllSeparable(PutPiece(q, piece))
  {
    var i := Find(piece, '=');
    if i < |piece| {
      FindFirst(piece, '=');
      PutSeparable(q, piece[..i], piece[i + 1..]);
    }
  }

  /** Reading a printed query gives the query map back exactly when no key holds a separator and
      no value an ampersand. */
  lemma QueryBack(q: Fields)
    requires Sorted(true, q)
    ensures QueryOf([], PrintPairs(q)) == q <==> forall e | e in q :: Separable(e)
  {
    hide PrintPairs, Separable, QueryOf, PutAll;
    assert AllSeparable([]);
    QueryOfSeparable([], PrintPairs(q));
    if AllSeparable(q) {
      QueryReads([], q);
      assert [] + q == q;
      PutAllRebuilds([], q);
    }
  }

  /** A failing input: an ampersand in a value. */
  lemma AmpersandSplits()
    ensures var q := [Entry("x", "1&y=2")]; Sorted(true, q) && QueryOf([], PrintPairs(q)) != q
  {
    var q := [Entry("x", "1&y=2")];
    assert q[0].value[1] == '&';
    assert !Lacks(q[0].value, '&') && !Separable(q[0]) && q[0] in q;
    QueryBack(q);
  }

  // ----- The request object -----

  lemma PairsFirst(q: Fields)
    requires q != []
    ensures PrintPairs(q) == (q[0].key + "=" + q[0].value) + if |q| > 1 then "&" + PrintPairs(q[1..]) else ""
  {
  }

  lemma {:induction false} PairsAppend(q: Fields, e: Entry<string>)
    ensures PrintPairs(q + [e]) == PrintPairs(q) + (if q == [] then "" else "&") + e.key + "=" + e.value
  {
    PairsFirst(q + [e]);
    if q != [] {
      assert (q + [e])[1..] == q[1..] + [e];
      PairsAppend(q[1..], e);
      PairsFirst(q);
      hide PrintPairs;
    }
  }

  lemma {:induction false} ShownLinesAppend(es: Fields, e: Entry<string>)
    ensures Lines(Shown(es + [e])) == Lines(Shown(es)) + if IsConnection(e.key) then "" else Line(e)
  {
    hide Line, IsConnection;
    if es == [] {
      assert es + [e] == [e] && Shown([e][1..]) == [];
      assert Lines([e]) == Line(e) + Lines([e][1..]);
    } else {
      assert (es + [e])[1..] == es[1..] + [e];
      ShownLinesAppend(es[1..], e);
    }
  }

  class HttpRequest {
    var verb: nat
    var path: string
    var query: Fields
    var version: nat
    var headers: Fields
    var body: string

    function Value(): Request
      reads this
    {
      Request(verb, path, query, version, headers, body)
    }

    constructor ()
      ensures Value() == BLANK
    {
      verb, path, query, version, headers, body := 1, "/", [], 0x11, [], "";
    }

    /** `m_headers[key] = value`: the finite map of the headers is updated at the lower-case key
        and stays in order; a key that is there already keeps its spelling and its place. */
    method AddHeaderKey(key: string, value: string)
      modifies `headers
      ensures headers == Put(true, old(headers), key, value)
      ensures old(Sorted(true, headers)) ==>
                && Sorted(true, headers)
                && Contents(true, headers) == old(Contents(true, headers))[Lower(key) := value]
      ensures old(Sorted(true, headers)) ==>
                forall i | 0 <= i < |old(headers)| && Lower(old(headers)[i].key) == Lower(key) ::
                  headers == old(headers)[i := Entry(old(headers)[i].key, value)]
    {
      if Sorted(true, headers) {
        PutSorted(true, headers, key, value);
        PutContents(true, headers, key, value);
        forall i | 0 <= i < |headers| && Lower(headers[i].key) == Lower(key)
          ensures Put(true, headers, key, value) == headers[i := Entry(headers[i].key, value)]
        {
          PutInPlace(true, headers, key, value, i);
        }
      }
      headers := Put(true, headers, key, value);
    }

    /** Cuts the text at ampersands, each piece at its first equals sign. */
    method SetQuery(text: string)
      modifies `query
      ensures query == QueryOf(old(query), text)
    {
      hide QueryOf, Find, Put;
      var rest := text;
      while rest != ""
        invariant QueryOf(query, rest) == QueryOf(old(query), text)
        decreases |rest|
      {
        FirstPiece(query, rest);
        var i := Find(rest, '&');
        var piece := rest[..i];
        rest := if i < |rest| then rest[i + 1..] else "";
        var pos := Find(piece, '=');
        if pos < |piece| {
          query := Put(true, query, piece[..pos], piece[pos + 1..]);
        }
      }
      NoText(query);
    }

    method PrintQueryPart() returns (text: string)
      ensures text == PrintQuery(query)
    {
      if query == [] {
        return "";
      }
      text := "?";
      var noFirst := false;
      var i := 0;
      while i < |query|
        invariant i <= |query| && noFirst == (i > 0)
        invariant text == "?" + PrintPairs(query[..i])
      {
        PairsAppend(query[..i], query[i]);
        assert query[..i] + [query[i]] == query[..i + 1];
        if noFirst {
          text := text + "&";
        }
        text := text + query[i].key + "=" + query[i].value;
        noFirst := true;
        i := i + 1;
      }
      assert query[..i] == query;
    }

    method PrintHeaders() returns (text: string)
      ensures text == Lines(Shown(headers))
    {
      text := "";
      var i := 0;
      assert headers[..0] == [] && Lines(Shown([])) == "";
      hide Lines, Shown, IsConnection;
      while i < |headers|
        invariant i <= |headers| && text == Lines(Shown(headers[..i]))
      {
        ShownLinesAppend(headers[..i], headers[i]);
        assert headers[..i] + [headers[i]] == headers[..i + 1];
        if !IsConnection(headers[i].key) {
          text := text + (headers[i].key + ": " + headers[i].value + "\r\n");
        }
        i := i + 1;
      }
      assert headers[..i] == headers;
    }

    method Print() returns (text: string)
      requires verb < |METHODS|
      ensures text == ToString(Value())
    {
      hide Lines, Shown, PrintQuery, Digits, LengthLine;
      var q := PrintQueryPart();
      var h := PrintHeaders();
      text := METHODS[verb] + " " + path + q + " "
        + ("HTTP/" + Digits(version / 16) + "." + Digits(version % 16)) + "\r\n" + h;
      LengthLines(body);
      if body != "" {
        text := text + ("content-length" + ": " + Digits(|body|) + "\r\n") + "\r\n" + body;
      } else {
        text := text + "" + "\r\n" + body;
      }
    }
  }

  lemma LengthLines(body: string)
    ensures Lines(LengthLine(body)) == if body == "" then "" else "content-length" + ": " + Digits(|body|) + "\r\n"
  {
    if body != "" {
      OneLine("content-length", Digits(|body|));
    }
  }

  lemma OneLine(key: string, value: string)
    ensures Lines([Entry(key, value)]) == key + ": " + value + "\r\n"
  {
    var es := [Entry(key, value)];
    assert es[1..] == [];
    assert Lines(es) == Line(es[0]) + "";
  }
}
