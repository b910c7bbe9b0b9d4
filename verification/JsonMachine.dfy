/** The reader as an abstract machine over the unread text.

Open containers are held as a stack of frames (a zipper): each frame is the part
of its container that is already closed, and remembers the slot of its parent it
will fill.  `JsonReader` shows that the pointer machine of the source, working in
place on a half-built tree, computes the same thing. */
module JsonMachine {
  import opened Decimals
  import opened OrderedMap
  import opened JsonTree

  datatype Token =
    | ObjectBegin | ObjectEnd | ArrayBegin | ArrayEnd
    | StringToken | NumberToken | NullToken | TrueToken | FalseToken
    | Separator | Colon | Eof | ErrorToken

  /** An open container: `slot` is the key it was opened under (empty in an array). */
  datatype Frame = Frame(slot: string, node: Json)

  datatype Work =
    | Open(frames: seq<Frame>)
    | Closed(tree: Json)

  /** How a run can leave the reader other than by its boolean result. */
  datatype Fault =
    | NoFault
    | Threw      // std::stoi threw out of the parse
    | Undefined  // an uninitialised element pointer was pushed as if it were a container

  datatype Config = Config(
    rest: string,
    work: Work,
    key: string,
    legal: Mask,
    started: bool,
    error: bool,
    fault: Fault)

  // ----- Masks of legal next tokens -----

  /** The values `m_nextLegalPunctuation` takes. */
  datatype Mask =
    | NoneLegal | StartMask | InObjectMask | InArrayMask | AfterCloseMask
    | AfterStringMask | AfterScalarMask | AfterSeparatorMask | AfterColonMask

  predicate IsValueToken(t: Token) {
    || t.ObjectBegin? || t.ArrayBegin? || t.StringToken? || t.NumberToken?
    || t.NullToken? || t.TrueToken? || t.FalseToken?
  }

  predicate Allows(m: Mask, t: Token) {
    match m
    case NoneLegal => false
    case StartMask => t.ArrayBegin? || t.ObjectBegin?
    case InObjectMask => t.StringToken?
    case InArrayMask => IsValueToken(t) || t.ArrayEnd? || t.ObjectEnd?
    case AfterCloseMask => t.Eof? || t.Separator? || t.ArrayEnd? || t.ObjectEnd?
    case AfterStringMask => t.Colon? || t.Separator? || t.ArrayEnd? || t.ObjectEnd?
    case AfterScalarMask => t.Separator? || t.ArrayEnd? || t.ObjectEnd?
    case AfterSeparatorMask => IsValueToken(t) || t.Separator?
    case AfterColonMask => IsValueToken(t)
  }

  function TokenBit(t: Token): bv16 {
    match t
    case ObjectBegin => 0x0001
    case ObjectEnd => 0x0002
    case ArrayBegin => 0x0004
    case ArrayEnd => 0x0008
    case StringToken => 0x0010
    case NumberToken => 0x0020
    case NullToken => 0x0040
    case TrueToken => 0x0080
    case FalseToken => 0x0100
    case Separator => 0x0200
    case Colon => 0x0400
    case Eof => 0x0800
    case ErrorToken => 0x1000
  }

  /** The bit mask as the source composes it. */
  function MaskBits(m: Mask): bv16 {
    match m
    case NoneLegal => 0
    case StartMask => TokenBit(ArrayBegin) | TokenBit(ObjectBegin)
    case InObjectMask => TokenBit(StringToken)
    case InArrayMask => !(TokenBit(Colon) | TokenBit(Separator) | TokenBit(Eof) | TokenBit(ErrorToken))
    case AfterCloseMask => TokenBit(Eof) | TokenBit(Separator) | TokenBit(ArrayEnd) | TokenBit(ObjectEnd)
    case AfterStringMask => TokenBit(Colon) | TokenBit(Separator) | TokenBit(ObjectEnd) | TokenBit(ArrayEnd)
    case AfterScalarMask => TokenBit(Separator) | TokenBit(ObjectEnd) | TokenBit(ArrayEnd)
    case AfterSeparatorMask =>
      !(TokenBit(Eof) | TokenBit(Colon) | TokenBit(ErrorToken) | TokenBit(ArrayEnd) | TokenBit(ObjectEnd))
    case AfterColonMask =>
      !(TokenBit(Eof) | TokenBit(Colon) | TokenBit(ErrorToken) | TokenBit(ArrayEnd) | TokenBit(ObjectEnd)
        | TokenBit(Separator))
  }

  /** Testing a token's bit in the mask is exactly the table `Allows`. */
  lemma MaskTable(m: Mask, t: Token)
    ensures Allows(m, t) <==> MaskBits(m) & TokenBit(t) != 0
  {
  }

  // ----- Scanning -----

  function DropSpaces(s: string): (r: string)
    ensures |r| <= |s|
  {
    if s != "" && SkipSpace(s[0]) then DropSpaces(s[1..]) else s
  }

  function Classify(c: char): Token {
    if c == '-' || (IsDigit(c) && c != '5') then NumberToken
    else match c
      case 'f' => FalseToken
      case 't' => TrueToken
      case 'n' => NullToken
      case '"' => StringToken
      case ',' => Separator
      case ':' => Colon
      case '[' => ArrayBegin
      case ']' => ArrayEnd
      case '{' => ObjectBegin
      case '}' => ObjectEnd
      case _ => ErrorToken
  }

  /** Where the next token starts. */
  function TokenStart(s: string): (r: string)
    ensures |r| <= |s|
  {
    if s != "" && ScanSpace(s[0]) then DropSpaces(s) else s
  }

  function TokenAt(s: string): Token {
    if s == "" then Eof else Classify(s[0])
  }

  /** Offset of the quote that ends a string body, or -1. */
  function QuoteAt(s: string): (r: int)
    ensures -1 <= r < |s|
  {
    if s == "" then -1
    else if s[0] == '"' then 0
    else
      var step := if s[0] == '\\' then 2 else 1;
      if step > |s| then -1
      else
        var q := QuoteAt(s[step..]);
        if q < 0 then -1 else step + q
  }

  function DigitRun(s: string): (n: nat)
    ensures n <= |s|
  {
    if s != "" && IsDigit(s[0]) then 1 + DigitRun(s[1..]) else 0
  }

  // ----- The tree under construction -----

  /** `container[slot] = child` or `container.append(child)`. */
  function AddChild(container: Json, slot: string, child: Json): Json {
    match container
    case Object(ms) => Object(Put(false, ms, slot, child))
    case Array(xs) => Array(xs + [child])
    case _ => container
  }

  /** The whole tree: every open container placed in its parent's slot. */
  function Plug(fs: seq<Frame>): Json
    requires fs != []
  {
    if |fs| == 1 then fs[0].node else AddChild(fs[0].node, fs[1].slot, Plug(fs[1..]))
  }

  function Built(w: Work): Json
    requires w.Open? ==> w.frames != []
  {
    match w
    case Open(fs) => Plug(fs)
    case Closed(t) => t
  }

  function Top(fs: seq<Frame>): Frame
    requires fs != []
  {
    fs[|fs| - 1]
  }

  function SetTop(fs: seq<Frame>, node: Json): (r: seq<Frame>)
    requires fs != []
    ensures |r| == |fs|
  {
    fs[|fs| - 1 := Top(fs).(node := node)]
  }

  function Pop(fs: seq<Frame>): Work
    requires fs != []
  {
    if |fs| == 1 then Closed(fs[0].node)
    else
      var below := fs[..|fs| - 1];
      Open(SetTop(below, AddChild(Top(below).node, Top(fs).slot, Top(fs).node)))
  }

  // ----- One token -----

  ghost predicate Shaped(w: Work) {
    w.Open? ==> w.frames != []
  }

  function OpenContainer(c: Config, empty: Json): (r: Config)
    requires Shaped(c.work)
    ensures Shaped(r.work) && r.rest == c.rest && (c.started ==> r.started)
  {
    if !c.started && c.work.Open? then
      c.(started := true, work := Open(SetTop(c.work.frames, empty)))
    else if c.work.Closed? then c.(fault := Undefined)
    else
      match Top(c.work.frames).node
      case Object(_) =>
        if c.key == "" then c.(error := true)
        else c.(work := Open(c.work.frames + [Frame(c.key, empty)]), key := "")
      case Array(_) => c.(work := Open(c.work.frames + [Frame("", empty)]))
      case _ => c.(fault := Undefined)
  }

  function CloseContainer(c: Config, isObject: bool): (r: Config)
    requires Shaped(c.work)
    ensures Shaped(r.work) && r.rest == c.rest && (c.started ==> r.started)
  {
    if c.work.Open? && (if isObject then Top(c.work.frames).node.Object? else Top(c.work.frames).node.Array?)
    then c.(work := Pop(c.work.frames))
    else c.(error := true)
  }

  function AddScalar(c: Config, v: Json): (r: Config)
    requires Shaped(c.work)
    ensures Shaped(r.work) && r.rest == c.rest && (c.started ==> r.started)
  {
    if c.work.Closed? then c.(error := true)
    else
      var top := Top(c.work.frames);
      if top.node.Object? == (c.key == "") then c.(error := true)
      else c.(work := Open(SetTop(c.work.frames, AddChild(top.node, c.key, v))), key := "")
  }

  /** What becomes of a string's body s once it and the blanks behind it have been read. */
  function TakeString(c: Config, s: string): (r: Config)
    requires Shaped(c.work)
    ensures Shaped(r.work) && r.rest == c.rest && r.started == c.started
  {
    if c.rest == "" then c.(error := true)
    else if c.rest[0] == ':' then if c.key == "" then c.(key := s) else c.(error := true)
    else AddScalar(c, String(s))
  }

  function ReadString(c: Config): (r: Config)
    requires Shaped(c.work) && c.rest != ""
    ensures Shaped(r.work) && |r.rest| < |c.rest| && r.started == c.started
  {
    var body := c.rest[1..];
    var q := QuoteAt(body);
    if q < 0 then c.(rest := body, error := true)
    else TakeString(c.(rest := DropSpaces(body[q + 1..])), body[..q])
  }

  /** `std::stoi` on an optional minus sign and digits. */
  function Stoi(s: string): (r: (bool, int))
    requires s != ""
    ensures r.0 ==> INT_MIN <= r.1 <= INT_MAX
  {
    if s == "-" then (false, 0)
    else
      var m := NatValue(if s[0] == '-' then s[1..] else s);
      var n := if s[0] == '-' then -m else m;
      if INT_MIN <= n <= INT_MAX then (true, n) else (false, 0)
  }

  function ReadNumber(c: Config): (r: Config)
    requires Shaped(c.work) && c.rest != "" && Classify(c.rest[0]) == NumberToken
    ensures Shaped(r.work) && |r.rest| <= |c.rest| && r.started == c.started
    ensures Live(r) ==> |r.rest| < |c.rest|
  {
    var n := 1 + DigitRun(c.rest[1..]);
    if n < |c.rest| && c.rest[n] == '.' then c.(error := true)
    else
      var (ok, v) := Stoi(c.rest[..n]);
      if ok then AddScalar(c, Int(v)).(rest := c.rest[n..]) else c.(fault := Threw)
  }

  function Drop(s: string, n: nat): (r: string)
    ensures |r| <= |s| && (s != "" && n > 0 ==> |r| < |s|)
  {
    if n <= |s| then s[n..] else ""
  }

  /** One round of the parse loop on the token at the front. */
  function Dispatch(c: Config, t: Token): (r: Config)
    requires Shaped(c.work)
    requires t == TokenAt(c.rest)
    ensures Shaped(r.work)
    ensures Live(r) ==> |r.rest| < |c.rest|
  {
    match t
    case Eof => c.(legal := NoneLegal)
    case ObjectBegin => OpenContainer(c, Object([])).(rest := c.rest[1..], legal := InObjectMask)
    case ArrayBegin => OpenContainer(c, Array([])).(rest := c.rest[1..], legal := InArrayMask)
    case ObjectEnd => CloseContainer(c, true).(rest := c.rest[1..], legal := AfterCloseMask)
    case ArrayEnd => CloseContainer(c, false).(rest := c.rest[1..], legal := AfterCloseMask)
    case StringToken => ReadString(c).(legal := AfterStringMask)
    case NumberToken => ReadNumber(c).(legal := AfterScalarMask)
    case NullToken =>
      if |c.rest| >= 4 && c.rest[..4] == "null"
      then AddScalar(c, Null).(rest := c.rest[4..], legal := AfterScalarMask)
      else c.(error := true, legal := AfterScalarMask)
    case TrueToken =>
      var c' := AddScalar(c, Bool(true));
      var error := c'.error || !(|c.rest| >= 4 && c.rest[..4] == "true");
      c'.(rest := Drop(c.rest, 4), legal := AfterScalarMask, error := error)
    case FalseToken =>  // four characters are compared with five: never equal
      AddScalar(c, Bool(false)).(rest := Drop(c.rest, 4), legal := AfterScalarMask, error := true)
    case Separator => c.(rest := c.rest[1..], legal := AfterSeparatorMask)
    case Colon => c.(rest := c.rest[1..], legal := AfterColonMask)
    case ErrorToken => c.(error := true, legal := NoneLegal)
  }

  predicate Live(c: Config) {
    !c.error && c.fault.NoFault? && c.rest != ""
  }

  /** Each round consumes text or stops the machine. */
  function Step(c: Config): (r: Config)
    requires Shaped(c.work) && Live(c)
    ensures Shaped(r.work)
    ensures Live(r) ==> |r.rest| < |c.rest|
  {
    var at := c.(rest := TokenStart(c.rest));
    var t := TokenAt(at.rest);
    if Allows(c.legal, t) then Dispatch(at, t) else at.(error := true)
  }

  function Run(c: Config): (r: Config)
    requires Shaped(c.work)
    ensures Shaped(r.work) && !Live(r)
    decreases if Live(c) then |c.rest| + 1 else 0
  {
    if Live(c) then Run(Step(c)) else c
  }

  /** A fresh reader on `text`, parsing into an element that now holds `val`. */
  function Start(text: string, val: Json): Config {
    Config(text, Open([Frame("", val)]), "", StartMask, false, false, NoFault)
  }

  function Parse(text: string, val: Json): Config {
    Run(Start(text, val))
  }

  /** The parse returned true and left `t` in the element. */
  ghost predicate Reads(text: string, val: Json, t: Json) {
    var c := Parse(text, val);
    !c.error && c.fault.NoFault? && Built(c.work) == t
  }
}
