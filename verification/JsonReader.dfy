/** The reader as the source writes it: one pass over a string, changing a tree in
place through a stack of pointers to its open containers. */
module JsonReader {
  import opened Decimals
  import opened OrderedMap
  import opened JsonTree
  import opened JsonMachine

  // ----- Pointers into the tree -----

  datatype Step = Key(key: string) | Index(i: nat)

  /** A `JsonElement*`: the place it points to inside the root element, or an
      uninitialised or dangling value. */
  datatype Pointer = Wild | At(path: seq<Step>)

  predicate Present(t: Json, step: Step) {
    match step
    case Key(k) => t.Object? && Has(false, t.members, k)
    case Index(i) => t.Array? && i < |t.items|
  }

  function Child(t: Json, step: Step): (c: Json)
    requires Present(t, step)
  {
    if t.Object? then Get(false, t.members, step.key) else t.items[step.i]
  }

  function SetChild(t: Json, step: Step, v: Json): Json
    requires Present(t, step)
  {
    if t.Object? then Object(Put(false, t.members, step.key, v)) else Array(t.items[step.i := v])
  }

  /** The element at a place. */
  function Deref(t: Json, path: seq<Step>): Json
    decreases |path|
  {
    if path == [] then t
    else if Present(t, path[0]) then Deref(Child(t, path[0]), path[1..])
    else Null
  }

  /** The tree with the element at a place overwritten. */
  function Write(t: Json, path: seq<Step>, v: Json): Json
    decreases |path|
  {
    if path == [] then v
    else if Present(t, path[0]) then SetChild(t, path[0], Write(Child(t, path[0]), path[1..], v))
    else t
  }

  /** Storage at `path` is moved or freed: pointers strictly inside it dangle. */
  function Invalidate(stack: seq<Pointer>, path: seq<Step>): (r: seq<Pointer>)
    ensures |r| == |stack|
  {
    seq(|stack|, i requires 0 <= i < |stack| =>
      if stack[i].At? && path < stack[i].path then Wild else stack[i])
  }

  function Slot(node: Json, slot: string): Step {
    match node
    case Array(xs) => Index(|xs|)
    case _ => Key(slot)
  }

  /** Where the innermost of the open containers lies in the tree. */
  function PathTo(fs: seq<Frame>): seq<Step>
    requires fs != []
  {
    if |fs| == 1 then [] else [Slot(fs[0].node, fs[1].slot)] + PathTo(fs[1..])
  }

  ghost predicate Containers(fs: seq<Frame>) {
    forall f | f in fs :: f.node.Object? || f.node.Array?
  }

  // ----- The pointer tree and the zipper agree -----

  lemma {:induction false} DerefTop(fs: seq<Frame>)
    requires fs != [] && Containers(fs[..|fs| - 1])
    ensures Deref(Plug(fs), PathTo(fs)) == Top(fs).node
  {
    if |fs| > 1 {
      assert fs[0] in fs[..|fs| - 1];
      assert fs[1..][..|fs| - 2] == fs[1..|fs| - 1];
      DerefTop(fs[1..]);
      PlaceChild(fs[0].node, fs[1].slot, Plug(fs[1..]), Plug(fs[1..]));
    }
  }

  /** A child just placed is found in its slot, and can be overwritten there. */
  lemma PlaceChild(node: Json, slot: string, a: Json, b: Json)
    requires node.Object? || node.Array?
    ensures var t, step := AddChild(node, slot, a), Slot(node, slot);
            Present(t, step) && Child(t, step) == a && SetChild(t, step, b) == AddChild(node, slot, b)
  {
    if node.Object? {
      PutGet(false, node.members, slot, a);
      PutPut(false, node.members, slot, a, b);
    }
  }

  lemma {:induction false} WriteTop(fs: seq<Frame>, v: Json)
    requires fs != [] && Containers(fs[..|fs| - 1])
    ensures Write(Plug(fs), PathTo(fs), v) == Plug(SetTop(fs, v))
  {
    if |fs| > 1 {
      assert fs[0] in fs[..|fs| - 1];
      assert fs[1..][..|fs| - 2] == fs[1..|fs| - 1];
      WriteTop(fs[1..], v);
      assert SetTop(fs, v)[1..] == SetTop(fs[1..], v);
      PlaceChild(fs[0].node, fs[1].slot, Plug(fs[1..]), Plug(SetTop(fs[1..], v)));
    }
  }

  /** Opening a container writes an empty child; closing it leaves the tree as it is. */
  lemma {:induction false} PlugPush(fs: seq<Frame>, f: Frame)
    requires fs != []
    ensures Plug(fs + [f]) == Plug(SetTop(fs, AddChild(Top(fs).node, f.slot, f.node)))
    ensures PathTo(fs + [f]) == PathTo(fs) + [Slot(Top(fs).node, f.slot)]
  {
    var gs := fs + [f];
    assert gs[1..] == fs[1..] + [f];
    if |fs| > 1 {
      PlugPush(fs[1..], f);
      var h := AddChild(Top(fs).node, f.slot, f.node);
      assert SetTop(fs, h)[1..] == SetTop(fs[1..], h);
    }
  }

  lemma PlugPop(fs: seq<Frame>)
    requires |fs| > 1
    ensures Pop(fs).Open? && Plug(fs) == Plug(Pop(fs).frames)
  {
    hide Plug, PathTo, AddChild, SetTop;
    var below, f := fs[..|fs| - 1], Top(fs);
    PlugPush(below, f);
    assert below + [f] == fs by { hide *; }
  }

  /** Where the i-th open container lies. */
  function OuterPath(fs: seq<Frame>, i: nat): seq<Step>
    requires i < |fs|
  {
    PathTo(fs[..i + 1])
  }

  /** Each stacked pointer is the path to its own open container. */
  ghost predicate Chain(stack: seq<Pointer>, fs: seq<Frame>) {
    && |stack| == |fs|
    && forall i | 0 <= i < |fs| :: stack[i] == At(OuterPath(fs, i))
  }

  lemma ChainPush(stack: seq<Pointer>, fs: seq<Frame>, f: Frame)
    requires Chain(stack, fs) && fs != []
    ensures Chain(stack + [At(PathTo(fs) + [Slot(Top(fs).node, f.slot)])], fs + [f])
  {
    var gs := fs + [f];
    forall i | 0 <= i < |fs| ensures OuterPath(gs, i) == OuterPath(fs, i) {
      assert gs[..i + 1] == fs[..i + 1];
    }
    assert gs[..|fs| + 1] == gs;
    PlugPush(fs, f);
  }

  /** Rewriting the innermost container moves no pointer to an open one. */
  lemma ChainSetTop(stack: seq<Pointer>, fs: seq<Frame>, node: Json)
    requires Chain(stack, fs) && fs != []
    ensures Chain(stack, SetTop(fs, node))
  {
    var gs := SetTop(fs, node);
    forall i | 0 <= i < |fs| ensures OuterPath(gs, i) == OuterPath(fs, i) {
      if i + 1 < |fs| {
        assert gs[..i + 1] == fs[..i + 1];
      } else {
        assert gs[..i + 1] == gs && fs[..i + 1] == fs;
        PathIgnoresTop(fs, node);
      }
    }
  }

  lemma {:induction false} PathIgnoresTop(fs: seq<Frame>, node: Json)
    requires fs != []
    ensures PathTo(SetTop(fs, node)) == PathTo(fs)
  {
    if |fs| > 1 {
      PathIgnoresTop(fs[1..], node);
      assert SetTop(fs, node)[1..] == SetTop(fs[1..], node);
    }
  }

  /** No open container lies strictly inside the innermost one, so growing or overwriting
      the innermost one's children never leaves a stacked pointer dangling. */
  lemma ChainSafe(stack: seq<Pointer>, fs: seq<Frame>, path: seq<Step>)
    requires Chain(stack, fs) && fs != [] && PathTo(fs) <= path
    ensures Invalidate(stack, path) == stack
  {
    forall i | 0 <= i < |fs| ensures Invalidate(stack, path)[i] == stack[i] {
      PathPrefix(fs, i + 1);
    }
  }

  lemma {:induction false} PathPrefix(fs: seq<Frame>, n: nat)
    requires 0 < n <= |fs|
    ensures PathTo(fs[..n]) <= PathTo(fs)
  {
    if n > 1 {
      PathPrefix(fs[1..], n - 1);
      assert fs[..n][1..] == fs[1..][..n - 1];
    }
  }

  // ----- The scanning loops, seen from the unread text -----

  lemma {:induction false} DropSpacesDrops(s: string)
    ensures DropSpaces(s) == "" || !SkipSpace(DropSpaces(s)[0])
  {
    if s != "" && SkipSpace(s[0]) {
      DropSpacesDrops(s[1..]);
    }
  }

  function From(text: string, pos: nat): (rest: string)
    ensures if pos < |text| then rest != "" && rest[0] == text[pos] else rest == ""
  {
    if pos <= |text| then text[pos..] else ""
  }

  lemma FromNext(text: string, pos: nat, k: nat)
    requires pos + k <= |text|
    ensures k <= |From(text, pos)| && From(text, pos)[k..] == From(text, pos + k)
  {
  }

  lemma SlotIgnored(node: Json, key: string, slot: string, child: Json)
    requires if node.Object? then slot == key else node.Array?
    ensures AddChild(node, key, child) == AddChild(node, slot, child)
    ensures Slot(node, key) == Slot(node, slot)
  {
  }

  lemma {:induction false} ChainPop(stack: seq<Pointer>, fs: seq<Frame>)
    requires Chain(stack, fs) && |fs| > 1 && Containers(fs)
    ensures Pop(fs).Open? && Chain(stack[..|stack| - 1], Pop(fs).frames) && Containers(Pop(fs).frames)
    ensures Plug(Pop(fs).frames) == Plug(fs)
  {
    var n := |fs| - 1;
    var below := fs[..n];
    forall i | 0 <= i < n ensures OuterPath(below, i) == OuterPath(fs, i) {
      assert below[..i + 1] == fs[..i + 1];
    }
    assert fs[n - 1] in fs;
    ChainSetTop(stack[..n], below, AddChild(Top(below).node, Top(fs).slot, Top(fs).node));
    PlugPop(fs);
  }

  /** The digits of a number from `p` on. */
  lemma DigitStep(text: string, p: nat)
    ensures p >= |text| ==> DigitRun(From(text, p)) == 0
    ensures p < |text| && !IsDigit(text[p]) ==> DigitRun(From(text, p)) == 0
    ensures p < |text| && IsDigit(text[p]) ==> DigitRun(From(text, p)) == 1 + DigitRun(From(text, p + 1))
  {
    if p < |text| {
      FromNext(text, p, 1);
    }
  }

  lemma DotAt(text: string, pos: nat, p: nat)
    requires pos <= p <= |text|
    ensures var rest := From(text, pos);
            && |rest| == |text| - pos
            && (p < |text| ==> rest[p - pos] == text[p])
  {
  }

  /** A token's text cut out of the string, and what is left `skip` characters after it. */
  lemma CutAt(text: string, pos: nat, end: nat, skip: nat)
    requires pos <= end <= |text| && end + skip <= |text|
    ensures var rest := From(text, pos);
            && |rest| >= end - pos + skip
            && rest[..end - pos] == text[pos..end]
            && rest[end - pos + skip..] == From(text, end + skip)
  {
  }

  lemma OneRound(c: Config, at: Config)
    requires Shaped(c.work) && Live(c) && at == c.(rest := TokenStart(c.rest))
    ensures var t := TokenAt(at.rest);
            if Allows(c.legal, t) then |Dispatch(at, t).rest| < |c.rest| || !Live(Dispatch(at, t))
            else true
    ensures var t := TokenAt(at.rest);
            Run(c) == if Allows(c.legal, t) then Run(Dispatch(at, t)) else Run(at.(error := true))
  {
    hide Dispatch;
  }

  lemma EndOfText(c: Config)
    requires Shaped(c.work) && TokenAt(c.rest) == Eof
    ensures !Live(Dispatch(c, Eof))
  {
  }

  lemma Halted(c: Config)
    requires Shaped(c.work) && !Live(c)
    ensures Run(c) == c
  {
  }

  lemma WordAt(text: string, pos: nat, word: string)
    ensures var rest := From(text, pos);
            && (pos + 4 <= |text| && text[pos..pos + 4] == word <==> |rest| >= 4 && rest[..4] == word)
            && Drop(rest, 4) == From(text, pos + 4)
  {
    if pos + 4 <= |text| {
      assert From(text, pos)[..4] == text[pos..pos + 4];
    }
  }

  /** The closing quote's offset from `q`, or -1, one unit of the scan at a time. */
  lemma {:induction false} QuoteStep(text: string, q: nat)
    ensures q >= |text| ==> QuoteAt(From(text, q)) == -1
    ensures q < |text| && text[q] == '"' ==> QuoteAt(From(text, q)) == 0
    ensures q < |text| && text[q] != '"' ==>
              var step := if text[q] == '\\' then 2 else 1;
              var r := QuoteAt(From(text, q + step));
              QuoteAt(From(text, q)) == if r < 0 then -1 else step + r
  {
    if q < |text| && text[q] != '"' {
      var step := if text[q] == '\\' then 2 else 1;
      if q + step <= |text| {
        FromNext(text, q, step);
      }
    }
  }

  /** `ttw::json::Reader`, parsing into the element `root`. */
  class Reader {
    const text: string
    var root: Json
    var stack: seq<Pointer>
    var key: string
    var pos: nat
    var legal: Mask
    var error: bool
    var started: bool
    var fault: Fault
    ghost var frames: seq<Frame>

    /** The state of the abstract machine this object is in. */
    ghost function State(): (c: Config)
      reads this
    {
      Config(From(text, pos), if frames == [] then Closed(root) else Open(frames),
             key, legal, started, error, fault)
    }

    /** While nothing has gone wrong, the stack is the chain of open containers from the root
        and the tree holds each of them in place. */
    ghost predicate Valid()
      reads this
    {
      !error && fault.NoFault? ==>
        && Chain(stack, frames)
        && (frames != [] ==> root == Plug(frames) && Containers(frames[..|frames| - 1]))
        && (started ==> Containers(frames))
        && (!started ==> |frames| == 1)
    }

    constructor (s: string, val: Json)
      ensures text == s && root == val && stack == [] && frames == []
      ensures key == "" && pos == 0 && legal == StartMask && !error && !started && fault == NoFault
    {
      text, root, stack, frames := s, val, [], [];
      key, pos, legal, error, started, fault := "", 0, StartMask, false, false, NoFault;
    }

    method SkipSpaces() returns (n: nat)
      modifies `pos
      ensures pos == old(pos) + n
      ensures From(text, pos) == DropSpaces(From(text, old(pos)))
    {
      n := 0;
      while pos < |text|
        invariant pos == old(pos) + n
        invariant DropSpaces(From(text, pos)) == DropSpaces(From(text, old(pos)))
        decreases |text| - pos
      {
        var c := text[pos];
        if c == ' ' || c == '\t' || c == '\r' || c == '\n' || c == FORM_FEED || c == BACKSPACE {
          FromNext(text, pos, 1);
          n := n + 1;
          pos := pos + 1;
        } else {
          break;
        }
      }
    }

    method Scan() returns (t: Token)
      requires !error
      modifies `pos
      ensures From(text, pos) == TokenStart(From(text, old(pos)))
      ensures t == TokenAt(From(text, pos))
    {
      while pos < |text|
        invariant TokenStart(From(text, pos)) == TokenStart(From(text, old(pos)))
        decreases |text| - pos
      {
        var c := text[pos];
        if ScanSpace(c) {
          DropSpacesDrops(From(text, pos));
          var _ := SkipSpaces();
        } else {
          return Classify(c);
        }
      }
      t := Eof;
    }

    method FindStringEnd() returns (q: nat)
      modifies `error
      ensures var r := QuoteAt(From(text, pos));
              if r < 0 then error && q == pos else error == old(error) && q == pos + r && q < |text|
    {
      hide QuoteAt, From;
      q := pos;
      while q < |text|
        invariant pos <= q && error == old(error)
        invariant var r, r0 := QuoteAt(From(text, q)), QuoteAt(From(text, pos));
                  if r < 0 then r0 < 0 else r0 == q - pos + r
        decreases |text| - q
      {
        QuoteStep(text, q);
        if text[q] == '\\' {
          q := q + 1;
        } else if text[q] == '"' {
          return;
        }
        q := q + 1;
      }
      QuoteStep(text, q);
      error := true;
      q := pos;
    }

    // ----- Changing the tree -----

    /** `(*top)[key] = child` or `top->append(child)`: written through the top pointer.  Growing
        the container moves its elements and overwriting a member frees what was inside it, so
        pointers into that storage are invalidated. */
    method Place(child: Json) returns (slot: Step)
      requires Valid() && !error && fault.NoFault? && started && frames != []
      modifies `root, `stack, `frames
      ensures Valid() && stack == old(stack) && root == Plug(frames)
      ensures slot == Slot(Top(old(frames)).node, key)
      ensures frames == SetTop(old(frames), AddChild(Top(old(frames)).node, key, child))
    {
      var top := stack[|stack| - 1].path;
      assert top == PathTo(frames) by { assert frames[..|frames|] == frames; }
      DerefTop(frames);
      var node := Deref(root, top);
      assert Top(frames) in frames;
      slot := Slot(node, key);
      var grown := AddChild(node, key, child);
      WriteTop(frames, grown);
      ChainSetTop(stack, frames, grown);
      var inside := if node.Object? then top + [slot] else top;
      ChainSafe(stack, frames, inside);
      root := Write(root, top, grown);
      stack := Invalidate(stack, inside);
      assert SetTop(frames, grown)[..|frames| - 1] == frames[..|frames| - 1];
      frames := SetTop(frames, grown);
    }

    /** The container the top pointer points to. */
    function TopNode(): Json
      requires stack != [] && stack[|stack| - 1].At?
      reads this
    {
      Deref(root, stack[|stack| - 1].path)
    }

    lemma {:induction false} TopIsTop()
      requires Valid() && !error && fault.NoFault? && frames != []
      ensures stack != [] && stack[|stack| - 1] == At(PathTo(frames)) && TopNode() == Top(frames).node
    {
      assert frames[..|frames|] == frames;
      DerefTop(frames);
    }

    /** The first bracket: the root element becomes an empty container. */
    method StartRoot(empty: Json)
      requires Valid() && !error && fault.NoFault? && !started
      requires empty == Object([]) || empty == Array([])
      modifies `started, `root, `frames
      ensures Valid() && started && frames == SetTop(old(frames), empty)
    {
      TopIsTop();
      started := true;
      assert PathTo(frames) == [];
      root := Write(root, stack[|stack| - 1].path, empty);
      ChainSetTop(stack, frames, empty);
      frames := SetTop(frames, empty);
    }

    /** A bracket inside an open container: the new container goes into the top one and a
        pointer to it onto the stack.  In an object without a pending key the pointer stays
        uninitialised and the error is flagged. */
    method PushInto(empty: Json)
      requires Valid() && !error && fault.NoFault? && started && frames != []
      requires empty == Object([]) || empty == Array([])
      modifies `root, `stack, `frames, `key, `error
      ensures Valid()
      ensures Top(old(frames)).node.Object? || Top(old(frames)).node.Array?
      ensures var inObject := Top(old(frames)).node.Object?;
              if inObject && old(key) == ""
              then error && frames == old(frames) && key == old(key)
              else !error && frames == old(frames) + [Frame(if inObject then old(key) else "", empty)]
                   && key == if inObject then "" else old(key)
    {
      hide AddChild, Plug, PathTo, Put;
      TopIsTop();
      assert Top(frames) in frames;
      ghost var fs := frames;
      var obj := Wild;
      var top := stack[|stack| - 1].path;
      var inObject := TopNode().Object?;
      if inObject && key == "" {
        error := true;
      } else {
        ghost var f := Frame(if inObject then key else "", empty);
        SlotIgnored(Top(fs).node, key, f.slot, empty);
        var slot := Place(empty);
        obj := At(top + [slot]);
        PlugPush(fs, f);
        ChainPush(stack, fs, f);
        if inObject {
          key := "";
        }
        frames := fs + [f];
        assert frames[..|frames| - 1] == fs;
      }
      stack := stack + [obj];
    }

    /** `addArray` and `addObject`, which differ only in the container they add. */
    method AddContainer(empty: Json)
      requires Valid() && !error && fault.NoFault? && pos < |text|
      requires empty == Object([]) || empty == Array([])
      modifies this
      ensures Valid()
      ensures State() == OpenContainer(old(State()), empty).(rest := old(State()).rest[1..])
      ensures !error ==> started
    {
      hide From, AddChild, Plug, PathTo;
      FromNext(text, pos, 1);
      if !started {
        StartRoot(empty);
      } else if stack == [] {
        stack := stack + [Wild];
        fault := Undefined;
      } else {
        PushInto(empty);
      }
      pos := pos + 1;
    }

    /** The top pointer is dropped: its container is complete and stays in place. */
    method PopTop()
      requires Valid() && !error && fault.NoFault? && started && frames != []
      modifies `stack, `frames
      ensures Valid()
      ensures (if frames == [] then Closed(root) else Open(frames)) == Pop(old(frames))
    {
      if |frames| > 1 {
        ChainPop(stack, frames);
        frames := Pop(frames).frames;
      } else {
        frames := [];
      }
      stack := stack[..|stack| - 1];
    }

    /** `delArray` and `delObject`. */
    method EndContainer(isObject: bool)
      requires Valid() && !error && fault.NoFault? && pos < |text| && started
      modifies this
      ensures Valid()
      ensures State() == CloseContainer(old(State()), isObject).(rest := old(State()).rest[1..])
    {
      hide From, AddChild, PathTo, Plug, Pop;
      FromNext(text, pos, 1);
      if stack != [] {
        TopIsTop();
      }
      if stack != [] && (if isObject then TopNode().Object? else TopNode().Array?) {
        PopTop();
      } else {
        error := true;
      }
      pos := pos + 1;
    }

    method AddElement(v: Json)
      requires Valid() && !error && fault.NoFault? && started
      requires !v.Object? && !v.Array?
      modifies this
      ensures Valid() && pos == old(pos)
      ensures State() == AddScalar(old(State()), v)
    {
      hide From, AddChild, Plug, PathTo;
      if stack == [] {
        error := true;
        return;
      }
      TopIsTop();
      assert Top(frames) in frames;
      if TopNode().Object? {
        if key == "" {
          error := true;
          return;
        }
        var _ := Place(v);
        key := "";
      } else {
        if key != "" {
          error := true;
          return;
        }
        var _ := Place(v);
      }
    }

    method ReadQuoted()
      requires Valid() && !error && fault.NoFault? && started && pos < |text|
      modifies this
      ensures Valid()
      ensures State() == ReadString(old(State()))
    {
      hide TakeString, QuoteAt, From, DropSpaces, Chain, Plug, Containers;
      FromNext(text, pos, 1);
      pos := pos + 1;
      var q := FindStringEnd();
      if error {
        return;
      }
      CutAt(text, pos, q, 1);
      var s := text[pos..q];
      pos := q + 1;
      var _ := SkipSpaces();
      TakeQuoted(s);
    }

    /** The end of `readString`: a colon makes the string a key. */
    method TakeQuoted(s: string)
      requires Valid() && !error && fault.NoFault? && started
      modifies this
      ensures Valid()
      ensures State() == TakeString(old(State()), s)
    {
      hide AddScalar, Chain, Plug, Containers;
      if pos >= |text| {
        error := true;
        return;
      }
      if text[pos] == ':' {
        if key == "" {
          key := s;
        } else {
          error := true;
        }
      } else {
        AddElement(String(s));
      }
    }

    /** The scanning loop of `readNumber`.  Its branch for a dot does not advance, so the loop
        ends by the pair (characters left, dot not yet seen): a dot always ends in an error. */
    method NumberEnd() returns (p: nat, bad: bool)
      requires pos < |text|
      ensures pos < p <= |text|
      ensures p == pos + 1 + DigitRun(From(text, pos + 1))
      ensures bad <==> p < |text| && text[p] == '.'
    {
      hide DigitRun, From;
      p, bad := pos + 1, false;
      var dot := false;
      while p < |text|
        invariant pos < p <= |text|
        invariant DigitRun(From(text, pos + 1)) == p - pos - 1 + DigitRun(From(text, p))
        invariant dot ==> p < |text| && text[p] == '.'
        decreases |text| - p, if dot then 0 else 1
      {
        DigitStep(text, p);
        if IsDigit(text[p]) {
          p := p + 1;
        } else if text[p] == '.' {
          if dot {
            bad := true;
            return;
          }
          dot := true;
          if !(p + 1 < |text| && IsDigit(text[p + 1])) {
            bad := true;
            return;
          }
        } else {
          break;
        }
      }
      assert !dot;
      DigitStep(text, p);
    }

    method ReadInteger()
      requires Valid() && !error && fault.NoFault? && started && pos < |text|
      requires Classify(text[pos]) == NumberToken
      modifies this
      ensures Valid()
      ensures State() == ReadNumber(old(State()))
    {
      hide AddScalar, Stoi, DigitRun, From, Chain, Plug, Containers;
      FromNext(text, pos, 1);
      var p, bad := NumberEnd();
      DotAt(text, pos, p);
      if bad {
        error := true;
        return;
      }
      CutAt(text, pos, p, 0);
      var (ok, n) := Stoi(text[pos..p]);
      if !ok {
        fault := Threw;
        return;
      }
      AddElement(Int(n));
      pos := p;
    }

    method ReadNull()
      requires Valid() && !error && fault.NoFault? && started
      modifies this
      ensures Valid()
      ensures var c := old(State());
              State() == if |c.rest| >= 4 && c.rest[..4] == "null"
                         then AddScalar(c, Null).(rest := c.rest[4..]) else c.(error := true)
    {
      hide AddScalar, Chain, Plug, Containers, From;
      if !(pos + 4 <= |text| && text[pos..pos + 4] == "null") {
        WordAt(text, pos, "null");
        error := true;
        return;
      }
      WordAt(text, pos, "null");
      FromNext(text, pos, 4);
      AddElement(Null);
      pos := pos + 4;
    }

    /** `readTrue` and `readFalse`: four characters are compared with the word. */
    method ReadWord(word: string, v: Json)
      requires Valid() && !error && fault.NoFault? && started
      requires !v.Object? && !v.Array?
      modifies this
      ensures Valid()
      ensures var c := old(State());
              var d := AddScalar(c, v);
              State() == d.(rest := Drop(c.rest, 4),
                            error := d.error || !(|c.rest| >= 4 && c.rest[..4] == word))
    {
      hide AddScalar, Chain, Plug, Containers, From;
      ghost var c := State();
      WordAt(text, pos, word);
      var matches := pos + 4 <= |text| && text[pos..pos + 4] == word;
      AddElement(v);
      pos := pos + 4;
      if !matches {
        error := true;
      }
    }

    /** The switch of the parse loop: strings and scalars. */
    method ActScalar(token: Token)
      requires Valid() && !error && fault.NoFault? && started
      requires token == TokenAt(From(text, pos))
      requires token.StringToken? || token.NumberToken? || token.NullToken? || token.TrueToken? || token.FalseToken?
      modifies this
      ensures Valid()
      ensures State() == Dispatch(old(State()), token)
    {
      hide OpenContainer, CloseContainer, AddScalar, ReadString, ReadNumber, Drop, Classify, From;
      hide Chain, Plug, Containers;
      match token {
        case StringToken => ReadQuoted();
        case NumberToken => ReadInteger();
        case NullToken => ReadNull();
        case TrueToken => ReadWord("true", Bool(true));
        case FalseToken => ReadWord("false", Bool(false));
      }
      legal := if token.StringToken? then AfterStringMask else AfterScalarMask;
    }

    /** The switch of the parse loop. */
    method Act(token: Token)
      requires Valid() && !error && fault.NoFault?
      requires token == TokenAt(From(text, pos)) && Allows(legal, token)
      requires started || token.ArrayBegin? || token.ObjectBegin?
      modifies this
      ensures Valid()
      ensures State() == Dispatch(old(State()), token)
      ensures !error ==> started
    {
      hide OpenContainer, CloseContainer, AddScalar, ReadString, ReadNumber, Drop, Classify, From;
      hide Chain, Plug, Containers;
      match token {
        case Eof =>
          legal := NoneLegal;
        case ObjectBegin =>
          AddContainer(Object([]));
          legal := InObjectMask;
        case ArrayBegin =>
          AddContainer(Array([]));
          legal := InArrayMask;
        case ObjectEnd =>
          EndContainer(true);
          legal := AfterCloseMask;
        case ArrayEnd =>
          EndContainer(false);
          legal := AfterCloseMask;
        case Separator =>
          FromNext(text, pos, 1);
          pos := pos + 1;
          legal := AfterSeparatorMask;
        case Colon =>
          FromNext(text, pos, 1);
          pos := pos + 1;
          legal := AfterColonMask;
        case ErrorToken =>
          assert false;  // no mask allows it
        case _ =>
          hide Dispatch;
          ActScalar(token);
      }
    }

    /** One round of the parse loop: it advances or stops the machine. */
    method Round() returns (stop: bool)
      requires Valid() && Live(State())
      requires started || legal == StartMask
      modifies this
      ensures Valid() && Run(State()) == Run(old(State()))
      ensures started || error
      ensures stop ==> !Live(State())
      ensures Live(State()) ==> |State().rest| < |old(State()).rest|
    {
      hide Run, JsonMachine.Step, Dispatch, From, TokenStart;
      ghost var c := State();
      var token := Scan();
      OneRound(c, State());
      if Allows(legal, token) {
        Act(token);
        stop := token.Eof?;
        if stop {
          EndOfText(c.(rest := TokenStart(c.rest)));
        }
      } else {
        error := true;
        stop := true;
      }
    }

    /** `Reader::parser`. */
    method Parse() returns (ok: bool)
      requires stack == [] && frames == [] && key == "" && pos == 0 && legal == StartMask
      requires !error && !started && fault == NoFault
      modifies this
      ensures Valid() && State() == JsonMachine.Parse(text, old(root))
      ensures ok == !error
      ensures ok && fault.NoFault? ==> Reads(text, old(root), root)
    {
      hide Run;
      frames := [Frame("", root)];
      stack := [At([])];
      ghost var start := State();
      assert From(text, 0) == text;
      var stop := false;
      while !stop && !error && fault.NoFault? && pos < |text|
        invariant Valid() && Run(State()) == Run(start)
        invariant started || legal == StartMask || error
        invariant stop ==> !Live(State())
        decreases !stop, if Live(State()) then 1 + |State().rest| else 0
      {
        stop := Round();
      }
      Halted(State());
      ok := !error;
    }
  }
}
