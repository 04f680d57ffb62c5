/** The registry's command declarations and how `API.from_xml_command`
    turns them into types (cl3w_gen.py, classes `Type`, `NameAndType`, `API`). */
module Decl {
  import opened Wrappers
  import opened Strings

  /** A child of a `<proto>` or `<param>` element. `Text` is a text node
      (the parser joins adjacent character data into one); `CData` is a
      CDATA section, which is not a text node to the scan but is read by
      `wholeText`; `OtherNode` is any other node that is not an element
      (comment, processing instruction). */
  datatype Node =
    | Text(data: string)
    | CData(data: string)
    | Element(tag: string, children: seq<Node>)
    | OtherNode

  /** A `<command>` element: its `<proto>` elements (exactly one is expected)
      and its `<param>` elements in document order, each as its child list. */
  datatype CommandNode = CommandNode(protos: seq<seq<Node>>, params: seq<seq<Node>>)

  /** A C declaration split around the declared name. */
  datatype Type = Type(prefix: string, suffix: string)

  /** `Type(prefix, suffix)`: the constructor strips both parts. */
  function MkType(prefix: string, suffix: string): (t: Type)
    ensures IsStripped(t.prefix) && IsStripped(t.suffix)
    ensures IsStripped(prefix) && IsStripped(suffix) ==> t == Type(prefix, suffix)
  {
    StripIsStripped(prefix);
    StripIsStripped(suffix);
    if IsStripped(prefix) && IsStripped(suffix) then
      StripStripped(prefix);
      StripStripped(suffix);
      Type(Strip(prefix), Strip(suffix))
    else
      Type(Strip(prefix), Strip(suffix))
  }

  /** `Type.with_name`: the declaration of `name` with this type. */
  function WithName(t: Type, name: string): string {
    t.prefix + " " + name + t.suffix
  }

  /** `str(Type)`: prefix and suffix with no separator. */
  function TypeText(t: Type): string {
    t.prefix + t.suffix
  }

  /** The declaration of `name` is `str(T)` with a space and the name put
      between prefix and suffix: cutting them out gives `str(T)` back. */
  lemma WithNameText(t: Type, name: string)
    ensures var d, p := WithName(t, name), |t.prefix|;
      && |d| == |TypeText(t)| + 1 + |name|
      && d[p..p + 1 + |name|] == " " + name
      && d[..p] + d[p + 1 + |name|..] == TypeText(t)
  {
    var d, p := WithName(t, name), |t.prefix|;
    assert d == t.prefix + (" " + name) + t.suffix;
    assert d[..p] == t.prefix;
    assert d[p + 1 + |name|..] == t.suffix;
  }

  /** `NameAndType`; a declaration without a `<name>` child has no name
      (Python's `None`). */
  datatype NameAndType = NameAndType(name: Option<string>, typ: Type)

  /** `API`: `command[0]` is the return declaration, the rest the parameters. */
  datatype Api = Api(ret: NameAndType, params: seq<NameAndType>)

  /** How an f-string renders a possibly missing name. */
  function NameText(n: Option<string>): string {
    if n.Some? then n.value else "None"
  }

  predicate HasName(a: Api) {
    a.ret.name.Some?
  }

  /** `API.name`, for a command that has one. */
  function Name(a: Api): string
    requires HasName(a)
  {
    a.ret.name.value
  }

  /** Why a declaration could not be composed: `UnexpectedNode` is the
      `ValueError` of lines 139 and 141, `MissingText` the failure to read
      `childNodes[0].wholeText` of a `<type>` or `<name>` element, and
      `DuplicateName` the failed assertion at line 136. */
  datatype DeclFault = UnexpectedNode | MissingText | DuplicateName

  datatype DeclError =
    | BadChild(index: nat, fault: DeclFault)
    | ProtoCount(count: nat)

  predicate IsName(n: Node) {
    n.Element? && n.tag == "name"
  }

  /** A text node or a CDATA section: the nodes `wholeText` joins. */
  predicate IsTextual(n: Node) {
    n.Text? || n.CData?
  }

  /** `wholeText` of the first of `children`: its data and that of the text
      and CDATA nodes that directly follow it. */
  function WholeText(children: seq<Node>): string
    requires |children| > 0 && IsTextual(children[0])
  {
    if |children| == 1 || !IsTextual(children[1]) then children[0].data
    else children[0].data + WholeText(children[1..])
  }

  /** `n.childNodes[0].wholeText` of an element, if its first child has one. */
  function FirstText(children: seq<Node>): Option<string> {
    if |children| > 0 && IsTextual(children[0]) then Some(WholeText(children)) else None
  }

  /** What goes wrong at child `n`, given whether a `<name>` came before it. */
  function NodeFault(n: Node, seenName: bool): Option<DeclFault> {
    match n
    case Text(_) => None
    case CData(_) => Some(UnexpectedNode)
    case OtherNode => Some(UnexpectedNode)
    case Element(tag, ch) =>
      if tag == "type" then (if FirstText(ch).None? then Some(MissingText) else None)
      else if tag == "name" then
        (if FirstText(ch).None? then Some(MissingText)
         else if seenName then Some(DuplicateName) else None)
      else Some(UnexpectedNode)
  }

  /** What a text child appends: a stripped `*` on its own, any other
      stripped text after one space. */
  function TextPiece(t: string): string {
    if t == "*" then t else " " + t
  }

  /** The text a well-formed child other than `<name>` appends to its buffer. */
  function Piece(n: Node): string {
    match n
    case Text(d) => TextPiece(Strip(d))
    case Element(tag, ch) =>
      if tag == "type" && FirstText(ch).Some? then " " + Strip(FirstText(ch).value) else ""
    case CData(_) => ""
    case OtherNode => ""
  }

  /** The pieces of the children `lo` up to `hi` (exclusive), in order. */
  function Pieces(s: seq<Node>, lo: nat, hi: nat): string
    requires lo <= hi <= |s|
    decreases hi
  {
    if lo == hi then "" else Pieces(s, lo, hi - 1) + Piece(s[hi - 1])
  }

  /** The index of the first `<name>` child, or `|s|` if there is none. */
  function FirstName(s: seq<Node>): (k: nat)
    ensures k <= |s|
    ensures forall j | 0 <= j < k :: !IsName(s[j])
    ensures k < |s| ==> IsName(s[k])
  {
    if s == [] then 0 else if IsName(s[0]) then 0 else 1 + FirstName(s[1..])
  }

  /** Child `j` makes the scan fail. */
  predicate Faulty(s: seq<Node>, j: nat)
    requires j < |s|
  {
    NodeFault(s[j], FirstName(s) < j).Some?
  }

  /** The index of the first failing child at or after `from`, or `|s|`. */
  function FirstFault(s: seq<Node>, from: nat): (r: nat)
    requires from <= |s|
    ensures from <= r <= |s|
    ensures forall m | from <= m < r :: !Faulty(s, m)
    ensures r < |s| ==> Faulty(s, r)
    decreases |s| - from
  {
    if from == |s| then from else if Faulty(s, from) then from else FirstFault(s, from + 1)
  }

  /** The declaration a `<proto>` or `<param>` stands for, in two phases:
      the first failing child, if any, decides the error; otherwise the
      pieces before the `<name>` child form the prefix and those after it
      the suffix. */
  function TwoPhase(s: seq<Node>): Result<NameAndType, DeclError> {
    var f := FirstFault(s, 0);
    if f < |s| then Failure(BadChild(f, NodeFault(s[f], FirstName(s) < f).value))
    else
      var k := FirstName(s);
      if k == |s| then Success(NameAndType(None, MkType(Pieces(s, 0, |s|), "")))
      else
        assert !Faulty(s, k);
        Success(NameAndType(NameOf(s[k]), MkType(Pieces(s, 0, k), Pieces(s, k + 1, |s|))))
  }

  /** The local state of `visit_proto_or_param`: the name seen so far, the
      two buffers (prefix, suffix) and the index of the one being filled. */
  datatype VisitState = VisitState(name: Option<string>, buffers: seq<string>, tidx: nat) {
    predicate WellShaped() {
      |buffers| == 2 && tidx <= 1
    }
  }

  const Start := VisitState(None, ["", ""], 0)

  /** One iteration of the scan: child `n`, at index `i`, from state `st`. */
  function Visit(st: VisitState, n: Node, i: nat): (r: Result<VisitState, DeclError>)
    requires st.WellShaped()
    ensures r.Success? ==> r.value.WellShaped()
  {
    match n
    case Text(d) =>
      Success(st.(buffers := st.buffers[st.tidx := st.buffers[st.tidx] + TextPiece(Strip(d))]))
    case Element(tag, ch) =>
      if tag == "type" then
        if FirstText(ch).None? then Failure(BadChild(i, MissingText))
        else Success(st.(buffers := st.buffers[st.tidx := st.buffers[st.tidx] + (" " + Strip(FirstText(ch).value))]))
      else if tag == "name" then
        if FirstText(ch).None? then Failure(BadChild(i, MissingText))
        else if st.tidx != 0 then Failure(BadChild(i, DuplicateName))
        else Success(VisitState(Some(Strip(FirstText(ch).value)), st.buffers, st.tidx + 1))
      else Failure(BadChild(i, UnexpectedNode))
    case CData(_) => Failure(BadChild(i, UnexpectedNode))
    case OtherNode => Failure(BadChild(i, UnexpectedNode))
  }

  /** The state after the first `i` children, or the error that ended the scan. */
  function Scan(s: seq<Node>, i: nat): (r: Result<VisitState, DeclError>)
    requires i <= |s|
    ensures r.Success? ==> r.value.WellShaped()
  {
    if i == 0 then Success(Start)
    else
      var prev := Scan(s, i - 1);
      if prev.Failure? then prev else Visit(prev.value, s[i - 1], i - 1)
  }

  /** What the scan returns: `NameAndType(name, Type(*ret_type))`. */
  function Finish(st: VisitState): NameAndType
    requires st.WellShaped()
  {
    NameAndType(st.name, MkType(st.buffers[0], st.buffers[1]))
  }

  /** `visit_proto_or_param`: one pass over the children, appending to the
      buffer `tidx` selects and moving on to the suffix at the `<name>`. */
  method ComposeDecl(s: seq<Node>) returns (r: Result<NameAndType, DeclError>)
    ensures r == Compose(s)
  {
    var name: Option<string> := None;
    var buffers: seq<string> := ["", ""];
    var tidx: nat := 0;
    for i := 0 to |s|
      invariant Scan(s, i) == Success(VisitState(name, buffers, tidx))
    {
      var next := VisitChild(name, buffers, tidx, s[i], i);
      if next.Failure? {
        ScanStopped(s, i + 1);
        return Failure(next.error);
      }
      name, buffers, tidx := next.value.name, next.value.buffers, next.value.tidx;
    }
    return Success(NameAndType(name, MkType(buffers[0], buffers[1])));
  }

  /** The body of the loop of `visit_proto_or_param` for child `n` at index
      `i`: the new name, buffers and buffer index, or the exception it
      raises. */
  method VisitChild(name: Option<string>, buffers: seq<string>, tidx: nat, n: Node, i: nat)
    returns (r: Result<VisitState, DeclError>)
    requires |buffers| == 2 && tidx <= 1
    ensures r == Visit(VisitState(name, buffers, tidx), n, i)
  {
    match n {
      case Text(d) =>
        var t := Strip(d);
        return Success(VisitState(name, buffers[tidx := buffers[tidx] + TextPiece(t)], tidx));
      case Element(tag, ch) =>
        if tag == "type" {
          if |ch| == 0 || !IsTextual(ch[0]) {
            return Failure(BadChild(i, MissingText));
          }
          return Success(VisitState(name, buffers[tidx := buffers[tidx] + (" " + Strip(WholeText(ch)))], tidx));
        } else if tag == "name" {
          if |ch| == 0 || !IsTextual(ch[0]) {
            return Failure(BadChild(i, MissingText));
          }
          var nm := Some(Strip(WholeText(ch)));
          if tidx != 0 {
            return Failure(BadChild(i, DuplicateName));
          }
          return Success(VisitState(nm, buffers, tidx + 1));
        } else {
          return Failure(BadChild(i, UnexpectedNode));
        }
      case CData(_) =>
        return Failure(BadChild(i, UnexpectedNode));
      case OtherNode =>
        return Failure(BadChild(i, UnexpectedNode));
    }
  }

  /** Once a child fails, the scan's result is that failure. */
  lemma {:induction false} ScanStopped(s: seq<Node>, i: nat)
    requires i <= |s| && Scan(s, i).Failure?
    ensures Scan(s, |s|) == Scan(s, i)
    decreases |s| - i
  {
    if i < |s| {
      ScanStopped(s, i + 1);
    }
  }

  /** The declaration a `<proto>` or `<param>` with children `s` stands
      for: what the scan produces, or the error that stopped it. */
  function Compose(s: seq<Node>): (r: Result<NameAndType, DeclError>)
    ensures r.Success? ==> IsStripped(r.value.typ.prefix) && IsStripped(r.value.typ.suffix)
  {
    var r := Scan(s, |s|);
    if r.Failure? then Failure(r.error) else Success(Finish(r.value))
  }

  /** The two-phase description of the state after `i` children. */
  function Expected(s: seq<Node>, i: nat): Result<VisitState, DeclError>
    requires i <= |s|
  {
    var f := FirstFault(s, 0);
    var k := FirstName(s);
    if f < i then Failure(BadChild(f, NodeFault(s[f], k < f).value))
    else if i <= k then Success(VisitState(None, [Pieces(s, 0, i), ""], 0))
    else
      assert !Faulty(s, k);
      Success(VisitState(NameOf(s[k]), [Pieces(s, 0, k), Pieces(s, k + 1, i)], 1))
  }

  /** The scan agrees with the two-phase description after every prefix. */
  lemma {:induction false} ScanIsExpected(s: seq<Node>, i: nat)
    requires i <= |s|
    ensures Scan(s, i) == Expected(s, i)
  {
    if i > 0 {
      ScanIsExpected(s, i - 1);
      var j := i - 1;
      var f := FirstFault(s, 0);
      if f < j {
      } else if f == j {
        StepFails(s, j);
      } else {
        assert !Faulty(s, j);
        var k := FirstName(s);
        if j < k {
          StepBeforeName(s, j);
        } else if j == k {
          StepAtName(s, j);
        } else {
          StepAfterName(s, j);
        }
      }
    }
  }

  lemma StepFails(s: seq<Node>, j: nat)
    requires j < |s| && FirstFault(s, 0) == j
    requires Expected(s, j).Success?
    ensures Visit(Expected(s, j).value, s[j], j) == Expected(s, j + 1)
  {
    var k := FirstName(s);
    var st := Expected(s, j).value;
    if j <= k {
      assert st.tidx == 0;
    } else {
      assert !Faulty(s, k);
      assert st.tidx == 1;
    }
    VisitFails(st, s[j], j);
  }

  /** A child that is at fault ends the scan with its fault. */
  lemma VisitFails(st: VisitState, n: Node, i: nat)
    requires st.WellShaped() && NodeFault(n, st.tidx == 1).Some?
    ensures Visit(st, n, i) == Failure(BadChild(i, NodeFault(n, st.tidx == 1).value))
  {
  }

  /** A well-formed child other than `<name>` appends its piece to the
      buffer `tidx` selects. */
  lemma VisitAppends(st: VisitState, n: Node, i: nat)
    requires st.WellShaped() && !IsName(n) && NodeFault(n, st.tidx == 1).None?
    ensures Visit(st, n, i) == Success(st.(buffers := st.buffers[st.tidx := st.buffers[st.tidx] + Piece(n)]))
  {
  }

  lemma StepBeforeName(s: seq<Node>, j: nat)
    requires j < |s| && j < FirstFault(s, 0) && j < FirstName(s)
    ensures Expected(s, j).Success?
    ensures Visit(Expected(s, j).value, s[j], j) == Expected(s, j + 1)
  {
    var p := Pieces(s, 0, j);
    var st := VisitState(None, [p, ""], 0);
    ExpectedBeforeName(s, j);
    ExpectedBeforeName(s, j + 1);
    assert !Faulty(s, j);
    VisitAppends(st, s[j], j);
    var x := p + Piece(s[j]);
    assert st.buffers[0 := x] == [x, ""];
  }

  /** Up to the `<name>` child and before any fault, the prefix buffer
      holds the pieces so far. */
  lemma ExpectedBeforeName(s: seq<Node>, i: nat)
    requires i <= |s| && i <= FirstFault(s, 0) && i <= FirstName(s)
    ensures Expected(s, i) == Success(VisitState(None, [Pieces(s, 0, i), ""], 0))
  {
  }

  lemma StepAtName(s: seq<Node>, j: nat)
    requires j < |s| && j < FirstFault(s, 0) && j == FirstName(s)
    ensures Expected(s, j).Success?
    ensures Visit(Expected(s, j).value, s[j], j) == Expected(s, j + 1)
  {
    var p := Pieces(s, 0, j);
    var st := VisitState(None, [p, ""], 0);
    assert Expected(s, j) == Success(st);
    assert !Faulty(s, j);
    assert IsName(s[j]) && FirstText(s[j].children).Some?;
    var nm := NameOf(s[j]);
    assert nm == Some(Strip(FirstText(s[j].children).value));
    assert Visit(st, s[j], j) == Success(VisitState(nm, [p, ""], 1));
    assert Pieces(s, j + 1, j + 1) == "";
    assert Expected(s, j + 1) == Success(VisitState(nm, [p, ""], 1));
  }

  lemma StepAfterName(s: seq<Node>, j: nat)
    requires j < |s| && j < FirstFault(s, 0) && FirstName(s) < j
    ensures Expected(s, j).Success?
    ensures Visit(Expected(s, j).value, s[j], j) == Expected(s, j + 1)
  {
    var k := FirstName(s);
    var p := Pieces(s, 0, k);
    var q := Pieces(s, k + 1, j);
    assert !Faulty(s, k);
    var st := VisitState(NameOf(s[k]), [p, q], 1);
    ExpectedAfterName(s, j);
    ExpectedAfterName(s, j + 1);
    assert !Faulty(s, j);
    assert !IsName(s[j]);
    VisitAppends(st, s[j], j);
    var x := q + Piece(s[j]);
    assert st.buffers[1 := x] == [p, x];
  }

  /** After the `<name>` child and before any fault, the name is recorded
      and the suffix buffer holds the pieces after it. */
  lemma ExpectedAfterName(s: seq<Node>, i: nat)
    requires i <= |s| && i <= FirstFault(s, 0) && FirstName(s) < i
    ensures !Faulty(s, FirstName(s))
    ensures Expected(s, i) == Success(VisitState(NameOf(s[FirstName(s)]),
      [Pieces(s, 0, FirstName(s)), Pieces(s, FirstName(s) + 1, i)], 1))
  {
  }

  /** The scan computes exactly the two-phase declaration. */
  lemma ComposeTwoPhase(s: seq<Node>)
    ensures Compose(s) == TwoPhase(s)
  {
    ScanIsExpected(s, |s|);
  }

  /** The stripped text of a `<name>` child whose first child is text. */
  function NameOf(n: Node): Option<string> {
    if IsName(n) && FirstText(n.children).Some? then Some(Strip(FirstText(n.children).value)) else None
  }

  /** Every child is text, or a `<type>` or `<name>` element whose first
      child is text. */
  predicate WellFormedChild(n: Node) {
    n.Text? || (n.Element? && (n.tag == "type" || n.tag == "name") && FirstText(n.children).Some?)
  }

  /** Composition fails exactly on a child of another kind, a `<type>` or
      `<name>` without text, or a second `<name>`. */
  lemma ComposeSucceedsIff(s: seq<Node>)
    ensures Compose(s).Success? <==>
      (forall j | 0 <= j < |s| :: WellFormedChild(s[j]))
      && (forall j, m | 0 <= j < m < |s| :: !(IsName(s[j]) && IsName(s[m])))
  {
    ComposeTwoPhase(s);
    var f := FirstFault(s, 0);
    var k := FirstName(s);
    if f < |s| {
      if WellFormedChild(s[f]) {
        assert IsName(s[f]) && k < f;
        assert IsName(s[k]) && IsName(s[f]);
      }
    } else {
      forall j | 0 <= j < |s|
        ensures WellFormedChild(s[j])
      {
        assert !Faulty(s, j);
      }
      forall j, m | 0 <= j < m < |s|
        ensures !(IsName(s[j]) && IsName(s[m]))
      {
        assert !Faulty(s, m);
      }
    }
  }

  /** The data of the text and CDATA children, in order. */
  function DataOf(children: seq<Node>): string
    decreases |children|
  {
    if children == [] then ""
    else (if IsTextual(children[0]) then children[0].data else "") + DataOf(children[1..])
  }

  /** A child's text as written: a text node's data, or the text inside an
      element. */
  function ChildText(n: Node): string {
    match n
    case Text(d) => d
    case CData(d) => d
    case Element(_, ch) => DataOf(ch)
    case OtherNode => ""
  }

  /** The text of children `lo` up to `hi` (exclusive), in order. */
  function Texts(s: seq<Node>, lo: nat, hi: nat): string
    requires lo <= hi <= |s|
    decreases hi
  {
    if lo == hi then "" else Texts(s, lo, hi - 1) + ChildText(s[hi - 1])
  }

  /** Every element among the children holds only text. */
  predicate TextOnlyElements(s: seq<Node>) {
    forall j, m | 0 <= j < |s| && s[j].Element? && 0 <= m < |s[j].children| :: IsTextual(s[j].children[m])
  }

  /** `wholeText` of an element's first child, when every child is text,
      is all of the element's text. */
  lemma {:induction false} WholeTextAll(children: seq<Node>)
    requires |children| > 0 && forall m | 0 <= m < |children| :: IsTextual(children[m])
    ensures WholeText(children) == DataOf(children)
    decreases |children|
  {
    if |children| == 1 {
      assert children[1..] == [];
      AppendEmpty(children[0].data);
    } else {
      WholeTextAll(children[1..]);
    }
  }

  lemma {:induction false} TextsSplit(s: seq<Node>, lo: nat, mid: nat, hi: nat)
    requires lo <= mid <= hi <= |s|
    ensures Texts(s, lo, hi) == Texts(s, lo, mid) + Texts(s, mid, hi)
    decreases hi
  {
    if mid == hi {
      AppendEmpty(Texts(s, lo, mid));
    } else {
      TextsSplit(s, lo, mid, hi - 1);
      AppendAssoc(Texts(s, lo, mid), Texts(s, mid, hi - 1), ChildText(s[hi - 1]));
    }
  }

  /** A well-formed child other than `<name>` that holds only text. */
  predicate PlainChild(n: Node) {
    NodeFault(n, false).None? && !IsName(n)
    && (n.Element? ==> forall m | 0 <= m < |n.children| :: IsTextual(n.children[m]))
  }

  /** What such a child appends is its text, up to whitespace. */
  lemma PieceNoSpace(n: Node)
    requires PlainChild(n)
    ensures NoSpace(Piece(n)) == NoSpace(ChildText(n))
  {
    match n
    case Text(d) =>
      NoSpaceStrip(d);
      if Strip(d) != "*" {
        NoSpaceAppend(" ", Strip(d));
      }
    case Element(_, ch) =>
      WholeTextAll(ch);
      NoSpaceStrip(DataOf(ch));
      NoSpaceAppend(" ", Strip(DataOf(ch)));
  }

  /** Children `lo` up to `hi` (exclusive) are plain. */
  predicate AllPlain(s: seq<Node>, lo: nat, hi: nat)
    requires lo <= hi <= |s|
    decreases hi
  {
    lo == hi || (AllPlain(s, lo, hi - 1) && PlainChild(s[hi - 1]))
  }

  lemma {:induction false} AllPlainFrom(s: seq<Node>, lo: nat, hi: nat)
    requires lo <= hi <= |s|
    requires forall j | lo <= j < hi :: PlainChild(s[j])
    ensures AllPlain(s, lo, hi)
    decreases hi
  {
    if lo < hi {
      AllPlainFrom(s, lo, hi - 1);
    }
  }

  lemma {:induction false} PiecesNoSpace(s: seq<Node>, lo: nat, hi: nat)
    requires lo <= hi <= |s| && AllPlain(s, lo, hi)
    ensures NoSpace(Pieces(s, lo, hi)) == NoSpace(Texts(s, lo, hi))
    decreases hi
  {
    if lo < hi {
      PiecesNoSpace(s, lo, hi - 1);
      PiecesNoSpaceStep(s, lo, hi);
    }
  }

  lemma PiecesNoSpaceStep(s: seq<Node>, lo: nat, hi: nat)
    requires lo < hi <= |s| && PlainChild(s[hi - 1])
    requires NoSpace(Pieces(s, lo, hi - 1)) == NoSpace(Texts(s, lo, hi - 1))
    ensures NoSpace(Pieces(s, lo, hi)) == NoSpace(Texts(s, lo, hi))
  {
    var n := s[hi - 1];
    PieceNoSpace(n);
    NoSpaceAppendBoth(Pieces(s, lo, hi - 1), Piece(n), Texts(s, lo, hi - 1), ChildText(n));
  }

  /** In a `<proto>` or `<param>` that composes and holds only text inside
      its elements, every child other than the first `<name>` is plain. */
  lemma PlainChildren(s: seq<Node>, j: nat)
    requires FirstFault(s, 0) == |s| && TextOnlyElements(s) && j < |s| && j != FirstName(s)
    ensures PlainChild(s[j])
  {
    assert !Faulty(s, j);
    assert !IsName(s[j]);
    if s[j].Element? {
      forall m | 0 <= m < |s[j].children|
        ensures IsTextual(s[j].children[m])
      {
      }
    }
  }

  /** `with_name` gives back the declaration as written: for a `<proto>` or
      `<param>` that composes, with a name and with only text inside its
      elements, the declaration of the name with the composed type is the
      text of the children in order, up to whitespace. */
  lemma DeclRoundTrip(s: seq<Node>)
    requires Compose(s).Success? && Compose(s).value.name.Some? && TextOnlyElements(s)
    ensures NoSpace(WithName(Compose(s).value.typ, Compose(s).value.name.value)) == NoSpace(Texts(s, 0, |s|))
  {
    var k := ComposedParts(s);
    var p1, p2, name := Pieces(s, 0, k), Pieces(s, k + 1, |s|), DataOf(s[k].children);
    WithNameNoSpace(Strip(p1), Strip(name), Strip(p2));
    NoSpaceStrip(p1);
    NoSpaceStrip(p2);
    NoSpaceStrip(name);
    TextsAround(s, k);
  }

  /** The parts of a composed declaration with a name, when its elements
      hold only text: the pieces around the first `<name>`, every other
      child plain, and the name's text. */
  lemma ComposedParts(s: seq<Node>) returns (k: nat)
    requires Compose(s).Success? && Compose(s).value.name.Some? && TextOnlyElements(s)
    ensures k < |s| && s[k].Element?
    ensures Compose(s).value == NameAndType(Some(Strip(DataOf(s[k].children))),
                                            Type(Strip(Pieces(s, 0, k)), Strip(Pieces(s, k + 1, |s|))))
    ensures NoSpace(Pieces(s, 0, k)) == NoSpace(Texts(s, 0, k))
    ensures NoSpace(Pieces(s, k + 1, |s|)) == NoSpace(Texts(s, k + 1, |s|))
  {
    ComposeTwoPhase(s);
    k := FirstName(s);
    assert FirstFault(s, 0) == |s| && k < |s|;
    forall j | 0 <= j < |s| && j != k
      ensures PlainChild(s[j])
    {
      PlainChildren(s, j);
    }
    FirstNameText(s, k);
    AllPlainFrom(s, 0, k);
    AllPlainFrom(s, k + 1, |s|);
    PiecesNoSpace(s, 0, k);
    PiecesNoSpace(s, k + 1, |s|);
  }

  /** The text of the first `<name>`, when it holds only text. */
  lemma FirstNameText(s: seq<Node>, k: nat)
    requires k < |s| && k == FirstName(s) && !Faulty(s, k) && TextOnlyElements(s)
    ensures NameOf(s[k]) == Some(Strip(DataOf(s[k].children)))
  {
    var ch := s[k].children;
    forall m | 0 <= m < |ch|
      ensures IsTextual(ch[m])
    {
      assert IsTextual(s[k].children[m]);
    }
    WholeTextAll(ch);
  }

  lemma WithNameNoSpace(prefix: string, name: string, suffix: string)
    ensures NoSpace(WithName(Type(prefix, suffix), name)) == NoSpace(prefix) + NoSpace(name) + NoSpace(suffix)
  {
    NoSpaceAppend(prefix + " " + name, suffix);
    NoSpaceAppend(prefix + " ", name);
    NoSpaceAppend(prefix, " ");
    AppendEmpty(NoSpace(prefix));
  }

  lemma TextsAround(s: seq<Node>, k: nat)
    requires k < |s|
    ensures NoSpace(Texts(s, 0, |s|)) == NoSpace(Texts(s, 0, k)) + NoSpace(ChildText(s[k])) + NoSpace(Texts(s, k + 1, |s|))
  {
    TextsSplit(s, 0, k, |s|);
    TextsSplit(s, k, k + 1, |s|);
    assert Texts(s, k, k + 1) == "" + ChildText(s[k]);
    assert "" + ChildText(s[k]) == ChildText(s[k]);
    NoSpaceAppend(Texts(s, 0, k), Texts(s, k, |s|));
    NoSpaceAppend(ChildText(s[k]), Texts(s, k + 1, |s|));
    AppendAssoc(NoSpace(Texts(s, 0, k)), NoSpace(ChildText(s[k])), NoSpace(Texts(s, k + 1, |s|)));
  }

  /** The registry's error-out parameter, `<type>cl_int</type> *<name>errcode_ret</name>`
      in general form: a base type, a lone star and a name give the type text
      `base*`, the star bound to the base type without a space. */
  lemma PointerParam(base: string, star: string, name: string)
    requires IsStripped(base) && base != [] && Strip(star) == "*"
    ensures var s := [Element("type", [Text(base)]), Text(star), Element("name", [Text(name)])];
      Compose(s) == Success(NameAndType(Some(Strip(name)), Type(base + "*", "")))
      && TypeText(Compose(s).value.typ) == base + "*"
  {
    PointerScan(base, star, name);
    var b := " " + base;
    assert IsStripped(base + "*");
    assert b + "*" == " " + (base + "*") + "";
    StripAround(" ", base + "*", "");
    AppendEmpty(base + "*");
  }

  /** The scan of the error-out parameter, child by child. */
  lemma PointerScan(base: string, star: string, name: string)
    requires IsStripped(base) && Strip(star) == "*"
    ensures Scan([Element("type", [Text(base)]), Text(star), Element("name", [Text(name)])], 3)
      == Success(VisitState(Some(Strip(name)), [" " + base + "*", ""], 1))
  {
    var s := [Element("type", [Text(base)]), Text(star), Element("name", [Text(name)])];
    StripStripped(base);
    var b := " " + base;
    AppendEmpty(b);
    var st1 := VisitState(None, [b, ""], 0);
    assert Start.buffers[0 := "" + b] == st1.buffers;
    assert Scan(s, 1) == Success(st1);
    var st2 := VisitState(None, [b + "*", ""], 0);
    assert st1.buffers[0 := b + "*"] == st2.buffers;
    assert Scan(s, 2) == Success(st2);
  }

  /** An array parameter such as `<type>char</type> <name>buf</name>[4]`:
      the text after the name becomes the suffix, and `with_name` puts the
      declaration back together as `base name[4]`. */
  lemma SuffixParam(base: string, name: string, tail: string)
    requires IsStripped(base) && base != [] && IsStripped(name)
    requires IsStripped(tail) && tail != [] && tail != "*"
    ensures var s := [Element("type", [Text(base)]), Element("name", [Text(name)]), Text(tail)];
      Compose(s) == Success(NameAndType(Some(name), Type(base, tail)))
      && WithName(Compose(s).value.typ, name) == base + " " + name + tail
  {
    SuffixScan(base, name, tail);
    var b, t := " " + base, " " + tail;
    assert b == " " + base + "" && t == " " + tail + "";
    StripAround(" ", base, "");
    StripAround(" ", tail, "");
  }

  /** The scan of an array parameter, child by child. */
  lemma SuffixScan(base: string, name: string, tail: string)
    requires IsStripped(base) && IsStripped(name) && IsStripped(tail) && tail != "*"
    ensures Scan([Element("type", [Text(base)]), Element("name", [Text(name)]), Text(tail)], 3)
      == Success(VisitState(Some(name), [" " + base, " " + tail], 1))
  {
    var s := [Element("type", [Text(base)]), Element("name", [Text(name)]), Text(tail)];
    StripStripped(base);
    StripStripped(name);
    StripStripped(tail);
    var b, t := " " + base, " " + tail;
    AppendEmpty(b);
    AppendEmpty(t);
    var st1 := VisitState(None, [b, ""], 0);
    assert Start.buffers[0 := "" + b] == st1.buffers;
    assert Scan(s, 1) == Success(st1);
    var st2 := VisitState(Some(name), [b, ""], 1);
    assert Scan(s, 2) == Success(st2);
    var st3 := VisitState(Some(name), [b, t], 1);
    assert st2.buffers[1 := "" + t] == st3.buffers;
  }

  /** A CDATA section inside `<type>` or `<name>` is read as text, joined
      by `wholeText` with the text node before it; one directly inside a
      `<proto>` or `<param>` is not a text node and raises. */
  lemma CDataChildren(a: string, b: string, name: string)
    requires IsStripped(a + b) && a + b != []
    ensures Compose([Element("type", [Text(a), CData(b)]), Element("name", [CData(name)])])
      == Success(NameAndType(Some(Strip(name)), Type(a + b, "")))
    ensures Compose([CData(a)]) == Failure(BadChild(0, UnexpectedNode))
  {
    var s := [Element("type", [Text(a), CData(b)]), Element("name", [CData(name)])];
    var t := " " + (a + b);
    CDataTypeStep(a, b);
    CDataNameStep(t, name);
    var st2 := VisitState(Some(Strip(name)), [t, ""], 1);
    assert Scan(s, 2) == Success(st2) by {
      assert Scan(s, 1) == Success(VisitState(None, [t, ""], 0));
    }
    StripAround(" ", a + b, "");
    AppendEmpty(t);
    assert MkType(t, "") == Type(a + b, "");
    CDataAtTop(a);
  }

  /** A CDATA section directly inside a `<proto>` or `<param>` raises. */
  lemma CDataAtTop(a: string)
    ensures Compose([CData(a)]) == Failure(BadChild(0, UnexpectedNode))
  {
    assert Scan([CData(a)], 1) == Failure(BadChild(0, UnexpectedNode));
  }

  /** The `<name>` step of `CDataChildren`: a CDATA name is read as text. */
  lemma CDataNameStep(t: string, name: string)
    ensures Visit(VisitState(None, [t, ""], 0), Element("name", [CData(name)]), 1)
      == Success(VisitState(Some(Strip(name)), [t, ""], 1))
  {
    assert WholeText([CData(name)]) == name;
  }

  /** The `<type>` step of `CDataChildren`: text and CDATA read as one. */
  lemma CDataTypeStep(a: string, b: string)
    requires IsStripped(a + b) && a + b != []
    ensures Visit(Start, Element("type", [Text(a), CData(b)]), 0) == Success(VisitState(None, [" " + (a + b), ""], 0))
  {
    assert WholeText([Text(a), CData(b)]) == a + b by {
      assert [Text(a), CData(b)][1..] == [CData(b)];
    }
    StripStripped(a + b);
    var t := " " + (a + b);
    AppendEmpty(t);
    assert Start.buffers[0 := "" + t] == [t, ""];
  }

  /** The parameter declarations of a command, `[p.type.with_name(p.name) ...]`. */
  function Formals(params: seq<NameAndType>): (r: seq<string>)
    ensures |r| == |params|
    ensures forall j | 0 <= j < |params| :: r[j] == WithName(params[j].typ, NameText(params[j].name))
  {
    if params == [] then []
    else [WithName(params[0].typ, NameText(params[0].name))] + Formals(params[1..])
  }

  /** A list comprehension that applies `compose` to every declaration in
      order; the first failure is raised. */
  function ComposeEach(compose: seq<Node> -> Result<NameAndType, DeclError>, ps: seq<seq<Node>>)
    : Result<seq<NameAndType>, DeclError>
    decreases |ps|
  {
    if ps == [] then Success([])
    else
      var prev := ComposeEach(compose, ps[..|ps| - 1]);
      if prev.Failure? then prev
      else
        var p := compose(ps[|ps| - 1]);
        if p.Failure? then Failure(p.error) else Success(prev.value + [p.value])
  }

  /** The parameters composed in order; the first one that fails ends it. */
  function ComposeAll(ps: seq<seq<Node>>): Result<seq<NameAndType>, DeclError> {
    ComposeEach(Compose, ps)
  }

  /** What `API.from_xml_command` returns or raises for `cmd`. */
  function Parse(cmd: CommandNode): Result<Api, DeclError> {
    if |cmd.protos| != 1 then Failure(ProtoCount(|cmd.protos|))
    else
      var ret := Compose(cmd.protos[0]);
      if ret.Failure? then Failure(ret.error)
      else
        var params := ComposeAll(cmd.params);
        if params.Failure? then Failure(params.error) else Success(Api(ret.value, params.value))
  }

  /** `API.from_xml_command`: the single `<proto>` (unpacking fails on any
      other count), then every `<param>` in document order; the first
      declaration that cannot be composed ends the parse. */
  method ParseCommand(cmd: CommandNode) returns (r: Result<Api, DeclError>)
    ensures r == Parse(cmd)
  {
    if |cmd.protos| != 1 {
      return Failure(ProtoCount(|cmd.protos|));
    }
    var ret := ComposeDecl(cmd.protos[0]);
    if ret.Failure? {
      return Failure(ret.error);
    }
    var params := ComposeParams(cmd.params);
    if params.Failure? {
      return Failure(params.error);
    }
    return Success(Api(ret.value, params.value));
  }

  /** The loop of `from_xml_command` that appends the declaration of every
      `<param>` in turn. */
  method ComposeParams(ps: seq<seq<Node>>) returns (r: Result<seq<NameAndType>, DeclError>)
    ensures r == ComposeAll(ps)
  {
    var params: seq<NameAndType> := [];
    for i := 0 to |ps|
      invariant ComposeAll(ps[..i]) == Success(params)
    {
      var p := ComposeDecl(ps[i]);
      assert ps[..i + 1][..i] == ps[..i];
      if p.Failure? {
        ComposeAllStopped(ps, i + 1);
        return Failure(p.error);
      }
      params := params + [p.value];
    }
    assert ps[..|ps|] == ps;
    return Success(params);
  }

  /** Once a parameter fails, composing a longer list fails the same way. */
  lemma ComposeAllStopped(ps: seq<seq<Node>>, i: nat)
    requires i <= |ps| && ComposeAll(ps[..i]).Failure?
    ensures ComposeAll(ps) == ComposeAll(ps[..i])
  {
    ComposeEachStopped(Compose, ps, i);
  }

  lemma {:induction false} ComposeEachStopped(compose: seq<Node> -> Result<NameAndType, DeclError>, ps: seq<seq<Node>>, i: nat)
    requires i <= |ps| && ComposeEach(compose, ps[..i]).Failure?
    ensures ComposeEach(compose, ps) == ComposeEach(compose, ps[..i])
    decreases |ps| - i
  {
    if i < |ps| {
      assert ps[..i + 1][..i] == ps[..i];
      ComposeEachStopped(compose, ps, i + 1);
    } else {
      assert ps[..i] == ps;
    }
  }

  /** `cmd` parses into `api`: one proto, each declaration composed in order. */
  predicate ParsesTo(cmd: CommandNode, api: Api) {
    |cmd.protos| == 1
    && Compose(cmd.protos[0]) == Success(api.ret)
    && |api.params| == |cmd.params|
    && forall j | 0 <= j < |cmd.params| :: Compose(cmd.params[j]) == Success(api.params[j])
  }

  /** Composing every parameter succeeds exactly when each one does, and
      then yields each one's declaration in order. */
  lemma ComposeAllSuccess(ps: seq<seq<Node>>)
    ensures ComposeAll(ps).Success? <==> forall j | 0 <= j < |ps| :: Compose(ps[j]).Success?
    ensures ComposeAll(ps).Success? ==>
      |ComposeAll(ps).value| == |ps|
      && forall j | 0 <= j < |ps| :: Compose(ps[j]) == Success(ComposeAll(ps).value[j])
  {
    ComposeEachSuccess(Compose, ps);
  }

  lemma {:induction false} ComposeEachSuccess(compose: seq<Node> -> Result<NameAndType, DeclError>, ps: seq<seq<Node>>)
    ensures ComposeEach(compose, ps).Success? <==> forall j | 0 <= j < |ps| :: compose(ps[j]).Success?
    ensures ComposeEach(compose, ps).Success? ==>
      |ComposeEach(compose, ps).value| == |ps|
      && forall j | 0 <= j < |ps| :: compose(ps[j]) == Success(ComposeEach(compose, ps).value[j])
    decreases |ps|
  {
    if ps != [] {
      var init, last := ps[..|ps| - 1], ps[|ps| - 1];
      ComposeEachSuccess(compose, init);
      assert forall j | 0 <= j < |init| :: init[j] == ps[j];
      var prev := ComposeEach(compose, init);
      if prev.Failure? {
        var j :| 0 <= j < |init| && !compose(init[j]).Success?;
        assert !compose(ps[j]).Success?;
      } else if compose(last).Failure? {
      } else {
        var v := prev.value + [compose(last).value];
        assert ComposeEach(compose, ps) == Success(v);
        forall j | 0 <= j < |ps|
          ensures compose(ps[j]) == Success(v[j])
        {
          if j < |init| {
            assert v[j] == prev.value[j];
          }
        }
      }
    }
  }

  /** Composing the parameters fails with the error of the first one that fails. */
  lemma ComposeAllFailure(ps: seq<seq<Node>>)
    requires ComposeAll(ps).Failure?
    ensures exists j | 0 <= j < |ps| ::
      Compose(ps[j]) == Failure(ComposeAll(ps).error)
      && forall m | 0 <= m < j :: Compose(ps[m]).Success?
  {
    ComposeEachFailure(Compose, ps);
  }

  lemma {:induction false} ComposeEachFailure(compose: seq<Node> -> Result<NameAndType, DeclError>, ps: seq<seq<Node>>)
    requires ComposeEach(compose, ps).Failure?
    ensures exists j | 0 <= j < |ps| ::
      compose(ps[j]) == Failure(ComposeEach(compose, ps).error)
      && forall m | 0 <= m < j :: compose(ps[m]).Success?
    decreases |ps|
  {
    var init := ps[..|ps| - 1];
    assert forall j | 0 <= j < |init| :: init[j] == ps[j];
    if ComposeEach(compose, init).Failure? {
      ComposeEachFailure(compose, init);
      var j :| 0 <= j < |init| && compose(init[j]) == Failure(ComposeEach(compose, init).error)
        && forall m | 0 <= m < j :: compose(init[m]).Success?;
      assert compose(ps[j]) == Failure(ComposeEach(compose, ps).error);
    } else {
      ComposeEachSuccess(compose, init);
      var j := |ps| - 1;
      assert compose(ps[j]) == Failure(ComposeEach(compose, ps).error);
    }
  }

  /** A command parses exactly when it has one `<proto>` and every
      declaration composes; it then yields the composed declarations. */
  lemma ParseSucceedsIff(cmd: CommandNode)
    ensures Parse(cmd).Success? <==>
      |cmd.protos| == 1 && Compose(cmd.protos[0]).Success?
      && forall j | 0 <= j < |cmd.params| :: Compose(cmd.params[j]).Success?
    ensures Parse(cmd).Success? ==> ParsesTo(cmd, Parse(cmd).value)
  {
    ComposeAllSuccess(cmd.params);
  }

  /** A failed parse reports the proto count, the proto's error, or the
      error of the first parameter that fails. */
  lemma ParseFailure(cmd: CommandNode)
    requires Parse(cmd).Failure?
    ensures |cmd.protos| != 1 ==> Parse(cmd).error == ProtoCount(|cmd.protos|)
    ensures |cmd.protos| == 1 ==>
      (Compose(cmd.protos[0]).Failure? && Parse(cmd).error == Compose(cmd.protos[0]).error)
      || (Compose(cmd.protos[0]).Success? && exists j | 0 <= j < |cmd.params| ::
            Compose(cmd.params[j]) == Failure(Parse(cmd).error)
            && forall m | 0 <= m < j :: Compose(cmd.params[m]).Success?)
  {
    if |cmd.protos| == 1 && Compose(cmd.protos[0]).Success? {
      ComposeAllFailure(cmd.params);
    }
  }
}
