/**
 Log4zStream (examples/tcp_cereal_packet/utility/log4z.h): printing nested values into a fixed buffer.
 Containers write ", " after every element and then move the cursor back by two.
 */
module LogStreams {
  import opened Decimals

  const CONTAINER_DEPTH: nat := 5
  const NUL: char := '\0'

  datatype Kind = Vector | List | Deque | Map

  /** What is printed.  Numbers are the text snprintf would make of them, which may be any text. */
  datatype Value =
    | Str(text: string)
    | Fmt(text: string)
    | FmtError
    | Pair(first: Value, second: Value)
    | Container(kind: Kind, items: seq<Value>)

  /** The buffer, from _begin to _end, and _cur as an offset into it. */
  datatype Stream = Stream(buf: string, cur: int) {

    ghost predicate Valid() {
      0 <= cur <= |buf|
    }

    /** writeString: note that the terminator goes one place beyond the cursor. */
    function WriteString(t: string): (r: Stream)
      requires Valid()
      ensures r.Valid() && |r.buf| == |buf| && r.cur == Least(cur + |t|, |buf|)
    {
      if cur < |buf| then
        var len := if |t| > |buf| - cur then |buf| - cur else |t|;
        var b := buf[..cur] + t[..len] + buf[cur + len..];
        var c := cur + len;
        Stream(if c >= |b| - 1 then b[|b| - 1 := NUL] else b[c + 1 := NUL], c)
      else this
    }

    /** writeData, with t for what snprintf formats. */
    function WriteData(t: string): (r: Stream)
      requires Valid()
      ensures r.Valid() && |r.buf| == |buf| && r.cur == Least(cur + |t|, |buf|)
    {
      if cur < |buf| then
        var count := |buf| - cur;
        if |t| >= count then Stream(buf[..cur] + t[..count - 1] + [NUL], |buf|)
        else Stream(buf[..cur] + t + [NUL] + buf[cur + |t| + 1..], cur + |t|)
      else this
    }

    /** writeData when snprintf fails. */
    function WriteError(): (r: Stream)
      requires Valid()
      ensures r.Valid() && |r.buf| == |buf| && r.cur == cur
    {
      if cur < |buf| then Stream(buf[cur := NUL], cur) else this
    }

    function Rewind(): Stream {
      Stream(buf, cur - 2)
    }
  }

  function Opening(kind: Kind): string {
    match kind
    case Vector => "vector("
    case List => "list("
    case Deque => "deque("
    case Map => "map("
  }

  // ------------------------------------------------------------------------------------------------
  // What the text should be
  // ------------------------------------------------------------------------------------------------

  function Join(parts: seq<string>): string {
    if parts == [] then ""
    else if |parts| == 1 then parts[0]
    else Join(parts[..|parts| - 1]) + ", " + parts[|parts| - 1]
  }

  /** A value as text: at most five elements of a container, then "...". */
  function Render(v: Value): string
    decreases v
  {
    match v
    case Str(t) => t
    case Fmt(t) => t
    case FmtError => ""
    case Pair(a, b) => "pair(" + Render(a) + ":" + Render(b) + ")"
    case Container(kind, items) =>
      Opening(kind) + Decimal(|items|) + ")[" + Join(Shown(items)) + "]"
  }

  function Shown(items: seq<Value>): seq<string>
    decreases items, |items| + 1
  {
    if |items| <= CONTAINER_DEPTH then RenderFirst(items, |items|) else RenderFirst(items, CONTAINER_DEPTH) + ["..."]
  }

  function RenderFirst(items: seq<Value>, n: nat): (parts: seq<string>)
    requires n <= |items|
    ensures |parts| == n
    decreases items, n
  {
    if n == 0 then [] else RenderFirst(items, n - 1) + [Render(items[n - 1])]
  }

  // ------------------------------------------------------------------------------------------------
  // What the stream does
  // ------------------------------------------------------------------------------------------------

  /** No container in it has elements, so nothing is ever rewound. */
  ghost predicate Flat(v: Value)
    decreases v
  {
    match v
    case Pair(a, b) => Flat(a) && Flat(b)
    case Container(_, items) => items == []
    case _ => true
  }

  /** The rewinds stay inside any buffer of at least two bytes; smaller ones only do for flat values. */
  ghost predicate Safe(v: Value, length: nat) {
    length >= 2 || Flat(v)
  }

  ghost predicate SafeAll(items: seq<Value>, length: nat) {
    forall v :: v in items ==> Safe(v, length)
  }

  function Least(a: int, b: int): int {
    if a <= b then a else b
  }

  /** The cursor never leaves the buffer and never ends below where it started, but for the last byte. */
  function Printed(s: Stream, v: Value): (r: Stream)
    requires s.Valid() && Safe(v, |s.buf|)
    ensures r.Valid() && |r.buf| == |s.buf|
    ensures r.cur >= Least(s.cur, |s.buf| - 1)
    decreases v
  {
    hide Stream.WriteString, Stream.WriteData, Stream.WriteError, Decimal, Opening;
    match v
    case Str(t) => s.WriteString(t)
    case Fmt(t) => s.WriteData(t)
    case FmtError => s.WriteError()
    case Pair(a, b) =>
      var first := Printed(s.WriteString("pair("), a);
      Printed(first.WriteString(":"), b).WriteString(")")
    case Container(kind, items) =>
      var h := s.WriteString(Opening(kind)).WriteData(Decimal(|items|)).WriteString(")[");
      if items == [] then h.WriteString("]") else
        var r := PrintedItems(h, items, 0);
        r.Rewind().WriteString("]")
  }

  /** The loop over the elements, from the i-th on. */
  function PrintedItems(s: Stream, items: seq<Value>, i: nat): (r: Stream)
    requires s.Valid() && SafeAll(items, |s.buf|) && i <= |items|
    ensures r.Valid() && |r.buf| == |s.buf|
    ensures r.cur >= Least(s.cur, |s.buf| - 1)
    ensures i < |items| ==> r.cur >= Least(s.cur + 2, |s.buf|)
    decreases items, |items| - i
  {
    hide Stream.WriteString, Safe, Flat;
    if i == |items| then s
    else if i + 1 > CONTAINER_DEPTH then s.WriteString("..., ")
    else PrintedItems(Printed(s, items[i]).WriteString(", "), items, i + 1)
  }

  // ------------------------------------------------------------------------------------------------
  // The stream prints the text
  // ------------------------------------------------------------------------------------------------

  /** What is in the buffer is a beginning of the text, up to its last two bytes. */
  ghost predicate Cut(r: Stream, text: string) {
    |r.buf| >= 2 ==> |r.buf| - 2 <= |text| && r.buf[..|r.buf| - 2] == text[..|r.buf| - 2]
  }

  /** t was written from s to r: whole if it fits strictly; else as much of it as fits, and the cursor at the last byte. */
  ghost predicate Wrote(s: Stream, r: Stream, t: string) {
    s.Valid() && r.Valid() && |r.buf| == |s.buf| &&
    if s.cur + |t| < |s.buf| then r.cur == s.cur + |t| && r.buf[..r.cur] == s.buf[..s.cur] + t
    else r.cur >= |s.buf| - 1 && Cut(r, s.buf[..s.cur] + t)
  }

  /** t, which ends in a separator, was written from s to r, but the separator itself may be damaged. */
  ghost predicate WroteLoosely(s: Stream, r: Stream, t: string) {
    s.Valid() && r.Valid() && |r.buf| == |s.buf| && |t| >= 2 &&
    if s.cur + |t| <= |s.buf| then r.cur == s.cur + |t| && r.buf[..r.cur - 2] == s.buf[..s.cur] + t[..|t| - 2]
    else r.cur == |s.buf| && Cut(r, s.buf[..s.cur] + t)
  }

  lemma StringIsWritten(s: Stream, t: string)
    requires s.Valid()
    ensures Wrote(s, s.WriteString(t), t)
    ensures |t| >= 2 ==> WroteLoosely(s, s.WriteString(t), t)
  {
    var r := s.WriteString(t);
    if s.cur + |t| <= |s.buf| && s.cur < |s.buf| {
      var b := s.buf[..s.cur] + t + s.buf[s.cur + |t|..];
      assert b[..s.cur + |t|] == s.buf[..s.cur] + t;
      assert r.cur < |s.buf| - 1 ==> r.buf[..r.cur] == b[..r.cur];
      if |t| >= 2 {
        assert r.buf[..r.cur - 2] == b[..r.cur - 2] == s.buf[..s.cur] + t[..|t| - 2];
      }
    }
  }

  lemma DataIsWritten(s: Stream, t: string)
    requires s.Valid()
    ensures Wrote(s, s.WriteData(t), t)
    ensures Wrote(s, s.WriteError(), "")
  {
  }

  /** Once cut, the text may go on as it likes. */
  lemma CutGoesOn(a: Stream, r: Stream, p: string, t: string, u: string)
    requires Cut(a, p + t) && |r.buf| == |a.buf|
    requires |a.buf| >= 2 ==> r.buf[..|a.buf| - 2] == a.buf[..|a.buf| - 2]
    ensures Cut(r, p + (t + u))
  {
    assert p + (t + u) == (p + t) + u;
  }

  lemma WrittenInTurn(s: Stream, a: Stream, r: Stream, t: string, u: string)
    requires Wrote(s, a, t) && Wrote(a, r, u) && r.cur >= Least(a.cur, |s.buf| - 1)
    ensures Wrote(s, r, t + u)
  {
    var p := s.buf[..s.cur];
    assert (p + t) + u == p + (t + u);
    if s.cur + |t| >= |s.buf| {
      if |s.buf| >= 2 {
        assert r.buf[..|s.buf| - 2] == a.buf[..|s.buf| - 2];
      }
      CutGoesOn(a, r, p, t, u);
    }
  }

  lemma LooselyInTurn(s: Stream, a: Stream, r: Stream, t: string, u: string)
    requires Wrote(s, a, t) && WroteLoosely(a, r, u)
    ensures WroteLoosely(s, r, t + u)
  {
    var p := s.buf[..s.cur];
    assert (t + u)[..|t + u| - 2] == t + u[..|u| - 2];
    assert (p + t) + u == p + (t + u);
    if s.cur + |t| >= |s.buf| {
      assert a.cur >= |s.buf| - 1 && |u| >= 2;
      if |s.buf| >= 2 {
        assert r.buf[..|s.buf| - 2] == (a.buf[..a.cur] + u)[..|s.buf| - 2] == a.buf[..|s.buf| - 2];
      }
      CutGoesOn(a, r, p, t, u);
    }
  }

  /** Moving back over the separator and closing the bracket repairs what the separator damaged. */
  lemma BracketReplacesSeparator(s: Stream, r: Stream, t: string)
    requires WroteLoosely(s, r, t) && |s.buf| >= 2
    ensures r.Rewind().Valid() && Wrote(s, r.Rewind().WriteString("]"), t[..|t| - 2] + "]")
  {
    var w := r.Rewind();
    StringIsWritten(w, "]");
    if s.cur + |t| <= |s.buf| {
      assert w.buf[..w.cur] + "]" == s.buf[..s.cur] + (t[..|t| - 2] + "]");
    }
  }

  // ---- the text of the element loop ----

  function ItemsText(items: seq<Value>, i: nat): (t: string)
    requires i <= |items|
    ensures i < |items| ==> |t| >= 2
    decreases |items| - i
  {
    if i == |items| then ""
    else if i + 1 > CONTAINER_DEPTH then "..., "
    else Render(items[i]) + ", " + ItemsText(items, i + 1)
  }

  function Separated(parts: seq<string>, i: nat): string
    requires i <= |parts|
    decreases |parts| - i
  {
    if i == |parts| then "" else parts[i] + ", " + Separated(parts, i + 1)
  }

  lemma {:induction false} JoinSeparates(parts: seq<string>, k: nat)
    requires 1 <= k <= |parts|
    ensures Join(parts[..k]) + ", " + Separated(parts, k) == Separated(parts, 0)
  {
    if k == 1 {
      assert parts[..1] == [parts[0]];
      assert Separated(parts, 0) == parts[0] + ", " + Separated(parts, 1);
    } else {
      JoinSeparates(parts, k - 1);
      assert parts[..k][..k - 1] == parts[..k - 1];
      var j, p, rest := Join(parts[..k - 1]), parts[k - 1], Separated(parts, k);
      assert Join(parts[..k]) == j + ", " + p;
      assert Separated(parts, k - 1) == p + ", " + rest;
      assert (j + ", " + p) + ", " + rest == j + ", " + (p + ", " + rest);
    }
  }

  lemma {:induction false} RenderFirstAt(items: seq<Value>, n: nat, i: nat)
    requires i < n <= |items|
    ensures RenderFirst(items, n)[i] == Render(items[i])
    decreases n
  {
    if i < n - 1 {
      RenderFirstAt(items, n - 1, i);
    }
  }

  lemma {:induction false} ShownIsItemsText(items: seq<Value>, i: nat)
    requires i <= CONTAINER_DEPTH && i <= |items|
    ensures Separated(Shown(items), i) == ItemsText(items, i)
    decreases |items| - i
  {
    var shown := Shown(items);
    if i == |shown| {
    } else if i >= CONTAINER_DEPTH {
      assert shown[i] == "..." && Separated(shown, i + 1) == "";
    } else {
      RenderFirstAt(items, if |items| <= CONTAINER_DEPTH then |items| else CONTAINER_DEPTH, i);
      ShownIsItemsText(items, i + 1);
    }
  }

  /** What the loop writes is the joined text and one separator more. */
  lemma ItemsTextIsJoin(items: seq<Value>)
    requires items != []
    ensures ItemsText(items, 0) == Join(Shown(items)) + ", "
  {
    var shown := Shown(items);
    JoinSeparates(shown, |shown|);
    assert shown[..|shown|] == shown;
    assert Separated(shown, |shown|) == "";
    ShownIsItemsText(items, 0);
  }

  lemma {:induction false} PrintIsWritten(s: Stream, v: Value)
    requires s.Valid() && Safe(v, |s.buf|)
    ensures Wrote(s, Printed(s, v), Render(v))
    decreases v, 1
  {
    match v
    case Str(t) => StringIsWritten(s, t);
    case Fmt(t) => DataIsWritten(s, t);
    case FmtError => DataIsWritten(s, "");
    case Pair(a, b) => PairIsWritten(s, v);
    case Container(kind, items) => ContainerIsWritten(s, v);
  }

  lemma {:induction false} PairIsWritten(s: Stream, v: Value)
    requires v.Pair? && s.Valid() && Safe(v, |s.buf|)
    ensures Wrote(s, Printed(s, v), Render(v))
    decreases v, 0
  {
    hide Wrote, Stream.WriteString;
    var s1 := s.WriteString("pair(");
    var s2 := Printed(s1, v.first);
    var s3 := s2.WriteString(":");
    var s4 := Printed(s3, v.second);
    var a, b := Render(v.first), Render(v.second);
    StringIsWritten(s, "pair(");
    PrintIsWritten(s1, v.first);
    WrittenInTurn(s, s1, s2, "pair(", a);
    StringIsWritten(s2, ":");
    WrittenInTurn(s, s2, s3, "pair(" + a, ":");
    PrintIsWritten(s3, v.second);
    WrittenInTurn(s, s3, s4, "pair(" + a + ":", b);
    StringIsWritten(s4, ")");
    WrittenInTurn(s, s4, s4.WriteString(")"), "pair(" + a + ":" + b, ")");
  }

  function Head(kind: Kind, n: nat): string {
    Opening(kind) + Decimal(n) + ")["
  }

  lemma HeadIsWritten(s: Stream, kind: Kind, n: nat)
    requires s.Valid()
    ensures Wrote(s, s.WriteString(Opening(kind)).WriteData(Decimal(n)).WriteString(")["), Head(kind, n))
  {
    hide Wrote, Stream.WriteString, Stream.WriteData, Decimal, Opening;
    var s1 := s.WriteString(Opening(kind));
    var s2 := s1.WriteData(Decimal(n));
    StringIsWritten(s, Opening(kind));
    DataIsWritten(s1, Decimal(n));
    WrittenInTurn(s, s1, s2, Opening(kind), Decimal(n));
    StringIsWritten(s2, ")[");
    WrittenInTurn(s, s2, s2.WriteString(")["), Opening(kind) + Decimal(n), ")[");
  }

  lemma {:induction false} ContainerIsWritten(s: Stream, v: Value)
    requires v.Container? && s.Valid() && Safe(v, |s.buf|)
    ensures Wrote(s, Printed(s, v), Render(v))
    decreases v, 0
  {
    var kind, items := v.kind, v.items;
    var h := s.WriteString(Opening(kind)).WriteData(Decimal(|items|)).WriteString(")[");
    var head, body := Head(kind, |items|), Join(Shown(items));
    assert Render(v) == head + body + "]";
    if items != [] {
      ItemsTextIsJoin(items);
    } else {
      assert body == "";
    }
    hide Wrote, WroteLoosely, Stream.WriteString, Stream.WriteData, Decimal, Opening, Join, Shown, Head, Render, ItemsText;
    HeadIsWritten(s, kind, |items|);
    assert head + (body + "]") == head + body + "]";
    if items == [] {
      StringIsWritten(h, "]");
      WrittenInTurn(s, h, h.WriteString("]"), head, "]");
      assert body + "]" == "]";
    } else {
      ItemsAreWritten(h, items, 0);
      var r := PrintedItems(h, items, 0);
      BracketReplacesSeparator(h, r, ItemsText(items, 0));
      assert (body + ", ")[..|body + ", "| - 2] == body;
      WrittenInTurn(s, h, r.Rewind().WriteString("]"), head, body + "]");
    }
  }

  lemma {:induction false} ItemsAreWritten(s: Stream, items: seq<Value>, i: nat)
    requires s.Valid() && SafeAll(items, |s.buf|) && i < |items|
    ensures WroteLoosely(s, PrintedItems(s, items, i), ItemsText(items, i))
    decreases items, |items| - i
  {
    hide Wrote, WroteLoosely, Stream.WriteString, Safe, Flat;
    if i + 1 > CONTAINER_DEPTH {
      StringIsWritten(s, "..., ");
    } else {
      var a := Printed(s, items[i]);
      var b := a.WriteString(", ");
      PrintIsWritten(s, items[i]);
      StringIsWritten(a, ", ");
      var t := Render(items[i]);
      if i + 1 == |items| {
        LooselyInTurn(s, a, b, t, ", ");
        assert ItemsText(items, i) == t + ", " + "" == t + ", ";
      } else {
        WrittenInTurn(s, a, b, t, ", ");
        ItemsAreWritten(b, items, i + 1);
        LooselyInTurn(s, b, PrintedItems(b, items, i + 1), t + ", ", ItemsText(items, i + 1));
      }
    }
  }

  /**
   For every value and every buffer it can be printed into: the text is printed whole exactly when it fits
   with a byte to spare, and the cursor then stands just behind it; otherwise the buffer is full up to its
   last byte, and all of it but the last two bytes is a beginning of the text.  A cursor short of the last byte
   therefore proves the text complete.
   */
  lemma PrintedWholeIff(s: Stream, v: Value)
    requires s.Valid() && Safe(v, |s.buf|)
    ensures var r := Printed(s, v);
      (s.cur + |Render(v)| < |s.buf| ==> r.cur == s.cur + |Render(v)| && r.buf[..r.cur] == s.buf[..s.cur] + Render(v)) &&
      (s.cur + |Render(v)| >= |s.buf| ==>
         r.cur >= |s.buf| - 1 && (|s.buf| >= 2 ==> r.buf[..|s.buf| - 2] == (s.buf[..s.cur] + Render(v))[..|s.buf| - 2])) &&
      (r.cur < |s.buf| - 1 ==> r.buf[..r.cur] == s.buf[..s.cur] + Render(v))
  {
    PrintIsWritten(s, v);
  }

  /** What is written is terminated: at the cursor or, by the string writer, one byte behind it, and at the end when full. */
  lemma WritesTerminate(s: Stream, t: string)
    requires s.Valid() && s.cur < |s.buf|
    ensures var r := s.WriteData(t); r.buf[Least(r.cur, |r.buf| - 1)] == NUL
    ensures var r := s.WriteString(t); r.buf[Least(r.cur + 1, |r.buf| - 1)] == NUL
    ensures s.WriteError().buf[s.cur] == NUL
  {
  }

  lemma {:induction false} RenderFirstOf(items: seq<Value>, n: nat)
    requires 0 < n <= |items|
    ensures RenderFirst(items, n) == RenderFirst(items, n - 1) + [Render(items[n - 1])]
  {
  }

  lemma JoinSnoc(parts: seq<string>, p: string)
    requires parts != []
    ensures Join(parts + [p]) == Join(parts) + ", " + p
  {
    assert (parts + [p])[..|parts|] == parts;
  }

  /** Of five elements or fewer all are shown, of more the first five and "...". */
  lemma ShowsFive(items: seq<Value>, k: nat)
    ensures |items| <= 5 ==> |Shown(items)| == |items| && (k < |items| ==> Shown(items)[k] == Render(items[k]))
    ensures |items| > 5 ==> |Shown(items)| == 6 && Shown(items)[5] == "..." && (k < 5 ==> Shown(items)[k] == Render(items[k]))
  {
    if k < |items| && k < 5 {
      RenderFirstAt(items, if |items| <= 5 then |items| else 5, k);
    }
  }

  /** What the pure printer makes of a pair, and of each kind of container. */
  lemma Rendered(x: string, y: string)
    ensures Render(Pair(Str(x), Str(y))) == "pair(" + x + ":" + y + ")"
    ensures Render(Container(Vector, [])) == "vector(0)[]" && Render(Container(List, [])) == "list(0)[]"
    ensures Render(Container(Deque, [])) == "deque(0)[]" && Render(Container(Map, [])) == "map(0)[]"
    ensures Render(Container(List, [Str(x), Str(y)])) == "list(2)[" + x + ", " + y + "]"
  {
    RenderedTwo(x, y);
  }

  lemma RenderedTwo(x: string, y: string)
    ensures Render(Container(List, [Str(x), Str(y)])) == "list(2)[" + x + ", " + y + "]"
  {
    var items := [Str(x), Str(y)];
    RenderFirstOf(items, 1);
    RenderFirstOf(items, 2);
    assert RenderFirst(items, 2) == [x] + [y];
    JoinSnoc([x], y);
  }

  /** The condition on the buffer is exact: the first rewind stays inside it if and only if it has two bytes. */
  lemma RewindStaysInsideIff(s: Stream, kind: Kind, items: seq<Value>)
    requires s.Valid() && items != [] && (forall v :: v in items ==> Flat(v))
    ensures var h := s.WriteString(Opening(kind)).WriteData(Decimal(|items|)).WriteString(")[");
      PrintedItems(h, items, 0).Rewind().Valid() <==> |s.buf| >= 2
  {
    hide Stream.WriteString, Stream.WriteData, Decimal;
  }

  // ------------------------------------------------------------------------------------------------
  // The object
  // ------------------------------------------------------------------------------------------------

  class Log4zStream {
    const buf: array<char>   // from _begin to _end
    var cur: int             // _cur - _begin

    ghost function State(): Stream
      reads this, buf
    {
      Stream(buf[..], cur)
    }

    constructor (buf: array<char>)
      ensures this.buf == buf && State() == Stream(buf[..], 0)
    {
      this.buf, cur := buf, 0;
    }

    method WriteString(t: string)
      requires State().Valid()
      modifies this, buf
      ensures State() == old(State()).WriteString(t)
    {
      if cur < buf.Length {
        var count := buf.Length - cur;
        var len := if |t| > count then count else |t|;
        var at := cur;
        forall i | 0 <= i < len {
          buf[at + i] := t[i];
        }
        assert buf[..] == old(buf[..cur]) + t[..len] + old(buf[cur + len..]);
        cur := cur + len;
        if cur >= buf.Length - 1 {
          buf[buf.Length - 1] := NUL;
        } else {
          buf[cur + 1] := NUL;
        }
      }
    }

    /** t is the text snprintf formats; it stores at most count - 1 characters of it and a terminator. */
    method WriteData(t: string)
      requires State().Valid()
      modifies this, buf
      ensures State() == old(State()).WriteData(t)
    {
      if cur < buf.Length {
        var count := buf.Length - cur;
        var len := |t|;
        var stored := if len < count then len else count - 1;
        var at := cur;
        forall i | 0 <= i < stored {
          buf[at + i] := t[i];
        }
        buf[at + stored] := NUL;
        if len >= count {
          len := count;
          buf[buf.Length - 1] := NUL;
        }
        cur := cur + len;
        assert |t| >= count ==> buf[..] == old(buf[..cur]) + t[..count - 1] + [NUL];
        assert |t| < count ==> buf[..] == old(buf[..cur]) + t + [NUL] + old(buf[cur + |t| + 1..]);
      }
    }

    method WriteError()
      requires State().Valid()
      modifies this, buf
      ensures State() == old(State()).WriteError()
    {
      if cur < buf.Length {
        buf[cur] := NUL;
      }
    }

    method Print(v: Value)
      requires State().Valid() && Safe(v, buf.Length)
      modifies this, buf
      ensures State() == Printed(old(State()), v)
      decreases v
    {
      hide Stream.WriteString, Stream.WriteData, Stream.WriteError, Decimal;
      match v
      case Str(t) => WriteString(t);
      case Fmt(t) => WriteData(t);
      case FmtError => WriteError();
      case Pair(a, b) =>
        WriteString("pair(");
        Print(a);
        WriteString(":");
        Print(b);
        WriteString(")");
      case Container(kind, items) =>
        WriteString(Opening(kind));
        WriteData(Decimal(|items|));
        WriteString(")[");
        ghost var h := State();
        var inputCount := 0;
        var i := 0;
        while i < |items|
          invariant 0 <= i == inputCount <= |items|
          invariant State().Valid() && SafeAll(items, buf.Length)
          invariant PrintedItems(State(), items, i) == PrintedItems(h, items, 0)
        {
          inputCount := inputCount + 1;
          if inputCount > CONTAINER_DEPTH {
            WriteString("..., ");
            assert State() == PrintedItems(h, items, 0);
            break;
          }
          Print(items[i]);
          WriteString(", ");
          i := i + 1;
        }
        assert State() == PrintedItems(h, items, 0);
        if items != [] {
          cur := cur - 2;
        }
        WriteString("]");
    }
  }
}
