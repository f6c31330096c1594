/** The interactive part of the drawing canvas (src/components/DrawingCanvas.tsx):
    the element a finished gesture or a submitted text box creates, and the
    eraser sweep that removes every element the eraser's path touches.

    The component's React state (`isDrawing`, `currentPath`, `erasedElements`,
    the selection and the text box) is the state of class `Canvas`; each
    mouse handler is a method that updates it. Callbacks to the parent are
    returned: `MouseMove` returns the ids passed to `onElementRemoved`, in
    call order, and `MouseUp`/`TextSubmit` return the element passed to
    `onElementAdded`, if any. The two `Date.now()` readings of a new element
    (one in its id, one in its timestamp) are parameters. */
module Canvas {
  import opened Wrappers
  import opened Types
  import opened Geometry

  /** The toolbar's tool ids; any other string is `OtherTool`. */
  datatype Tool =
    | SelectTool | PenTool | EraserTool | RectangleTool | CircleTool | ArrowTool | TextTool
    | OtherTool

  /** The keys the text box reacts to; any other key is `OtherKey`. */
  datatype Key = EnterKey | EscapeKey | OtherKey

  /** Every element the canvas creates is stroked two units wide, unfilled. */
  const StrokeWidth := 2.0

  /* ---------- element ids: `${userId}-${Date.now()}` ---------- */

  predicate IsDigit(c: char) {
    '0' <= c <= '9'
  }

  predicate AllDigits(s: string) {
    forall k :: 0 <= k < |s| ==> IsDigit(s[k])
  }

  function DigitChar(d: nat): (c: char)
    requires d < 10
    ensures IsDigit(c) && c as int - '0' as int == d
  {
    ('0' as int + d) as char
  }

  /** The decimal rendering JavaScript gives a non-negative integer. */
  function Decimal(n: nat): (s: string)
    ensures s != [] && AllDigits(s)
    ensures s[0] == '0' ==> n == 0
  {
    if n < 10 then [DigitChar(n)] else Decimal(n / 10) + [DigitChar(n % 10)]
  }

  /** The value of a string of decimal digits. */
  function DecimalValue(s: string): nat
    requires AllDigits(s)
  {
    if s == [] then 0
    else DecimalValue(s[..|s| - 1]) * 10 + (s[|s| - 1] as int - '0' as int)
  }

  /** Reading a rendered number back gives the number. */
  lemma {:induction false} DecimalRoundTrip(n: nat)
    ensures DecimalValue(Decimal(n)) == n
  {
    if n >= 10 {
      var s := Decimal(n / 10);
      assert Decimal(n)[..|Decimal(n)| - 1] == s;
      DecimalRoundTrip(n / 10);
    }
  }

  /** The id of an element the canvas creates. */
  function ElementId(userId: string, now: nat): (id: string)
    ensures |id| > |userId| && id[..|userId|] == userId && id[|userId|] == '-'
    ensures forall k :: |userId| < k < |id| ==> IsDigit(id[k])
  {
    userId + "-" + Decimal(now)
  }

  /** Ids are unambiguous: since only digits follow the user id's dash, an
      id determines both its user and its clock reading, even for user ids
      that themselves contain dashes. */
  lemma ElementIdInjective(u1: string, t1: nat, u2: string, t2: nat)
    requires ElementId(u1, t1) == ElementId(u2, t2)
    ensures u1 == u2 && t1 == t2
  {
    var id := ElementId(u1, t1);
    assert |u1| == |u2|;
    assert Decimal(t1) == id[|u1| + 1..] == Decimal(t2);
    DecimalRoundTrip(t1);
    DecimalRoundTrip(t2);
  }

  /* ---------- `String.prototype.trim` ---------- */

  /** ECMAScript WhiteSpace and LineTerminator code points: what `trim`
      removes. */
  predicate IsSpace(c: char) {
    c == '\t' || c == '\n' || c == '\U{B}' || c == '\U{C}' || c == '\r' || c == ' ' ||
    c == '\U{A0}' || c == '\U{1680}' || ('\U{2000}' <= c <= '\U{200A}') ||
    c == '\U{2028}' || c == '\U{2029}' || c == '\U{202F}' || c == '\U{205F}' ||
    c == '\U{3000}' || c == '\U{FEFF}'
  }

  predicate AllSpace(s: string) {
    forall k :: 0 <= k < |s| ==> IsSpace(s[k])
  }

  /** The length of the run of white space that starts the string. */
  function LeadingSpace(s: string): (n: nat)
    ensures n <= |s| && AllSpace(s[..n])
    ensures n < |s| ==> !IsSpace(s[n])
  {
    if s != [] && IsSpace(s[0]) then 1 + LeadingSpace(s[1..]) else 0
  }

  /** The length of the run of white space that ends the string. */
  function TrailingSpace(s: string): (n: nat)
    ensures n <= |s| && AllSpace(s[|s| - n..])
    ensures n < |s| ==> !IsSpace(s[|s| - n - 1])
  {
    if s != [] && IsSpace(s[|s| - 1]) then 1 + TrailingSpace(s[..|s| - 1]) else 0
  }

  /** `s.trim()`: the string without its leading and trailing white space. */
  function Trim(s: string): (r: string)
    ensures r == [] <==> AllSpace(s)
    ensures r != [] ==> !IsSpace(r[0]) && !IsSpace(r[|r| - 1])
    ensures exists i :: 0 <= i <= |s| - |r| && s[i..i + |r|] == r &&
                        AllSpace(s[..i]) && AllSpace(s[i + |r|..])
  {
    var i := LeadingSpace(s);
    var j := |s| - TrailingSpace(s[i..]);
    assert s[i..][..j - i] == s[i..j];
    assert s[i..][j - i..] == s[j..];
    assert i < |s| ==> j > i;
    assert AllSpace(s) ==> i == |s|;
    s[i..j]
  }

  /** Leading white space is measured up to the first other character. */
  lemma {:induction false} LeadingSpaceOfPadded(a: string, y: string)
    requires AllSpace(a) && (y != [] ==> !IsSpace(y[0]))
    ensures LeadingSpace(a + y) == |a|
  {
    if a != [] {
      assert (a + y)[1..] == a[1..] + y;
      LeadingSpaceOfPadded(a[1..], y);
    }
  }

  /** Trailing white space is measured back to the last other character. */
  lemma {:induction false} TrailingSpaceOfPadded(y: string, b: string)
    requires AllSpace(b) && (y != [] ==> !IsSpace(y[|y| - 1]))
    ensures TrailingSpace(y + b) == |b|
  {
    if b != [] {
      assert (y + b)[..|y + b| - 1] == y + b[..|b| - 1];
      TrailingSpaceOfPadded(y, b[..|b| - 1]);
    }
  }

  /** Trimming white space off a string that neither starts nor ends with
      white space gives that string back: `Trim` removes exactly the padding. */
  lemma TrimPadding(a: string, x: string, b: string)
    requires AllSpace(a) && AllSpace(b)
    requires x != [] ==> !IsSpace(x[0]) && !IsSpace(x[|x| - 1])
    ensures Trim(a + x + b) == x
  {
    var s := a + x + b;
    if x == [] {
      assert AllSpace(s);
    } else {
      assert s == a + (x + b);
      LeadingSpaceOfPadded(a, x + b);
      assert s[|a|..] == x + b;
      TrailingSpaceOfPadded(x, b);
      assert s[|a|..|s| - |b|] == x;
    }
  }

  /** Trimming twice is trimming once. */
  lemma TrimIdempotent(s: string)
    ensures Trim(Trim(s)) == Trim(s)
  {
    TrimPadding([], Trim(s), []);
    assert [] + Trim(s) + [] == Trim(s);
  }

  /* ---------- new elements ---------- */

  /** The element type a drawing tool creates on mouse-up. */
  function ShapeOf(tool: Tool): (k: Option<Kind>)
    ensures k.Some? <==> tool in {PenTool, RectangleTool, CircleTool, ArrowTool}
    ensures k.Some? ==> k.value in {Pen, Rectangle, Circle, Arrow}
  {
    match tool
    case PenTool => Some(Pen)
    case RectangleTool => Some(Rectangle)
    case CircleTool => Some(Circle)
    case ArrowTool => Some(Arrow)
    case _ => None
  }

  /** The element `handleMouseUp` creates from a finished gesture: a pen
      stroke from any non-empty path, a rectangle, circle or arrow only from
      a path of exactly two points; the eraser and the other tools create
      nothing. */
  function GestureElement(tool: Tool, path: seq<Point>, color: string, userId: string,
                          idTime: nat, stamp: int): (r: Option<DrawingElement>)
    ensures r.Some? <==>
      path != [] && (tool == PenTool || (tool in {RectangleTool, CircleTool, ArrowTool} && |path| == 2))
    ensures r.Some? ==>
      Some(r.value.kind) == ShapeOf(tool) && r.value.points == path &&
      r.value.id == ElementId(userId, idTime) && r.value.userId == userId &&
      r.value.timestamp == stamp && r.value.text.None? &&
      r.value.style == Style(color, StrokeWidth, None)
  {
    var style := Style(color, StrokeWidth, None);
    if path == [] then None
    else if tool == PenTool then
      Some(DrawingElement(ElementId(userId, idTime), Pen, path, style, None, userId, stamp))
    else if tool == RectangleTool && |path| == 2 then
      Some(DrawingElement(ElementId(userId, idTime), Rectangle, path, style, None, userId, stamp))
    else if tool == CircleTool && |path| == 2 then
      Some(DrawingElement(ElementId(userId, idTime), Circle, path, style, None, userId, stamp))
    else if tool == ArrowTool && |path| == 2 then
      Some(DrawingElement(ElementId(userId, idTime), Arrow, path, style, None, userId, stamp))
    else None
  }

  /** A drawn element can be selected, and erased, at every point of the
      gesture that drew it, unless it is a one-point pen stroke, which can
      never be hit. */
  lemma {:induction false} DrawnElementIsHitAlongItsPath(tool: Tool, path: seq<Point>, color: string,
                                                        userId: string, idTime: nat, stamp: int)
    requires GestureElement(tool, path, color, userId, idTime, stamp).Some?
    ensures var e := GestureElement(tool, path, color, userId, idTime, stamp).value;
      |path| >= 2 <==> forall i :: 0 <= i < |path| ==> IsPointInElement(path[i], e) && CheckEraserIntersection([path[i]], e)
  {
    var e := GestureElement(tool, path, color, userId, idTime, stamp).value;
    if |path| >= 2 {
      forall i | 0 <= i < |path|
        ensures IsPointInElement(path[i], e) && CheckEraserIntersection([path[i]], e)
      {
        if e.kind == Pen {
          if i < |path| - 1 {
            assert SegmentDistSq(path[i], path[i], path[i + 1]) == 0.0;
          } else {
            assert SegmentDistSq(path[i], path[i - 1], path[i]) == 0.0;
          }
        } else if e.kind == Arrow {
          assert SegmentDistSq(path[i], path[0], path[1]) == 0.0;
        } else if e.kind == Circle {
          assert DistSq(path[0], path[0]) == 0.0;
        }
        PointHitIsEraserHit(path[i], e);
      }
    } else {
      DotPenIsNeverHit(path[0], [], e);
    }
  }

  /** The element `handleTextSubmit` creates: a text element anchored at the
      text box's position holding the trimmed input, or nothing when the
      input is only white space. */
  function TextElement(input: string, position: Point, color: string, userId: string,
                       idTime: nat, stamp: int): (r: Option<DrawingElement>)
    ensures r.None? <==> AllSpace(input)
    ensures r.Some? ==>
      r.value.kind == Text && r.value.points == [position] &&
      r.value.text == Some(Trim(input)) &&
      r.value.id == ElementId(userId, idTime) && r.value.userId == userId &&
      r.value.timestamp == stamp && r.value.style == Style(color, StrokeWidth, None)
  {
    if Trim(input) != [] then
      Some(DrawingElement(ElementId(userId, idTime), Text, [position],
                          Style(color, StrokeWidth, None), Some(Trim(input)), userId, stamp))
    else None
  }

  /** A submitted text is never empty and never padded, and its element is
      hit at its anchor. */
  lemma TextElementIsHitAtItsAnchor(input: string, position: Point, color: string, userId: string,
                                    idTime: nat, stamp: int)
    requires TextElement(input, position, color, userId, idTime, stamp).Some?
    ensures var e := TextElement(input, position, color, userId, idTime, stamp).value;
      var t := e.text.value;
      t != [] && !IsSpace(t[0]) && !IsSpace(t[|t| - 1]) && Trim(t) == t &&
      IsPointInElement(position, e) && CheckEraserIntersection([position], e)
  {
    var e := TextElement(input, position, color, userId, idTime, stamp).value;
    TrimIdempotent(input);
    PointHitIsEraserHit(position, e);
  }

  /* ---------- the eraser sweep ---------- */

  /** The ids the sweep removes, in element order: every element whose id
      was not already erased when the move began and that the path touches.
      Membership is read from the set as it was before the sweep, so two
      elements sharing an id are both reported. */
  function SweptIds(elements: seq<DrawingElement>, erased: set<string>, path: seq<Point>): (r: seq<string>)
    ensures forall k :: 0 <= k < |r| ==> r[k] !in erased
    ensures forall i :: 0 <= i < |elements| && elements[i].id !in erased && CheckEraserIntersection(path, elements[i]) ==>
      elements[i].id in r
    ensures forall id :: id in r ==>
      exists i :: 0 <= i < |elements| && elements[i].id == id && CheckEraserIntersection(path, elements[i])
    ensures |r| <= |elements|
    decreases |elements|
  {
    if elements == [] then []
    else
      var init := elements[..|elements| - 1];
      var last := elements[|elements| - 1];
      assert forall i :: 0 <= i < |init| ==> init[i] == elements[i];
      SweptIds(init, erased, path) +
        (if last.id !in erased && CheckEraserIntersection(path, last) then [last.id] else [])
  }

  /** The `forEach` of the eraser branch of `handleMouseMove`: it returns the
      new erased set and the ids removed, in the order `onElementRemoved`
      is called. */
  method Sweep(elements: seq<DrawingElement>, erased: set<string>, path: seq<Point>)
    returns (next: set<string>, removed: seq<string>)
    ensures removed == SweptIds(elements, erased, path)
    ensures forall id :: id in next <==> id in erased || id in removed
  {
    next := erased;
    removed := [];
    for i := 0 to |elements|
      invariant removed == SweptIds(elements[..i], erased, path)
      invariant forall id :: id in next <==> id in erased || id in removed
    {
      var element := elements[i];
      assert elements[..i + 1][..i] == elements[..i];
      if element.id !in erased && CheckEraserIntersection(path, element) {
        next := next + {element.id};
        removed := removed + [element.id];
      }
    }
    assert elements[..|elements|] == elements;
  }

  /** Within a gesture, no element id is removed twice: a later sweep,
      started from the set the first one left, over the element list as it
      then is (removals shrink it between moves) and with any path, reports
      none of the ids the first one removed. */
  lemma SweepsAreDisjoint(elements: seq<DrawingElement>, later: seq<DrawingElement>, erased: set<string>,
                          after: set<string>, first: seq<Point>, second: seq<Point>)
    requires forall id :: id in after <==> id in erased || id in SweptIds(elements, erased, first)
    ensures forall id :: id in SweptIds(elements, erased, first) ==> id !in SweptIds(later, after, second)
  {
  }

  /** Sweeping the same path again, from a set that holds what the sweep
      removed, removes nothing. */
  lemma {:induction false} SweepIsIdempotent(elements: seq<DrawingElement>, erased: set<string>,
                                             after: set<string>, path: seq<Point>)
    requires erased <= after
    requires forall id :: id in SweptIds(elements, erased, path) ==> id in after
    ensures SweptIds(elements, after, path) == []
    decreases |elements|
  {
    if elements != [] {
      var init := elements[..|elements| - 1];
      assert forall id :: id in SweptIds(init, erased, path) ==> id in SweptIds(elements, erased, path);
      SweepIsIdempotent(init, erased, after, path);
    }
  }

  /* ---------- the component's state ---------- */

  class Canvas {
    var isDrawing: bool
    var currentPath: seq<Point>
    /** `erasedElements`: never reset, so it grows for the component's
        whole life. */
    var erased: set<string>
    var selected: Option<string>
    var textInput: string
    var showTextInput: bool
    var textPosition: Point

    /** A gesture in progress always has its starting point. */
    ghost predicate Valid()
      reads this
    {
      isDrawing ==> currentPath != []
    }

    constructor ()
      ensures Valid()
      ensures !isDrawing && currentPath == [] && erased == {} && selected == None
      ensures textInput == [] && !showTextInput && textPosition == Point(0.0, 0.0)
    {
      isDrawing := false;
      currentPath := [];
      erased := {};
      selected := None;
      textInput := [];
      showTextInput := false;
      textPosition := Point(0.0, 0.0);
    }

    /** `handleMouseDown` away from panning: the select tool selects the
        topmost element under the pointer (an element whose id is the empty
        string reads as no selection), the text tool opens the text box
        there, and the drawing tools start a gesture at the pointer. */
    method MouseDown(tool: Tool, pos: Point, elements: seq<DrawingElement>)
      requires Valid()
      modifies this
      ensures Valid()
      ensures tool == SelectTool ==>
        selected == (var hit := FindElementAtPoint(pos, elements);
                     if hit.Some? && hit.value.id != [] then Some(hit.value.id) else None)
      ensures tool == TextTool ==> textPosition == pos && showTextInput
      ensures tool in {PenTool, EraserTool, RectangleTool, CircleTool, ArrowTool} ==>
        isDrawing && currentPath == [pos]
      ensures tool != SelectTool ==> selected == old(selected)
      ensures tool != TextTool ==> textPosition == old(textPosition) && showTextInput == old(showTextInput)
      ensures tool !in {PenTool, EraserTool, RectangleTool, CircleTool, ArrowTool} ==>
        isDrawing == old(isDrawing) && currentPath == old(currentPath)
      ensures erased == old(erased) && textInput == old(textInput)
    {
      if tool == SelectTool {
        var hit := FindElementAtPoint(pos, elements);
        selected := if hit.Some? && hit.value.id != [] then Some(hit.value.id) else None;
      } else if tool == TextTool {
        textPosition := pos;
        showTextInput := true;
      } else if tool in {PenTool, EraserTool, RectangleTool, CircleTool, ArrowTool} {
        isDrawing := true;
        currentPath := [pos];
      }
    }

    /** `handleMouseMove` away from panning (the cursor report to the parent
        happens first and is the caller's). While drawing, the pen extends
        its path, the shape tools keep the start and move the end, and the
        eraser extends its path and sweeps: it returns the ids it removes
        and adds them to the erased set. */
    method MouseMove(tool: Tool, pos: Point, elements: seq<DrawingElement>)
      returns (removed: seq<string>)
      requires Valid()
      modifies this`currentPath, this`erased
      ensures Valid()
      ensures !isDrawing ==> currentPath == old(currentPath) && removed == []
      ensures isDrawing && tool in {PenTool, EraserTool} ==> currentPath == old(currentPath) + [pos]
      ensures isDrawing && tool in {RectangleTool, CircleTool, ArrowTool} ==>
        currentPath == [old(currentPath)[0], pos]
      ensures isDrawing && tool !in {PenTool, EraserTool, RectangleTool, CircleTool, ArrowTool} ==>
        currentPath == old(currentPath)
      ensures removed == if isDrawing && tool == EraserTool
                         then SweptIds(elements, old(erased), old(currentPath) + [pos]) else []
      ensures forall id :: id in erased <==> id in old(erased) || id in removed
    {
      removed := [];
      if isDrawing {
        if tool == PenTool {
          currentPath := currentPath + [pos];
        } else if tool == EraserTool {
          var newPath := currentPath + [pos];
          currentPath := newPath;
          var next;
          next, removed := Sweep(elements, erased, newPath);
          if removed != [] {
            erased := next;
          }
        } else if tool in {RectangleTool, CircleTool, ArrowTool} {
          currentPath := [currentPath[0], pos];
        }
      }
    }

    /** `handleMouseUp` away from panning: a gesture with a path ends, and
        returns the element it created, if any. */
    method MouseUp(tool: Tool, color: string, userId: string, idTime: nat, stamp: int)
      returns (added: Option<DrawingElement>)
      requires Valid()
      modifies this`isDrawing, this`currentPath
      ensures Valid()
      ensures old(isDrawing) ==>
        added == GestureElement(tool, old(currentPath), color, userId, idTime, stamp) &&
        !isDrawing && currentPath == []
      ensures !old(isDrawing) ==> added == None && currentPath == old(currentPath) && !isDrawing
    {
      added := None;
      if isDrawing && |currentPath| > 0 {
        added := GestureElement(tool, currentPath, color, userId, idTime, stamp);
        currentPath := [];
        isDrawing := false;
      }
    }

    /** The text box's `onChange`. */
    method EditText(value: string)
      modifies this`textInput
      ensures textInput == value
    {
      textInput := value;
    }

    /** `handleTextSubmit`: a text with something besides white space
        becomes an element and closes the box; otherwise nothing happens. */
    method TextSubmit(color: string, userId: string, idTime: nat, stamp: int)
      returns (added: Option<DrawingElement>)
      modifies this`textInput, this`showTextInput
      ensures added == TextElement(old(textInput), textPosition, color, userId, idTime, stamp)
      ensures added.Some? ==> textInput == [] && !showTextInput
      ensures added.None? ==> textInput == old(textInput) && showTextInput == old(showTextInput)
    {
      added := TextElement(textInput, textPosition, color, userId, idTime, stamp);
      if added.Some? {
        textInput := [];
        showTextInput := false;
      }
    }

    /** `handleKeyDown` in the text box: Enter submits, Escape discards the
        text and closes the box, any other key does nothing here. */
    method KeyDown(key: Key, color: string, userId: string, idTime: nat, stamp: int)
      returns (added: Option<DrawingElement>)
      modifies this`textInput, this`showTextInput
      ensures key == EnterKey ==>
        added == TextElement(old(textInput), textPosition, color, userId, idTime, stamp) &&
        (added.Some? ==> textInput == [] && !showTextInput) &&
        (added.None? ==> textInput == old(textInput) && showTextInput == old(showTextInput))
      ensures key == EscapeKey ==> added == None && textInput == [] && !showTextInput
      ensures key == OtherKey ==>
        added == None && textInput == old(textInput) && showTextInput == old(showTextInput)
    {
      added := None;
      if key == EnterKey {
        added := TextSubmit(color, userId, idTime, stamp);
      } else if key == EscapeKey {
        textInput := [];
        showTextInput := false;
      }
    }
  }
}
