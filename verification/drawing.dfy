/** The engine's output: an ordered list of vector primitives in a logical
    coordinate space, in place of the SVG text the source concatenates. */
module Drawing {

  /** A fill or stroke: a colour string as written (hex code or name), an
      `rgb(r, g, b)` triple, the explicit `none`, or no attribute at all. */
  datatype Paint = Color(spec: string) | Rgb(red: int, green: int, blue: int) | NoPaint | Unset

  /** An angle in degrees, or `k` half-turns (`k * PI` radians). */
  datatype Angle = Degrees(deg: real) | PiRadians(k: real)

  /** A cartesian point, or the point `(cx + r cos a, cy + r sin a + dy)`,
      kept symbolic because the trigonometry is not modelled. */
  datatype Point = At(x: real, y: real) | Polar(cx: real, cy: real, r: real, angle: Angle, dy: real)

  datatype PathCmd =
    | MoveTo(p: Point)
    | LineTo(p: Point)
    | QuadTo(ctrl: Point, p: Point)
    | ArcTo(radius: real, largeArc: bool, sweep: bool, p: Point)
    | Close

  datatype Anchor = Start | Middle | End

  /** Text content: a literal, a number printed with a fixed count of
      decimals, the same with a trailing `%`, an integer, or a prefix
      followed by an integer ("Series 3"). */
  datatype Content =
    | Str(s: string)
    | Num(value: real, decimals: nat)
    | Pct(value: real, decimals: nat)
    | Int(n: int)
    | Numbered(prefix: string, n: int)

  datatype Primitive =
    | Rect(x: real, y: real, w: real, h: real, fill: Paint)
    | Circle(c: Point, r: real, fill: Paint)
    | Segment(from: Point, to: Point, stroke: Paint)
    | Path(d: seq<PathCmd>, fill: Paint, stroke: Paint, fillOpacity: real)
    | Text(at: Point, content: Content, anchor: Anchor, fill: Paint)
    | Rotated(at: Point, content: Content, degrees: real, pivot: Point)
    /** Whatever the named helper, whose body is not part of this model, draws for argument `n`. */
    | Helper(name: string, n: int)

  /** A drawing of `width` x `height` with an optional background fill; the
      items are drawn in order, translated by `origin`. */
  datatype Canvas = Canvas(width: real, height: real, background: Paint, origin: Point, items: seq<Primitive>)

  /** What a layout produces: nothing at all (the source's empty string) or a canvas. */
  datatype Rendering = Blank | Drawn(canvas: Canvas)

  /** `p` moved `d` units up the page. */
  function Above(p: Point, d: real): (r: Point)
    ensures p.At? ==> r == At(p.x, p.y - d)
    ensures p.Polar? ==> r == p.(dy := p.dy - d)
  {
    match p
    case At(x, y) => At(x, y - d)
    case Polar(cx, cy, rad, a, dy) => Polar(cx, cy, rad, a, dy - d)
  }

  datatype Kind = RectKind | CircleKind | SegmentKind | PathKind | TextKind | RotatedKind | HelperKind

  function KindOf(p: Primitive): Kind {
    match p
    case Rect(_, _, _, _, _) => RectKind
    case Circle(_, _, _) => CircleKind
    case Segment(_, _, _) => SegmentKind
    case Path(_, _, _, _) => PathKind
    case Text(_, _, _, _) => TextKind
    case Rotated(_, _, _, _) => RotatedKind
    case Helper(_, _) => HelperKind
  }

  /** Number of items of kind `k`. */
  function Count(items: seq<Primitive>, k: Kind): (n: nat)
    ensures n <= |items|
  {
    if |items| == 0 then 0
    else (if KindOf(items[0]) == k then 1 else 0) + Count(items[1..], k)
  }

  /** Counting distributes over concatenation. */
  lemma {:induction false} CountConcat(a: seq<Primitive>, b: seq<Primitive>, k: Kind)
    ensures Count(a + b, k) == Count(a, k) + Count(b, k)
  {
    if |a| == 0 {
      assert a + b == b;
    } else {
      assert (a + b)[1..] == a[1..] + b;
      CountConcat(a[1..], b, k);
    }
  }

  /** Counting a drawing made of three consecutive parts. */
  lemma ThreeParts(a: seq<Primitive>, b: seq<Primitive>, c: seq<Primitive>, k: Kind)
    ensures Count(a + b + c, k) == Count(a, k) + Count(b, k) + Count(c, k)
  {
    CountConcat(a, b, k);
    CountConcat(a + b, c, k);
  }

  /** Counting a drawing made of four consecutive parts. */
  lemma FourParts(a: seq<Primitive>, b: seq<Primitive>, c: seq<Primitive>, d: seq<Primitive>, k: Kind)
    ensures Count(a + b + c + d, k) == Count(a, k) + Count(b, k) + Count(c, k) + Count(d, k)
  {
    ThreeParts(a, b, c, k);
    CountConcat(a + b + c, d, k);
  }

  /** A list of `n` items that are all of kind `k`. */
  lemma {:induction false} CountUniform(items: seq<Primitive>, k: Kind)
    requires forall i :: 0 <= i < |items| ==> KindOf(items[i]) == k
    ensures Count(items, k) == |items|
  {
    if |items| > 0 {
      CountUniform(items[1..], k);
    }
  }

  /** A list with no item of kind `k`. */
  lemma {:induction false} CountNone(items: seq<Primitive>, k: Kind)
    requires forall i :: 0 <= i < |items| ==> KindOf(items[i]) != k
    ensures Count(items, k) == 0
  {
    if |items| > 0 {
      CountNone(items[1..], k);
    }
  }

  /** The concatenation of a list of sections, in order. */
  function Flatten(sections: seq<seq<Primitive>>): seq<Primitive> {
    if |sections| == 0 then [] else sections[0] + Flatten(sections[1..])
  }

  /** Sum over the sections of their counts of kind `k`. */
  function CountEach(sections: seq<seq<Primitive>>, k: Kind): nat {
    if |sections| == 0 then 0 else Count(sections[0], k) + CountEach(sections[1..], k)
  }

  /** Counting a flattened list counts each section. */
  lemma {:induction false} CountFlatten(sections: seq<seq<Primitive>>, k: Kind)
    ensures Count(Flatten(sections), k) == CountEach(sections, k)
  {
    if |sections| > 0 {
      CountConcat(sections[0], Flatten(sections[1..]), k);
      CountFlatten(sections[1..], k);
    }
  }

  /** Sections that each hold `c` items of kind `k` hold `c` per section in all. */
  lemma {:induction false} CountEachUniform(sections: seq<seq<Primitive>>, k: Kind, c: nat)
    requires forall i :: 0 <= i < |sections| ==> Count(sections[i], k) == c
    ensures CountEach(sections, k) == c * |sections|
  {
    if |sections| > 0 {
      var rest := sections[1..];
      assert forall i :: 0 <= i < |rest| ==> rest[i] == sections[i + 1];
      CountEachUniform(rest, k, c);
      assert CountEach(sections, k) == c + CountEach(rest, k);
      MulSucc(c, |rest|);
    }
  }

  lemma MulSucc(c: nat, n: nat)
    ensures c * (n + 1) == c * n + c
  {
  }

  /** `n` two-item sections flatten to their items in order. */
  lemma {:induction false} FlattenPairs(sections: seq<seq<Primitive>>)
    requires forall i :: 0 <= i < |sections| ==> |sections[i]| == 2
    ensures |Flatten(sections)| == 2 * |sections|
    ensures forall i :: 0 <= i < |sections| ==>
      Flatten(sections)[2 * i] == sections[i][0] && Flatten(sections)[2 * i + 1] == sections[i][1]
  {
    if |sections| > 0 {
      FlattenPairs(sections[1..]);
      var rest := Flatten(sections[1..]);
      assert Flatten(sections) == sections[0] + rest;
      forall i | 0 < i < |sections|
        ensures Flatten(sections)[2 * i] == sections[i][0] && Flatten(sections)[2 * i + 1] == sections[i][1]
      {
        assert sections[1..][i - 1] == sections[i];
        assert rest[2 * (i - 1)] == sections[i][0];
        assert rest[2 * (i - 1) + 1] == sections[i][1];
      }
    }
  }

  /** Decoration only: no bar, marker or path among the items. */
  predicate NoMarks(items: seq<Primitive>) {
    forall i :: 0 <= i < |items| ==> !items[i].Rect? && !items[i].Circle? && !items[i].Path?
  }

  /** Labels alone are decoration and hold no segment. */
  lemma TextsOnly(items: seq<Primitive>)
    requires forall i :: 0 <= i < |items| ==> items[i].Text? || items[i].Rotated?
    ensures NoMarks(items) && Count(items, SegmentKind) == 0
  {
    CountNone(items, SegmentKind);
  }

  /** Decoration counts no bars, markers or paths. */
  lemma {:induction false} NoMarksCount(items: seq<Primitive>)
    requires NoMarks(items)
    ensures Count(items, RectKind) == 0 && Count(items, CircleKind) == 0 && Count(items, PathKind) == 0
  {
    if |items| > 0 {
      assert NoMarks(items[1..]) by {
        assert forall i :: 0 <= i < |items[1..]| ==> items[1..][i] == items[i + 1];
      }
      NoMarksCount(items[1..]);
    }
  }

  lemma NoMarksConcat(a: seq<Primitive>, b: seq<Primitive>)
    requires NoMarks(a) && NoMarks(b)
    ensures NoMarks(a + b)
  {
    forall i | 0 <= i < |a + b|
      ensures !(a + b)[i].Rect? && !(a + b)[i].Circle? && !(a + b)[i].Path?
    {
      if i < |a| { assert (a + b)[i] == a[i]; } else { assert (a + b)[i] == b[i - |a|]; }
    }
  }

  /** Sections without marks flatten to a drawing without marks. */
  lemma {:induction false} FlatNoMarks(sections: seq<seq<Primitive>>)
    requires forall s :: 0 <= s < |sections| ==> NoMarks(sections[s])
    ensures NoMarks(Flatten(sections))
  {
    if |sections| > 0 {
      FlatNoMarks(sections[1..]);
      NoMarksConcat(sections[0], Flatten(sections[1..]));
    }
  }
}
